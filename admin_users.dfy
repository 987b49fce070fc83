/**
 * The admin users page (src/pages/admin/AdminUsers.tsx): search over the
 * profiles, the per-role counters, the role badge, and the gestor switch
 * that moves a customer to gestor and back but never touches an admin.
 */
module AdminUsers {
  import opened Domain
  import opened Text
  import opened Seqs
  import Routes

  // ---------------------------------------------------------------------
  // Search and counters

  /** The search: the lower-cased query in the lower-cased name, province or municipality, or the raw query in the phone. */
  predicate Matches(u: Profile, search: string)
  {
    var q := Lower(search);
    Contains(Lower(u.fullName), q) || Contains(Lower(u.province), q)
    || Contains(Lower(u.municipality), q) || Contains(u.phone, search)
  }

  function Filtered(users: seq<Profile>, search: string): (r: seq<Profile>)
    ensures Subseq(r, users)
    ensures forall u :: u in r <==> u in users && Matches(u, search)
  {
    Filter(users, (u: Profile) => Matches(u, search))
  }

  /** An empty query keeps everyone. */
  lemma EmptySearchKeepsAll(users: seq<Profile>)
    ensures Filtered(users, "") == users
  {
    var keep := (u: Profile) => Matches(u, "");
    forall u | u in users
      ensures keep(u)
    {
      ContainsEmpty(u.phone);
    }
    FilterAll(users, keep);
  }

  /** `users.filter(u => u.role === r).length`. */
  function RoleCount(users: seq<Profile>, r: Role): nat
  {
    Count(users, (u: Profile) => u.role == r)
  }

  /** Every profile has exactly one of the three roles: the counters add up to the list. */
  lemma {:induction false} RoleCountsSum(users: seq<Profile>)
    ensures RoleCount(users, Customer) + RoleCount(users, Admin) + RoleCount(users, Gestor) == |users|
  {
    if users != [] {
      RoleCountsSum(users[1..]);
    }
  }

  // ---------------------------------------------------------------------
  // Role badge and switch

  /** `getRoleStyle(role).label`. */
  function RoleLabel(r: Role): (s: string)
    ensures r == Admin ==> s == "Administrador"
    ensures r == Gestor ==> s == "Gestor"
    ensures r == Customer ==> s == "Cliente"
  {
    if r == Admin then "Administrador" else if r == Gestor then "Gestor" else "Cliente"
  }

  /** The badge next to a name is shown for everyone but customers. */
  function ShowsBadge(r: Role): (b: bool)
    ensures b <==> r != Customer
  {
    r != Customer
  }

  /** The gestor switch panel is shown unless the selected user is an admin. */
  function ShowsSwitch(selected: Profile): (b: bool)
    ensures b <==> selected.role != Admin
  {
    selected.role != Admin
  }

  /** The role the switch writes: none for an admin, else the other of gestor and customer. */
  function NewRole(r: Role): (n: Option<Role>)
    ensures n.None? <==> r == Admin
    ensures n.Some? ==> n.value != Admin && n.value != r
  {
    if r == Admin then None else if r == Gestor then Some(Customer) else Some(Gestor)
  }

  /** Toggling twice gives the role back. */
  lemma ToggleTwice(r: Role)
    requires r != Admin
    ensures NewRole(NewRole(r).value) == Some(r)
  {
  }

  /**
   * The switch is offered exactly for the roles it can write; the badge is
   * shown exactly for staff, the profiles a staff area's guard lets in once
   * signed in; and no two roles share a label.
   */
  lemma BadgeAndSwitchAgree(u: Profile)
    ensures ShowsSwitch(u) <==> NewRole(u.role).Some?
    ensures var a := Routes.Auth(false, Some(u.id), Some(u));
      ShowsBadge(u.role) <==> Routes.AdminRoute(a) == Routes.Render || Routes.GestorRoute(a) == Routes.Render
    ensures forall r1: Role, r2: Role :: RoleLabel(r1) == RoleLabel(r2) ==> r1 == r2
  {
  }

  /** `prev.map(u => u.id === user.id ? updated : u)`. */
  function ReplaceById(users: seq<Profile>, updated: Profile): (r: seq<Profile>)
    ensures |r| == |users|
    ensures forall i :: 0 <= i < |users| ==> r[i] == (if users[i].id == updated.id then updated else users[i])
  {
    if users == [] then [] else [if users[0].id == updated.id then updated else users[0]] + ReplaceById(users[1..], updated)
  }

  /** The replacement keeps every id in its place. */
  lemma ReplaceKeepsIds(users: seq<Profile>, updated: Profile)
    ensures forall i :: 0 <= i < |users| ==> ReplaceById(users, updated)[i].id == users[i].id
  {
  }

  /** The written update: the profile id and its new role. */
  datatype RoleWrite = RoleWrite(id: string, role: Role)

  datatype Toast = ToastError(message: string) | ToastSuccess(title: string, description: string)

  function SuccessToast(user: Profile, newRole: Role): Toast
  {
    if newRole == Gestor then ToastSuccess("✅ Gestor activado", user.fullName + " ahora puede gestionar productos")
    else ToastSuccess("🔄 Gestor desactivado", user.fullName + " volvió a ser cliente")
  }

  class UsersView {
    var users: seq<Profile>
    var selected: Option<Profile>
    var updating: bool
    var loading: bool

    constructor ()
      ensures users == [] && selected == None && !updating && loading
    {
      users, selected, updating, loading := [], None, false, true;
    }

    /** `fetchUsers`: the rows, or the empty list for null. */
    method Fetch(data: Option<seq<Profile>>)
      modifies this
      ensures users == (if data.Some? then data.value else []) && !loading
      ensures selected == old(selected) && updating == old(updating)
    {
      users := if data.Some? then data.value else [];
      loading := false;
    }

    /**
     * `handleRoleToggle`: an admin is left alone and nothing is written;
     * otherwise the other role is written, and on success that user's
     * entries and the detail panel show it, while on error nothing changes.
     */
    method RoleToggle(user: Profile, error: Option<string>) returns (write: Option<RoleWrite>, toast: Option<Toast>)
      modifies this
      ensures user.role == Admin ==> write == None && toast == None
      ensures user.role != Admin ==> write == Some(RoleWrite(user.id, NewRole(user.role).value))
      ensures user.role == Admin || error.Some? ==>
        users == old(users) && selected == old(selected)
      ensures user.role != Admin && error.Some? ==> toast == Some(ToastError(error.value))
      ensures user.role != Admin && error.None? ==>
        var updated := user.(role := NewRole(user.role).value);
        users == ReplaceById(old(users), updated) && selected == Some(updated)
        && toast == Some(SuccessToast(user, updated.role))
      ensures updating == (user.role == Admin && old(updating))
      ensures loading == old(loading)
    {
      if user.role == Admin {
        return None, None;
      }
      var newRole := if user.role == Gestor then Customer else Gestor;
      updating := true;
      write := Some(RoleWrite(user.id, newRole));
      updating := false;
      if error.Some? {
        return write, Some(ToastError(error.value));
      }
      toast := Some(SuccessToast(user, newRole));
      var updated := user.(role := newRole);
      users := ReplaceById(users, updated);
      selected := Some(updated);
    }
  }

  lemma RoleCountCons(users: seq<Profile>, r: Role)
    requires users != []
    ensures RoleCount(users, r) == (if users[0].role == r then 1 else 0) + RoleCount(users[1..], r)
  {
  }

  /** No two profiles share an id. */
  predicate UniqueIds(users: seq<Profile>)
  {
    forall i, j :: 0 <= i < j < |users| ==> users[i].id != users[j].id
  }

  lemma UniqueTail(users: seq<Profile>)
    requires users != [] && UniqueIds(users)
    ensures UniqueIds(users[1..])
    ensures forall u :: u in users[1..] ==> u.id != users[0].id
  {
    var rest := users[1..];
    forall i, j | 0 <= i < j < |rest|
      ensures rest[i].id != rest[j].id
    {
      assert rest[i] == users[i + 1] && rest[j] == users[j + 1];
    }
    forall u | u in rest
      ensures u.id != users[0].id
    {
      var j :| 0 <= j < |rest| && rest[j] == u;
      assert users[j + 1] == u;
    }
  }

  /** A successful toggle moves exactly one user from one role's counter to the other's. */
  lemma {:induction false} ReplaceShiftsCounts(users: seq<Profile>, user: Profile, updated: Profile, r: Role)
    requires UniqueIds(users)
    requires user in users && updated.id == user.id
    ensures RoleCount(ReplaceById(users, updated), r) + (if user.role == r then 1 else 0)
         == RoleCount(users, r) + (if updated.role == r then 1 else 0)
  {
    var rest := users[1..];
    UniqueTail(users);
    var after := ReplaceById(users, updated);
    assert after[1..] == ReplaceById(rest, updated);
    RoleCountCons(users, r);
    RoleCountCons(after, r);
    if users[0] == user {
      ReplaceAbsent(rest, updated);
    } else {
      assert user in rest;
      ReplaceShiftsCounts(rest, user, updated, r);
    }
  }

  /** Replacing an id that is not in the list changes nothing. */
  lemma {:induction false} ReplaceAbsent(users: seq<Profile>, updated: Profile)
    requires forall u :: u in users ==> u.id != updated.id
    ensures ReplaceById(users, updated) == users
  {
    if users != [] {
      ReplaceAbsent(users[1..], updated);
    }
  }
}
