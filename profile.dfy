/**
 * The customer's profile page (src/pages/ProfilePage.tsx): the profile
 * form and its update, the password change that re-authenticates first,
 * and the role badge.
 */
module ProfilePage {
  import opened Domain
  import opened Text
  import opened Cuba
  import AdminUsers

  datatype ProfileForm = ProfileForm(fullName: string, phone: string, province: string,
                                     municipality: string, address: string)

  /**
   * `profileSchema`, with lengths in UTF-16 code units. The phone is digits
   * only, and a string has a code unit exactly when it has a character, so
   * those bounds are stated on characters.
   */
  predicate ProfileValid(f: ProfileForm)
  {
    Utf16Length(f.fullName) >= 3 && |f.phone| >= 8 && AllDigits(f.phone)
    && |f.province| >= 1 && |f.municipality| >= 1 && Utf16Length(f.address) >= 10
  }

  /** The form's values once the profile has loaded. */
  function FormOf(p: Profile): (f: ProfileForm)
    ensures f.fullName == p.fullName && f.phone == p.phone && f.province == p.province
    ensures f.municipality == p.municipality && f.address == p.address
  {
    ProfileForm(p.fullName, p.phone, p.province, p.municipality, p.address)
  }

  /** The profile row after the update writes the form's fields to it. */
  function Applied(p: Profile, f: ProfileForm): (q: Profile)
    ensures q.id == p.id && q.role == p.role
  {
    p.(fullName := f.fullName, phone := f.phone, province := f.province,
       municipality := f.municipality, address := f.address)
  }

  /** Saving the loaded form unchanged leaves the row as it was, and reloading a saved row shows the saved form. */
  lemma FormRoundTrip(p: Profile, f: ProfileForm)
    ensures Applied(p, FormOf(p)) == p
    ensures FormOf(Applied(p, f)) == f
  {
  }

  datatype PasswordForm = PasswordForm(current: string, newPassword: string, confirm: string)

  /** `passwordSchema`: the current password given, a new one of 6 UTF-16 code units, confirmed. */
  predicate PasswordValid(f: PasswordForm)
  {
    |f.current| >= 1 && Utf16Length(f.newPassword) >= 6 && f.confirm == f.newPassword
  }

  /** The badge: administrator, gestor, or client for everyone else and for no profile. */
  function RoleLabel(p: Option<Profile>): (s: string)
    ensures p.None? ==> s == "Cliente"
    ensures p.Some? ==> s == AdminUsers.RoleLabel(p.value.role)
  {
    if p.Some? && p.value.role == Admin then "Administrador"
    else if p.Some? && p.value.role == Gestor then "Gestor"
    else "Cliente"
  }

  datatype Toast = ToastError(title: string, detail: Option<string>) | ToastSuccess(title: string)

  /** The profile row update; the id is the loaded profile's, absent when none loaded. */
  datatype ProfileUpdate = ProfileUpdate(id: Option<string>, data: ProfileForm)

  /** The two calls of a password change, in order. */
  datatype AuthCall = SignIn(email: string, password: string) | UpdatePassword(password: string)

  class ProfileView {
    const profile: Option<Profile>
    const email: Option<string>
    var form: ProfileForm
    var passwordForm: PasswordForm
    var savingProfile: bool
    var savingPassword: bool

    constructor (profile: Option<Profile>, email: Option<string>)
      ensures this.profile == profile && this.email == email
      ensures profile.Some? ==> form == FormOf(profile.value)
      ensures profile.None? ==> form == ProfileForm("", "", "", "", "")
      ensures passwordForm == PasswordForm("", "", "") && !savingProfile && !savingPassword
    {
      this.profile := profile;
      this.email := email;
      var f := if profile.Some? then FormOf(profile.value) else ProfileForm("", "", "", "", "");
      form := f;
      passwordForm := PasswordForm("", "", "");
      savingProfile, savingPassword := false, false;
    }

    /** The address tab's selects. */
    function Place(): Location
      reads this
    {
      Location(form.province, form.municipality)
    }

    /** The province select on the address tab clears the municipality. */
    method ChooseProvince(p: string)
      modifies this
      ensures Place() == PickProvince(old(Place()), p)
      ensures form == old(form).(province := p, municipality := "")
      ensures passwordForm == old(passwordForm)
      ensures savingProfile == old(savingProfile) && savingPassword == old(savingPassword)
    {
      form := form.(province := p, municipality := "");
    }

    /** `onSaveProfile`: a valid form is written to the loaded profile's row. */
    method SaveProfile(error: Option<string>) returns (write: Option<ProfileUpdate>, toast: Option<Toast>)
      modifies this
      ensures !ProfileValid(old(form)) ==> write == None && toast == None
      ensures ProfileValid(old(form)) ==>
        && write == Some(ProfileUpdate(if profile.Some? then Some(profile.value.id) else None, old(form)))
        && toast == Some(if error.Some? then ToastError("Error al guardar", error) else ToastSuccess("Perfil actualizado correctamente"))
      ensures savingProfile == (!ProfileValid(old(form)) && old(savingProfile))
      ensures form == old(form) && passwordForm == old(passwordForm)
      ensures savingPassword == old(savingPassword)
    {
      if !ProfileValid(form) {
        return None, None;
      }
      savingProfile := true;
      write := Some(ProfileUpdate(if profile.Some? then Some(profile.value.id) else None, form));
      savingProfile := false;
      toast := Some(if error.Some? then ToastError("Error al guardar", error) else ToastSuccess("Perfil actualizado correctamente"));
    }

    /**
     * `onSavePassword`: re-authenticate with the current password first;
     * only if that succeeds is the new password sent, and only a successful
     * update clears the form.
     */
    method SavePassword(signInError: bool, updateError: Option<string>) returns (calls: seq<AuthCall>, toast: Option<Toast>)
      modifies this
      ensures !PasswordValid(old(passwordForm)) ==> calls == [] && toast == None && passwordForm == old(passwordForm)
      ensures PasswordValid(old(passwordForm)) ==>
        && |calls| >= 1
        && calls[0] == SignIn(if email.Some? then email.value else "", old(passwordForm).current)
        && (signInError ==> |calls| == 1 && toast == Some(ToastError("Contraseña actual incorrecta", None))
                            && passwordForm == old(passwordForm))
        && (!signInError ==> calls == [calls[0], UpdatePassword(old(passwordForm).newPassword)])
        && (!signInError && updateError.Some? ==>
              toast == Some(ToastError("Error al cambiar contraseña", updateError)) && passwordForm == old(passwordForm))
        && (!signInError && updateError.None? ==>
              toast == Some(ToastSuccess("Contraseña actualizada correctamente")) && passwordForm == PasswordForm("", "", ""))
      ensures savingPassword == (!PasswordValid(old(passwordForm)) && old(savingPassword))
      ensures form == old(form) && savingProfile == old(savingProfile)
    {
      if !PasswordValid(passwordForm) {
        return [], None;
      }
      savingPassword := true;
      calls := [SignIn(if email.Some? then email.value else "", passwordForm.current)];
      if signInError {
        savingPassword := false;
        return calls, Some(ToastError("Contraseña actual incorrecta", None));
      }
      calls := calls + [UpdatePassword(passwordForm.newPassword)];
      savingPassword := false;
      if updateError.Some? {
        toast := Some(ToastError("Error al cambiar contraseña", updateError));
      } else {
        toast := Some(ToastSuccess("Contraseña actualizada correctamente"));
        passwordForm := PasswordForm("", "", "");
      }
    }
  }
}
