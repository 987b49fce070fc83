/**
 * The admin categories page (src/pages/admin/AdminCategories.tsx): the
 * slug generated from a name, the form schema, the trimmed payload, the
 * create/edit form and the delete confirmation.
 */
module AdminCategories {
  import opened Domain
  import opened Text
  import opened Seqs

  // ---------------------------------------------------------------------
  // `toSlug`

  /** The characters of `/^[a-z0-9-]+$/`. */
  predicate SlugChar(c: char) { IsLowerLetter(c) || IsDigit(c) || c == '-' }

  /**
   * `toLowerCase`, then `normalize('NFD')` and the removal of the combining
   * marks U+0300..U+036F, on one character: ASCII letters are lowered and
   * the Spanish accented vowels, ü and ñ lose their accent.
   */
  function FoldChar(c: char): (r: char)
    ensures SlugChar(c) || IsSpace(c) ==> r == c
    ensures IsUpper(c) ==> r == LowerChar(c)
  {
    if c == 'á' || c == 'Á' then 'a'
    else if c == 'é' || c == 'É' then 'e'
    else if c == 'í' || c == 'Í' then 'i'
    else if c == 'ó' || c == 'Ó' then 'o'
    else if c == 'ú' || c == 'Ú' || c == 'ü' || c == 'Ü' then 'u'
    else if c == 'ñ' || c == 'Ñ' then 'n'
    else LowerChar(c)
  }

  function Fold(s: string): (r: string)
    ensures |r| == |s| && forall i :: 0 <= i < |s| ==> r[i] == FoldChar(s[i])
  {
    if s == [] then [] else [FoldChar(s[0])] + Fold(s[1..])
  }

  /** `.replace(/[^a-z0-9\s-]/g, '')`. */
  function KeepSlugChars(s: string): (r: string)
    ensures forall i :: 0 <= i < |r| ==> SlugChar(r[i]) || IsSpace(r[i])
  {
    Filter(s, (c: char) => SlugChar(c) || IsSpace(c))
  }

  /** The rest of s after its leading white space. */
  function SkipSpaces(s: string): (r: string)
    ensures |r| <= |s| && (r == [] || !IsSpace(r[0]))
    ensures forall c :: c in r ==> c in s
  {
    if s != [] && IsSpace(s[0]) then SkipSpaces(s[1..]) else s
  }

  /** `.replace(/\s+/g, '-')`: each run of white space becomes one '-'. */
  function Collapse(s: string): (r: string)
    ensures |r| <= |s|
    ensures forall i :: 0 <= i < |r| ==> !IsSpace(r[i]) && (r[i] == '-' || r[i] in s)
    decreases |s|
  {
    if s == [] then []
    else if !IsSpace(s[0]) then [s[0]] + Collapse(s[1..])
    else "-" + Collapse(SkipSpaces(s[1..]))
  }

  /** `toSlug`: fold accents and case, keep [a-z0-9], white space and '-', trim, and turn each run of white space into one '-'. */
  function ToSlug(name: string): (r: string)
    ensures |r| <= |name|
  {
    Collapse(Trim(KeepSlugChars(Fold(name))))
  }

  /** Whatever the name, the slug is made of a–z, 0–9 and '-' only (so it has no white space). */
  lemma ToSlugChars(name: string)
    ensures forall i :: 0 <= i < |ToSlug(name)| ==> SlugChar(ToSlug(name)[i]) && !IsSpace(ToSlug(name)[i])
  {
    var kept := KeepSlugChars(Fold(name));
    var t := Trim(kept);
    TrimIsPiece(kept);
    forall i | 0 <= i < |ToSlug(name)|
      ensures SlugChar(ToSlug(name)[i])
    {
      var c := ToSlug(name)[i];
      if c != '-' {
        assert c in t;
        var j :| 0 <= j < |t| && t[j] == c;
        assert c in kept;
      }
    }
  }

  /** A run of white space followed by a non-space becomes exactly one '-'. */
  lemma CollapseRun(w: string, t: string)
    requires w != [] && IsBlank(w)
    requires t == [] || !IsSpace(t[0])
    ensures Collapse(w + t) == "-" + Collapse(t)
  {
    assert (w + t)[0] == w[0];
    assert (w + t)[1..] == w[1..] + t;
    SkipRun(w[1..], t);
  }

  lemma {:induction false} SkipRun(w: string, t: string)
    requires IsBlank(w)
    requires t == [] || !IsSpace(t[0])
    ensures SkipSpaces(w + t) == t
  {
    if w == [] {
      assert w + t == t;
    } else {
      assert (w + t)[0] == w[0];
      assert (w + t)[1..] == w[1..] + t;
      SkipRun(w[1..], t);
    }
  }

  /** A non-space character is copied as it is. */
  lemma CollapseKeeps(c: char, t: string)
    requires !IsSpace(c)
    ensures Collapse([c] + t) == [c] + Collapse(t)
  {
    assert ([c] + t)[1..] == t;
  }

  /** Text without white space is left alone. */
  lemma {:induction false} CollapseNoSpaces(s: string)
    requires forall i :: 0 <= i < |s| ==> !IsSpace(s[i])
    ensures Collapse(s) == s
  {
    if s != [] {
      CollapseNoSpaces(s[1..]);
    }
  }

  /** A slug is its own slug: `toSlug(toSlug(s)) == toSlug(s)`. */
  lemma ToSlugIdempotent(name: string)
    ensures ToSlug(ToSlug(name)) == ToSlug(name)
  {
    var s := ToSlug(name);
    ToSlugChars(name);
    assert Fold(s) == s;
    FilterAll(s, (c: char) => SlugChar(c) || IsSpace(c));
    TrimUnchanged(s);
    CollapseNoSpaces(s);
  }

  // ---------------------------------------------------------------------
  // The schema and the payload

  datatype FormData = FormData(name: string, slug: string, description: Option<string>)

  /** `slug`: at least 2 characters, all from [a-z0-9-] (ASCII, so characters are code units). */
  predicate SlugValid(slug: string)
  {
    |slug| >= 2 && forall i :: 0 <= i < |slug| ==> SlugChar(slug[i])
  }

  /**
   * `schema.safeParse(data).success`: a name of 2 UTF-16 code units and a
   * valid slug; the description is optional and free.
   */
  predicate FormValid(f: FormData)
  {
    Utf16Length(f.name) >= 2 && SlugValid(f.slug)
  }

  /** A name of one character outside the Basic Multilingual Plane is already long enough. */
  lemma AstralNamePasses(c: char)
    requires c as int >= 0x1_0000
    ensures FormValid(FormData([c], "ab", None))
  {
    AstralCountsTwo(c);
  }

  /** A generated slug passes the pattern whenever it is not empty, and the length check whenever it has two characters. */
  lemma GeneratedSlugPattern(name: string)
    ensures |ToSlug(name)| >= 2 <==> SlugValid(ToSlug(name))
  {
    ToSlugChars(name);
  }

  /** A one-letter name gives a one-letter slug, which the schema refuses. */
  lemma ShortNameShortSlug()
    ensures ToSlug("a") == "a" && !SlugValid(ToSlug("a"))
  {
    assert Fold("a") == "a" by {
      assert Fold("a")[0] == FoldChar('a') == 'a';
    }
    assert KeepSlugChars("a") == "a" by {
      FilterAll("a", (c: char) => SlugChar(c) || IsSpace(c));
    }
    assert Trim("a") == "a" by {
      TrimUnchanged("a");
    }
    CollapseNoSpaces("a");
  }

  /** A valid slug has no white space, so trimming it in the payload changes nothing. */
  lemma ValidSlugIsTrimmed(slug: string)
    requires SlugValid(slug)
    ensures Trim(slug) == slug
  {
    TrimUnchanged(slug);
  }

  lemma TrimPadded()
    ensures Trim(" a") == "a"
  {
    var padded := " a";
    assert padded[0] == ' ' && padded[1..] == "a";
    assert TrimStart(padded) == "a";
    assert TrimEnd("a") == "a";
  }

  /** The length checks see the untrimmed name: a padded one-letter name passes and is saved as one letter. */
  lemma PaddedNamePasses()
    ensures FormValid(FormData(" a", "ab", None)) && ToPayload(FormData(" a", "ab", None)).name == "a"
  {
    assert Utf16Length(" a") >= |" a"| == 2;
    assert SlugValid("ab") by {
      assert "ab"[0] == 'a' && "ab"[1] == 'b';
    }
    assert ToPayload(FormData(" a", "ab", None)).name == Trim(" a");
    TrimPadded();
  }

  datatype Payload = Payload(name: string, slug: string, description: Option<string>)

  /** The payload: name and slug trimmed, a description blank after trimming dropped. */
  function ToPayload(f: FormData): (p: Payload)
    ensures p.name == Trim(f.name) && p.slug == Trim(f.slug)
    ensures p.description.None? <==> f.description.None? || IsBlank(f.description.value)
    ensures p.description.Some? ==> p.description.value == Trim(f.description.value)
  {
    match f.description
    case None => Payload(Trim(f.name), Trim(f.slug), None)
    case Some(d) =>
      TrimEmptyIffBlank(d);
      Payload(Trim(f.name), Trim(f.slug), if Trim(d) == [] then None else Some(Trim(d)))
  }

  /** The save error is reported as a duplicate exactly when its message says 'duplicate' or 'unique'. */
  predicate IsDuplicate(message: string)
  {
    Contains(message, "duplicate") || Contains(message, "unique")
  }

  const DuplicateMessage := "Ya existe una categoría con ese nombre o slug."
  const InUseMessage := "Esta categoría tiene productos asociados. Reasígnalos primero."

  /** The error toast's description: the fixed message for duplicates, the server's otherwise. */
  function SaveErrorText(message: string): (r: string)
    ensures IsDuplicate(message) ==> r == DuplicateMessage
    ensures !IsDuplicate(message) ==> r == message
  {
    if IsDuplicate(message) then DuplicateMessage else message
  }

  /** A server message that says 'duplicate' or 'unique' anywhere is reported with the fixed message. */
  lemma DuplicateAnywhere(before: string, word: string, after: string)
    requires word == "duplicate" || word == "unique"
    ensures SaveErrorText(before + word + after) == DuplicateMessage
  {
    var s := before + word + after;
    assert s[|before|..|before| + |word|] == word;
    OccurrenceContained(s, word, |before|);
  }

  datatype CategoryWrite = Insert(payload: Payload) | Update(id: string, payload: Payload) | Delete(id: string)

  datatype Toast = ToastError(title: string, description: string) | ToastSuccess(title: string, description: string)

  class CategoryForm {
    var showForm: bool
    var editing: Option<Category>
    var deleteTarget: Option<Category>
    var form: FormData
    var saving: bool
    var deleting: bool
    /** The values the form library's `reset()` returns to: those of the last `reset(values)`, none at first. */
    var defaults: FormData

    constructor ()
      ensures !showForm && editing == None && deleteTarget == None && !saving && !deleting
      ensures form == FormData("", "", None) && defaults == FormData("", "", None)
    {
      showForm, editing, deleteTarget, saving, deleting := false, None, None, false, false;
      form, defaults := FormData("", "", None), FormData("", "", None);
    }

    /** `openCreate`: a blank form, not editing. */
    method OpenCreate()
      modifies this
      ensures showForm && editing == None && form == FormData("", "", Some("")) && defaults == form
      ensures deleteTarget == old(deleteTarget) && saving == old(saving) && deleting == old(deleting)
    {
      editing := None;
      form, defaults := FormData("", "", Some("")), FormData("", "", Some(""));
      showForm := true;
    }

    /** `openEdit`: the category's own fields, a null description shown as ''. */
    method OpenEdit(cat: Category)
      modifies this
      ensures showForm && editing == Some(cat)
      ensures form == FormData(cat.name, cat.slug, Some(if cat.description.Some? then cat.description.value else ""))
      ensures defaults == form
      ensures deleteTarget == old(deleteTarget) && saving == old(saving) && deleting == old(deleting)
    {
      editing := Some(cat);
      form := FormData(cat.name, cat.slug, Some(if cat.description.Some? then cat.description.value else ""));
      defaults := form;
      showForm := true;
    }

    /** `handleCancel`: close, forget the edited category, and `reset()` the fields to the last values loaded. */
    method Cancel()
      modifies this
      ensures !showForm && editing == None && form == old(defaults) && defaults == old(defaults)
      ensures deleteTarget == old(deleteTarget) && saving == old(saving) && deleting == old(deleting)
    {
      showForm := false;
      editing := None;
      form := defaults;
    }

    /** Typing a name: the slug follows it only when creating. */
    method OnNameInput(value: string)
      modifies this
      ensures editing == old(editing) && showForm == old(showForm) && defaults == old(defaults)
      ensures form.name == value && form.description == old(form.description)
      ensures editing.None? ==> form.slug == ToSlug(value)
      ensures editing.Some? ==> form.slug == old(form.slug)
      ensures deleteTarget == old(deleteTarget) && saving == old(saving) && deleting == old(deleting)
    {
      var slug := if editing.None? then ToSlug(value) else form.slug;
      form := FormData(value, slug, form.description);
    }

    /**
     * `onSubmit`: nothing happens unless the schema accepts the form; then
     * the trimmed payload is written, an update of the edited category or
     * an insert, and the form closes only when the write succeeds.
     */
    method Submit(error: Option<string>) returns (write: Option<CategoryWrite>, toast: Option<Toast>)
      modifies this
      ensures !FormValid(old(form)) ==>
        write == None && toast == None
        && showForm == old(showForm) && editing == old(editing) && form == old(form)
      ensures FormValid(old(form)) ==>
        write == Some(if old(editing).Some? then Update(old(editing).value.id, ToPayload(old(form)))
                      else Insert(ToPayload(old(form))))
      ensures FormValid(old(form)) && error.Some? ==>
        toast == Some(ToastError("Error al guardar", SaveErrorText(error.value)))
        && showForm == old(showForm) && editing == old(editing) && form == old(form)
      ensures FormValid(old(form)) && error.None? ==>
        toast == Some(ToastSuccess(if old(editing).Some? then "Categoría actualizada" else "Categoría creada",
                                   ToPayload(old(form)).name))
        && !showForm && editing == None && form == old(defaults)
      ensures defaults == old(defaults)
      ensures !FormValid(old(form)) ==> saving == old(saving)
      ensures FormValid(old(form)) ==> !saving
      ensures deleteTarget == old(deleteTarget) && deleting == old(deleting)
    {
      if !FormValid(form) {
        return None, None;
      }
      // `saving` is true only while the write is awaited; the model has no
      // await, so only the value it is reset to afterwards is visible.
      var payload := ToPayload(form);
      write := Some(if editing.Some? then Update(editing.value.id, payload) else Insert(payload));
      saving := false;
      if error.Some? {
        return write, Some(ToastError("Error al guardar", SaveErrorText(error.value)));
      }
      toast := Some(ToastSuccess(if editing.Some? then "Categoría actualizada" else "Categoría creada", payload.name));
      Cancel();
    }

    /** Asking to delete a category opens the confirmation for it. */
    method AskDelete(cat: Category)
      modifies this
      ensures deleteTarget == Some(cat)
      ensures showForm == old(showForm) && editing == old(editing) && form == old(form) && defaults == old(defaults)
      ensures saving == old(saving) && deleting == old(deleting)
    {
      deleteTarget := Some(cat);
    }

    /** The confirmation's cancel button: close it and delete nothing. */
    method CancelDelete()
      modifies this
      ensures deleteTarget == None
      ensures showForm == old(showForm) && editing == old(editing) && form == old(form) && defaults == old(defaults)
      ensures saving == old(saving) && deleting == old(deleting)
    {
      deleteTarget := None;
    }

    /** `handleDelete`: nothing without a target; otherwise delete it, report, and close the confirmation. */
    method ConfirmDelete(error: bool) returns (write: Option<CategoryWrite>, toast: Option<Toast>)
      modifies this
      ensures old(deleteTarget).None? ==> write == None && toast == None && deleteTarget == None && deleting == old(deleting)
      ensures old(deleteTarget).Some? ==>
        write == Some(Delete(old(deleteTarget).value.id))
        && deleteTarget == None && !deleting
      ensures old(deleteTarget).Some? && error ==> toast == Some(ToastError("No se puede eliminar", InUseMessage))
      ensures old(deleteTarget).Some? && !error ==>
        toast == Some(ToastSuccess("Categoría eliminada", old(deleteTarget).value.name))
      ensures showForm == old(showForm) && editing == old(editing) && form == old(form) && saving == old(saving)
      ensures defaults == old(defaults)
    {
      if deleteTarget.None? {
        return None, None;
      }
      var target := deleteTarget.value;
      deleting := true;
      write := Some(Delete(target.id));
      deleting := false;
      if error {
        toast := Some(ToastError("No se puede eliminar", InUseMessage));
      } else {
        toast := Some(ToastSuccess("Categoría eliminada", target.name));
      }
      deleteTarget := None;
    }
  }
}
