/**
 * The admin products page (src/pages/admin/AdminProducts.tsx): the form
 * schema, the create and edit defaults, the image upload name, and the
 * save that updates the edited product or inserts a new one.
 */
module AdminProducts {
  import opened Domain
  import opened Text

  // ---------------------------------------------------------------------
  // The schema

  /** The form's values after coercion; the price is in cents. */
  datatype FormData = FormData(
    name: string,
    description: Option<string>,
    price: int,
    stock: int,
    categoryId: string,
    isActive: Option<bool>)

  /**
   * `schema.safeParse(data).success`: a name of 2 UTF-16 code units, a price
   * of at least one cent, no negative stock, a category.
   */
  predicate FormValid(f: FormData)
  {
    Utf16Length(f.name) >= 2 && f.price >= 1 && f.stock >= 0 && |f.categoryId| >= 1
  }

  /** What the schema hands on: `is_active` defaults to true. */
  function Parsed(f: FormData): (r: FormData)
    ensures r.isActive.Some?
    ensures f.isActive.None? ==> r.isActive == Some(true)
    ensures f.isActive.Some? ==> r == f
    ensures r.(isActive := f.isActive) == f
  {
    if f.isActive.None? then f.(isActive := Some(true)) else f
  }

  /** Parsing a parsed form changes nothing, and the default never decides acceptance. */
  lemma ParsedIdempotent(f: FormData)
    ensures Parsed(Parsed(f)) == Parsed(f)
    ensures FormValid(Parsed(f)) <==> FormValid(f)
  {
  }

  /** `openCreate`'s values. */
  const BlankForm := FormData("", Some(""), 0, 0, "", Some(true))

  /** The blank form is not accepted as it is: a name, a price and a category are still missing. */
  lemma BlankFormIncomplete()
    ensures !FormValid(BlankForm)
    ensures BlankForm.isActive == Some(true)
  {
  }

  /** `openEdit`'s values: the product's own, a null description or category shown as ''. */
  function EditForm(p: Product): (f: FormData)
    ensures f.name == p.name && f.price == p.price && f.stock == p.stock && f.isActive == Some(p.isActive)
    ensures f.description == Some(if p.description.Some? then p.description.value else "")
    ensures f.categoryId == (if p.categoryId.Some? then p.categoryId.value else "")
  {
    FormData(p.name,
             Some(if p.description.Some? then p.description.value else ""),
             p.price, p.stock,
             if p.categoryId.Some? then p.categoryId.value else "",
             Some(p.isActive))
  }

  /** A product without a category cannot be saved again until one is chosen. */
  lemma EditNeedsCategory(p: Product)
    requires p.categoryId.None?
    ensures !FormValid(EditForm(p))
  {
  }

  // ---------------------------------------------------------------------
  // The image

  /** `name.split('.').pop()`: the text after the last '.', or the whole name without one. */
  function Extension(name: string): (r: string)
    ensures |r| <= |name| && r == name[|name| - |r|..]
    ensures forall i :: 0 <= i < |r| ==> r[i] != '.'
    ensures |r| < |name| ==> name[|name| - |r| - 1] == '.'
  {
    if name == [] then []
    else if name[|name| - 1] == '.' then []
    else
      var r := Extension(name[..|name| - 1]);
      r + [name[|name| - 1]]
  }

  /** Without a dot the whole name is the extension. */
  lemma {:induction false} ExtensionWithoutDot(name: string)
    requires forall i :: 0 <= i < |name| ==> name[i] != '.'
    ensures Extension(name) == name
  {
    if name != [] {
      ExtensionWithoutDot(name[..|name| - 1]);
    }
  }

  /** The extension is what follows the last dot. */
  lemma {:induction false} ExtensionAfterLastDot(stem: string, ext: string)
    requires forall i :: 0 <= i < |ext| ==> ext[i] != '.'
    ensures Extension(stem + "." + ext) == ext
    decreases |ext|
  {
    var name := stem + "." + ext;
    if ext != [] {
      var init := ext[..|ext| - 1];
      assert name[..|name| - 1] == stem + "." + init;
      ExtensionAfterLastDot(stem, init);
      assert ext == init + [ext[|ext| - 1]];
    }
  }

  /** The stored file's name: the current time in milliseconds, a dot, the extension. */
  function UploadName(now: int, fileName: string): string
  {
    IntToString(now) + "." + Extension(fileName)
  }

  /** A file `stem.ext` is stored as `<now>.ext`, whatever dots the stem holds. */
  lemma UploadNameKeepsExtension(now: int, stem: string, ext: string)
    requires forall i :: 0 <= i < |ext| ==> ext[i] != '.'
    ensures UploadName(now, stem + "." + ext) == IntToString(now) + "." + ext
  {
    ExtensionAfterLastDot(stem, ext);
  }

  /** With no new file the saved URL is the edited product's own, or none when creating. */
  function KeptImageUrl(editing: Option<Product>): (r: Option<string>)
    ensures editing.None? ==> r.None?
    ensures editing.Some? ==> r == editing.value.imageUrl
  {
    if editing.Some? then editing.value.imageUrl else None
  }

  // ---------------------------------------------------------------------
  // The page

  /** The saved row: the parsed form and the image URL. */
  datatype Payload = Payload(data: FormData, imageUrl: Option<string>)

  datatype StorageUpload = StorageUpload(fileName: string)

  datatype ProductWrite =
    | Insert(payload: Payload)
    | Update(id: string, payload: Payload)
    | Delete(id: string)
    | ToggleActive(id: string, currentlyActive: bool)

  /** The saved image URL: the uploaded file's public URL, or the kept one. */
  function SavedUrl(editing: Option<Product>, imageFile: Option<string>, publicUrl: string): (r: Option<string>)
    ensures imageFile.Some? ==> r == Some(publicUrl)
    ensures imageFile.None? ==> r == KeptImageUrl(editing)
  {
    if imageFile.Some? then Some(publicUrl) else KeptImageUrl(editing)
  }

  /** Editing updates the edited product's row by id; otherwise a new row is inserted. */
  function SaveWrite(editing: Option<Product>, payload: Payload): (w: ProductWrite)
    ensures editing.Some? <==> w.Update?
    ensures editing.Some? ==> w == Update(editing.value.id, payload)
    ensures editing.None? ==> w == Insert(payload)
  {
    if editing.Some? then Update(editing.value.id, payload) else Insert(payload)
  }

  datatype Toast = ToastError(title: string, detail: Option<string>) | ToastSuccess(title: string, description: string)

  /** The save's toast: which write, and whether it failed. */
  function SaveToast(editing: bool, writeError: Option<string>, name: string): (t: Toast)
    ensures writeError.Some? <==> t.ToastError?
    ensures writeError.Some? ==> t.detail == writeError
    ensures writeError.None? ==> t.description == name
  {
    if editing then
      (if writeError.Some? then ToastError("Error al actualizar", writeError) else ToastSuccess("Producto actualizado", name))
    else
      (if writeError.Some? then ToastError("Error al crear", writeError) else ToastSuccess("Producto creado", name))
  }

  /** What one save does: the upload, the write, the toast, the refetch, and whether the form closes. */
  datatype Outcome = Outcome(
    upload: Option<StorageUpload>,
    write: Option<ProductWrite>,
    toast: Option<Toast>,
    refetch: bool,
    closes: bool)

  /**
   * `onSubmit`, reached only when the schema accepts the form. A new file
   * is uploaded first under a name made of the time and its extension; a
   * failed upload stops the save with the form open. Otherwise the row is
   * written and the form closes whether or not the write succeeded.
   */
  function SubmitOutcome(form: FormData, editing: Option<Product>, imageFile: Option<string>, now: int,
                         uploadError: Option<string>, publicUrl: string, writeError: Option<string>): (out: Outcome)
    ensures out.upload.Some? <==> FormValid(form) && imageFile.Some?
    ensures out.write.Some? <==> out.closes
    ensures out.refetch ==> out.write.Some? && writeError.None?
    ensures out.toast.None? <==> !FormValid(form)
  {
    if !FormValid(form) then Outcome(None, None, None, false, false)
    else
      var upload := if imageFile.Some? then Some(StorageUpload(UploadName(now, imageFile.value))) else None;
      if imageFile.Some? && uploadError.Some? then
        Outcome(upload, None, Some(ToastError("Error al subir imagen", uploadError)), false, false)
      else
        var payload := Payload(Parsed(form), SavedUrl(editing, imageFile, publicUrl));
        Outcome(upload, Some(SaveWrite(editing, payload)), Some(SaveToast(editing.Some?, writeError, form.name)),
                writeError.None?, true)
  }

  /** A form the schema refuses does nothing at all. */
  lemma InvalidFormDoesNothing(form: FormData, editing: Option<Product>, imageFile: Option<string>, now: int,
                               uploadError: Option<string>, publicUrl: string, writeError: Option<string>)
    requires !FormValid(form)
    ensures SubmitOutcome(form, editing, imageFile, now, uploadError, publicUrl, writeError)
         == Outcome(None, None, None, false, false)
  {
  }

  /** A failed upload writes nothing and keeps the form open. */
  lemma FailedUploadWritesNothing(form: FormData, editing: Option<Product>, fileName: string, now: int,
                                  error: string, publicUrl: string, writeError: Option<string>)
    requires FormValid(form)
    ensures var out := SubmitOutcome(form, editing, Some(fileName), now, Some(error), publicUrl, writeError);
      out.write.None? && !out.closes && !out.refetch
      && out.upload == Some(StorageUpload(IntToString(now) + "." + Extension(fileName)))
  {
  }

  /**
   * Otherwise exactly one write is made, an update of the edited row by id
   * or an insert, carrying the parsed form and the kept or uploaded image;
   * the form closes even when the write fails, and only a successful write
   * refetches.
   */
  lemma SaveWritesOnce(form: FormData, editing: Option<Product>, imageFile: Option<string>, now: int,
                       uploadError: Option<string>, publicUrl: string, writeError: Option<string>)
    requires FormValid(form)
    requires imageFile.None? || uploadError.None?
    ensures var out := SubmitOutcome(form, editing, imageFile, now, uploadError, publicUrl, writeError);
      && out.write.Some? && out.closes
      && (editing.Some? <==> out.write.value.Update?)
      && (editing.Some? ==> out.write.value.id == editing.value.id)
      && out.write.value.payload.data == Parsed(form)
      && out.write.value.payload.imageUrl
         == (if imageFile.Some? then Some(publicUrl) else if editing.Some? then editing.value.imageUrl else None)
      && (out.refetch <==> writeError.None?)
      && (out.toast.value.ToastError? <==> writeError.Some?)
  {
  }

  /**
   * Saving an edit unchanged, with no new file, writes the product's own
   * fields back to its row, with its image; only a missing description comes
   * back as ''. The toast names the update.
   */
  lemma UnchangedEditWritesBack(p: Product, now: int, publicUrl: string, writeError: Option<string>)
    requires Utf16Length(p.name) >= 2 && p.price >= 1 && p.stock >= 0
    requires p.categoryId.Some? && p.categoryId.value != ""
    ensures var out := SubmitOutcome(EditForm(p), Some(p), None, now, None, publicUrl, writeError);
      var d := out.write.value.payload.data;
      && out.upload.None? && out.write.Some? && out.write.value == Update(p.id, out.write.value.payload)
      && d.name == p.name && d.price == p.price && d.stock == p.stock
      && Some(d.categoryId) == p.categoryId && d.isActive == Some(p.isActive)
      && (p.description.Some? ==> d.description == p.description)
      && (p.description.None? ==> d.description == Some(""))
      && out.write.value.payload.imageUrl == p.imageUrl
      && out.toast.value.title == (if writeError.Some? then "Error al actualizar" else "Producto actualizado")
  {
  }

  /** The toast's title names the write that was made: an update or an insert. */
  lemma SaveToastNamesWrite(form: FormData, editing: Option<Product>, imageFile: Option<string>, now: int,
                            uploadError: Option<string>, publicUrl: string, writeError: Option<string>)
    requires FormValid(form)
    requires imageFile.None? || uploadError.None?
    ensures var out := SubmitOutcome(form, editing, imageFile, now, uploadError, publicUrl, writeError);
      && (out.write.value.Update? <==>
            out.toast.value.title == "Producto actualizado" || out.toast.value.title == "Error al actualizar")
      && (out.write.value.Insert? <==>
            out.toast.value.title == "Producto creado" || out.toast.value.title == "Error al crear")
  {
  }

  class ProductForm {
    var showForm: bool
    var editing: Option<Product>
    var imageFile: Option<string>
    var uploading: bool
    var deleteTarget: Option<Product>
    var deleting: bool
    var form: FormData
    /** The values the form library's `reset()` returns to: those of the last `reset(values)`. */
    var defaults: FormData

    constructor ()
      ensures !showForm && editing == None && imageFile == None && !uploading
      ensures deleteTarget == None && !deleting && form == BlankForm && defaults == BlankForm
    {
      showForm, editing, imageFile, uploading := false, None, None, false;
      deleteTarget, deleting, form, defaults := None, false, BlankForm, BlankForm;
    }

    /** `openCreate`: the blank form, no file, not editing. */
    method OpenCreate()
      modifies this
      ensures showForm && editing == None && imageFile == None && form == BlankForm && defaults == BlankForm
      ensures uploading == old(uploading) && deleteTarget == old(deleteTarget) && deleting == old(deleting)
    {
      editing := None;
      form, defaults := BlankForm, BlankForm;
      imageFile := None;
      showForm := true;
    }

    /** `openEdit`: the product's values, no file. */
    method OpenEdit(p: Product)
      modifies this
      ensures showForm && editing == Some(p) && imageFile == None && form == EditForm(p) && defaults == EditForm(p)
      ensures uploading == old(uploading) && deleteTarget == old(deleteTarget) && deleting == old(deleting)
    {
      editing := Some(p);
      form, defaults := EditForm(p), EditForm(p);
      imageFile := None;
      showForm := true;
    }

    /** The file input's change: the first chosen file, or none when the choice is cleared. */
    method ChooseFile(file: Option<string>)
      modifies this
      ensures imageFile == file
      ensures showForm == old(showForm) && editing == old(editing) && form == old(form) && defaults == old(defaults)
      ensures uploading == old(uploading) && deleteTarget == old(deleteTarget) && deleting == old(deleting)
    {
      imageFile := file;
    }

    /** The form's Cancel button only hides the form; its values, the file and the edited product stay. */
    method Cancel()
      modifies this
      ensures !showForm
      ensures editing == old(editing) && imageFile == old(imageFile) && form == old(form) && defaults == old(defaults)
      ensures uploading == old(uploading) && deleteTarget == old(deleteTarget) && deleting == old(deleting)
    {
      showForm := false;
    }

    /**
     * `handleSubmit(onSubmit)`: an invalid form never reaches `onSubmit` and
     * changes nothing; a valid one has the outcome `SubmitOutcome` describes,
     * the form closes with it, and `uploading` ends false.
     */
    method Submit(now: int, uploadError: Option<string>, publicUrl: string, writeError: Option<string>)
      returns (out: Outcome)
      modifies this
      ensures out == SubmitOutcome(old(form), old(editing), old(imageFile), now, uploadError, publicUrl, writeError)
      ensures out.closes ==> !showForm && form == old(defaults)
      ensures !out.closes ==> showForm == old(showForm) && form == old(form)
      ensures uploading == (if FormValid(old(form)) then false else old(uploading))
      ensures editing == old(editing) && imageFile == old(imageFile) && defaults == old(defaults)
      ensures deleteTarget == old(deleteTarget) && deleting == old(deleting)
    {
      if FormValid(form) {
        uploading := false;
      }
      out := SubmitOutcome(form, editing, imageFile, now, uploadError, publicUrl, writeError);
      if out.closes {
        showForm := false;
        form := defaults;
      }
    }

    method AskDelete(p: Product)
      modifies this
      ensures deleteTarget == Some(p)
      ensures showForm == old(showForm) && editing == old(editing) && form == old(form) && defaults == old(defaults)
      ensures imageFile == old(imageFile) && uploading == old(uploading) && deleting == old(deleting)
    {
      deleteTarget := Some(p);
    }

    /** The confirmation's cancel button: close it and delete nothing. */
    method CancelDelete()
      modifies this
      ensures deleteTarget == None
      ensures showForm == old(showForm) && editing == old(editing) && form == old(form) && defaults == old(defaults)
      ensures imageFile == old(imageFile) && uploading == old(uploading) && deleting == old(deleting)
    {
      deleteTarget := None;
    }

    /** `handleDelete`: nothing without a target; otherwise delete it, report, and close the confirmation. */
    method ConfirmDelete(error: Option<string>) returns (write: Option<ProductWrite>, toast: Option<Toast>)
      modifies this
      ensures old(deleteTarget).None? ==> write == None && toast == None && deleteTarget == None && deleting == old(deleting)
      ensures old(deleteTarget).Some? ==>
        && write == Some(Delete(old(deleteTarget).value.id))
        && deleteTarget == None && !deleting
        && toast == Some(if error.Some? then ToastError("Error al eliminar", error)
                         else ToastSuccess("Producto eliminado", old(deleteTarget).value.name))
      ensures showForm == old(showForm) && editing == old(editing) && form == old(form) && defaults == old(defaults)
      ensures imageFile == old(imageFile) && uploading == old(uploading)
    {
      if deleteTarget.None? {
        return None, None;
      }
      var target := deleteTarget.value;
      deleting := true;
      write := Some(Delete(target.id));
      deleting := false;
      if error.Some? {
        toast := Some(ToastError("Error al eliminar", error));
      } else {
        toast := Some(ToastSuccess("Producto eliminado", target.name));
      }
      deleteTarget := None;
    }
  }

  /** `handleToggle`: the hook is told the current state; the toast names the new one. */
  function ToggleToast(p: Product, error: bool): (t: Toast)
    ensures error ==> t == ToastError("Error al actualizar", None)
    ensures !error && p.isActive ==> t == ToastSuccess("Producto desactivado", p.name)
    ensures !error && !p.isActive ==> t == ToastSuccess("Producto activado", p.name)
  {
    if error then ToastError("Error al actualizar", None)
    else ToastSuccess(if p.isActive then "Producto desactivado" else "Producto activado", p.name)
  }

  /** The `is_active` value the hook's `toggleActive(id, current)` writes: the negation of `current`. */
  function WrittenActive(w: ProductWrite): bool
    requires w.ToggleActive?
  {
    !w.currentlyActive
  }

  /** `toggleActive(product.id, product.is_active)`: the product's row flips. */
  function ToggleWrite(p: Product): (w: ProductWrite)
    ensures w.ToggleActive? && w.id == p.id
    ensures WrittenActive(w) == !p.isActive
  {
    ToggleActive(p.id, p.isActive)
  }

  /** A successful toggle's toast announces the state that was written. */
  lemma ToggleToastAnnouncesWrite(p: Product)
    ensures ToggleToast(p, false).title == (if WrittenActive(ToggleWrite(p)) then "Producto activado" else "Producto desactivado")
    ensures ToggleToast(p, false).description == p.name
  {
  }
}
