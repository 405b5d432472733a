// The item edit modal: the form reset when it opens, field changes, and the
// icon chosen from a file, which feeds both the form and the preview.

module ItemModal {
  import opened Common
  import opened Forms

  /**
   * The form of an existing item. The icon is not resent unless it changes, so
   * `icon_base64` starts as null while the preview shows the current icon.
   */
  function EditForm(item: Item): (f: Form)
    ensures f.Keys == {"name", "price", "location_id", "icon_base64", "is_active"}
    ensures f["name"] == Str(item.name) && f["price"] == Str(item.price)
    ensures f["location_id"] == if item.location_id.Some? then Num(item.location_id.value) else Null
    ensures f["icon_base64"] == Null && f["is_active"] == Bool(item.is_active)
  {
    map[
      "name" := Str(item.name),
      "price" := Str(item.price),
      "location_id" := (if item.location_id.Some? then Num(item.location_id.value) else Null),
      "icon_base64" := Null,
      "is_active" := Bool(item.is_active)]
  }

  /** The form for a new item: empty texts, no icon, active. */
  function CreateForm(): (f: Form)
    ensures f.Keys == {"name", "price", "location_id", "icon_base64", "is_active"}
    ensures f["name"] == f["price"] == f["location_id"] == Str("")
    ensures f["icon_base64"] == Null && f["is_active"] == Bool(true)
  {
    map["name" := Str(""), "price" := Str(""), "location_id" := Str(""), "icon_base64" := Null, "is_active" := Bool(true)]
  }

  /**
   * What the file input delivers to the form: no file chosen, a read that
   * completed with a data URL, or a read that failed or was aborted, whose
   * `reader.result` is null when `onloadend` fires.
   */
  datatype FileRead = NoFile | Loaded(dataUrl: string) | ReadFailed

  class ItemModal {
    var isOpen: bool
    var item: Option<Item>
    var formData: Form
    var preview: Option<string>

    constructor()
      ensures !isOpen && item == None && formData == CreateForm() && preview == None
    {
      isOpen, item := false, None;
      formData := CreateForm();
      preview := None;
    }

    /** The effect on `[item, isOpen]`: load the edited item or the empty form, with its preview. */
    method Reset(item: Option<Item>, isOpen: bool)
      modifies this
      ensures this.item == item && this.isOpen == isOpen
      ensures item.Some? ==> formData == EditForm(item.value) && preview == item.value.icon_base64
      ensures item.None? ==> formData == CreateForm() && preview == None
    {
      this.item, this.isOpen := item, isOpen;
      if item.Some? {
        formData := EditForm(item.value);
        preview := item.value.icon_base64;
      } else {
        formData := CreateForm();
        preview := None;
      }
    }

    /** `handleChange`: only the named field changes. */
    method HandleChange(ev: ChangeEvent)
      modifies this`formData
      ensures formData == Changed(old(formData), ev)
    {
      formData := Changed(formData, ev);
    }

    /**
     * `handleFileChange` with the reader's outcome: the data URL becomes both the
     * form's icon and the preview; a failed read sets both to null, which hides
     * the current icon; with no file chosen nothing changes.
     */
    method HandleFileChange(read: FileRead)
      modifies this`formData, this`preview
      ensures read.NoFile? ==> formData == old(formData) && preview == old(preview)
      ensures read.Loaded? ==> formData == old(formData)["icon_base64" := Str(read.dataUrl)]
      ensures read.Loaded? ==> preview == Some(read.dataUrl)
      ensures read.ReadFailed? ==> formData == old(formData)["icon_base64" := Null] && preview == None
    {
      match read
      case NoFile =>
      case Loaded(url) =>
        formData := formData["icon_base64" := Str(url)];
        preview := Some(url);
      case ReadFailed =>
        formData := formData["icon_base64" := Null];
        preview := None;
    }

    /** `handleSubmit`: the form goes to `onSave` as it stands. */
    method HandleSubmit() returns (saved: Form)
      ensures saved == formData
    {
      saved := formData;
    }

    /** `if (!isOpen) return null`: a closed modal shows no form. */
    function Rendered(): (shown: Option<Form>)
      reads this
      ensures shown.Some? <==> isOpen
      ensures shown.Some? ==> shown.value == formData
    {
      if isOpen then Some(formData) else None
    }
  }

  /**
   * Opening the modal, loading a file and submitting: the saved form is the
   * opened form with the new icon, and the preview shows that same icon.
   */
  method FileLoadAgrees(item: Option<Item>, dataUrl: string) returns (saved: Form, preview: Option<string>)
    ensures saved == (if item.Some? then EditForm(item.value) else CreateForm())["icon_base64" := Str(dataUrl)]
    ensures saved["icon_base64"] == Str(dataUrl) && preview == Some(dataUrl)
  {
    var modal := new ItemModal();
    modal.Reset(item, true);
    modal.HandleFileChange(Loaded(dataUrl));
    saved := modal.HandleSubmit();
    preview := modal.preview;
  }

  /** Editing an item with an icon and saving untouched sends no icon, while the preview shows the current one. */
  method UntouchedIconNotResent(item: Item) returns (saved: Form, preview: Option<string>)
    ensures saved == EditForm(item)
    ensures saved["icon_base64"] == Null && preview == item.icon_base64
  {
    var modal := new ItemModal();
    modal.Reset(Some(item), true);
    saved := modal.HandleSubmit();
    preview := modal.preview;
  }
}
