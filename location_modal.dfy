// The location edit modal: a two-field form reset when it opens and updated
// field by field.

module LocationModal {
  import opened Common
  import opened Forms

  /** The form of an existing location: its name and active flag. */
  function EditForm(loc: Location): (f: Form)
    ensures f.Keys == {"name", "is_active"}
    ensures f["name"] == Str(loc.name) && f["is_active"] == Bool(loc.is_active)
  {
    map["name" := Str(loc.name), "is_active" := Bool(loc.is_active)]
  }

  /** The form for a new location: no name, active. */
  function CreateForm(): (f: Form)
    ensures f.Keys == {"name", "is_active"}
    ensures f["name"] == Str("") && f["is_active"] == Bool(true)
  {
    map["name" := Str(""), "is_active" := Bool(true)]
  }

  class LocationModal {
    var isOpen: bool
    var location: Option<Location>
    var formData: Form

    constructor()
      ensures !isOpen && location == None && formData == CreateForm()
    {
      isOpen, location := false, None;
      formData := CreateForm();
    }

    /** The effect on `[location, isOpen]`: load the edited location or the empty form. */
    method Reset(location: Option<Location>, isOpen: bool)
      modifies this
      ensures this.location == location && this.isOpen == isOpen
      ensures location.Some? ==> formData == EditForm(location.value)
      ensures location.None? ==> formData == CreateForm()
    {
      this.location, this.isOpen := location, isOpen;
      if location.Some? {
        formData := EditForm(location.value);
      } else {
        formData := CreateForm();
      }
    }

    /** `handleChange`: only the named field changes. */
    method HandleChange(ev: ChangeEvent)
      modifies this`formData
      ensures formData == Changed(old(formData), ev)
    {
      formData := Changed(formData, ev);
    }

    /** `handleSubmit`: the form goes to `onSave` as it stands. */
    method HandleSubmit() returns (saved: Form)
      ensures saved == formData
    {
      saved := formData;
    }

    /** `if (!isOpen) return null`: a closed modal shows no form. */
    function Rendered(): (shown: Option<Form>)
      reads this
      ensures shown.Some? <==> isOpen
      ensures shown.Some? ==> shown.value == formData
    {
      if isOpen then Some(formData) else None
    }
  }

  /**
   * Opening a location, typing a new name and submitting saves the form of the
   * renamed location: the active flag is kept and nothing else is added.
   */
  method RenameScenario(loc: Location, name: string) returns (saved: Form)
    ensures saved == EditForm(loc.(name := name))
  {
    var modal := new LocationModal();
    modal.Reset(Some(loc), true);
    modal.HandleChange(ChangeEvent("name", OtherInput, name, false));
    saved := modal.HandleSubmit();
  }
}
