// The user edit modal: the form reset when it opens, field changes, and the
// PIN checks of submit, including the two-step confirmation of an empty PIN.

module UserModal {
  import opened Common
  import opened Forms

  /** The form of an existing user: the PIN is never shown, so it starts empty. */
  function EditForm(u: User): (f: Form)
    ensures f.Keys == {"username", "pin", "full_name", "location_id", "is_active"}
    ensures f["username"] == Str(u.username) && f["full_name"] == Str(u.full_name)
    ensures f["pin"] == Str("") && f["is_active"] == Bool(u.is_active)
    ensures f["location_id"] == if u.location_id.Some? && u.location_id.value != 0
                                then Num(u.location_id.value) else Str("")
  {
    map[
      "username" := Str(u.username),
      "pin" := Str(""),
      "full_name" := Str(u.full_name),
      "location_id" := (if u.location_id.Some? && u.location_id.value != 0 then Num(u.location_id.value) else Str("")),
      "is_active" := Bool(u.is_active)]
  }

  /** The form for a new user: every text field empty and the user active. */
  function CreateForm(): (f: Form)
    ensures f.Keys == {"username", "pin", "full_name", "location_id", "is_active"}
    ensures forall k :: k in f && k != "is_active" ==> f[k] == Str("")
    ensures f["is_active"] == Bool(true)
  {
    map["username" := Str(""), "pin" := Str(""), "full_name" := Str(""), "location_id" := Str(""), "is_active" := Bool(true)]
  }

  const PinRequired := "El PIN es obligatorio para crear un nuevo usuario"
  const PinTooShort := "El PIN debe tener al menos 4 dígitos"

  /** What one submit does. */
  datatype Decision = RaiseWarning | Reject(alert: string) | Save

  /** `formData.pin.length`; a value without a length compares as not short. */
  function PinTooShortFor(pin: Value): bool {
    pin.Str? && |pin.s| < 4
  }

  /**
   * `handleSubmit`'s checks in order: editing with an empty PIN first only raises
   * the warning; creating needs a PIN; a PIN under four characters is refused.
   */
  function Decide(editing: bool, pin: Value, warned: bool): (d: Decision)
    ensures d == RaiseWarning <==> editing && !Truthy(pin) && !warned
    ensures d == Reject(PinRequired) <==> !editing && !Truthy(pin)
    ensures d == Reject(PinTooShort) <==> Truthy(pin) && PinTooShortFor(pin)
  {
    if editing && !Truthy(pin) && !warned then RaiseWarning
    else if !editing && !Truthy(pin) then Reject(PinRequired)
    else if Truthy(pin) && PinTooShortFor(pin) then Reject(PinTooShort)
    else Save
  }

  /** A submit saves exactly when the PIN is long enough, or it is an edit whose empty PIN was already warned about. */
  lemma SaveExactly(editing: bool, pin: Value, warned: bool)
    ensures Decide(editing, pin, warned) == Save <==>
      (Truthy(pin) && !PinTooShortFor(pin)) || (editing && !Truthy(pin) && warned)
  {
  }

  /** Creating a user with an empty PIN never saves, however often it is submitted. */
  lemma CreateNeedsPin(pin: Value, warned: bool)
    requires !Truthy(pin)
    ensures Decide(false, pin, warned) == Reject(PinRequired)
  {
  }

  /** A short PIN is refused in both modes, warning or not. */
  lemma ShortPinRefused(editing: bool, s: string, warned: bool)
    requires 0 < |s| < 4
    ensures Decide(editing, Str(s), warned) == Reject(PinTooShort)
  {
  }

  class UserModal {
    var isOpen: bool
    var user: Option<User>
    var formData: Form
    var showPinWarning: bool

    constructor()
      ensures !isOpen && user == None && formData == CreateForm() && !showPinWarning
    {
      isOpen, user := false, None;
      formData := CreateForm();
      showPinWarning := false;
    }

    /**
     * The effect on `[user, isOpen]`: load the edited user's fields or the empty
     * form for a new user, and clear the PIN warning in both cases.
     */
    method Reset(user: Option<User>, isOpen: bool)
      modifies this
      ensures this.user == user && this.isOpen == isOpen
      ensures user.Some? ==> formData == EditForm(user.value)
      ensures user.None? ==> formData == CreateForm()
      ensures !showPinWarning
    {
      this.user, this.isOpen := user, isOpen;
      if user.Some? {
        formData := EditForm(user.value);
      } else {
        formData := CreateForm();
      }
      showPinWarning := false;
    }

    /** `handleChange`: only the named field changes. */
    method HandleChange(ev: ChangeEvent)
      modifies this`formData
      ensures formData == Changed(old(formData), ev)
    {
      formData := Changed(formData, ev);
    }

    /**
     * `handleSubmit`: returns the form handed to `onSave`, or nothing; only the
     * first empty-PIN submit of an edit changes state, by raising the warning.
     */
    method HandleSubmit() returns (saved: Option<Form>, alert: Option<string>)
      modifies this`showPinWarning
      ensures var d := Decide(user.Some?, Field(formData, "pin"), old(showPinWarning));
        && (saved.Some? <==> d == Save)
        && (saved.Some? ==> saved.value == formData)
        && (alert.Some? <==> d.Reject?)
        && (d.Reject? ==> alert == Some(d.alert))
        && showPinWarning == (old(showPinWarning) || d == RaiseWarning)
    {
      var pin := Field(formData, "pin");
      if user.Some? && !Truthy(pin) {
        if !showPinWarning {
          showPinWarning := true;
          return None, None;
        }
      }
      if user.None? && !Truthy(pin) {
        return None, Some(PinRequired);
      }
      if Truthy(pin) && PinTooShortFor(pin) {
        return None, Some(PinTooShort);
      }
      return Some(formData), None;
    }

    /** `if (!isOpen) return null`: a closed modal shows no form. */
    function Rendered(): (shown: Option<Form>)
      reads this
      ensures shown.Some? <==> isOpen
      ensures shown.Some? ==> shown.value == formData
    {
      if isOpen then Some(formData) else None
    }
  }

  /** Editing with an empty PIN: the first submit only warns, the second one saves the form. */
  method EmptyPinEditScenario(u: User) returns (first: Option<Form>, second: Option<Form>)
    ensures first == None
    ensures second == Some(EditForm(u))
  {
    var modal := new UserModal();
    modal.Reset(Some(u), true);
    var alert;
    first, alert := modal.HandleSubmit();
    second, alert := modal.HandleSubmit();
  }
}
