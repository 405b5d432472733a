// Form state shared by the three edit modals: a form is a record of named
// values, and an input's change event overwrites the one field it names.

module Forms {

  /** A form value: text from an input, a checkbox state, a number, or null. */
  datatype Value = Str(s: string) | Bool(b: bool) | Num(n: int) | Null

  type Form = map<string, Value>

  datatype InputKind = Checkbox | OtherInput

  /** What `e.target` carries: the input's name, type, text value and checked state. */
  datatype ChangeEvent = ChangeEvent(name: string, kind: InputKind, value: string, checked: bool)

  /** JavaScript truthiness of a form value. */
  predicate Truthy(v: Value) {
    match v
    case Str(s) => s != ""
    case Bool(b) => b
    case Num(n) => n != 0
    case Null => false
  }

  /** `formData[name]`, with `undefined` for a field the form does not have. */
  function Field(form: Form, name: string): Value {
    if name in form then form[name] else Null
  }

  /**
   * `{ ...prev, [name]: type === 'checkbox' ? checked : value }`: the named field
   * takes the checkbox state or the input's text, and every other field is unchanged.
   */
  function Changed(form: Form, ev: ChangeEvent): (r: Form)
    ensures r.Keys == form.Keys + {ev.name}
    ensures ev.kind == Checkbox ==> r[ev.name] == Bool(ev.checked)
    ensures ev.kind == OtherInput ==> r[ev.name] == Str(ev.value)
    ensures forall k :: k in form && k != ev.name ==> r[k] == form[k]
  {
    form[ev.name := if ev.kind == Checkbox then Bool(ev.checked) else Str(ev.value)]
  }

  /** Two changes to different fields do not interfere: they commute. */
  lemma ChangesCommute(form: Form, a: ChangeEvent, b: ChangeEvent)
    requires a.name != b.name
    ensures Changed(Changed(form, a), b) == Changed(Changed(form, b), a)
  {
  }

  /** A second change to the same field wins over the first. */
  lemma LastChangeWins(form: Form, a: ChangeEvent, b: ChangeEvent)
    requires a.name == b.name
    ensures Changed(Changed(form, a), b) == Changed(form, b)
  {
  }
}
