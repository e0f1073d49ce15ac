/**
 * The form hook: a record of field values that starts at the initial values,
 * changes one named field per input event, and can be reset. Field records
 * are maps from field name to value.
 */
module UseForm {

  /** One use of the hook: the initial values it was created with and the
      current values. */
  datatype Form<K, V> = Form(initialValues: map<K, V>, values: map<K, V>)

  /** `useForm(initialValues)` */
  function UseForm<K, V>(initialValues: map<K, V>): (f: Form<K, V>)
    ensures f.values == f.initialValues == initialValues
  {
    Form(initialValues, initialValues)
  }

  /** `handleChange` for an event whose target has this `name` and `value`:
      `{ ...values, [name]: value }`. */
  function HandleChange<K, V>(f: Form<K, V>, name: K, value: V): (g: Form<K, V>)
    ensures g.initialValues == f.initialValues
    ensures name in g.values && g.values[name] == value
    ensures g.values.Keys == f.values.Keys + {name}
    ensures forall k | k in f.values && k != name :: g.values[k] == f.values[k]
  {
    f.(values := f.values[name := value])
  }

  /** `resetForm` */
  function ResetForm<K, V>(f: Form<K, V>): (g: Form<K, V>)
    ensures g.values == f.initialValues && g.initialValues == f.initialValues
  {
    f.(values := f.initialValues)
  }

  /** The form after a sequence of change events. */
  function ApplyChanges<K, V>(f: Form<K, V>, changes: seq<(K, V)>): Form<K, V>
    decreases |changes|
  {
    if changes == [] then f
    else ApplyChanges(HandleChange(f, changes[0].0, changes[0].1), changes[1..])
  }

  /** Of two changes to the same field the later one wins. */
  lemma LastChangeWins<K, V>(f: Form<K, V>, name: K, first: V, second: V)
    ensures HandleChange(HandleChange(f, name, first), name, second) == HandleChange(f, name, second)
  {
  }

  /** Applying the same change twice is the same as applying it once. */
  lemma HandleChangeIdempotent<K, V>(f: Form<K, V>, name: K, value: V)
    ensures HandleChange(HandleChange(f, name, value), name, value) == HandleChange(f, name, value)
  {
    LastChangeWins(f, name, value, value);
  }

  /** Changes to two different fields commute. */
  lemma ChangesCommute<K, V>(f: Form<K, V>, a: K, x: V, b: K, y: V)
    requires a != b
    ensures HandleChange(HandleChange(f, a, x), b, y) == HandleChange(HandleChange(f, b, y), a, x)
  {
  }

  /** Change events never alter the initial values. */
  lemma {:induction false} ChangesKeepInitialValues<K, V>(f: Form<K, V>, changes: seq<(K, V)>)
    ensures ApplyChanges(f, changes).initialValues == f.initialValues
    decreases |changes|
  {
    if changes != [] {
      ChangesKeepInitialValues(HandleChange(f, changes[0].0, changes[0].1), changes[1..]);
    }
  }

  /** Whatever changes came before, `resetForm` yields exactly the initial values. */
  lemma ResetAfterChanges<K, V>(initialValues: map<K, V>, changes: seq<(K, V)>)
    ensures ResetForm(ApplyChanges(UseForm(initialValues), changes)).values == initialValues
  {
    ChangesKeepInitialValues(UseForm(initialValues), changes);
  }
}
