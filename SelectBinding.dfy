/** A Select bound to a record: the Select's `prepareValueForFront` plugged
    into the Field display phase as its hook. */
module SelectBinding {
  import opened Kompo
  import Komponents
  import Usable

  /** A Select as the Field display phase sees it: its `prepareValueForFront`
      hook, whose effect on the field's value is `FrontValue` under the
      Select's key column. */
  function FrontValueHook(optionsKey: Option<string>): (string, Value, Komponents.ModelRef) -> Value {
    (name, v, model) => Usable.FrontValue(v, optionsKey)
  }

  /** With a Select's hook, `setValueFromDB` ends with the front value of
      what it fetched for the last name, even a falsy one: the hook replaces
      the `?:` that keeps the current value. */
  lemma {:induction false} SelectDisplaysFrontValue(current: Value, names: seq<string>, model: Komponents.ModelRef, layer: Komponents.ModelLayer,
                                                     b: Komponents.Settings, optionsKey: Option<string>)
    requires b.hooks.prepareValueForFront == Some(FrontValueHook(optionsKey))
    requires names != []
    ensures Komponents.DisplayValueFrom(current, names, model, layer, b)
            == Usable.FrontValue(Komponents.Fetched(names[|names| - 1], model, layer, b), optionsKey)
    decreases |names|
  {
    if |names| > 1 {
      SelectDisplaysFrontValue(Komponents.DisplayStep(current, names[0], model, layer, b), names[1..], model, layer, b, optionsKey);
    }
  }
}
