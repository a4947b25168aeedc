/** The Select field: turning an associative array (or a list of models) into
    the `{label, value}` options the front end shows, choosing the value the
    front end selects, and naming the method that loads options by ajax. */
module Usable {
  import opened Kompo

  /** One entry of a label array: a constant or a closure of the option. */
  datatype LabelPart = Literal(v: Value) | Computed(f: Value -> Value)

  /** What `optionsLabel` may hold: a Card (identified by `card`) whose
      components are label parts, an array of label parts, a closure, or a
      column name. */
  datatype LabelSpec =
    | CardLabel(card: nat, components: seq<(Value, LabelPart)>)
    | PartsLabel(parts: seq<(Value, LabelPart)>)
    | ClosureLabel(f: Value -> Value)
    | ColumnLabel(column: string)

  /** An option's label once computed: a clone of the Card with computed
      components, a computed array, or a plain value. */
  datatype Label = CardOut(card: nat, components: seq<(Value, Value)>) | PartsOut(parts: seq<(Value, Value)>) | Plain(v: Value)

  datatype OptionEntry = OptionEntry(optionLabel: Label, value: Value)

  /** `$optionsLabel` read as a boolean: null, an empty array and a falsy
      column name are false; a Card or a closure is true. */
  predicate LabelTruthy(l: Option<LabelSpec>) {
    l.Some? &&
    match l.value
    case CardLabel(_, _) => true
    case PartsLabel(parts) => parts != []
    case ClosureLabel(_) => true
    case ColumnLabel(column) => StrTruthy(column)
  }

  function Evaluate(part: LabelPart, v: Value): Value {
    match part
    case Literal(x) => x
    case Computed(f) => f(v)
  }

  /** `transformLabelKey`: every key is kept; closures are replaced by their
      result on the option and constants are kept. */
  function TransformLabelKey(parts: seq<(Value, LabelPart)>, v: Value): (r: seq<(Value, Value)>)
    ensures |r| == |parts|
    ensures forall k :: 0 <= k < |parts| ==> r[k].0 == parts[k].0
    ensures forall k :: 0 <= k < |parts| && parts[k].1.Literal? ==> r[k].1 == parts[k].1.v
    ensures forall k :: 0 <= k < |parts| && parts[k].1.Computed? ==> r[k].1 == parts[k].1.f(v)
  {
    seq(|parts|, k requires 0 <= k < |parts| => (parts[k].0, Evaluate(parts[k].1, v)))
  }

  /** Options whose label array holds no closure all get the same label. */
  lemma ConstantPartsSameLabel(parts: seq<(Value, LabelPart)>, v1: Value, v2: Value)
    requires forall k :: 0 <= k < |parts| ==> parts[k].1.Literal?
    ensures TransformLabelKey(parts, v1) == TransformLabelKey(parts, v2)
  {
  }

  /** `transformLabel`: a Card first, then an array, a closure, else a column.
      A Card stays the same Card and an array keeps its keys; only closures
      look at the option; a column is read off a model and is null on
      anything else. */
  function TransformLabel(spec: LabelSpec, v: Value): (r: Label)
    ensures r.CardOut? <==> spec.CardLabel?
    ensures r.PartsOut? <==> spec.PartsLabel?
    ensures r.CardOut? ==> r.card == spec.card && |r.components| == |spec.components|
                           && forall k :: 0 <= k < |r.components| ==> r.components[k].0 == spec.components[k].0
    ensures r.PartsOut? ==> |r.parts| == |spec.parts|
                            && forall k :: 0 <= k < |r.parts| ==> r.parts[k].0 == spec.parts[k].0
    ensures spec.ClosureLabel? ==> r == Plain(spec.f(v))
    ensures spec.ColumnLabel? && v.Record? && spec.column in v.attributes ==> r == Plain(v.attributes[spec.column])
    ensures spec.ColumnLabel? && !(v.Record? && spec.column in v.attributes) ==> r == Plain(Null)
  {
    match spec
    case CardLabel(card, components) => CardOut(card, TransformLabelKey(components, v))
    case PartsLabel(parts) => PartsOut(TransformLabelKey(parts, v))
    case ClosureLabel(f) => Plain(f(v))
    case ColumnLabel(column) => Plain(Prop(v, column))
  }

  /** The option built from one `key => value` pair. */
  function OptionFor(key: Value, v: Value, optionsKey: Option<string>, optionsLabel: Option<LabelSpec>): (e: OptionEntry)
    ensures !OptTruthy(optionsKey) ==> e.value == key
    ensures OptTruthy(optionsKey) ==> e.value == Prop(v, optionsKey.value)
    ensures !LabelTruthy(optionsLabel) ==> e.optionLabel == Plain(v)
    ensures LabelTruthy(optionsLabel) ==> e.optionLabel == TransformLabel(optionsLabel.value, v)
  {
    OptionEntry(if LabelTruthy(optionsLabel) then TransformLabel(optionsLabel.value, v) else Plain(v),
                if OptTruthy(optionsKey) then Prop(v, optionsKey.value) else key)
  }

  /** The options of an ordered array of `key => value` pairs: one per pair,
      in order. */
  function OptionsList(pairs: seq<(Value, Value)>, optionsKey: Option<string>, optionsLabel: Option<LabelSpec>): (r: seq<OptionEntry>)
    ensures |r| == |pairs|
    ensures forall k :: 0 <= k < |pairs| ==> r[k] == OptionFor(pairs[k].0, pairs[k].1, optionsKey, optionsLabel)
  {
    seq(|pairs|, k requires 0 <= k < |pairs| => OptionFor(pairs[k].0, pairs[k].1, optionsKey, optionsLabel))
  }

  /** `transformOptions`. */
  method TransformOptions(pairs: seq<(Value, Value)>, optionsKey: Option<string>, optionsLabel: Option<LabelSpec>)
    returns (results: seq<OptionEntry>)
    ensures results == OptionsList(pairs, optionsKey, optionsLabel)
  {
    results := [];
    for i := 0 to |pairs|
      invariant |results| == i
      invariant forall k :: 0 <= k < i ==> results[k] == OptionFor(pairs[k].0, pairs[k].1, optionsKey, optionsLabel)
    {
      var (key, v) := pairs[i];
      var shown := if LabelTruthy(optionsLabel) then TransformLabel(optionsLabel.value, v) else Plain(v);
      var value := if OptTruthy(optionsKey) then Prop(v, optionsKey.value) else key;
      results := results + [OptionEntry(shown, value)];
    }
  }

  /** Plain arrays (no key column, no label) become options showing each
      value and selecting its key. */
  lemma PlainArrayOptions(pairs: seq<(Value, Value)>)
    ensures forall k :: 0 <= k < |pairs| ==>
              OptionsList(pairs, None, None)[k] == OptionEntry(Plain(pairs[k].1), pairs[k].0)
  {
  }

  /** `valueKeyName`: the key column, else the model's key name, else none. */
  function ValueKeyName(optionsKey: Option<string>, v: Value): (r: Option<string>)
    ensures OptTruthy(optionsKey) ==> r == optionsKey
    ensures !OptTruthy(optionsKey) && v.Record? ==> r == Some(v.keyName)
    ensures !OptTruthy(optionsKey) && !v.Record? ==> r.None?
  {
    if OptTruthy(optionsKey) then optionsKey
    else if v.Record? then Some(v.keyName)
    else None
  }

  /** `setValueForFront`'s value: null for a falsy value, else the value's
      key attribute when a key name is known, else the value itself. */
  function FrontValue(v: Value, optionsKey: Option<string>): (r: Value)
    ensures !Truthy(v) ==> r == Null
    ensures Truthy(v) && OptTruthy(optionsKey) ==> r == Prop(v, optionsKey.value)
    ensures Truthy(v) && !OptTruthy(optionsKey) && v.Record? && StrTruthy(v.keyName) ==> r == Prop(v, v.keyName)
    ensures Truthy(v) && !OptTruthy(optionsKey) && v.Record? && !StrTruthy(v.keyName) ==> r == v
    ensures Truthy(v) && !OptTruthy(optionsKey) && !v.Record? ==> r == v
  {
    if !Truthy(v) then Null
    else
      var key := ValueKeyName(optionsKey, v);
      if OptTruthy(key) then Prop(v, key.value) else v
  }

  /** With a key column, the value sent to the front end for a model is the
      value of the option built from that same model: the front end selects
      it. */
  lemma FrontValueSelectsItsOption(pairs: seq<(Value, Value)>, optionsKey: Option<string>, optionsLabel: Option<LabelSpec>, k: nat)
    requires k < |pairs| && OptTruthy(optionsKey) && Truthy(pairs[k].1)
    ensures FrontValue(pairs[k].1, optionsKey) == OptionsList(pairs, optionsKey, optionsLabel)[k].value
  {
  }

  // ------------------------------------------------------------ method names

  function Upper(c: char): char {
    if 'a' <= c <= 'z' then (c as int - 32) as char else c
  }

  /** The characters `ucwords` treats as word delimiters (besides the space). */
  predicate Blank(c: char) {
    c == '\t' || c == '\r' || c == '\n' || c as int == 11 || c as int == 12
  }

  /** Laravel's `Str::studly`: `-` and `_` read as spaces, every word gets an
      upper-case first letter, spaces are removed. `atStart` says whether the
      next character begins a word. */
  function Studly(s: string, atStart: bool): (r: string)
    ensures forall k :: 0 <= k < |r| ==> r[k] != ' ' && r[k] != '-' && r[k] != '_'
    ensures |r| <= |s|
  {
    if s == [] then []
    else if s[0] == ' ' || s[0] == '-' || s[0] == '_' then Studly(s[1..], true)
    else if Blank(s[0]) then [s[0]] + Studly(s[1..], true)
    else [if atStart then Upper(s[0]) else s[0]] + Studly(s[1..], false)
  }

  /** `'search'.ucfirst(Str::camel($name))`: `Str::camel` lower-cases the
      first letter of the studly form and `ucfirst` restores it. */
  function InferAjaxOptionsMethod(name: string): (r: string)
    ensures |r| >= 6
    ensures r[..6] == "search"
    ensures forall k :: 6 <= k < |r| ==> r[k] != ' ' && r[k] != '-' && r[k] != '_'
  {
    "search" + Studly(name, true)
  }

  /** The two names the documentation promises: `users` gives `searchUsers`
      and `first_name` gives `searchFirstName`. */
  lemma InferredNamesExamples()
    ensures InferAjaxOptionsMethod("users") == "searchUsers"
    ensures InferAjaxOptionsMethod("first_name") == "searchFirstName"
  {
    StudlyUsers();
    StudlyFirstName();
  }

  lemma StudlyUsers()
    ensures Studly("users", true) == "Users"
  {
    assert Studly("s", false) == "s";
    assert Studly("rs", false) == "r" + Studly("s", false);
    assert Studly("ers", false) == "e" + Studly("rs", false);
    assert Studly("sers", false) == "s" + Studly("ers", false);
    assert Upper('u') == 'U';
  }

  lemma StudlyUnderscoreName()
    ensures Studly("_name", false) == "Name"
  {
    assert Studly("e", false) == "e";
    assert Studly("me", false) == "m" + Studly("e", false);
    assert Studly("ame", false) == "a" + Studly("me", false);
    assert Studly("name", true) == "N" + Studly("ame", false);
  }

  /** A letter in the middle of a word is kept as it is. */
  lemma StudlyLetter(c: char, rest: string, atStart: bool)
    requires c != ' ' && c != '-' && c != '_' && !Blank(c)
    ensures Studly([c] + rest, atStart) == [if atStart then Upper(c) else c] + Studly(rest, false)
  {
    assert ([c] + rest)[0] == c && ([c] + rest)[1..] == rest;
  }

  lemma StudlyRstName()
    ensures Studly("rst_name", false) == "rstName"
  {
    StudlyUnderscoreName();
    StudlyLetter('t', "_name", false);
    assert "t_name" == ['t'] + "_name";
    StudlyLetter('s', "t_name", false);
    assert "st_name" == ['s'] + "t_name";
    StudlyLetter('r', "st_name", false);
    assert "rst_name" == ['r'] + "st_name";
  }

  lemma StudlyFirstName()
    ensures Studly("first_name", true) == "FirstName"
  {
    StudlyRstName();
    StudlyLetter('i', "rst_name", false);
    assert "irst_name" == ['i'] + "rst_name";
    StudlyLetter('f', "irst_name", true);
    assert "first_name" == ['f'] + "irst_name";
  }

  /** `$methodName ?: inferAjaxOptionsMethod()`. */
  function AjaxOptionsMethod(methodName: Option<string>, name: string): (r: string)
    ensures OptTruthy(methodName) ==> r == methodName.value
    ensures !OptTruthy(methodName) ==> r == InferAjaxOptionsMethod(name)
  {
    if OptTruthy(methodName) then methodName.value else InferAjaxOptionsMethod(name)
  }

  /** A Select field with the state its methods update. */
  class Select {
    const name: string
    var value: Value
    var options: seq<OptionEntry>
    var optionsKey: Option<string>
    var optionsLabel: Option<LabelSpec>
    var routeActivated: bool
    var ajaxMinSearchLength: int
    var ajaxOptionsFromField: Option<string>
    var ajaxOptionsMethod: Option<string>

    constructor (name: string)
      ensures this.name == name && value == Null && options == []
      ensures optionsKey.None? && optionsLabel.None? && !routeActivated
      ensures ajaxOptionsFromField.None? && ajaxOptionsMethod.None?
    {
      this.name := name;
      value := Null;
      options := [];
      optionsKey := None;
      optionsLabel := None;
      routeActivated := false;
      ajaxMinSearchLength := 0;
      ajaxOptionsFromField := None;
      ajaxOptionsMethod := None;
    }

    /** `options($options, $optionsKey, $optionsLabel)` */
    method Options(pairs: seq<(Value, Value)>, key: Option<string>, labelSpec: Option<LabelSpec>)
      modifies this`options
      ensures options == OptionsList(pairs, key, labelSpec)
    {
      options := TransformOptions(pairs, key, labelSpec);
    }

    /** `optionsFrom($keyColumn, $labelColumns)` */
    method OptionsFrom(keyColumn: string, labelColumns: LabelSpec)
      modifies this`optionsKey, this`optionsLabel
      ensures optionsKey == Some(keyColumn) && optionsLabel == Some(labelColumns)
    {
      optionsKey := Some(keyColumn);
      optionsLabel := Some(labelColumns);
    }

    /** `setValueForFront` */
    method SetValueForFront(v: Value)
      modifies this`value
      ensures value == FrontValue(v, optionsKey)
    {
      value := FrontValue(v, optionsKey);
    }

    /** `prepareValueForFront`: the related candidates of the model are
        loaded as options only when both a key column and a label are set;
        then the value is set for the front end. */
    method PrepareValueForFront(v: Value, candidates: seq<(Value, Value)>)
      modifies this`options, this`value
      ensures OptTruthy(optionsKey) && LabelTruthy(optionsLabel) ==> options == OptionsList(candidates, optionsKey, optionsLabel)
      ensures !(OptTruthy(optionsKey) && LabelTruthy(optionsLabel)) ==> options == old(options)
      ensures value == FrontValue(v, optionsKey)
    {
      if OptTruthy(optionsKey) && LabelTruthy(optionsLabel) {
        Options(candidates, optionsKey, optionsLabel);
      }
      SetValueForFront(v);
    }

    /** `searchOptions($minSearchLength, $methodName)` */
    method SearchOptions(minSearchLength: int, methodName: Option<string>)
      modifies this`routeActivated, this`ajaxMinSearchLength, this`ajaxOptionsMethod
      ensures routeActivated && ajaxMinSearchLength == minSearchLength
      ensures ajaxOptionsMethod == Some(AjaxOptionsMethod(methodName, name))
    {
      routeActivated := true;
      ajaxMinSearchLength := minSearchLength;
      ajaxOptionsMethod := Some(AjaxOptionsMethod(methodName, name));
    }

    /** `optionsFromField($otherFieldName, $methodName)` */
    method OptionsFromField(otherFieldName: string, methodName: Option<string>)
      modifies this`routeActivated, this`ajaxOptionsFromField, this`ajaxOptionsMethod
      ensures routeActivated && ajaxOptionsFromField == Some(otherFieldName)
      ensures ajaxOptionsMethod == Some(AjaxOptionsMethod(methodName, name))
    {
      routeActivated := true;
      ajaxOptionsFromField := Some(otherFieldName);
      ajaxOptionsMethod := Some(AjaxOptionsMethod(methodName, name));
    }
  }
}
