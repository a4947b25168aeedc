/** The field value binder: a Field's state, the gates that decide whether it
    reads or writes its record, and its display and save phases. The model
    layer (ModelManager and the model's own cast table) is a record of
    functions; what the save phases ask that layer to write is returned as an
    ordered list of operations. */
module Komponents {
  import opened Kompo
  import VM = ValidationManager

  /** A record instance, as the model layer sees it. */
  datatype ModelRef = ModelRef(id: nat)

  /** ModelManager and the model's cast declarations, left uninterpreted. */
  datatype ModelLayer = ModelLayer(
    parseFromFieldName: (ModelRef, string) -> (ModelRef, string),
    getValueFromDb: (ModelRef, string) -> Value,
    declaresCast: (ModelRef, string) -> bool,
    fillsBeforeSave: (ModelRef, string) -> bool,
    fillsAfterSave: (ModelRef, string) -> bool,
    decode: Value -> Value)

  /** What a save phase asks the model layer to do. */
  datatype ModelOp =
    | MergeArrayCast(model: ModelRef, attribute: string)
    | FillAttribute(model: ModelRef, attribute: string, value: Value, extra: Value)
    | SaveAndLoadRelation(model: ModelRef, attribute: string, value: Value, extra: Value)

  /** A field's name: one attribute, or several (a field that writes more
      than one attribute). */
  datatype FieldName = Single(name: string) | Many(names: seq<string>)

  /** `Arr::collect($this->name)`: the names a phase iterates over. */
  function Names(n: FieldName): seq<string> {
    match n
    case Single(s) => [s]
    case Many(ns) => ns
  }

  /** The optional hooks a Field subclass may define (`method_exists`). */
  datatype Hooks = Hooks(
    getValueFromModel: Option<(ModelRef, string) -> Value>,
    prepareValueForFront: Option<(string, Value, ModelRef) -> Value>,
    setAttributeFromRequest: Option<(string, ModelRef) -> Value>,
    setRelationFromRequest: Option<(string, ModelRef) -> Value>)

  /** The part of a field's state that its display and save phases read. */
  datatype Settings = Settings(castsToArray: bool, hooks: Hooks, extraAttributes: Value)

  /** The request's input bag. */
  type Input = map<string, Value>

  // ---------------------------------------------------------------- gates

  /** `shouldCastToArray`: force an array cast only when the model has no cast
      for the attribute and the field deals with arrays. */
  predicate ShouldCastToArray(hasCast: bool, castsToArray: bool) {
    !hasCast && castsToArray
  }

  /** `$model->hasCast($name)` during a save phase: a declared cast, or one
      merged in earlier in the same phase. */
  predicate HasCast(layer: ModelLayer, ops: seq<ModelOp>, m: ModelRef, n: string) {
    layer.declaresCast(m, n) || MergeArrayCast(m, n) in ops
  }

  /** The guard of `setValueFromDB`: only a Form with a model, and only when
      the field does not ignore the model. */
  predicate ReadsModel(kind: KomposerType, model: Option<ModelRef>, ignoresModel: bool) {
    kind == Form && model.Some? && !ignoresModel
  }

  // -------------------------------------------------------- display phase

  /** The value `setValueFromDB` obtains for one name: from the field's
      `getValueFromModel` hook or from the database, decoded when the field
      forces an array cast. */
  function Fetched(name: string, model: ModelRef, layer: ModelLayer, b: Settings): Value {
    var target := layer.parseFromFieldName(model, name);
    var m, n := target.0, target.1;
    var raw := match b.hooks.getValueFromModel
               case Some(h) => h(m, n)
               case None => layer.getValueFromDb(m, n);
    if ShouldCastToArray(layer.declaresCast(m, n), b.castsToArray) then layer.decode(raw) else raw
  }

  /** One iteration of `setValueFromDB`: the `prepareValueForFront` hook
      decides, or else a falsy fetched value keeps the current one. */
  function DisplayStep(current: Value, name: string, model: ModelRef, layer: ModelLayer, b: Settings): Value {
    var target := layer.parseFromFieldName(model, name);
    var v := Fetched(name, model, layer, b);
    match b.hooks.prepareValueForFront
    case Some(h) => h(target.1, v, target.0)
    case None => if Truthy(v) then v else current
  }

  /** The field's value after `setValueFromDB` has gone through `names`. */
  function DisplayValueFrom(current: Value, names: seq<string>, model: ModelRef, layer: ModelLayer, b: Settings): Value
    decreases |names|
  {
    if names == [] then current
    else DisplayValueFrom(DisplayStep(current, names[0], model, layer, b), names[1..], model, layer, b)
  }

  /** Without a `prepareValueForFront` hook, falsy values from the database
      keep the field's existing value (a default set earlier survives). */
  lemma {:induction false} FalsyFetchKeepsValue(current: Value, names: seq<string>, model: ModelRef, layer: ModelLayer, b: Settings)
    requires b.hooks.prepareValueForFront.None?
    requires forall i :: 0 <= i < |names| ==> !Truthy(Fetched(names[i], model, layer, b))
    ensures DisplayValueFrom(current, names, model, layer, b) == current
    decreases |names|
  {
    if names != [] {
      FalsyFetchKeepsValue(current, names[1..], model, layer, b);
    }
  }

  /** Without a hook, a truthy value fetched for the last name is the value the
      field ends with. */
  lemma {:induction false} LastTruthyFetchWins(current: Value, names: seq<string>, model: ModelRef, layer: ModelLayer, b: Settings)
    requires b.hooks.prepareValueForFront.None?
    requires names != [] && Truthy(Fetched(names[|names| - 1], model, layer, b))
    ensures DisplayValueFrom(current, names, model, layer, b) == Fetched(names[|names| - 1], model, layer, b)
    decreases |names|
  {
    if |names| > 1 {
      LastTruthyFetchWins(DisplayStep(current, names[0], model, layer, b), names[1..], model, layer, b);
    }
  }

  // ------------------------------------------------------ readonly gating

  /** The condition of `checkSetReadonly` for one name: authorization is
      denied outright, or it is a list of names that lacks this one. */
  predicate ForcesReadonly(authorization: Value, name: string) {
    || !Truthy(authorization)
    || (authorization.List? && Str(name) !in authorization.items)
    || (authorization.Dict? && Str(name) !in authorization.entries.Values)
  }

  predicate SomeNameForcesReadonly(authorization: Value, names: seq<string>) {
    exists i :: 0 <= i < |names| && ForcesReadonly(authorization, names[i])
  }

  /** The readonly flag after `checkSetReadonly`, with the Komposer's
      authorization reaching the per-name check. `authorization` is None when
      the Komposer defines no `authorize` method. */
  predicate ReadonlyAfterCheck(readOnly: bool, smartReadonly: bool, authorization: Option<Value>, names: seq<string>) {
    readOnly || (smartReadonly && authorization.Some? && SomeNameForcesReadonly(authorization.value, names))
  }

  /** The readonly flag after `checkSetReadonly` as the source is written: the
      per-name closure does not capture `$authorization`, so it sees null. */
  predicate ReadonlyAfterCheckAsWritten(readOnly: bool, smartReadonly: bool, authorization: Option<Value>, names: seq<string>) {
    readOnly || (smartReadonly && authorization.Some? && SomeNameForcesReadonly(Null, names))
  }

  /** As written, every field with a name becomes readonly whenever smart
      readonly fields are on and the Komposer defines `authorize`, whatever it
      returns. */
  lemma AsWrittenEveryFieldReadonly(readOnly: bool, authorization: Value, names: seq<string>)
    requires names != []
    ensures ReadonlyAfterCheckAsWritten(readOnly, true, Some(authorization), names)
  {
    assert ForcesReadonly(Null, names[0]);
  }

  /** With the authorization reaching the check, a list of authorized names
      leaves the field editable exactly when it lists all of its names. */
  lemma {:induction false} AuthorizedNamesStayEditable(items: seq<Value>, names: seq<string>)
    requires items != []
    ensures ReadonlyAfterCheck(false, true, Some(List(items)), names)
            <==> exists i :: 0 <= i < |names| && Str(names[i]) !in items
  {
    if exists i :: 0 <= i < |names| && Str(names[i]) !in items {
      var i :| 0 <= i < |names| && Str(names[i]) !in items;
      assert ForcesReadonly(List(items), names[i]);
    }
  }

  /** Authorization `['name']` for a Komposer with fields `name` and `email`:
      `email` becomes readonly and `name` does not; as written, both do. */
  lemma ReadonlyScenario()
    ensures !ReadonlyAfterCheck(false, true, Some(List([Str("name")])), ["name"])
    ensures ReadonlyAfterCheck(false, true, Some(List([Str("name")])), ["email"])
    ensures ReadonlyAfterCheckAsWritten(false, true, Some(List([Str("name")])), ["name"])
    ensures ReadonlyAfterCheckAsWritten(false, true, Some(List([Str("name")])), ["email"])
  {
    AuthorizedNamesStayEditable([Str("name")], ["name"]);
    AuthorizedNamesStayEditable([Str("name")], ["email"]);
    assert Str("email") != Str("name");
    AsWrittenEveryFieldReadonly(false, List([Str("name")]), ["name"]);
    AsWrittenEveryFieldReadonly(false, List([Str("name")]), ["email"]);
  }

  // ---------------------------------------------------------- save phases

  /** The value a save phase writes: from the field's hook, or the request's
      input under the parsed attribute name. */
  function RequestValue(hook: Option<(string, ModelRef) -> Value>, input: Input, m: ModelRef, n: string): Value {
    match hook
    case Some(h) => h(n, m)
    case None => Lookup(input, n)
  }

  /** One iteration of `fillBeforeSave`. */
  function BeforeSaveStep(ops: seq<ModelOp>, name: string, input: Input, model: ModelRef, layer: ModelLayer, b: Settings): seq<ModelOp> {
    if name !in input then ops
    else
      var target := layer.parseFromFieldName(model, name);
      var m, n := target.0, target.1;
      if !layer.fillsBeforeSave(m, n) then ops
      else
        var cast := ShouldCastToArray(HasCast(layer, ops, m, n), b.castsToArray);
        (if cast then ops + [MergeArrayCast(m, n)] else ops)
        + [FillAttribute(m, n, RequestValue(b.hooks.setAttributeFromRequest, input, m, n), b.extraAttributes)]
  }

  /** The operations `fillBeforeSave` has asked for after going through `names`. */
  function BeforeSaveFrom(ops: seq<ModelOp>, names: seq<string>, input: Input, model: ModelRef, layer: ModelLayer, b: Settings): seq<ModelOp>
    decreases |names|
  {
    if names == [] then ops
    else BeforeSaveFrom(BeforeSaveStep(ops, names[0], input, model, layer, b), names[1..], input, model, layer, b)
  }

  /** One iteration of `fillAfterSave`. */
  function AfterSaveStep(ops: seq<ModelOp>, name: string, input: Input, model: ModelRef, layer: ModelLayer, b: Settings): seq<ModelOp> {
    if name !in input then ops
    else
      var target := layer.parseFromFieldName(model, name);
      var m, n := target.0, target.1;
      if !layer.fillsAfterSave(m, n) then ops
      else ops + [SaveAndLoadRelation(m, n, RequestValue(b.hooks.setRelationFromRequest, input, m, n), b.extraAttributes)]
  }

  /** The operations `fillAfterSave` has asked for after going through `names`. */
  function AfterSaveFrom(ops: seq<ModelOp>, names: seq<string>, input: Input, model: ModelRef, layer: ModelLayer, b: Settings): seq<ModelOp>
    decreases |names|
  {
    if names == [] then ops
    else AfterSaveFrom(AfterSaveStep(ops, names[0], input, model, layer, b), names[1..], input, model, layer, b)
  }

  /** The attributes written (filled or saved as relations), in order. */
  function WriteTargets(ops: seq<ModelOp>): seq<(ModelRef, string)> {
    if ops == [] then []
    else (if ops[0].MergeArrayCast? then [] else [(ops[0].model, ops[0].attribute)]) + WriteTargets(ops[1..])
  }

  lemma {:induction false} WriteTargetsAppend(a: seq<ModelOp>, b: seq<ModelOp>)
    ensures WriteTargets(a + b) == WriteTargets(a) + WriteTargets(b)
  {
    if a != [] {
      assert (a + b)[0] == a[0];
      assert (a + b)[1..] == a[1..] + b;
      WriteTargetsAppend(a[1..], b);
    } else {
      assert a + b == b;
    }
  }

  /** The targets a phase should write: each name present in the request,
      parsed against the model, kept when the phase accepts it. */
  function Eligible(names: seq<string>, input: Input, model: ModelRef, parse: (ModelRef, string) -> (ModelRef, string),
                    accepts: (ModelRef, string) -> bool): seq<(ModelRef, string)>
  {
    if names == [] then []
    else
      var t := parse(model, names[0]);
      (if names[0] in input && accepts(t.0, t.1) then [t] else []) + Eligible(names[1..], input, model, parse, accepts)
  }

  /** The names present in the request, in order. */
  function Present(names: seq<string>, input: Input): (r: seq<string>)
    ensures forall i :: 0 <= i < |r| ==> r[i] in input
    ensures |r| <= |names|
  {
    if names == [] then []
    else (if names[0] in input then [names[0]] else []) + Present(names[1..], input)
  }

  /** `fillBeforeSave` writes exactly one attribute per name present in the
      request whose target `fillsBeforeSave`, in the order of the names. */
  lemma {:induction false} BeforeSaveWritesEligible(ops: seq<ModelOp>, names: seq<string>, input: Input, model: ModelRef, layer: ModelLayer, b: Settings)
    ensures WriteTargets(BeforeSaveFrom(ops, names, input, model, layer, b))
            == WriteTargets(ops) + Eligible(names, input, model, layer.parseFromFieldName, layer.fillsBeforeSave)
    decreases |names|
  {
    if names != [] {
      var next := BeforeSaveStep(ops, names[0], input, model, layer, b);
      BeforeSaveWritesEligible(next, names[1..], input, model, layer, b);
      var t := layer.parseFromFieldName(model, names[0]);
      if names[0] in input && layer.fillsBeforeSave(t.0, t.1) {
        var added := next[|ops|..];
        assert next == ops + added;
        WriteTargetsAppend(ops, added);
        if added[0].MergeArrayCast? {
          assert added == [added[0]] + [added[1]];
          WriteTargetsAppend([added[0]], [added[1]]);
        }
      }
    }
  }

  /** `fillAfterSave` saves exactly one relation per name present in the
      request whose target `fillsAfterSave`, in the order of the names. */
  lemma {:induction false} AfterSaveWritesEligible(ops: seq<ModelOp>, names: seq<string>, input: Input, model: ModelRef, layer: ModelLayer, b: Settings)
    ensures WriteTargets(AfterSaveFrom(ops, names, input, model, layer, b))
            == WriteTargets(ops) + Eligible(names, input, model, layer.parseFromFieldName, layer.fillsAfterSave)
    decreases |names|
  {
    if names != [] {
      var next := AfterSaveStep(ops, names[0], input, model, layer, b);
      AfterSaveWritesEligible(next, names[1..], input, model, layer, b);
      if next != ops {
        WriteTargetsAppend(ops, next[|ops|..]);
        assert next == ops + next[|ops|..];
      }
    }
  }

  /** Names absent from the request make no difference to `fillBeforeSave`. */
  lemma {:induction false} BeforeSaveSkipsAbsent(ops: seq<ModelOp>, names: seq<string>, input: Input, model: ModelRef, layer: ModelLayer, b: Settings)
    ensures BeforeSaveFrom(ops, names, input, model, layer, b) == BeforeSaveFrom(ops, Present(names, input), input, model, layer, b)
    decreases |names|
  {
    if names != [] {
      var next := BeforeSaveStep(ops, names[0], input, model, layer, b);
      BeforeSaveSkipsAbsent(next, names[1..], input, model, layer, b);
      var rest := Present(names[1..], input);
      if names[0] in input {
        assert Present(names, input) == [names[0]] + rest;
        assert ([names[0]] + rest)[1..] == rest;
      } else {
        assert Present(names, input) == rest;
      }
    }
  }

  /** Names absent from the request make no difference to `fillAfterSave`. */
  lemma {:induction false} AfterSaveSkipsAbsent(ops: seq<ModelOp>, names: seq<string>, input: Input, model: ModelRef, layer: ModelLayer, b: Settings)
    ensures AfterSaveFrom(ops, names, input, model, layer, b) == AfterSaveFrom(ops, Present(names, input), input, model, layer, b)
    decreases |names|
  {
    if names != [] {
      var next := AfterSaveStep(ops, names[0], input, model, layer, b);
      AfterSaveSkipsAbsent(next, names[1..], input, model, layer, b);
      var rest := Present(names[1..], input);
      if names[0] in input {
        assert Present(names, input) == [names[0]] + rest;
        assert ([names[0]] + rest)[1..] == rest;
      } else {
        assert Present(names, input) == rest;
      }
    }
  }

  /** Every array cast is immediately followed by the fill of the same
      attribute. */
  predicate CastsPrecedeFills(ops: seq<ModelOp>) {
    forall j :: 0 <= j < |ops| && ops[j].MergeArrayCast? ==>
      j + 1 < |ops| && ops[j + 1].FillAttribute?
      && ops[j + 1].model == ops[j].model && ops[j + 1].attribute == ops[j].attribute
  }

  /** `fillBeforeSave` merges an array cast in only right before it fills that
      attribute. */
  lemma {:induction false} BeforeSaveCastsPrecedeFills(ops: seq<ModelOp>, names: seq<string>, input: Input, model: ModelRef, layer: ModelLayer, b: Settings)
    requires CastsPrecedeFills(ops)
    ensures CastsPrecedeFills(BeforeSaveFrom(ops, names, input, model, layer, b))
    decreases |names|
  {
    if names != [] {
      var next := BeforeSaveStep(ops, names[0], input, model, layer, b);
      assert CastsPrecedeFills(next) by {
        forall j | 0 <= j < |next| && next[j].MergeArrayCast?
          ensures j + 1 < |next| && next[j + 1].FillAttribute?
                  && next[j + 1].model == next[j].model && next[j + 1].attribute == next[j].attribute
        {
          if j < |ops| {
            assert next[j] == ops[j] && next[j + 1] == ops[j + 1];
          }
        }
      }
      BeforeSaveCastsPrecedeFills(next, names[1..], input, model, layer, b);
    }
  }

  /** `fillBeforeSave` only appends to what was asked before. */
  lemma {:induction false} BeforeSaveExtends(ops: seq<ModelOp>, names: seq<string>, input: Input, model: ModelRef, layer: ModelLayer, b: Settings)
    ensures var r := BeforeSaveFrom(ops, names, input, model, layer, b);
            |ops| <= |r| && r[..|ops|] == ops
    decreases |names|
  {
    if names != [] {
      var next := BeforeSaveStep(ops, names[0], input, model, layer, b);
      BeforeSaveExtends(next, names[1..], input, model, layer, b);
      var r := BeforeSaveFrom(next, names[1..], input, model, layer, b);
      assert r[..|ops|] == r[..|next|][..|ops|];
    }
  }

  /** `fillBeforeSave` merges an array cast only for an attribute the model
      declares no cast for, only when the field casts to arrays, and at most
      once per attribute. */
  lemma {:induction false} BeforeSaveCastsOnlyWhenNeeded(ops: seq<ModelOp>, names: seq<string>, input: Input, model: ModelRef, layer: ModelLayer, b: Settings)
    ensures var r := BeforeSaveFrom(ops, names, input, model, layer, b);
            forall j :: |ops| <= j < |r| && r[j].MergeArrayCast? ==>
              b.castsToArray && !layer.declaresCast(r[j].model, r[j].attribute)
              && MergeArrayCast(r[j].model, r[j].attribute) !in r[..j]
    decreases |names|
  {
    if names != [] {
      var next := BeforeSaveStep(ops, names[0], input, model, layer, b);
      BeforeSaveCastsOnlyWhenNeeded(next, names[1..], input, model, layer, b);
      BeforeSaveExtends(next, names[1..], input, model, layer, b);
      var r := BeforeSaveFrom(next, names[1..], input, model, layer, b);
      forall j | |ops| <= j < |next| && r[j].MergeArrayCast?
        ensures b.castsToArray && !layer.declaresCast(r[j].model, r[j].attribute)
                && MergeArrayCast(r[j].model, r[j].attribute) !in r[..j]
      {
        assert r[j] == next[j];
        assert r[..j] == next[..j];
        assert j == |ops| && next[..j] == ops;
      }
    }
  }

  /** Conversely, every fill of an attribute that needs an array cast (the
      field casts to arrays and the model declares no cast for it) comes
      after that cast has been merged. */
  lemma {:induction false} BeforeSaveFillsAreCast(ops: seq<ModelOp>, names: seq<string>, input: Input, model: ModelRef, layer: ModelLayer, b: Settings)
    ensures var r := BeforeSaveFrom(ops, names, input, model, layer, b);
            forall j :: |ops| <= j < |r| && r[j].FillAttribute? && b.castsToArray
                        && !layer.declaresCast(r[j].model, r[j].attribute) ==>
              MergeArrayCast(r[j].model, r[j].attribute) in r[..j]
    decreases |names|
  {
    if names != [] {
      var next := BeforeSaveStep(ops, names[0], input, model, layer, b);
      BeforeSaveFillsAreCast(next, names[1..], input, model, layer, b);
      BeforeSaveExtends(next, names[1..], input, model, layer, b);
      var r := BeforeSaveFrom(next, names[1..], input, model, layer, b);
      forall j | |ops| <= j < |next| && r[j].FillAttribute? && b.castsToArray
                 && !layer.declaresCast(r[j].model, r[j].attribute)
        ensures MergeArrayCast(r[j].model, r[j].attribute) in r[..j]
      {
        assert r[j] == next[j];
        assert r[..j] == next[..j];
        assert next[..|ops|] == ops;
        if j == |ops| {
          assert MergeArrayCast(r[j].model, r[j].attribute) in ops;
          assert next[..j] == ops;
        } else {
          assert j == |ops| + 1 && next[|ops|] == MergeArrayCast(r[j].model, r[j].attribute);
        }
      }
    }
  }

  /** `fillAfterSave` only saves relations: it never fills or casts. */
  lemma {:induction false} AfterSaveOnlyRelations(ops: seq<ModelOp>, names: seq<string>, input: Input, model: ModelRef, layer: ModelLayer, b: Settings)
    ensures var r := AfterSaveFrom(ops, names, input, model, layer, b);
            |ops| <= |r| && r[..|ops|] == ops
            && forall j :: |ops| <= j < |r| ==> r[j].SaveAndLoadRelation?
    decreases |names|
  {
    if names != [] {
      var next := AfterSaveStep(ops, names[0], input, model, layer, b);
      AfterSaveOnlyRelations(next, names[1..], input, model, layer, b);
      var r := AfterSaveFrom(next, names[1..], input, model, layer, b);
      assert r[..|next|] == next;
      assert r[..|ops|] == next[..|ops|];
    }
  }

  // --------------------------------------------------------------- objects

  /** The owning Komposer, as far as a Field uses it. */
  class Komposer {
    const kind: KomposerType
    const model: Option<ModelRef>
    /** The result of `authorize()`, or None when the Komposer defines none. */
    const authorization: Option<Value>
    var rules: VM.RulesMap
    var components: seq<Field>

    constructor(kind: KomposerType, model: Option<ModelRef>, authorization: Option<Value>)
      ensures this.kind == kind && this.model == model && this.authorization == authorization
      ensures rules == map[] && components == []
    {
      this.kind := kind;
      this.model := model;
      this.authorization := authorization;
      rules := map[];
      components := [];
    }

    /** `addRulesToKomposer`. */
    method AddRules(declared: map<string, VM.RuleDecl>)
      modifies this`rules
      ensures rules == VM.MergeRules(declared, old(rules))
    {
      rules := VM.MergeRules(declared, rules);
    }
  }

  /** `pushFieldRulesToKomposer`: hands the field's rules to the Komposer, if
      it has any. */
  method PushFieldRulesToKomposer(field: Field, komposer: Komposer)
    modifies komposer`rules
    ensures komposer.rules == VM.PushedRules(field.rules, old(komposer.rules))
  {
    if field.rules != map[] {
      komposer.AddRules(VM.AsDecls(field.rules));
    }
  }

  class Field {
    var name: FieldName
    var value: Value
    /** `data('readOnly')` */
    var readOnly: bool
    /** `data('required')`: the required indicator, once set. */
    var required: Option<string>
    /** `data('rules')` */
    var rules: VM.RulesMap
    var extraAttributes: Value
    /** The eloquent configuration. */
    var ignoresModel: bool
    var doesNotFill: bool
    /** `$this->castsToArray ?? false`, fixed by the field's kind. */
    const castsToArray: bool
    const hooks: Hooks

    constructor(name: FieldName, castsToArray: bool, hooks: Hooks)
      ensures this.name == name && this.castsToArray == castsToArray && this.hooks == hooks
      ensures value == Null && !readOnly && required == None && rules == map[]
      ensures extraAttributes == Null && !ignoresModel && !doesNotFill
    {
      this.name := name;
      this.castsToArray := castsToArray;
      this.hooks := hooks;
      value := Null;
      readOnly := false;
      required := None;
      rules := map[];
      extraAttributes := Null;
      ignoresModel := false;
      doesNotFill := false;
    }

    function Binding(): Settings
      reads this
    {
      Settings(castsToArray, hooks, extraAttributes)
    }

    /** `pristine`: the field has no (truthy) value yet, i.e. it holds one
        of the values PHP reads as false. */
    predicate Pristine()
      reads this
      ensures Pristine() <==> value in {Null, Bool(false), Int(0), Str(""), Str("0"), List([]), Dict(map[])}
    {
      !Truthy(value)
    }

    predicate IsReadOnly()
      reads this
    {
      readOnly
    }

    /** `doesNotFillCondition`: the save phases do nothing for this field. */
    predicate DoesNotFillCondition()
      reads this
    {
      doesNotFill || IsReadOnly()
    }

    /** `value()` / `setValue()` */
    method SetValue(v: Value)
      modifies this`value
      ensures value == v
    {
      value := v;
    }

    /** `default()`: sets the value only while the field is pristine. */
    method Default(v: Value)
      modifies this`value
      ensures value == if old(Pristine()) then v else old(value)
      ensures Truthy(v) ==> !Pristine()
    {
      if Pristine() {
        SetValue(v);
      }
    }

    /** `rules()`: the declared rules merged into the field's own. Fails (a
        PHP type error, or a keyed array without the field's name) without
        changing anything when the name is not a single string. */
    method Rules(arg: VM.RulesArg) returns (ok: bool)
      modifies this`rules
      ensures ok <==> name.Single? && VM.FieldRules(arg, name.name).Some?
      ensures ok ==> rules == VM.MergeRules(VM.FieldRules(arg, name.name).value, old(rules))
      ensures !ok ==> rules == old(rules)
    {
      ok := false;
      if name.Single? {
        var normalized := VM.FieldRules(arg, name.name);
        if normalized.Some? {
          rules := VM.MergeRules(normalized.value, rules);
          ok := true;
        }
      }
    }

    /** `required()`: records the indicator and adds the `required` rule. */
    method Required(indicator: string) returns (ok: bool)
      modifies this`required, this`rules
      ensures required == Some(indicator)
      ensures ok <==> name.Single?
      ensures ok ==> rules == VM.MergeRules(map[name.name := VM.Pipe("required")], old(rules))
      ensures ok ==> rules[name.name] == VM.Stored(old(rules), name.name) + ["required"]
      ensures !ok ==> rules == old(rules)
    {
      required := Some(indicator);
      ok := Rules(VM.Single(VM.Pipe("required")));
      if ok {
        VM.RequiredAddsToken(name.name, old(rules));
      }
    }

    /** `readOnly()` */
    method ReadOnly()
      modifies this`readOnly
      ensures readOnly
    {
      readOnly := true;
    }

    /** `extraAttributes()` */
    method ExtraAttributes(attributes: map<string, Value>)
      modifies this`extraAttributes
      ensures extraAttributes == Dict(attributes)
    {
      extraAttributes := Dict(attributes);
    }

    /** `setValueFromDB`: a no-op unless the Komposer is a Form with a model
        and the field does not ignore it; then each name's value is fetched
        and set in turn. */
    method SetValueFromDB(komposer: Komposer, layer: ModelLayer)
      modifies this`value
      ensures value == if ReadsModel(komposer.kind, komposer.model, ignoresModel)
                       then DisplayValueFrom(old(value), Names(name), komposer.model.value, layer, Binding())
                       else old(value)
    {
      if komposer.kind != Form || komposer.model.None? || ignoresModel {
        return;
      }
      var model := komposer.model.value;
      var names := Names(name);
      for i := 0 to |names|
        invariant DisplayValueFrom(value, names[i..], model, layer, Binding())
                  == DisplayValueFrom(old(value), names, model, layer, Binding())
      {
        var target := layer.parseFromFieldName(model, names[i]);
        var m, n := target.0, target.1;
        var v := match hooks.getValueFromModel
                 case Some(h) => h(m, n)
                 case None => layer.getValueFromDb(m, n);
        if ShouldCastToArray(layer.declaresCast(m, n), castsToArray) {
          v := layer.decode(v);
        }
        match hooks.prepareValueForFront {
          case Some(h) =>
            value := h(n, v, m);
          case None =>
            SetValue(if Truthy(v) then v else value);
        }
        assert names[i..][1..] == names[i + 1..];
      }
    }

    /** `checkSetReadonly`, with the Komposer's authorization reaching the
        per-name check. */
    method CheckSetReadonly(komposer: Komposer, smartReadonly: bool)
      modifies this`readOnly
      ensures readOnly == ReadonlyAfterCheck(old(readOnly), smartReadonly, komposer.authorization, Names(name))
    {
      if smartReadonly && komposer.authorization.Some? {
        var authorization := komposer.authorization.value;
        var names := Names(name);
        for i := 0 to |names|
          invariant readOnly == (old(readOnly) || exists j :: 0 <= j < i && ForcesReadonly(authorization, names[j]))
        {
          if ForcesReadonly(authorization, names[i]) {
            ReadOnly();
          }
        }
      }
    }

    /** `prepareForDisplay`: push the field's rules, read its value from the
        record, then apply the readonly gate. */
    method PrepareForDisplay(komposer: Komposer, layer: ModelLayer, smartReadonly: bool)
      modifies this`value, this`readOnly, komposer`rules
      ensures komposer.rules == VM.PushedRules(rules, old(komposer.rules))
      ensures value == if ReadsModel(komposer.kind, komposer.model, ignoresModel)
                       then DisplayValueFrom(old(value), Names(name), komposer.model.value, layer, Binding())
                       else old(value)
      ensures readOnly == ReadonlyAfterCheck(old(readOnly), smartReadonly, komposer.authorization, Names(name))
    {
      PushFieldRulesToKomposer(this, komposer);
      SetValueFromDB(komposer, layer);
      CheckSetReadonly(komposer, smartReadonly);
    }

    /** `prepareForSave`: the field joins the Komposer's components, then its
        rules are pushed. */
    method PrepareForSave(komposer: Komposer)
      modifies komposer`components, komposer`rules
      ensures komposer.components == old(komposer.components) + [this]
      ensures komposer.rules == VM.PushedRules(rules, old(komposer.rules))
    {
      komposer.components := komposer.components + [this];
      PushFieldRulesToKomposer(this, komposer);
    }

    /** `fillBeforeSave`: nothing when the field does not fill or is
        readonly; otherwise, for each name present in the request whose target
        fills before save, an optional array cast and then the fill. */
    method FillBeforeSave(input: Input, model: ModelRef, layer: ModelLayer) returns (ops: seq<ModelOp>)
      ensures DoesNotFillCondition() ==> ops == []
      ensures !DoesNotFillCondition() ==> ops == BeforeSaveFrom([], Names(name), input, model, layer, Binding())
    {
      ops := [];
      if DoesNotFillCondition() {
        return;
      }
      var names := Names(name);
      for i := 0 to |names|
        invariant BeforeSaveFrom(ops, names[i..], input, model, layer, Binding())
                  == BeforeSaveFrom([], names, input, model, layer, Binding())
      {
        assert names[i..][1..] == names[i + 1..];
        if names[i] !in input {
          continue;
        }
        var target := layer.parseFromFieldName(model, names[i]);
        var m, n := target.0, target.1;
        if !layer.fillsBeforeSave(m, n) {
          continue;
        }
        if ShouldCastToArray(HasCast(layer, ops, m, n), castsToArray) {
          ops := ops + [MergeArrayCast(m, n)];
        }
        var v := RequestValue(hooks.setAttributeFromRequest, input, m, n);
        ops := ops + [FillAttribute(m, n, v, extraAttributes)];
      }
    }

    /** `fillAfterSave`: nothing when the field does not fill or is readonly;
        otherwise, for each name present in the request whose target fills
        after save, the relation is saved. */
    method FillAfterSave(input: Input, model: ModelRef, layer: ModelLayer) returns (ops: seq<ModelOp>)
      ensures DoesNotFillCondition() ==> ops == []
      ensures !DoesNotFillCondition() ==> ops == AfterSaveFrom([], Names(name), input, model, layer, Binding())
    {
      ops := [];
      if DoesNotFillCondition() {
        return;
      }
      var names := Names(name);
      for i := 0 to |names|
        invariant AfterSaveFrom(ops, names[i..], input, model, layer, Binding())
                  == AfterSaveFrom([], names, input, model, layer, Binding())
      {
        assert names[i..][1..] == names[i + 1..];
        if names[i] !in input {
          continue;
        }
        var target := layer.parseFromFieldName(model, names[i]);
        var m, n := target.0, target.1;
        if !layer.fillsAfterSave(m, n) {
          continue;
        }
        var v := RequestValue(hooks.setRelationFromRequest, input, m, n);
        ops := ops + [SaveAndLoadRelation(m, n, v, extraAttributes)];
      }
    }
  }
}
