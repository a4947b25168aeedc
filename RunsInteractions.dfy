/** The client-side interaction selector mixed into every element: it picks
    the interactions of an element (or of a parent action) by trigger type and
    action kind and runs their actions in list order. Running an action is
    recorded in the element's run log; what `Action.run` then does is outside
    the model. */
module Interactions {
  import opened Kompo

  /** An action's specification: its kind and its own follow-up interactions. */
  datatype ActionSpec = ActionSpec(actionType: string, interactions: Option<seq<Interaction>>)

  /** An interaction: the trigger type ("click", "input", "success", ...), the
      action it runs and an optional debounce delay in milliseconds. */
  datatype Interaction = Interaction(interactionType: string, action: ActionSpec, debounce: Option<nat>)

  /** One `new Action(specs, this).run(response, parentAction)`. */
  datatype Run = Run(action: ActionSpec, response: Option<Value>, parent: Option<ActionSpec>)

  /** Which action kinds a runner accepts besides the trigger type. */
  datatype ActionFilter = AnyAction | Only(kind: string) | Except(kinds: seq<string>)

  /** `interactions && interactions.length`: an absent list is as empty. */
  function Listed(ints: Option<seq<Interaction>>): seq<Interaction> {
    ints.GetOr([])
  }

  predicate Accepts(f: ActionFilter, i: Interaction, triggerType: string) {
    i.interactionType == triggerType
    && match f
       case AnyAction => true
       case Only(kind) => i.action.actionType == kind
       case Except(kinds) => i.action.actionType !in kinds
  }

  /** The interactions a runner selects, in list order. */
  function Matching(ints: seq<Interaction>, triggerType: string, f: ActionFilter): (r: seq<Interaction>)
    ensures |r| <= |ints|
    ensures forall k :: 0 <= k < |r| ==> Accepts(f, r[k], triggerType)
  {
    if ints == [] then []
    else
      var rest := Matching(ints[1..], triggerType, f);
      if Accepts(f, ints[0], triggerType) then [ints[0]] + rest else rest
  }

  /** An interaction is selected exactly when it is in the list and accepted;
      selection never duplicates one. */
  lemma {:induction false} MatchingIsFilter(ints: seq<Interaction>, triggerType: string, f: ActionFilter)
    ensures forall x :: x in Matching(ints, triggerType, f) <==> x in ints && Accepts(f, x, triggerType)
    ensures multiset(Matching(ints, triggerType, f)) <= multiset(ints)
    decreases |ints|
  {
    if ints != [] {
      MatchingIsFilter(ints[1..], triggerType, f);
      assert ints == [ints[0]] + ints[1..];
    }
  }

  /** Selection distributes over concatenation, so it keeps list order. */
  lemma {:induction false} MatchingAppend(xs: seq<Interaction>, ys: seq<Interaction>, triggerType: string, f: ActionFilter)
    ensures Matching(xs + ys, triggerType, f) == Matching(xs, triggerType, f) + Matching(ys, triggerType, f)
    decreases |xs|
  {
    if xs == [] {
      assert xs + ys == ys;
    } else {
      assert (xs + ys)[1..] == xs[1..] + ys;
      MatchingAppend(xs[1..], ys, triggerType, f);
    }
  }

  /** `$_interactionsOfType`: every interaction of the given type, in order;
      an absent list gives none. */
  function InteractionsOfType(ints: Option<seq<Interaction>>, triggerType: string): (r: seq<Interaction>)
    ensures ints.None? || ints.value == [] ==> r == []
    ensures forall k :: 0 <= k < |r| ==> r[k].interactionType == triggerType
  {
    Matching(Listed(ints), triggerType, AnyAction)
  }

  /** Selecting one action kind among the interactions of a type is filtering
      the interactions of that type: the result is a subsequence of them. */
  lemma {:induction false} OnlyFiltersOfType(ints: seq<Interaction>, triggerType: string, kind: string)
    ensures Matching(Matching(ints, triggerType, AnyAction), triggerType, Only(kind)) == Matching(ints, triggerType, Only(kind))
    decreases |ints|
  {
    if ints != [] {
      OnlyFiltersOfType(ints[1..], triggerType, kind);
      var any := Matching(ints, triggerType, AnyAction);
      if Accepts(AnyAction, ints[0], triggerType) {
        assert any == [ints[0]] + Matching(ints[1..], triggerType, AnyAction);
        assert any[1..] == Matching(ints[1..], triggerType, AnyAction);
      }
    }
  }

  /** For one kind, the runner with that action and the runner without it
      together select every interaction of the type exactly once. */
  lemma {:induction false} OnlyAndExceptPartition(ints: seq<Interaction>, triggerType: string, kind: string)
    ensures multiset(Matching(ints, triggerType, Only(kind))) + multiset(Matching(ints, triggerType, Except([kind])))
            == multiset(Matching(ints, triggerType, AnyAction))
    decreases |ints|
  {
    if ints != [] {
      OnlyAndExceptPartition(ints[1..], triggerType, kind);
    }
  }

  /** The runs made for the selected interactions, one per interaction. */
  function RunsOf(ints: seq<Interaction>, response: Option<Value>, parent: Option<ActionSpec>): (r: seq<Run>)
    ensures |r| == |ints|
    ensures forall k :: 0 <= k < |ints| ==> r[k] == Run(ints[k].action, response, parent)
  {
    seq(|ints|, k requires 0 <= k < |ints| => Run(ints[k].action, response, parent))
  }

  /** A mounted element with the interaction mixin. */
  class Element {
    const interactions: Option<seq<Interaction>>
    var runs: seq<Run>

    constructor (interactions: Option<seq<Interaction>>)
      ensures this.interactions == interactions && runs == []
    {
      this.interactions := interactions;
      runs := [];
    }

    /** `$_runAction`: build one Action and run it once. */
    method RunAction(action: ActionSpec, response: Option<Value>, parent: Option<ActionSpec>)
      modifies this`runs
      ensures runs == old(runs) + [Run(action, response, parent)]
    {
      runs := runs + [Run(action, response, parent)];
    }

    /** The `forEach` the runners share: one run per selected interaction,
        in list order. */
    method RunMatching(ints: seq<Interaction>, triggerType: string, f: ActionFilter,
                       response: Option<Value>, parent: Option<ActionSpec>)
      modifies this`runs
      ensures runs == old(runs) + RunsOf(Matching(ints, triggerType, f), response, parent)
    {
      for i := 0 to |ints|
        invariant runs == old(runs) + RunsOf(Matching(ints[..i], triggerType, f), response, parent)
      {
        MatchingAppend(ints[..i], [ints[i]], triggerType, f);
        assert ints[..i + 1] == ints[..i] + [ints[i]];
        if Accepts(f, ints[i], triggerType) {
          RunAction(ints[i].action, response, parent);
        }
      }
      assert ints[..|ints|] == ints;
    }

    /** `$_runOwnInteractions(type)` */
    method RunOwnInteractions(triggerType: string)
      modifies this`runs
      ensures runs == old(runs) + RunsOf(InteractionsOfType(interactions, triggerType), None, None)
    {
      RunMatching(Listed(interactions), triggerType, AnyAction, None, None);
    }

    /** `$_runOwnInteractionsWithAction(type, action)` */
    method RunOwnInteractionsWithAction(triggerType: string, kind: string)
      modifies this`runs
      ensures runs == old(runs) + RunsOf(Matching(Listed(interactions), triggerType, Only(kind)), None, None)
    {
      RunMatching(Listed(interactions), triggerType, Only(kind), None, None);
    }

    /** `$_runOwnInteractionsWithoutActions(type, actions)` */
    method RunOwnInteractionsWithoutActions(triggerType: string, kinds: seq<string>)
      modifies this`runs
      ensures runs == old(runs) + RunsOf(Matching(Listed(interactions), triggerType, Except(kinds)), None, None)
    {
      RunMatching(Listed(interactions), triggerType, Except(kinds), None, None);
    }

    /** `$_runInteractionsOfType(parentAction, type, response)`: the parent
        action's own interactions, each run with the same response and parent. */
    method RunInteractionsOfType(parentAction: ActionSpec, triggerType: string, response: Option<Value>)
      modifies this`runs
      ensures runs == old(runs) + RunsOf(InteractionsOfType(parentAction.interactions, triggerType), response, Some(parentAction))
    {
      RunMatching(Listed(parentAction.interactions), triggerType, AnyAction, response, Some(parentAction));
    }

    /** `submitOnInput` */
    method SubmitOnInput()
      modifies this`runs
      ensures runs == old(runs) + RunsOf(Matching(Listed(interactions), "input", Only("submit")), None, None)
    {
      RunOwnInteractionsWithAction("input", "submit");
    }

    /** `filterOnInput` */
    method FilterOnInput()
      modifies this`runs
      ensures runs == old(runs) + RunsOf(Matching(Listed(interactions), "input", Only("refresh")), None, None)
    {
      RunOwnInteractionsWithAction("input", "refresh");
    }
  }

  // --------------------------------------------------------------- debounce

  /** The position of the first input interaction running an action of the
      given kind. */
  function FirstInputOfKind(ints: seq<Interaction>, kind: string): (r: Option<nat>)
    ensures r.Some? ==> r.value < |ints| && Accepts(Only(kind), ints[r.value], "input")
                        && forall j :: 0 <= j < r.value ==> !Accepts(Only(kind), ints[j], "input")
    ensures r.None? ==> forall j :: 0 <= j < |ints| ==> !Accepts(Only(kind), ints[j], "input")
  {
    if ints == [] then None
    else if Accepts(Only(kind), ints[0], "input") then Some(0)
    else
      match FirstInputOfKind(ints[1..], kind)
      case None => None
      case Some(j) => Some(j + 1)
  }

  /** The debounce delay of the on-input submit (kind "submit") or filter
      (kind "refresh"): the delay of the first input interaction of that kind,
      0 when there is none. A missing delay waits 0 ms, as `_.debounce` reads
      an undefined wait. */
  function DebounceDelay(ints: Option<seq<Interaction>>, kind: string): (d: nat)
    ensures d != 0 ==> exists i :: 0 <= i < |Listed(ints)| && Accepts(Only(kind), Listed(ints)[i], "input")
                                   && Listed(ints)[i].debounce == Some(d)
    ensures (forall i :: 0 <= i < |Listed(ints)| ==> !Accepts(Only(kind), Listed(ints)[i], "input")) ==> d == 0
  {
    var first := FirstInputOfKind(Listed(ints), kind);
    if first.Some? then Listed(ints)[first.value].debounce.GetOr(0) else 0
  }

  /** The delay belongs to the first interaction the debounced runner would
      run, and is 0 when that runner runs nothing. */
  lemma {:induction false} DebounceOfFirstRun(ints: seq<Interaction>, kind: string)
    ensures Matching(ints, "input", Only(kind)) == [] ==> DebounceDelay(Some(ints), kind) == 0
    ensures Matching(ints, "input", Only(kind)) != [] ==>
              DebounceDelay(Some(ints), kind) == Matching(ints, "input", Only(kind))[0].debounce.GetOr(0)
    decreases |ints|
  {
    if ints != [] && !Accepts(Only(kind), ints[0], "input") {
      DebounceOfFirstRun(ints[1..], kind);
    }
  }

  /** `interactions['input']` on a list: a list has index and `length`
      properties only, so the lookup is undefined. */
  function ListProperty(ints: seq<Interaction>, key: string): Option<seq<Interaction>> {
    None
  }

  /** `_.find(candidates, t => t.action == kind)` with JavaScript's loose
      equality: an action object compares with a string through its string
      form "[object Object]". Gives the found delay, or 0. */
  function FindLoose(candidates: seq<Interaction>, kind: string): (d: nat)
    ensures kind != "[object Object]" ==> d == 0
  {
    if candidates == [] then 0
    else if "[object Object]" == kind then candidates[0].debounce.GetOr(0)
    else FindLoose(candidates[1..], kind)
  }

  /** The lookup as written. None stands for the TypeError raised when the
      element has no interaction list. */
  function DebounceDelayAsWritten(ints: Option<seq<Interaction>>, kind: string): (d: Option<nat>)
    ensures ints.None? <==> d.None?
  {
    if ints.None? then None
    else Some(FindLoose(ListProperty(ints.value, "input").GetOr([]), kind))
  }

  /** As written, every element with interactions gets a zero delay. */
  lemma AsWrittenDelayIsZero(ints: seq<Interaction>, kind: string)
    ensures DebounceDelayAsWritten(Some(ints), kind) == Some(0)
  {
  }

  /** An input interaction submitting with a 300 ms debounce: the lookup as
      written yields 0, the intended lookup 300. */
  lemma DebounceCounterexample()
    ensures var ints := [Interaction("input", ActionSpec("submit", None), Some(300))];
            DebounceDelayAsWritten(Some(ints), "submit") == Some(0) && DebounceDelay(Some(ints), "submit") == 300
  {
    var ints := [Interaction("input", ActionSpec("submit", None), Some(300))];
    assert Accepts(Only("submit"), ints[0], "input");
  }
}
