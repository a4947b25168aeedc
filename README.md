# Kompo core, modelled in Dafny

Kompo is a PHP/Laravel framework with a JavaScript front end. A page is
built from *Komposers*: Forms, Queries and Menus. Each holds components such
as Fields and Selects. This project models five parts of its core and
proves properties of them:

- **Validation-rule merge engine** (`ValidationManager.dfy`, module
  `ValidationManager`). A field's rules become an `attribute -> tokens` map.
  Pipe strings are split on `|`. New tokens are appended after the stored
  ones, attribute by attribute.
- **Field value binder** (`Field.dfy`, module `Komponents`). `Field` and
  `Komposer` are classes whose methods update their fields in place. The
  display phase reads the record, and the readonly gate follows. Both save
  phases return the ordered operations they ask of the model layer.
  `ModelManager` and the model's cast table are uninterpreted functions held
  in a `ModelLayer` value.
- **Request dispatcher** (`Dispatcher.dfy`, module `Routing`). It classifies
  a Komposer class, routes on the action header, and boots for display or
  for an action. It also replays batch requests. The ambient request is an
  explicit `Request` value. The decoding of the boot-info header, the
  booters and `KomposerHandler::performAction` are functions held in an
  `Env` value. A booter or the action may fail, and that failure ends the
  dispatch (and the batch it belongs to). `RunManyRequests` receives the
  nested dispatch as a function.
- **Client interaction selector** (`RunsInteractions.dfy`, module
  `Interactions`). It selects interactions by trigger type and action kind,
  and runs them in order. Each run is recorded in the element's run log.
  It also looks up the debounce delay.
- **Select options** (`Select.dfy`, module `Usable`). It turns key/value
  pairs into `{label, value}` options and picks the value the front end
  selects. It also names the ajax options method. `SelectBinding.dfy`
  plugs a Select into the Field display phase as its `prepareValueForFront`
  hook.

`Kompo.dfy` holds the shared vocabulary:
- `Option` and `Result`;
- PHP's dynamic values (`Value`);
- PHP truthiness (`Truthy`), property access on a record (`Prop`), and
  `$bag[$key] ?? null` (`Lookup`).

## Model

| member | source | states |
|---|---|---|
| ValidationManager.Split | src/Core/ValidationManager.php:69 | `explode('\|', s)` gives at least one piece, and no piece contains a pipe |
| ValidationManager.JoinSplit | src/Core/ValidationManager.php:69 | joining the pieces with `\|` gives back the original string |
| ValidationManager.SplitJoin | src/Core/ValidationManager.php:69 | splitting joined pipe-free tokens gives back exactly those tokens |
| ValidationManager.MergeAttribute | src/Core/ValidationManager.php:67-70 | the merged list is the old tokens, then the new ones; its length is the sum of both |
| ValidationManager.MergeRules | src/Core/ValidationManager.php:57-65 | keys are the union of old and declared keys; undeclared attributes keep their rules; declared ones get stored tokens followed by the declaration's tokens |
| ValidationManager.MergeKeepsOldRules | src/Core/ValidationManager.php:57-65 | merging never drops a rule: every stored list is a prefix of its merged list |
| ValidationManager.MergeTwiceRepeats | src/Core/ValidationManager.php:53-69 | merging the same rules twice repeats their tokens, so merging is not idempotent whenever a declaration has a token |
| ValidationManager.FieldRules | src/Core/ValidationManager.php:16-21 | an array keyed by the field's name is used as it is; any non-array declaration is wrapped as `{name: rules}` |
| ValidationManager.FieldRulesAppendUnderName | src/Core/ValidationManager.php:16-21 | `rules(d)` appends the tokens of `d` under the field's name and changes no other attribute |
| ValidationManager.RequiredAddsToken | src/Komponents/Field.php:188-193 | `required()` appends exactly the token `required` under the field's name |
| ValidationManager.AsDecls | src/Core/ValidationManager.php:43-44 | stored token lists, handed back as declarations, tokenize to themselves |
| ValidationManager.PushedRules | src/Core/ValidationManager.php:41-45 | a field with no rules leaves the Komposer's rules unchanged; otherwise each of the field's attributes gets the Komposer's tokens followed by the field's, and the other attributes are kept |
| Komponents.Komposer.AddRules | src/Core/ValidationManager.php:30-33 | the Komposer's rules become the merge of the declared rules into its stored rules |
| Komponents.PushFieldRulesToKomposer | src/Core/ValidationManager.php:41-45 | the Komposer's rules become `PushedRules` of the field's and its own |
| Komponents.Field.SetValue | src/Komponents/Field.php:115-130 | the value becomes the given one |
| Komponents.Field.Pristine | src/Komponents/Field.php:163-166 | the field is pristine exactly when its value is one PHP reads as false: null, false, 0, `""`, `"0"` or an empty array |
| Komponents.Field.IsReadOnly | src/Komponents/Field.php:210-213 | the readonly flag, as `ReadOnly` and `CheckSetReadonly` leave it; no ensures, its effect is stated by `FillBeforeSave` and `FillAfterSave` |
| Komponents.Field.DoesNotFillCondition | src/Komponents/Field.php:396-399 | the field does not fill or is readonly; no ensures, `FillBeforeSave` and `FillAfterSave` state that it makes both save phases ask for nothing |
| Komponents.ShouldCastToArray | src/Komponents/Field.php:406-409 | an array cast is forced only when the model has no cast for the attribute and the field casts to arrays; no ensures, `BeforeSaveCastsOnlyWhenNeeded` and `BeforeSaveFillsAreCast` state its effect in both directions |
| Komponents.ReadsModel | src/Komponents/Field.php:287 | the record is read only for a Form with a model whose field does not ignore it; no ensures, `Field.SetValueFromDB` states its effect |
| Komponents.ForcesReadonly | src/Komponents/Field.php:320 | one name forces readonly when the authorization is falsy or is an array that lacks the name; no ensures, `AuthorizedNamesStayEditable` states its effect |
| Komponents.ReadonlyAfterCheck | src/Komponents/Field.php:314-322 | the flag after the gate, with the authorization reaching the closure: set when it was set, or when smart readonly is on, `authorize` exists and some name is forced; no ensures, `Field.CheckSetReadonly` is proved equal to it |
| Komponents.Field.Default | src/Komponents/Field.php:151-166 | the value changes only if the field was pristine, i.e. its value was falsy; a truthy default leaves the field non-pristine |
| Komponents.Field.Rules | src/Komponents/Field.php:90-93 | with a single name, the field's rules become the merge of the normalised declaration; otherwise nothing changes |
| Komponents.Field.Required | src/Komponents/Field.php:188-193 | the indicator is recorded, and `required` is appended to the rules under the field's name |
| Komponents.Field.ReadOnly | src/Komponents/Field.php:200-203 | the readonly flag is set |
| Komponents.Field.ExtraAttributes | src/Komponents/Field.php:232-236 | the extra attributes become the given array |
| Komponents.Field.SetValueFromDB | src/Komponents/Field.php:285-305 | no change unless the Komposer is a Form with a model and the field does not ignore it; otherwise the value is the fold `DisplayValueFrom` over the field's names |
| Komponents.FalsyFetchKeepsValue | src/Komponents/Field.php:301-303 | without a `prepareValueForFront` hook, falsy database values keep the field's existing value |
| Komponents.LastTruthyFetchWins | src/Komponents/Field.php:290-304 | without a hook, a truthy value fetched for the last name is the final value |
| Komponents.Field.CheckSetReadonly | src/Komponents/Field.php:312-325 | with smart readonly on and `authorize` defined, the flag is set when the authorization is falsy or is an array lacking one of the names; otherwise it is unchanged |
| Komponents.AuthorizedNamesStayEditable | src/Komponents/Field.php:314-324 | with a non-empty list of authorized names, the field becomes readonly exactly when one of its names is not listed |
| Komponents.AsWrittenEveryFieldReadonly | src/Komponents/Field.php:318-321 | as written, the closure sees a null authorization, so every named field becomes readonly |
| Komponents.ReadonlyScenario | src/Komponents/Field.php:312-325 | authorization `['name']`: field `email` becomes readonly and `name` stays editable; as written, both become readonly |
| Komponents.Field.PrepareForDisplay | src/Komponents/Field.php:257-264 | the field's rules are pushed, then the value is read from the record, then the readonly gate is applied; the gate is the corrected one of the first finding (`ReadonlyAfterCheck`), not the line as written |
| Komponents.Field.PrepareForSave | src/Komponents/Field.php:271-278 | exactly this field is appended to the Komposer's components, and its rules are pushed |
| Komponents.Field.FillBeforeSave | src/Komponents/Field.php:333-357 | a field that does not fill, or is readonly, asks for nothing; otherwise the operations are the fold `BeforeSaveFrom` over its names |
| Komponents.Field.FillAfterSave | src/Komponents/Field.php:367-389 | a field that does not fill, or is readonly, asks for nothing; otherwise the operations are the fold `AfterSaveFrom` over its names |
| Komponents.BeforeSaveWritesEligible | src/Komponents/Field.php:338-356 | before save, exactly one attribute is filled per name that is present in the request and whose target `fillsBeforeSave`, in name order |
| Komponents.AfterSaveWritesEligible | src/Komponents/Field.php:373-388 | after save, exactly one relation is saved per name that is present in the request and whose target `fillsAfterSave`, in name order |
| Komponents.BeforeSaveSkipsAbsent | src/Komponents/Field.php:340-341 | names absent from the request make no difference before save |
| Komponents.AfterSaveSkipsAbsent | src/Komponents/Field.php:375-376 | names absent from the request make no difference after save |
| Komponents.BeforeSaveExtends | src/Komponents/Field.php:338-356 | before save only appends operations |
| Komponents.BeforeSaveCastsPrecedeFills | src/Komponents/Field.php:348-355 | every array cast merged in is immediately followed by the fill of that same attribute |
| Komponents.BeforeSaveCastsOnlyWhenNeeded | src/Komponents/Field.php:406-409 | a cast is merged in only when the model declares no cast and the field casts to arrays, and at most once per attribute |
| Komponents.BeforeSaveFillsAreCast | src/Komponents/Field.php:348-349 | conversely, every fill of an attribute that needs an array cast (the field casts to arrays, the model declares none) comes after that cast was merged |
| Komponents.AfterSaveOnlyRelations | src/Komponents/Field.php:373-388 | after save only appends relation saves; it never fills or casts |
| Routing.GetKomposerType | src/Routing/Dispatcher.php:124-135 | Form, then Query, then Menu: the first ancestry that matches wins; a class extending none of them, or no class, is `NotBootableFromRoute` |
| Routing.RoutingExamples | src/Routing/Dispatcher.php:124-135 | a Form subclass boots as Form and a Query subclass as Query; a class extending neither is refused |
| Routing.BooterName | src/Routing/Dispatcher.php:35 | the booter name starts with `Kompo\Komposers\` and ends with `Booter` |
| Routing.BooterNameInjective | src/Routing/Dispatcher.php:35 | different types get different booters |
| Routing.NewDispatcher | src/Routing/Dispatcher.php:25-36 | a given class is used as it is and is bootable exactly when it extends a framework class; without one, the class comes from the decoded boot info, which the dispatcher keeps; the booter always matches the type |
| Routing.ActionIs | src/Routing/Dispatcher.php:40-48 | `KompoAction::is(a)` read as: the action header holds exactly `a`; no ensures, `RouteOf` states the routing built on it |
| Routing.RouteOf | src/Routing/Dispatcher.php:38-53 | strict priority: refresh-many, then browse-many, then refresh-self, and otherwise a performed action |
| Routing.DispatchConnection | src/Routing/Dispatcher.php:38-53 | batch actions give the batch of their items' responses; refresh-self succeeds exactly when the reboot and its booter succeed, and then gives the booted Komposer of exactly the reboot call; any other action succeeds exactly when booting for action, its booter and `performAction` all succeed, and then gives the action's response for exactly that call; an unbootable class fails with the routing error |
| Routing.DispatchSingle | src/Routing/Dispatcher.php:48-52 | the non-batch branches: the same results as above, and a failing booter or action ends the dispatch with its own error |
| Routing.BootKomposerForDisplay | src/Routing/Dispatcher.php:63-72 | a Form gets `id` separately and the other inputs without `id`; Queries and Menus get every input |
| Routing.RebootKomposerForDisplay | src/Routing/Dispatcher.php:74-84 | it reboots from the boot info's store and parameters, plus the model key for a Form |
| Routing.BootKomposerForAction | src/Routing/Dispatcher.php:55-61 | the booter receives the decoded boot info |
| Routing.ParseArrayParametersInRequest | src/Routing/Dispatcher.php:137-145 | no key holds `[`; every original key without `[` survives; expanded values override the original ones |
| Routing.ArrayExpansionExample | src/Routing/Dispatcher.php:137-145 | `tags[0]`, `tags[1]` become a single `tags` list when the expansion builds it |
| Routing.ExtraHeaders | src/Routing/Dispatcher.php:112-114 | one header per additional header name, holding the item's value for the mapped key |
| Routing.SubRequest | src/Routing/Dispatcher.php:105-114 | a sub-request has its item's `kompoinfo`, the base action, and the item's parsed data (an empty map when there is none) as input |
| Routing.BrowseSubRequestHeaders | src/Routing/Dispatcher.php:91-114 | browse batches copy the item's `page` and `sort` into `X-Kompo-Page` and `X-Kompo-Sort` |
| Routing.RefreshSubRequestHeaders | src/Routing/Dispatcher.php:86-114 | refresh batches add no header besides the boot info and the action |
| Routing.CloneOfSubRequest | src/Routing/Dispatcher.php:105-116 | cloning the previous, swapped-in sub-request gives the same sub-request as cloning the original request |
| Routing.SubRequestsNeverBatch | src/Routing/Dispatcher.php:40-50 | sub-requests route to refresh-self or to a performed action, never to a batch branch |
| Routing.DispatchAgreesOnSubRequests | src/Routing/Dispatcher.php:38-118 | on every sub-request, the full dispatch equals the non-batch dispatch |
| Routing.RunManyRequests | src/Routing/Dispatcher.php:99-122 | the loop returns `BatchResponses` of the items; afterwards the ambient request is the last sub-request (or the failing one), never restored |
| Routing.BatchResponses | src/Routing/Dispatcher.php:101-121 | the batch as a fold over the items: each response under its kompoid, a failure aborting; no ensures, the `Batch*` lemmas below state its properties |
| Routing.BatchPrefixFailure | src/Routing/Dispatcher.php:103-119 | once an item fails, the whole batch fails with that error |
| Routing.BatchSucceedsIffEveryItemDoes | src/Routing/Dispatcher.php:103-119 | a batch succeeds exactly when every item's dispatch succeeds |
| Routing.BatchFailsWithFirstError | src/Routing/Dispatcher.php:103-119 | a failing batch fails with the error of its first failing item |
| Routing.BatchKeys | src/Routing/Dispatcher.php:118 | the responses are keyed by exactly the items' kompoids |
| Routing.BatchLastWins | src/Routing/Dispatcher.php:118 | under each kompoid stands the response to the last item carrying it |
| Routing.FailedItemAbortsBatch | src/Routing/Dispatcher.php:103-119 | in either batch, the first item whose dispatch fails (routing, booter or action) makes the whole dispatch fail with that item's error |
| Interactions.Matching | assets/js/element/mixins/RunsInteractions.js:29-56 | every selected interaction has the trigger type and is accepted by the action filter; at most as many as the list |
| Interactions.MatchingIsFilter | assets/js/element/mixins/RunsInteractions.js:24-28 | an interaction is selected exactly when it is in the list and accepted; selection never duplicates one |
| Interactions.MatchingAppend | assets/js/element/mixins/RunsInteractions.js:33-36 | selection distributes over concatenation, so list order is kept |
| Interactions.InteractionsOfType | assets/js/element/mixins/RunsInteractions.js:24-28 | only interactions of the given type are returned; none for an absent or empty list |
| Interactions.OnlyFiltersOfType | assets/js/element/mixins/RunsInteractions.js:39-47 | the with-action runner's selection is the type selection filtered by the action kind, so it is a subsequence of it |
| Interactions.OnlyAndExceptPartition | assets/js/element/mixins/RunsInteractions.js:39-56 | for one kind, the with-action and without-actions runners together select each interaction of the type exactly once |
| Interactions.Element.RunAction | assets/js/element/mixins/RunsInteractions.js:64-67 | one Action is built and run once, with the given response and parent |
| Interactions.Element.RunMatching | assets/js/element/mixins/RunsInteractions.js:33-36 | the loop runs exactly one action per selected interaction, in list order |
| Interactions.Element.RunOwnInteractions | assets/js/element/mixins/RunsInteractions.js:29-37 | the actions of the interactions of the type are run, in order |
| Interactions.Element.RunOwnInteractionsWithAction | assets/js/element/mixins/RunsInteractions.js:39-47 | the actions of the interactions of the type whose action kind matches are run, in order |
| Interactions.Element.RunOwnInteractionsWithoutActions | assets/js/element/mixins/RunsInteractions.js:49-56 | the actions of the interactions of the type whose kind is not excluded are run, in order |
| Interactions.Element.RunInteractionsOfType | assets/js/element/mixins/RunsInteractions.js:57-63 | the parent action's interactions of the type are run, in order, each with the same response and parent |
| Interactions.Element.SubmitOnInput | assets/js/element/mixins/RunsInteractions.js:21 | the input interactions whose action is `submit` are run |
| Interactions.Element.FilterOnInput | assets/js/element/mixins/RunsInteractions.js:22 | the input interactions whose action is `refresh` are run |
| Interactions.FirstInputOfKind | assets/js/element/mixins/RunsInteractions.js:8 | the position of the first input interaction of the kind: all earlier entries fail to match, and None when no entry matches |
| Interactions.DebounceDelay | assets/js/element/mixins/RunsInteractions.js:7-14 | a non-zero delay is the debounce of some input interaction of the kind, and the delay is 0 when there is none |
| Interactions.DebounceOfFirstRun | assets/js/element/mixins/RunsInteractions.js:7-22 | the delay is that of the first interaction the debounced runner runs, and 0 when it runs none |
| Interactions.FindLoose | assets/js/element/mixins/RunsInteractions.js:8 | loose comparison of an action object with a kind never matches unless the kind is `[object Object]` |
| Interactions.DebounceDelayAsWritten | assets/js/element/mixins/RunsInteractions.js:7-14 | as written, the lookup fails exactly when the element has no interaction list |
| Interactions.AsWrittenDelayIsZero | assets/js/element/mixins/RunsInteractions.js:7-14 | as written, the delay is always 0 |
| Interactions.DebounceCounterexample | assets/js/element/mixins/RunsInteractions.js:7-9 | a 300 ms submit interaction gets 0 as written and 300 as intended |
| Usable.TransformLabelKey | src/Usable/Select.php:115-120 | keys are kept; closures are replaced by their result on the option; constants are kept |
| Usable.ConstantPartsSameLabel | src/Usable/Select.php:115-120 | label arrays without closures give every option the same label |
| Usable.TransformLabel | src/Usable/Select.php:96-113 | a Card stays the same Card with as many components, under the same keys; an array keeps its keys; a closure is applied to the option; a column reads the model's attribute and is null on anything else |
| Usable.OptionFor | src/Usable/Select.php:87-90 | without a key column the value is the pair's key, otherwise the value's key attribute; without a label the label is the value itself |
| Usable.OptionsList | src/Usable/Select.php:83-94 | there is one option per pair, in order, and none for empty input |
| Usable.TransformOptions | src/Usable/Select.php:83-94 | the loop builds exactly `OptionsList` |
| Usable.PlainArrayOptions | src/Usable/Select.php:85-93 | a plain associative array gives options that show the value and select the key |
| Usable.ValueKeyName | src/Usable/Select.php:48-51 | the key column is preferred, then the model's key name, then none |
| Usable.FrontValue | src/Usable/Select.php:43-46 | a falsy value gives null; otherwise it is the value's attribute under the key name, or the value itself when no key name is known |
| Usable.FrontValueSelectsItsOption | src/Usable/Select.php:45-89 | with a key column, the front value of a model equals the value of the option built from it |
| Usable.Studly | src/Usable/Select.php:221-224 | the studly form has no space, `-` or `_` and is no longer than the name |
| Usable.InferAjaxOptionsMethod | src/Usable/Select.php:221-224 | the inferred name starts with `search` and holds no separators after it |
| Usable.InferredNamesExamples | src/Usable/Select.php:206 | `users` gives `searchUsers` and `first_name` gives `searchFirstName` |
| Usable.AjaxOptionsMethod | src/Usable/Select.php:180 | a truthy given method name is used; otherwise the inferred one |
| Usable.Select.Options | src/Usable/Select.php:68-73 | the options become the transformed pairs |
| Usable.Select.OptionsFrom | src/Usable/Select.php:139-144 | the key column and the label are recorded |
| Usable.Select.SetValueForFront | src/Usable/Select.php:43-46 | the value becomes `FrontValue` of the given value |
| Usable.Select.PrepareValueForFront | src/Usable/Select.php:34-41 | options are reloaded from the candidates only when both the key column and the label are truthy; then the front value is set |
| SelectBinding.SelectDisplaysFrontValue | src/Komponents/Field.php:301-302 | a Select used as a Field's `prepareValueForFront` hook leaves the field holding the front value of what was fetched for the last name, even a falsy one |
| Usable.Select.SearchOptions | src/Usable/Select.php:175-182 | the route is activated, the minimum length recorded, and the ajax method set |
| Usable.Select.OptionsFromField | src/Usable/Select.php:213-219 | the route is activated, the other field recorded, and the ajax method set |

## Left out

- ValidationManager.FieldRules: for a keyed rules array that lacks the field's name, the source wraps the whole array under the name, and `mergeAttribute` then merges that array's entries into the name's tokens. The model returns None for it, and `Field.Rules` changes nothing.
- Komponents.Field.Rules: for a field with several names, the source uses an array as an array key. PHP 8 raises an error for this; PHP 7 warns and drops the entry. The model returns `false` and changes nothing.
- `in_array` is modelled as strict equality. PHP's default loose comparison (for example `"abc" == 0` before PHP 8) is not modelled.
- Numeric field names and PHP's renumbering of integer keys in `array_merge` are not modelled; attribute names and request keys are strings.
- PHP arrays are ordered, but a Dafny `map` is not. The order of the rules map, of the parsed request parameters, and of a batch's responses (built in the items' order, Dispatcher.php:118) is not modelled; `BatchResponses` keeps only which response stands under each kompoid. Token lists, options, names and batch items keep their order.
- Request dot-notation in `request()->has()`/`input()` is not modelled; a name is looked up as a plain key.
- `Komponent::prepareForSave` (the parent call in `Field::prepareForSave`) is not part of this model.
- `ModelManager`, `Arr::decode`, `mergeCasts`/`hasCast`, `KompoInfo::getKompo`, `RouteFinder::activateRoute`, `parse_str`/`http_build_query` and `ModelManager::getRelatedCandidates` are not part of this model. Each is a function held in a record (`ModelLayer`, `Env`) or a parameter, about which nothing is assumed.
- The booters' `bootForDisplay`/`bootForAction` and `KomposerHandler::performAction` are not part of this model. They are `Env.boot` and `Env.performAction`, which may return any result or any error; what they throw is the opaque `Raised` error. The save phases return the operations they request instead of performing them. Route activation is a flag.
- Routing.ActionIs: `KompoAction::is` is not part of this model. It is read as plain equality of the action header with the action name. `RouteOf`, `SubRequestsNeverBatch` and `DispatchAgreesOnSubRequests` rest on that reading.
- Kompo.Prop: `$v->{$key}` on a value that is not a model (an integer, a string, an array) is read as null. PHP warns ("Attempt to read property on int"), and Laravel's error handler turns that warning into an `ErrorException`. So `FrontValue`, `OptionFor` and `TransformLabel` (Select.php:45, :89, :110) give null where the source may throw.
- Routing.SubRequest: a batch item missing `page`, `sort` or `kompoinfo` is read as null. PHP reads it with an undefined-index notice, which Laravel's error handler may turn into an exception. A missing `kompoid` is not modelled.
- Routing.Request: a batch request's items (`request()->all()` of a batch) are a separate ordered list, not its input map. A sub-request carries no items.
- Routing.RunManyRequests: the nested dispatch is a pure function of the sub-request. Changes it might make to the swapped-in request are not modelled.
- Usable.Studly: follows the `ucwords`-based `Str::studly` with ASCII case mapping. Laravel's string cache and multibyte letters are not modelled.
- `config('kompo.smart_readonly_fields')` is a method parameter; `__()` translation (`noOptionsFound`, `enterMoreCharacters`) is not modelled.
- `_.debounce` timers and Vue computed reactivity are not modelled; only the delay lookup is. What `Action.run` does after it is called is not part of this model.
- Card cloning is modelled as a Card label carrying its identity and computed components; the Card component itself is not part of this model.
- SelectBinding.SelectDisplaysFrontValue: the Field display phase sees a hook only through the value it sets. The options a Select reloads inside the hook (Select.php:37-38) are stated by `Usable.Select.PrepareValueForFront`, not by the display phase.
- Floats are not modelled; `Value` has no floating-point case.
- resources/views/navitems/Dropdown.blade.php is presentation only and is not modelled.

## Findings

| source | as written | input that shows it | evidently intended | confidence | as-written member | corrected member |
|---|---|---|---|---|---|---|
| src/Komponents/Field.php:318-320 | the per-name closure has no `use($authorization)`, so `$authorization` is undefined inside it. Read as null, `!$authorization` always holds; under Laravel's error handler the undefined-variable warning throws an `ErrorException` instead, so display fails. The model takes the null reading | smart readonly on, `authorize()` returns `['name']`, field `name` | `name` stays editable and only unlisted names become readonly | high; not executed | Komponents.ReadonlyAfterCheckAsWritten, Komponents.AsWrittenEveryFieldReadonly | Komponents.ReadonlyAfterCheck, Komponents.Field.CheckSetReadonly, Komponents.AuthorizedNamesStayEditable |
| assets/js/element/mixins/RunsInteractions.js:8,12 | `interactions['input']` indexes the interaction list by a property it does not have, and `t.action == 'submit'` compares an action object with a string | one input interaction with action kind `submit` and debounce 300 | a delay of 300 ms (the first input interaction of that kind, as the runners select it) | medium; not executed | Interactions.DebounceDelayAsWritten, Interactions.AsWrittenDelayIsZero, Interactions.DebounceCounterexample | Interactions.DebounceDelay, Interactions.DebounceOfFirstRun |
