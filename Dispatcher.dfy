/** The request dispatcher: classifies a Komposer class as a Form, Query or
    Menu, routes a request on its action header, boots Komposers for display
    and replays batched sub-requests. The ambient request is an explicit
    Request value. The booters, `KomposerHandler::performAction` and the
    decoding of the boot-info header are collaborators held in an `Env`; the
    booters and the action may fail, and their failure is the dispatch's. */
module Routing {
  import opened Kompo

  /** The framework classes a Komposer class may extend. */
  datatype Base = FormBase | QueryBase | MenuBase

  /** A Komposer class, with the framework classes it is (`is_a`) one of. */
  datatype KomposerClass = KomposerClass(name: string, ancestry: set<Base>)

  /** The decoded `kompoinfo` header. */
  datatype BootInfo = BootInfo(kompoClass: Option<KomposerClass>, modelKey: Value, store: Value, parameters: Value)

  /** Header names: the boot-info and action headers (`KompoInfo::$key`,
      `KompoAction::$key`) and any other header. */
  datatype HeaderName = KompoInfoKey | KompoActionKey | Named(name: string)

  /** One item of a batch request's body. */
  datatype SubItem = SubItem(kompoid: string, kompoinfo: Value, data: Option<map<string, Value>>, fields: map<string, Value>)

  /** A request: its headers, its input bag and, for a batch, the ordered
      items its body holds. */
  datatype Request = Request(headers: map<HeaderName, Value>, input: map<string, Value>, items: seq<SubItem>)

  /** Collaborators outside the core: `KompoInfo::getKompo`, the bracket
      expansion done by `parse_str(http_build_query(...))`, the type-specific
      booters (`bootForDisplay` / `bootForAction`: the booted Komposer, or
      what they throw) and `KomposerHandler::performAction` (the action's
      response, or what it throws: a validation, authorization or
      persistence failure). */
  datatype Env = Env(decodeInfo: Value -> Option<BootInfo>,
                     expandBrackets: map<string, Value> -> map<string, Value>,
                     boot: BootCall -> Result<Value, Error>,
                     performAction: Value -> Result<Value, Error>)

  /** The call made on a type-specific booter. */
  datatype BootCall =
    | DisplayForm(booter: string, komposerClass: KomposerClass, id: Value, fields: map<string, Value>)
    | Display(booter: string, komposerClass: KomposerClass, fields: map<string, Value>)
    | RedisplayForm(booter: string, komposerClass: KomposerClass, modelKey: Value, store: Value, parameters: Value)
    | Redisplay(booter: string, komposerClass: KomposerClass, store: Value, parameters: Value)
    | ForAction(booter: string, bootInfo: Option<BootInfo>)

  /** A dispatch result: a Komposer booted for display, the response of an
      action performed on a Komposer booted for action, or a batch of
      responses keyed by kompoid. */
  datatype Response =
    | Booted(call: BootCall, komposer: Value)
    | Performed(call: BootCall, komposer: Value, outcome: Value)
    | Many(responses: map<string, Response>)

  /** The routing error, or an exception a collaborator throws. */
  datatype Error = NotBootableFromRoute(komposerClass: Option<KomposerClass>) | Raised(exception: Value)

  /** A constructed Dispatcher: its fields never change after construction. */
  datatype Dispatcher = Dispatcher(komposerClass: KomposerClass, kind: KomposerType, booter: string, bootInfo: Option<BootInfo>)

  // --------------------------------------------------------- classification

  /** The class extends at least one of the three framework classes. */
  predicate Bootable(cls: KomposerClass) {
    FormBase in cls.ancestry || QueryBase in cls.ancestry || MenuBase in cls.ancestry
  }

  /** `getKomposerType`: Form, then Query, then Menu; the first ancestry that
      matches wins and none is a routing error. */
  function GetKomposerType(cls: Option<KomposerClass>): (r: Result<KomposerType, Error>)
    ensures r == Ok(Form) <==> cls.Some? && FormBase in cls.value.ancestry
    ensures r == Ok(Query) <==> cls.Some? && FormBase !in cls.value.ancestry && QueryBase in cls.value.ancestry
    ensures r == Ok(Menu) <==> cls.Some? && FormBase !in cls.value.ancestry && QueryBase !in cls.value.ancestry
                               && MenuBase in cls.value.ancestry
    ensures r.Err? <==> cls.None? || !Bootable(cls.value)
    ensures r.Err? ==> r.error == NotBootableFromRoute(cls)
  {
    if cls.None? then Err(NotBootableFromRoute(cls))
    else if FormBase in cls.value.ancestry then Ok(Form)
    else if QueryBase in cls.value.ancestry then Ok(Query)
    else if MenuBase in cls.value.ancestry then Ok(Menu)
    else Err(NotBootableFromRoute(cls))
  }

  /** A class extending Form boots as a Form, one extending Query (and not
      Form) as a Query, and one extending neither of the three is refused. */
  lemma RoutingExamples(form: KomposerClass, query: KomposerClass, neither: KomposerClass)
    requires form.ancestry == {FormBase} && query.ancestry == {QueryBase} && neither.ancestry == {}
    ensures GetKomposerType(Some(form)) == Ok(Form)
    ensures GetKomposerType(Some(query)) == Ok(Query)
    ensures GetKomposerType(Some(neither)) == Err(NotBootableFromRoute(Some(neither)))
  {
  }

  function TypeName(t: KomposerType): string {
    match t
    case Form => "Form"
    case Query => "Query"
    case Menu => "Menu"
  }

  /** The booter class name: `Kompo\Komposers\` + type + `\` + type + `Booter`. */
  function BooterName(t: KomposerType): (r: string)
    ensures |r| > 22
    ensures r[..16] == "Kompo\\Komposers\\"
    ensures r[|r| - 6..] == "Booter"
  {
    "Kompo\\Komposers\\" + TypeName(t) + "\\" + TypeName(t) + "Booter"
  }

  /** Different types get different booters. */
  lemma BooterNameInjective(t1: KomposerType, t2: KomposerType)
    requires t1 != t2
    ensures BooterName(t1) != BooterName(t2)
  {
    assert BooterName(t1)[16] != BooterName(t2)[16];
  }

  function Header(req: Request, h: HeaderName): Value {
    if h in req.headers then req.headers[h] else Null
  }

  /** The Dispatcher constructor. Without a class, the boot info is decoded
      from the request's header and names the class. */
  function NewDispatcher(cls: Option<KomposerClass>, req: Request, env: Env): (r: Result<Dispatcher, Error>)
    ensures r.Ok? ==> r.value.booter == BooterName(r.value.kind)
                      && GetKomposerType(Some(r.value.komposerClass)) == Ok(r.value.kind)
    ensures cls.Some? ==> (r.Ok? <==> Bootable(cls.value))
    ensures cls.Some? && r.Ok? ==> r.value.komposerClass == cls.value && r.value.bootInfo.None?
    ensures cls.None? && r.Ok? ==> r.value.bootInfo == env.decodeInfo(Header(req, KompoInfoKey))
                                   && r.value.bootInfo.Some?
                                   && r.value.bootInfo.value.kompoClass == Some(r.value.komposerClass)
  {
    var bootInfo := if cls.None? then env.decodeInfo(Header(req, KompoInfoKey)) else None;
    var klass := if cls.Some? then cls else if bootInfo.Some? then bootInfo.value.kompoClass else None;
    match GetKomposerType(klass)
    case Err(e) => Err(e)
    case Ok(t) => Ok(Dispatcher(klass.value, t, BooterName(t), bootInfo))
  }

  // ---------------------------------------------------------------- routing

  /** `KompoAction::is(a)`: the action header holds `a`. */
  predicate ActionIs(req: Request, a: string) {
    Header(req, KompoActionKey) == Str(a)
  }

  datatype Route = RefreshMany | BrowseMany | RefreshSelf | PerformAction

  /** The branch `dispatchConnection` takes, in strict priority order. */
  function RouteOf(req: Request): (r: Route)
    ensures r == RefreshMany <==> ActionIs(req, "refresh-many")
    ensures r == BrowseMany <==> !ActionIs(req, "refresh-many") && ActionIs(req, "browse-many")
    ensures r == RefreshSelf <==> Header(req, KompoActionKey) == Str("refresh-self")
    ensures r == PerformAction <==> Header(req, KompoActionKey) !in {Str("refresh-many"), Str("browse-many"), Str("refresh-self")}
  {
    if ActionIs(req, "refresh-many") then RefreshMany
    else if ActionIs(req, "browse-many") then BrowseMany
    else if ActionIs(req, "refresh-self") then RefreshSelf
    else PerformAction
  }

  // ---------------------------------------------------------------- booting

  /** `bootKomposerForDisplay`: a Form gets the `id` input separately and the
      other inputs without it; Queries and Menus get every input. */
  function BootKomposerForDisplay(d: Dispatcher, req: Request): (c: BootCall)
    ensures (c.DisplayForm? || c.Display?) && c.booter == d.booter && c.komposerClass == d.komposerClass
    ensures d.kind == Form ==> c.DisplayForm? && c.id == Lookup(req.input, "id")
                               && c.fields.Keys == req.input.Keys - {"id"}
                               && forall k :: k in c.fields ==> c.fields[k] == req.input[k]
    ensures d.kind != Form ==> c.Display? && c.fields == req.input
  {
    if d.kind == Form then DisplayForm(d.booter, d.komposerClass, Lookup(req.input, "id"), req.input - {"id"})
    else Display(d.booter, d.komposerClass, req.input)
  }

  /** `rebootKomposerForDisplay`: rebuild from the stored state of the boot
      info (and, for a Form, its model key) instead of the request's inputs. */
  function RebootKomposerForDisplay(req: Request, env: Env): (r: Result<BootCall, Error>)
    ensures r.Ok? <==> NewDispatcher(None, req, env).Ok?
    ensures r.Ok? ==> var info := env.decodeInfo(Header(req, KompoInfoKey)).value;
                      && (r.value.RedisplayForm? || r.value.Redisplay?)
                      && r.value.komposerClass == info.kompoClass.value
                      && r.value.store == info.store && r.value.parameters == info.parameters
                      && (r.value.RedisplayForm? <==> FormBase in info.kompoClass.value.ancestry)
                      && (r.value.RedisplayForm? ==> r.value.modelKey == info.modelKey)
  {
    match NewDispatcher(None, req, env)
    case Err(e) => Err(e)
    case Ok(d) =>
      var info := d.bootInfo.value;
      if d.kind == Form then Ok(RedisplayForm(d.booter, d.komposerClass, info.modelKey, info.store, info.parameters))
      else Ok(Redisplay(d.booter, d.komposerClass, info.store, info.parameters))
  }

  /** `bootKomposerForAction`: the booter is handed the decoded boot info. */
  function BootKomposerForAction(req: Request, env: Env): (r: Result<BootCall, Error>)
    ensures r.Ok? <==> NewDispatcher(None, req, env).Ok?
    ensures r.Ok? ==> r.value.ForAction? && r.value.bootInfo == env.decodeInfo(Header(req, KompoInfoKey))
  {
    match NewDispatcher(None, req, env)
    case Err(e) => Err(e)
    case Ok(d) => Ok(ForAction(d.booter, d.bootInfo))
  }

  // --------------------------------------------------------- sub-requests

  /** `parseArrayParametersInRequest`: the bracket-expanded parameters are
      merged over the original ones, then every key holding `[` is dropped. */
  function ParseArrayParametersInRequest(data: map<string, Value>, expand: map<string, Value> -> map<string, Value>): (r: map<string, Value>)
    ensures forall k :: k in r ==> '[' !in k
    ensures forall k :: k in data && '[' !in k ==> k in r
    ensures forall k :: k in r ==> k in data || k in expand(data)
    ensures forall k :: k in r && k in expand(data) ==> r[k] == expand(data)[k]
    ensures forall k :: k in r && k !in expand(data) ==> r[k] == data[k]
  {
    var merged := data + expand(data);
    map k | k in merged && '[' !in k :: merged[k]
  }

  /** `tags[0]`/`tags[1]` keys normalise to one `tags` list, with no bracket
      key left over, whenever the expansion builds that list. */
  lemma ArrayExpansionExample(expand: map<string, Value> -> map<string, Value>)
    requires expand(map["tags[0]" := Str("a"), "tags[1]" := Str("b")]) == map["tags" := List([Str("a"), Str("b")])]
    ensures ParseArrayParametersInRequest(map["tags[0]" := Str("a"), "tags[1]" := Str("b")], expand)
            == map["tags" := List([Str("a"), Str("b")])]
  {
    var data := map["tags[0]" := Str("a"), "tags[1]" := Str("b")];
    var r := ParseArrayParametersInRequest(data, expand);
    assert "tags[0]"[4] == '[' && "tags[1]"[4] == '[';
    assert '[' !in "tags";
    assert r.Keys == {"tags"};
  }

  /** The per-item headers a batch installs: header name -> key of the item. */
  function ExtraHeaders(sub: SubItem, additional: map<string, string>): (h: map<HeaderName, Value>)
    ensures h.Keys == set name | name in additional :: Named(name)
    ensures forall name :: name in additional ==> h[Named(name)] == Lookup(sub.fields, additional[name])
  {
    map name | name in additional :: Named(name) := Lookup(sub.fields, additional[name])
  }

  /** The headers and input the browse batch adds to each sub-request. */
  const BrowseHeaders: map<string, string> := map["X-Kompo-Page" := "page", "X-Kompo-Sort" := "sort"]

  /** The clone of `current` prepared for one item: its input replaced by the
      item's parsed data, its boot info and action headers set, then the
      per-item headers. */
  function SubRequest(current: Request, sub: SubItem, baseAction: string, additional: map<string, string>, env: Env): (s: Request)
    ensures Header(s, KompoInfoKey) == sub.kompoinfo
    ensures Header(s, KompoActionKey) == Str(baseAction)
    ensures s.input == ParseArrayParametersInRequest(sub.data.GetOr(map[]), env.expandBrackets)
  {
    var headers := current.headers[KompoInfoKey := sub.kompoinfo][KompoActionKey := Str(baseAction)];
    Request(headers + ExtraHeaders(sub, additional),
            ParseArrayParametersInRequest(sub.data.GetOr(map[]), env.expandBrackets),
            [])
  }

  /** Browse batches copy the item's `page` and `sort` into the page and sort
      headers. */
  lemma BrowseSubRequestHeaders(current: Request, sub: SubItem, env: Env)
    ensures var s := SubRequest(current, sub, "browse-items", BrowseHeaders, env);
            && Header(s, Named("X-Kompo-Page")) == Lookup(sub.fields, "page")
            && Header(s, Named("X-Kompo-Sort")) == Lookup(sub.fields, "sort")
  {
    assert "X-Kompo-Page" in BrowseHeaders && "X-Kompo-Sort" in BrowseHeaders;
  }

  /** Refresh batches add no header besides the boot info and the action. */
  lemma RefreshSubRequestHeaders(current: Request, sub: SubItem, env: Env)
    ensures SubRequest(current, sub, "refresh-self", map[], env).headers.Keys
            == current.headers.Keys + {KompoInfoKey, KompoActionKey}
  {
    assert ExtraHeaders(sub, map[]).Keys == {};
  }

  /** Setting the boot info, the action and a same-keyed set of extra headers
      a second time overwrites everything the first time set. */
  lemma HeadersOverwritten(h: map<HeaderName, Value>, info1: Value, info2: Value, action: Value,
                           e1: map<HeaderName, Value>, e2: map<HeaderName, Value>)
    requires e1.Keys == e2.Keys
    ensures (h[KompoInfoKey := info1][KompoActionKey := action] + e1)[KompoInfoKey := info2][KompoActionKey := action] + e2
            == h[KompoInfoKey := info2][KompoActionKey := action] + e2
  {
    var left := (h[KompoInfoKey := info1][KompoActionKey := action] + e1)[KompoInfoKey := info2][KompoActionKey := action] + e2;
    var right := h[KompoInfoKey := info2][KompoActionKey := action] + e2;
    assert left.Keys == right.Keys;
    forall k | k in left
      ensures left[k] == right[k]
    {
    }
  }

  /** Cloning the previous sub-request (the ambient request after the swap)
      gives the same sub-request as cloning the original request: every
      header the previous item set is set again. */
  lemma CloneOfSubRequest(current: Request, prev: SubItem, sub: SubItem, baseAction: string, additional: map<string, string>, env: Env)
    ensures SubRequest(SubRequest(current, prev, baseAction, additional, env), sub, baseAction, additional, env)
            == SubRequest(current, sub, baseAction, additional, env)
  {
    HeadersOverwritten(current.headers, prev.kompoinfo, sub.kompoinfo, Str(baseAction),
                       ExtraHeaders(prev, additional), ExtraHeaders(sub, additional));
  }

  /** The sub-requests of both batches carry a non-batch action, so the nested
      dispatch never re-enters a batch branch. */
  lemma SubRequestsNeverBatch(current: Request, sub: SubItem, env: Env)
    ensures RouteOf(SubRequest(current, sub, "refresh-self", map[], env)) == RefreshSelf
    ensures RouteOf(SubRequest(current, sub, "browse-items", BrowseHeaders, env)) == PerformAction
  {
    assert Str("browse-items") !in {Str("refresh-many"), Str("browse-many"), Str("refresh-self")};
  }

  // ---------------------------------------------------------------- batches

  /** Replaying one item: dispatching its sub-request, cloned from `req`. */
  function Replay(req: Request, baseAction: string, additional: map<string, string>, env: Env,
                  dispatch: Request -> Result<Response, Error>): SubItem -> Result<Response, Error>
  {
    item => dispatch(SubRequest(req, item, baseAction, additional, env))
  }

  /** What `runManyRequests` returns after the items `items`: each item's
      response under its kompoid, a later duplicate id overwriting an earlier
      one; the first item whose replay fails aborts the batch. */
  function BatchResponses(items: seq<SubItem>, replay: SubItem -> Result<Response, Error>): Result<map<string, Response>, Error>
    decreases |items|
  {
    if items == [] then Ok(map[])
    else
      var last := items[|items| - 1];
      match BatchResponses(items[..|items| - 1], replay)
      case Err(e) => Err(e)
      case Ok(done) =>
        match replay(last)
        case Err(e) => Err(e)
        case Ok(response) => Ok(done[last.kompoid := response])
  }

  /** Once a prefix of the batch has failed, the whole batch fails the same way. */
  lemma {:induction false} BatchPrefixFailure(items: seq<SubItem>, n: nat, replay: SubItem -> Result<Response, Error>)
    requires n <= |items|
    requires BatchResponses(items[..n], replay).Err?
    ensures BatchResponses(items, replay) == BatchResponses(items[..n], replay)
    decreases |items| - n
  {
    if n < |items| {
      var front := items[..|items| - 1];
      assert front[..n] == items[..n];
      BatchPrefixFailure(front, n, replay);
    } else {
      assert items[..n] == items;
    }
  }

  /** The batch succeeds exactly when every item's replay succeeds. */
  lemma {:induction false} BatchSucceedsIffEveryItemDoes(items: seq<SubItem>, replay: SubItem -> Result<Response, Error>)
    ensures BatchResponses(items, replay).Ok? <==> forall i :: 0 <= i < |items| ==> replay(items[i]).Ok?
    decreases |items|
  {
    if items != [] {
      var front := items[..|items| - 1];
      BatchSucceedsIffEveryItemDoes(front, replay);
      assert forall i :: 0 <= i < |front| ==> front[i] == items[i];
    }
  }

  /** A failing batch fails with the error of its first failing item. */
  lemma {:induction false} BatchFailsWithFirstError(items: seq<SubItem>, j: nat, replay: SubItem -> Result<Response, Error>)
    requires j < |items| && replay(items[j]).Err?
    requires forall i :: 0 <= i < j ==> replay(items[i]).Ok?
    ensures BatchResponses(items, replay) == Err(replay(items[j]).error)
  {
    var upTo := items[..j];
    BatchSucceedsIffEveryItemDoes(upTo, replay);
    assert items[..j + 1][..j] == upTo;
    BatchPrefixFailure(items, j + 1, replay);
  }

  /** A successful batch is keyed by exactly the items' kompoids. */
  lemma {:induction false} BatchKeys(items: seq<SubItem>, replay: SubItem -> Result<Response, Error>)
    requires BatchResponses(items, replay).Ok?
    ensures BatchResponses(items, replay).value.Keys == set i | 0 <= i < |items| :: items[i].kompoid
    decreases |items|
  {
    if items != [] {
      var front := items[..|items| - 1];
      BatchKeys(front, replay);
      assert forall i :: 0 <= i < |front| ==> front[i] == items[i];
      var ids := set i | 0 <= i < |items| :: items[i].kompoid;
      var frontIds := set i | 0 <= i < |front| :: front[i].kompoid;
      assert ids == frontIds + {items[|items| - 1].kompoid};
    }
  }

  /** Under each kompoid stands the response to the last item carrying it. */
  lemma {:induction false} BatchLastWins(items: seq<SubItem>, j: nat, replay: SubItem -> Result<Response, Error>)
    requires BatchResponses(items, replay).Ok?
    requires j < |items|
    requires forall k :: j < k < |items| ==> items[k].kompoid != items[j].kompoid
    ensures replay(items[j]).Ok?
    ensures items[j].kompoid in BatchResponses(items, replay).value
    ensures BatchResponses(items, replay).value[items[j].kompoid] == replay(items[j]).value
    decreases |items|
  {
    var front := items[..|items| - 1];
    if j < |items| - 1 {
      assert front[j] == items[j];
      assert forall k :: j < k < |front| ==> front[k] == items[k];
      BatchLastWins(front, j, replay);
    }
  }

  /** One more item: the batch so far, extended by that item's replay. */
  lemma BatchExtend(items: seq<SubItem>, i: nat, replay: SubItem -> Result<Response, Error>)
    requires i < |items| && BatchResponses(items[..i], replay).Ok?
    ensures BatchResponses(items[..i + 1], replay)
            == if replay(items[i]).Err? then Err(replay(items[i]).error)
               else Ok(BatchResponses(items[..i], replay).value[items[i].kompoid := replay(items[i]).value])
  {
    assert items[..i + 1][..i] == items[..i];
  }

  /** Whatever item was replayed before, the clone made of the ambient request
      for item `i` is the clone of the original request. */
  lemma AmbientClone(req: Request, i: nat, ambient: Request, baseAction: string, additional: map<string, string>, env: Env)
    requires i < |req.items|
    requires ambient == if i == 0 then req else SubRequest(req, req.items[i - 1], baseAction, additional, env)
    ensures SubRequest(ambient, req.items[i], baseAction, additional, env) == SubRequest(req, req.items[i], baseAction, additional, env)
  {
    if i > 0 {
      CloneOfSubRequest(req, req.items[i - 1], req.items[i], baseAction, additional, env);
    }
  }

  /** `runManyRequests`: items are replayed in order, each on a clone of the
      ambient request, which is then swapped for that clone and never
      restored. Returns the responses and the ambient request afterwards. */
  method RunManyRequests(req: Request, baseAction: string, additional: map<string, string>, env: Env,
                         dispatch: Request -> Result<Response, Error>)
    returns (result: Result<map<string, Response>, Error>, ambient: Request)
    ensures result == BatchResponses(req.items, Replay(req, baseAction, additional, env, dispatch))
    ensures result.Ok? ==> ambient == if req.items == [] then req
                                      else SubRequest(req, req.items[|req.items| - 1], baseAction, additional, env)
    ensures result.Err? ==> dispatch(ambient).Err? && result == Err(dispatch(ambient).error)
                            && exists j :: 0 <= j < |req.items| && ambient == SubRequest(req, req.items[j], baseAction, additional, env)
  {
    var items := req.items;
    ghost var replay := Replay(req, baseAction, additional, env, dispatch);
    var responses: map<string, Response> := map[];
    ambient := req;
    var i := 0;
    while i < |items|
      invariant 0 <= i <= |items|
      invariant BatchResponses(items[..i], replay) == Ok(responses)
      invariant ambient == if i == 0 then req else SubRequest(req, items[i - 1], baseAction, additional, env)
    {
      var sub := items[i];
      var subrequest := SubRequest(ambient, sub, baseAction, additional, env);
      AmbientClone(req, i, ambient, baseAction, additional, env);
      ambient := subrequest;
      var outcome := dispatch(subrequest);
      assert replay(sub) == outcome;
      BatchExtend(items, i, replay);
      if outcome.Err? {
        BatchPrefixFailure(items, i + 1, replay);
        assert ambient == SubRequest(req, items[i], baseAction, additional, env);
        return Err(outcome.error), ambient;
      }
      responses := responses[sub.kompoid := outcome.value];
      i := i + 1;
    }
    assert items[..i] == items;
    result := Ok(responses);
  }

  // -------------------------------------------------------------- dispatch

  /** The non-batch branches of `dispatchConnection`: reboot for display, or
      boot for action and perform the action. A routing error, a booter's
      failure and the action's failure each end the dispatch with that error. */
  function DispatchSingle(req: Request, env: Env): (r: Result<Response, Error>)
    ensures !NewDispatcher(None, req, env).Ok? ==> r == Err(NewDispatcher(None, req, env).error)
    ensures RouteOf(req) == RefreshSelf ==>
              var call := RebootKomposerForDisplay(req, env);
              && (r.Ok? <==> call.Ok? && env.boot(call.value).Ok?)
              && (r.Ok? ==> r.value == Booted(call.value, env.boot(call.value).value))
              && (call.Ok? && env.boot(call.value).Err? ==> r == Err(env.boot(call.value).error))
    ensures RouteOf(req) != RefreshSelf ==>
              var call := BootKomposerForAction(req, env);
              && (r.Ok? <==> call.Ok? && env.boot(call.value).Ok? && env.performAction(env.boot(call.value).value).Ok?)
              && (r.Ok? ==> var k := env.boot(call.value).value;
                            r.value == Performed(call.value, k, env.performAction(k).value))
              && (call.Ok? && env.boot(call.value).Err? ==> r == Err(env.boot(call.value).error))
              && (call.Ok? && env.boot(call.value).Ok? && env.performAction(env.boot(call.value).value).Err? ==>
                    r == Err(env.performAction(env.boot(call.value).value).error))
  {
    if RouteOf(req) == RefreshSelf then
      match RebootKomposerForDisplay(req, env)
      case Err(e) => Err(e)
      case Ok(call) =>
        match env.boot(call)
        case Err(e) => Err(e)
        case Ok(komposer) => Ok(Booted(call, komposer))
    else
      match BootKomposerForAction(req, env)
      case Err(e) => Err(e)
      case Ok(call) =>
        match env.boot(call)
        case Err(e) => Err(e)
        case Ok(komposer) =>
          match env.performAction(komposer)
          case Err(e) => Err(e)
          case Ok(outcome) => Ok(Performed(call, komposer, outcome))
  }

  /** The nested dispatch a batch uses for its items. */
  function SingleDispatch(env: Env): Request -> Result<Response, Error> {
    s => DispatchSingle(s, env)
  }

  function AsMany(r: Result<map<string, Response>, Error>): Result<Response, Error> {
    match r
    case Err(e) => Err(e)
    case Ok(m) => Ok(Many(m))
  }

  /** `dispatchConnection`. The nested dispatch of a batch item is the
      non-batch dispatch: DispatchAgreesOnSubRequests shows that this is what
      the recursive call does on a sub-request. */
  function DispatchConnection(req: Request, env: Env): (r: Result<Response, Error>)
    ensures RouteOf(req) == RefreshMany ==>
              r == AsMany(BatchResponses(req.items, Replay(req, "refresh-self", map[], env, SingleDispatch(env))))
    ensures RouteOf(req) == BrowseMany ==>
              r == AsMany(BatchResponses(req.items, Replay(req, "browse-items", BrowseHeaders, env, SingleDispatch(env))))
    ensures RouteOf(req) == RefreshSelf || RouteOf(req) == PerformAction ==>
              !NewDispatcher(None, req, env).Ok? ==> r == Err(NewDispatcher(None, req, env).error)
    ensures RouteOf(req) == RefreshSelf ==>
              var call := RebootKomposerForDisplay(req, env);
              && (r.Ok? <==> call.Ok? && env.boot(call.value).Ok?)
              && (r.Ok? ==> r.value == Booted(call.value, env.boot(call.value).value))
    ensures RouteOf(req) == PerformAction ==>
              var call := BootKomposerForAction(req, env);
              && (r.Ok? <==> call.Ok? && env.boot(call.value).Ok? && env.performAction(env.boot(call.value).value).Ok?)
              && (r.Ok? ==> var k := env.boot(call.value).value;
                            r.value == Performed(call.value, k, env.performAction(k).value))
  {
    match RouteOf(req)
    case RefreshMany => AsMany(BatchResponses(req.items, Replay(req, "refresh-self", map[], env, SingleDispatch(env))))
    case BrowseMany => AsMany(BatchResponses(req.items, Replay(req, "browse-items", BrowseHeaders, env, SingleDispatch(env))))
    case _ => DispatchSingle(req, env)
  }

  /** In either batch, the first item whose nested dispatch fails (a routing
      error, a booter's failure or a failed action) aborts the whole batch
      with that item's error. */
  lemma FailedItemAbortsBatch(req: Request, env: Env, baseAction: string, additional: map<string, string>, j: nat)
    requires || (RouteOf(req) == RefreshMany && baseAction == "refresh-self" && additional == map[])
             || (RouteOf(req) == BrowseMany && baseAction == "browse-items" && additional == BrowseHeaders)
    requires j < |req.items|
    requires DispatchSingle(SubRequest(req, req.items[j], baseAction, additional, env), env).Err?
    requires forall i :: 0 <= i < j ==> DispatchSingle(SubRequest(req, req.items[i], baseAction, additional, env), env).Ok?
    ensures DispatchConnection(req, env) == Err(DispatchSingle(SubRequest(req, req.items[j], baseAction, additional, env), env).error)
  {
    var replay := Replay(req, baseAction, additional, env, SingleDispatch(env));
    assert forall i :: 0 <= i < |req.items| ==>
             replay(req.items[i]) == DispatchSingle(SubRequest(req, req.items[i], baseAction, additional, env), env);
    BatchFailsWithFirstError(req.items, j, replay);
  }

  /** On every sub-request a batch builds, the full dispatch and the
      non-batch dispatch agree. */
  lemma DispatchAgreesOnSubRequests(current: Request, sub: SubItem, env: Env)
    ensures var s := SubRequest(current, sub, "refresh-self", map[], env);
            DispatchConnection(s, env) == DispatchSingle(s, env)
    ensures var s := SubRequest(current, sub, "browse-items", BrowseHeaders, env);
            DispatchConnection(s, env) == DispatchSingle(s, env)
  {
    SubRequestsNeverBatch(current, sub, env);
  }
}
