/**
 * The router runtime: one runtime object that dispatches every call to one of an ordered,
 * non-empty list of backend runtimes, chosen by the model id of the request.
 *
 * A registration names an API type, backend options and, optionally, the models it
 * serves: a static list or an asynchronous resolver. Resolved lists are cached per
 * registration id; the cache can be cleared for one id or for all of them. The backends
 * themselves (their chat, image, embeddings, speech and model-list calls) are foreign
 * code, passed in as functions.
 */
module RouterRuntime {
  import opened Wrappers

  /** Backend construction options: string-valued keys such as `apiKey`, `baseURL`, `id`. */
  type Options = map<string, string>

  /** How a registration declares its models. */
  datatype ModelsDecl =
    | Listed(ids: seq<string>)
      /** An asynchronous resolver; `resolved` is the list it resolves to. */
    | Resolver(resolved: seq<string>)
    | Unspecified

  datatype Registration = Registration(apiType: string, options: Options, models: ModelsDecl)

  /** A constructed backend runtime, identified by its API type and the options it was given. */
  datatype Backend = Backend(apiType: string, options: Options)

  /** An entry of the router's runtime list. */
  datatype RuntimeItem = RuntimeItem(id: string, models: ModelsDecl, runtime: Backend)

  /** A request; `model` selects the backend, the other fields are passed through. */
  datatype Payload = Payload(model: string, fields: map<string, string>)

  datatype RuntimeError = RuntimeError(errorType: string, message: string)

  /**
   * The options a backend is constructed with: the registration's options, then the
   * constructor's options, then the router id under `id`.
   */
  function BackendOptions(registration: Options, params: Options, routerId: string): (o: Options)
    ensures "id" in o && o["id"] == routerId
    ensures forall k :: k in params && k != "id" ==> k in o && o[k] == params[k]
    ensures forall k :: k in registration && k !in params && k != "id" ==> k in o && o[k] == registration[k]
    ensures o.Keys == registration.Keys + params.Keys + {"id"}
  {
    registration + params + map["id" := routerId]
  }

  function MakeItem(r: Registration, params: Options, routerId: string): RuntimeItem {
    RuntimeItem(r.apiType, r.models, Backend(r.apiType, BackendOptions(r.options, params, routerId)))
  }

  /** The outcome of one model-list lookup: the list, the new cache, and the ids resolved. */
  datatype Lookup = Lookup(models: seq<string>, cache: map<string, seq<string>>, resolved: seq<string>)

  /**
   * `getModels`: a static list is returned as it is and an undeclared list is empty; a
   * resolver's list comes from the cache when the id is cached, and is otherwise resolved
   * once and stored.
   */
  function LookupModels(item: RuntimeItem, cache: map<string, seq<string>>): Lookup {
    match item.models
    case Listed(ids) => Lookup(ids, cache, [])
    case Unspecified => Lookup([], cache, [])
    case Resolver(list) =>
      if item.id in cache then Lookup(cache[item.id], cache, [])
      else Lookup(list, cache[item.id := list], [item.id])
  }

  /** A lookup only ever adds the looked-up id to the cache and never changes other entries. */
  lemma LookupKeepsCache(item: RuntimeItem, cache: map<string, seq<string>>)
    ensures var l := LookupModels(item, cache);
      (forall k :: k in cache ==> k in l.cache && l.cache[k] == cache[k])
      && l.cache.Keys <= cache.Keys + {item.id}
      && |l.resolved| <= 1
  {
  }

  /** Two lookups of a resolver item in a row resolve it at most once and agree. */
  lemma LookupTwiceResolvesOnce(item: RuntimeItem, cache: map<string, seq<string>>)
    ensures var l1 := LookupModels(item, cache);
      var l2 := LookupModels(item, l1.cache);
      l2.models == l1.models && l2.resolved == [] && l2.cache == l1.cache
  {
  }

  /** A resolver item whose id is not cached is resolved to its list. */
  lemma LookupUncachedResolves(item: RuntimeItem, cache: map<string, seq<string>>)
    requires item.models.Resolver? && item.id !in cache
    ensures LookupModels(item, cache).resolved == [item.id]
    ensures LookupModels(item, cache).models == item.models.resolved
  {
  }

  /** `clearModelCache(id)` drops that id; `clearModelCache()` drops every id. */
  function ClearedCache(cache: map<string, seq<string>>, runtimeId: Option<string>): (c: map<string, seq<string>>)
    ensures runtimeId.None? ==> c == map[]
    ensures runtimeId.Some? ==> runtimeId.value !in c
    ensures runtimeId.Some? ==> forall k :: k in cache && k != runtimeId.value ==> k in c && c[k] == cache[k]
    ensures c.Keys <= cache.Keys
  {
    match runtimeId
    case None => map[]
    case Some(id) => cache - {id}
  }

  /**
   * The index `getRuntimeByModel` settles on when it scans `items` from `i` with the given
   * cache: the first item whose list contains the model, else the last item.
   */
  function RouteFrom(items: seq<RuntimeItem>, i: nat, model: string, cache: map<string, seq<string>>): (r: nat)
    requires i < |items|
    ensures i <= r < |items|
    decreases |items| - i
  {
    var l := LookupModels(items[i], cache);
    if model in l.models || i == |items| - 1 then i
    else RouteFrom(items, i + 1, model, l.cache)
  }

  /** The cache after the scan of `RouteFrom`. */
  function RouteCache(items: seq<RuntimeItem>, i: nat, model: string, cache: map<string, seq<string>>): map<string, seq<string>>
    requires i < |items|
    decreases |items| - i
  {
    var l := LookupModels(items[i], cache);
    if model in l.models || i == |items| - 1 then l.cache
    else RouteCache(items, i + 1, model, l.cache)
  }

  /** The ids resolved during the scan of `RouteFrom`, in order. */
  function RouteResolved(items: seq<RuntimeItem>, i: nat, model: string, cache: map<string, seq<string>>): seq<string>
    requires i < |items|
    decreases |items| - i
  {
    var l := LookupModels(items[i], cache);
    if model in l.models || i == |items| - 1 then l.resolved
    else l.resolved + RouteResolved(items, i + 1, model, l.cache)
  }

  predicate AllListed(items: seq<RuntimeItem>) {
    forall j :: 0 <= j < |items| ==> items[j].models.Listed?
  }

  /**
   * With static model lists, routing picks the first registration listing the model, and
   * the last registration when none lists it.
   */
  lemma {:induction false} RouteStatic(items: seq<RuntimeItem>, i: nat, model: string, cache: map<string, seq<string>>)
    requires i < |items| && AllListed(items)
    ensures var r := RouteFrom(items, i, model, cache);
      (forall j :: i <= j < r ==> model !in items[j].models.ids)
      && (model in items[r].models.ids || r == |items| - 1)
    ensures (forall j :: i <= j < |items| ==> model !in items[j].models.ids)
      ==> RouteFrom(items, i, model, cache) == |items| - 1
    decreases |items| - i
  {
    if !(model in items[i].models.ids) && i < |items| - 1 {
      RouteStatic(items, i + 1, model, cache);
    }
  }

  /** The list a registration declares: its static list, its resolver's list, or none. */
  function Declared(item: RuntimeItem): seq<string> {
    match item.models
    case Listed(ids) => ids
    case Resolver(list) => list
    case Unspecified => []
  }

  /** Every cached list of a resolver registration is that resolver's own list. */
  predicate CacheAgrees(items: seq<RuntimeItem>, cache: map<string, seq<string>>) {
    forall j :: 0 <= j < |items| && items[j].models.Resolver? && items[j].id in cache ==>
      cache[items[j].id] == items[j].models.resolved
  }

  /** Resolver registrations that share an id, and so one cache entry, resolve to the same list. */
  predicate SharedIdsAgree(items: seq<RuntimeItem>) {
    forall j, k ::
      0 <= j < |items| && 0 <= k < |items| && items[j].models.Resolver? && items[k].models.Resolver? && items[j].id == items[k].id
      ==> items[j].models.resolved == items[k].models.resolved
  }

  /** Under an agreeing cache, a lookup returns the declared list and leaves the cache agreeing. */
  lemma LookupAgrees(items: seq<RuntimeItem>, j: nat, cache: map<string, seq<string>>)
    requires j < |items| && CacheAgrees(items, cache) && SharedIdsAgree(items)
    ensures LookupModels(items[j], cache).models == Declared(items[j])
    ensures CacheAgrees(items, LookupModels(items[j], cache).cache)
  {
  }

  /**
   * Whatever the kinds of the lists, routing from an agreeing cache (the empty cache of a
   * new router, for one) skips exactly the registrations whose declared list lacks the
   * model and stops at the first that has it, or at the last registration.
   */
  lemma {:induction false} RouteFirstMatch(items: seq<RuntimeItem>, i: nat, model: string, cache: map<string, seq<string>>)
    requires i < |items| && CacheAgrees(items, cache) && SharedIdsAgree(items)
    ensures var r := RouteFrom(items, i, model, cache);
      (forall j :: i <= j < r ==> model !in Declared(items[j]))
      && (model in Declared(items[r]) || r == |items| - 1)
    ensures (forall j :: i <= j < |items| ==> model !in Declared(items[j]))
      ==> RouteFrom(items, i, model, cache) == |items| - 1
    decreases |items| - i
  {
    LookupAgrees(items, i, cache);
    var l := LookupModels(items[i], cache);
    if !(model in l.models) && i < |items| - 1 {
      RouteFirstMatch(items, i + 1, model, l.cache);
    }
  }

  /** The runtime that serves a request and what it returns, after `handleError`. */
  function HandledError(handleError: Option<RuntimeError -> Option<RuntimeError>>, e: RuntimeError): (r: RuntimeError)
  {
    match handleError
    case None => e
    case Some(h) => match h(e) case Some(replacement) => replacement case None => e
  }

  /** A handler that returns a value replaces the error; one that returns nothing keeps it. */
  lemma HandledErrorCases(h: RuntimeError -> Option<RuntimeError>, e: RuntimeError)
    ensures h(e).Some? ==> HandledError(Some(h), e) == h(e).value
    ensures h(e).None? ==> HandledError(Some(h), e) == e
    ensures HandledError(None, e) == e
  {
  }

  function Rethrow<T>(handleError: Option<RuntimeError -> Option<RuntimeError>>, r: Result<T, RuntimeError>): Result<T, RuntimeError> {
    match r
    case Ok(v) => Ok(v)
    case Err(e) => Err(HandledError(handleError, e))
  }

  class Router {
    const id: string
    /** `_runtimes`: one item per registration, in registration order. */
    const runtimes: seq<RuntimeItem>
    /** The `chat.handleError` constructor option. */
    const handleError: Option<RuntimeError -> Option<RuntimeError>>
    /** `_modelCache`: the resolved model lists by registration id. */
    var cache: map<string, seq<string>>
    /** The ids whose resolver has been invoked, in invocation order. */
    var resolutions: seq<string>

    ghost predicate Valid()
      reads this
    {
      |runtimes| > 0
    }

    constructor (routerId: string, registrations: seq<Registration>, params: Options,
                 handler: Option<RuntimeError -> Option<RuntimeError>>)
      requires |registrations| > 0
      ensures Valid()
      ensures id == routerId && handleError == handler
      ensures |runtimes| == |registrations|
      ensures forall i :: 0 <= i < |registrations| ==> runtimes[i] == MakeItem(registrations[i], params, routerId)
      ensures cache == map[] && resolutions == []
    {
      id := routerId;
      handleError := handler;
      runtimes := seq(|registrations|, i requires 0 <= i < |registrations| => MakeItem(registrations[i], params, routerId));
      cache := map[];
      resolutions := [];
    }

    /** `getModels(item)`. */
    method GetModels(item: RuntimeItem) returns (models: seq<string>)
      modifies this
      ensures var l := LookupModels(item, old(cache));
        models == l.models && cache == l.cache && resolutions == old(resolutions) + l.resolved
    {
      var l := LookupModels(item, cache);
      cache := l.cache;
      resolutions := resolutions + l.resolved;
      models := l.models;
    }

    /** `getRuntimeByModel(model)`: scans the runtimes in order, falling back to the last. */
    method GetRuntimeByModel(model: string) returns (index: nat, backend: Backend)
      requires Valid()
      modifies this
      ensures index == RouteFrom(runtimes, 0, model, old(cache))
      ensures backend == runtimes[index].runtime
      ensures cache == RouteCache(runtimes, 0, model, old(cache))
      ensures resolutions == old(resolutions) + RouteResolved(runtimes, 0, model, old(cache))
      ensures CacheAgrees(runtimes, old(cache)) && SharedIdsAgree(runtimes) ==>
        (forall j :: 0 <= j < index ==> model !in Declared(runtimes[j]))
        && (model in Declared(runtimes[index]) || index == |runtimes| - 1)
    {
      if CacheAgrees(runtimes, cache) && SharedIdsAgree(runtimes) {
        RouteFirstMatch(runtimes, 0, model, cache);
      }
      var i := 0;
      while true
        invariant 0 <= i < |runtimes|
        invariant RouteFrom(runtimes, 0, model, old(cache)) == RouteFrom(runtimes, i, model, cache)
        invariant RouteCache(runtimes, 0, model, old(cache)) == RouteCache(runtimes, i, model, cache)
        invariant old(resolutions) + RouteResolved(runtimes, 0, model, old(cache))
          == resolutions + RouteResolved(runtimes, i, model, cache)
        decreases |runtimes| - i
      {
        var before, beforeLog := cache, resolutions;
        var models := GetModels(runtimes[i]);
        if model in models || i == |runtimes| - 1 {
          index, backend := i, runtimes[i].runtime;
          return;
        }
        assert RouteResolved(runtimes, i, model, before)
          == LookupModels(runtimes[i], before).resolved + RouteResolved(runtimes, i + 1, model, cache);
        assert resolutions == beforeLog + LookupModels(runtimes[i], before).resolved;
        i := i + 1;
      }
    }

    /** `clearModelCache(runtimeId?)`. */
    method ClearModelCache(runtimeId: Option<string>)
      modifies this
      ensures cache == ClearedCache(old(cache), runtimeId)
      ensures resolutions == old(resolutions)
    {
      cache := ClearedCache(cache, runtimeId);
    }

    /**
     * `chat(payload, options)`: forwards both arguments unchanged to the routed backend; a
     * failure is passed through `handleError`.
     */
    method Chat<O, T>(payload: Payload, options: Option<O>,
                      chat: (Backend, Payload, Option<O>) -> Result<T, RuntimeError>)
      returns (r: Result<T, RuntimeError>)
      requires Valid()
      modifies this
      ensures r == Rethrow(handleError,
        chat(runtimes[RouteFrom(runtimes, 0, payload.model, old(cache))].runtime, payload, options))
      ensures cache == RouteCache(runtimes, 0, payload.model, old(cache))
      ensures resolutions == old(resolutions) + RouteResolved(runtimes, 0, payload.model, old(cache))
    {
      var _, backend := GetRuntimeByModel(payload.model);
      r := Rethrow(handleError, chat(backend, payload, options));
    }

    /** `textToImage(payload)`: forwards the payload alone to the routed backend. */
    method TextToImage<T>(payload: Payload, textToImage: (Backend, Payload) -> T) returns (r: T)
      requires Valid()
      modifies this
      ensures r == textToImage(runtimes[RouteFrom(runtimes, 0, payload.model, old(cache))].runtime, payload)
      ensures cache == RouteCache(runtimes, 0, payload.model, old(cache))
      ensures resolutions == old(resolutions) + RouteResolved(runtimes, 0, payload.model, old(cache))
    {
      var _, backend := GetRuntimeByModel(payload.model);
      r := textToImage(backend, payload);
    }

    /** `embeddings(payload, options)`: forwards both arguments to the routed backend. */
    method Embeddings<O, T>(payload: Payload, options: Option<O>, embeddings: (Backend, Payload, Option<O>) -> T)
      returns (r: T)
      requires Valid()
      modifies this
      ensures r == embeddings(runtimes[RouteFrom(runtimes, 0, payload.model, old(cache))].runtime, payload, options)
      ensures cache == RouteCache(runtimes, 0, payload.model, old(cache))
      ensures resolutions == old(resolutions) + RouteResolved(runtimes, 0, payload.model, old(cache))
    {
      var _, backend := GetRuntimeByModel(payload.model);
      r := embeddings(backend, payload, options);
    }

    /** `textToSpeech(payload, options)`: forwards both arguments to the routed backend. */
    method TextToSpeech<O, T>(payload: Payload, options: Option<O>, textToSpeech: (Backend, Payload, Option<O>) -> T)
      returns (r: T)
      requires Valid()
      modifies this
      ensures r == textToSpeech(runtimes[RouteFrom(runtimes, 0, payload.model, old(cache))].runtime, payload, options)
      ensures cache == RouteCache(runtimes, 0, payload.model, old(cache))
      ensures resolutions == old(resolutions) + RouteResolved(runtimes, 0, payload.model, old(cache))
    {
      var _, backend := GetRuntimeByModel(payload.model);
      r := textToSpeech(backend, payload, options);
    }

    /** `models()`: always asks the first runtime; the cache is not consulted. */
    method Models<T>(models: Backend -> T) returns (r: T)
      requires Valid()
      ensures r == models(runtimes[0].runtime)
    {
      r := models(runtimes[0].runtime);
    }
  }

  /** `new Runtime(params)`: an empty registration list fails with "empty providers". */
  method Create(routerId: string, registrations: seq<Registration>, params: Options,
                handler: Option<RuntimeError -> Option<RuntimeError>>)
    returns (r: Result<Router, string>)
    ensures r.Err? <==> |registrations| == 0
    ensures r.Err? ==> r.error == "empty providers"
    ensures r.Ok? ==> fresh(r.value) && r.value.Valid() && r.value.cache == map[] && r.value.resolutions == []
    ensures r.Ok? ==> r.value.id == routerId && r.value.handleError == handler
    ensures r.Ok? ==> |r.value.runtimes| == |registrations|
    ensures r.Ok? ==> forall i :: 0 <= i < |registrations| ==> r.value.runtimes[i] == MakeItem(registrations[i], params, routerId)
  {
    if |registrations| == 0 {
      return Err("empty providers");
    }
    var router := new Router(routerId, registrations, params, handler);
    return Ok(router);
  }

  /** The empty-list construction of the router tests fails with "empty providers". */
  method EmptyRoutersScenario() returns (r: Result<Router, string>)
    ensures r == Err("empty providers")
  {
    r := Create("test-runtime", [], map[], None);
  }

  /**
   * The option-merging construction: a registration with `baseURL`, a constructor `apiKey`;
   * the backend receives both and the router id.
   */
  method OptionsScenario() returns (options: Options)
    ensures "baseURL" in options && options["baseURL"] == "https://api.example.com"
    ensures "apiKey" in options && options["apiKey"] == "constructor-key"
    ensures "id" in options && options["id"] == "test-runtime"
  {
    var reg := Registration("openai", map["baseURL" := "https://api.example.com"], Unspecified);
    var router := new Router("test-runtime", [reg], map["apiKey" := "constructor-key"], None);
    options := router.runtimes[0].runtime.options;
  }

  /**
   * The caching scenario: a resolver item looked up twice answers the same list both times
   * and its resolver runs once; after `clearModelCache(id)` it runs again.
   */
  method ResolverCacheScenario() returns (first: seq<string>, second: seq<string>, callsBeforeClear: nat, callsAfterClear: nat)
    ensures first == ["async-model-1", "async-model-2"] && second == first
    ensures callsBeforeClear == 1 && callsAfterClear == 2
  {
    var reg := Registration("openai", map[], Resolver(["async-model-1", "async-model-2"]));
    var router := new Router("test-runtime", [reg], map[], None);
    var item := RuntimeItem("test", Resolver(["async-model-1", "async-model-2"]), Backend("openai", map[]));
    first := router.GetModels(item);
    second := router.GetModels(item);
    callsBeforeClear := |router.resolutions|;
    router.ClearModelCache(Some("test"));
    var _ := router.GetModels(item);
    callsAfterClear := |router.resolutions|;
  }

  /** Clearing the whole cache makes both of two cached resolvers run again. */
  method ClearAllScenario() returns (log: seq<string>)
    ensures log == ["test-id-1", "test-id-2", "test-id-1", "test-id-2"]
  {
    var reg := Registration("openai", map[], Resolver(["model-1"]));
    var router := new Router("test-runtime", [reg], map[], None);
    var item1 := RuntimeItem("test-id-1", Resolver(["model-1"]), Backend("openai", map[]));
    var item2 := RuntimeItem("test-id-2", Resolver(["model-2"]), Backend("openai", map[]));
    var m := router.GetModels(item1);
    m := router.GetModels(item2);
    router.ClearModelCache(None);
    m := router.GetModels(item1);
    m := router.GetModels(item2);
    log := router.resolutions;
  }

  /** Routing the two-registration example: each listed model goes to its own backend, others to the last. */
  method RoutingScenario() returns (gpt: nat, claude: nat, unknown: nat)
    ensures gpt == 0 && claude == 1 && unknown == 1
  {
    var regs := [Registration("openai", map[], Listed(["gpt-4"])), Registration("anthropic", map[], Listed(["claude-3"]))];
    var router := new Router("test-runtime", regs, map[], None);
    var b;
    gpt, b := router.GetRuntimeByModel("gpt-4");
    claude, b := router.GetRuntimeByModel("claude-3");
    unknown, b := router.GetRuntimeByModel("unknown-model");
  }

  /** With a handler that returns a value, a failed chat rejects with that value; otherwise with the original error. */
  method HandleErrorScenario() returns (handled: Result<string, RuntimeError>, rethrown: Result<string, RuntimeError>)
    ensures handled == Err(RuntimeError("APIError", "Handled error"))
    ensures rethrown == Err(RuntimeError("Error", "API Error"))
  {
    var failing := (b: Backend, p: Payload, o: Option<()>) => Err(RuntimeError("Error", "API Error"));
    var regs := [Registration("openai", map[], Listed(["gpt-4"]))];
    var replacing := new Router("test-runtime", regs, map[],
      Some((e: RuntimeError) => Some(RuntimeError("APIError", "Handled error"))));
    handled := replacing.Chat(Payload("gpt-4", map[]), None, failing);
    var keeping := new Router("test-runtime", regs, map[], Some((e: RuntimeError) => None));
    rethrown := keeping.Chat(Payload("gpt-4", map[]), None, failing);
  }
}
