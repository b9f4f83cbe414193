/**
 * ConventionEventRouter as an object: its endpoint map, registered receiver
 * and the static, process-wide method cache (a `MethodCache` object shared by
 * every router). Each method is proved against the functions of `EventRouting`.
 */
module ConventionRouting {
  import opened Failures
  import opened Events
  import opened Reflection
  import opened EventRouting

  /** The static `methodCache` map, shared by all routers of a revision. */
  class MethodCache {
    var entries: map<CacheKey, MethodRef>

    constructor ()
      ensures entries == map[]
    {
      entries := map[];
    }

    /** `cacheLookup`: a hit returns the cached method; a miss traverses and caches only a found method. */
    method Lookup(key: CacheKey, h: Hierarchy, eventType: string) returns (m: Option<MethodRef>)
      requires key.className == CanonicalName(h)
      modifies this
      ensures var l := CacheLookup(old(entries), key, h, eventType); m == l.found && entries == l.cache
    {
      if key in entries {
        return Some(entries[key]);
      }
      m := Traverse(h, key.methodName, eventType);
      if m.Some? {
        entries := entries[key := m.value];
      }
    }
  }

  class ConventionEventRouter {
    const config: RouterConfig
    const cache: MethodCache
    var endpoints: map<string, Endpoint>
    var receiver: Option<Receiver>
    var invocations: seq<Invocation>

    /** The router's fields and the shared cache, as the value `EventRouting` reasons about. */
    function State(): RouterState
      reads this, cache
    {
      RouterState(endpoints, receiver, cache.entries, invocations)
    }

    /** Newer revision, `ConventionEventRouter()`: throws when nothing is found, handler name "when". */
    constructor Default(cache: MethodCache)
      ensures config == RouterConfig(Current, true, DefaultMethodName)
      ensures this.cache == cache && endpoints == map[] && receiver == None && invocations == []
    {
      config := RouterConfig(Current, true, DefaultMethodName);
      this.cache := cache;
      endpoints := map[];
      receiver := None;
      invocations := [];
    }

    /** Newer revision, `ConventionEventRouter(boolean)`. */
    constructor WithThrowFlag(cache: MethodCache, throwOnEndpointNotFound: bool)
      ensures config == RouterConfig(Current, throwOnEndpointNotFound, DefaultMethodName)
      ensures this.cache == cache && endpoints == map[] && receiver == None && invocations == []
    {
      config := RouterConfig(Current, throwOnEndpointNotFound, DefaultMethodName);
      this.cache := cache;
      endpoints := map[];
      receiver := None;
      invocations := [];
    }

    /** Newer revision, `ConventionEventRouter(boolean, String)`; no receiver until `register(Object)`. */
    constructor Configured(cache: MethodCache, throwOnEndpointNotFound: bool, methodName: string)
      ensures config == RouterConfig(Current, throwOnEndpointNotFound, methodName)
      ensures this.cache == cache && endpoints == map[] && receiver == None && invocations == []
    {
      config := RouterConfig(Current, throwOnEndpointNotFound, methodName);
      this.cache := cache;
      endpoints := map[];
      receiver := None;
      invocations := [];
    }

    /** Older revision, `ConventionEventRouter()`: `this(null)`, so no receiver and throwing on a miss. */
    constructor LegacyDefault(cache: MethodCache)
      ensures config == RouterConfig(Legacy, true, DefaultMethodName)
      ensures this.cache == cache && endpoints == map[] && receiver == None && invocations == []
    {
      config := RouterConfig(Legacy, true, DefaultMethodName);
      this.cache := cache;
      endpoints := map[];
      receiver := None;
      invocations := [];
    }

    /** Older revision, `ConventionEventRouter(Object)`. */
    constructor LegacyFor(cache: MethodCache, obj: Option<Receiver>)
      ensures config == RouterConfig(Legacy, true, DefaultMethodName)
      ensures this.cache == cache && endpoints == map[] && receiver == obj && invocations == []
    {
      config := RouterConfig(Legacy, true, DefaultMethodName);
      this.cache := cache;
      endpoints := map[];
      receiver := obj;
      invocations := [];
    }

    /**
     * Older revision, `ConventionEventRouter(Object, boolean)` as written: it
     * delegates with the constant `true`, so its flag has no effect.
     */
    constructor LegacyForFlag(cache: MethodCache, obj: Option<Receiver>, throwOnHandlerNotFound: bool)
      ensures config == RouterConfig(Legacy, true, DefaultMethodName)
      ensures this.cache == cache && endpoints == map[] && receiver == obj && invocations == []
    {
      config := RouterConfig(Legacy, true, DefaultMethodName);
      this.cache := cache;
      endpoints := map[];
      receiver := obj;
      invocations := [];
    }

    /** `ConventionEventRouter(Object, boolean)` as evidently intended: the flag is passed on. */
    constructor LegacyForFlagIntended(cache: MethodCache, obj: Option<Receiver>, throwOnHandlerNotFound: bool)
      ensures config == RouterConfig(Legacy, throwOnHandlerNotFound, DefaultMethodName)
      ensures this.cache == cache && endpoints == map[] && receiver == obj && invocations == []
    {
      config := RouterConfig(Legacy, throwOnHandlerNotFound, DefaultMethodName);
      this.cache := cache;
      endpoints := map[];
      receiver := obj;
      invocations := [];
    }

    /** Older revision, `ConventionEventRouter(Object, boolean, String)`. */
    constructor LegacyConfigured(cache: MethodCache, obj: Option<Receiver>, throwOnHandlerNotFound: bool, methodName: string)
      ensures config == RouterConfig(Legacy, throwOnHandlerNotFound, methodName)
      ensures this.cache == cache && endpoints == map[] && receiver == obj && invocations == []
    {
      config := RouterConfig(Legacy, throwOnHandlerNotFound, methodName);
      this.cache := cache;
      endpoints := map[];
      receiver := obj;
      invocations := [];
    }

    /** `register(Object)`: replaces the receiver; endpoints already bound to the old one stay. */
    method RegisterReceiver(obj: Option<Receiver>)
      modifies this
      ensures receiver == obj && endpoints == old(endpoints) && invocations == old(invocations)
    {
      receiver := obj;
    }

    /** The message of the `IllegalStateException` for a second registration, by revision. */
    static function AlreadyRegistered(revision: Revision, eventType: string): (msg: string)
      ensures |msg| > |eventType| && msg[|msg| - |eventType|..] == eventType
    {
      (if revision == Current then "endpoint" else "Handler") + " already registered for type " + eventType
    }

    /**
     * `register(Class, endpoint)`: both arguments must be non-null and the type
     * free; then the endpoint is mapped for exactly that type.
     */
    method Register(eventType: Option<string>, endpoint: Option<Endpoint>) returns (o: Outcome)
      modifies this
      ensures receiver == old(receiver) && invocations == old(invocations)
      ensures eventType.None? ==> o == Fail(ValidationFailed("eventType must not be null"))
      ensures eventType.Some? && endpoint.None? ==> o == Fail(ValidationFailed("route endpoint must not be null"))
      ensures eventType.Some? && endpoint.Some? && eventType.value in old(endpoints) ==>
                o == Fail(IllegalState(AlreadyRegistered(config.revision, eventType.value)))
      ensures o.Fail? ==> endpoints == old(endpoints)
      ensures o.Pass? <==> eventType.Some? && endpoint.Some? && eventType.value !in old(endpoints)
      ensures o.Pass? ==> endpoints == old(endpoints)[eventType.value := endpoint.value]
    {
      if eventType.None? {
        return Fail(ValidationFailed("eventType must not be null"));
      }
      if endpoint.None? {
        return Fail(ValidationFailed("route endpoint must not be null"));
      }
      if eventType.value in endpoints {
        return Fail(IllegalState(AlreadyRegistered(config.revision, eventType.value)));
      }
      endpoints := endpoints[eventType.value := endpoint.value];
      return Pass;
    }

    /** `findEndpoints` / `findHandlerFor`: map lookup, then convention lookup through the cache, registering what it finds. */
    method FindEndpoints(eventType: string) returns (h: Option<Endpoint>)
      modifies this, cache
      ensures var res := Resolve(config.methodName, old(State()), eventType);
              h == res.found && endpoints == res.endpoints && cache.entries == res.cache
      ensures receiver == old(receiver) && invocations == old(invocations)
    {
      if eventType in endpoints {
        return Some(endpoints[eventType]);
      }
      if receiver.None? {
        return None;
      }
      var obj := receiver.value;
      var key := CacheKey(CanonicalName(obj.hierarchy), config.methodName, eventType);
      var m := cache.Lookup(key, obj.hierarchy, eventType);
      if m.None? {
        return None;
      }
      var endpoint := InvokeMethod(obj, m.value);
      var o := Register(Some(eventType), Some(endpoint));
      assert o == Pass;
      return Some(endpoint);
    }

    /**
     * `routeEvent` (newer) and the body of `dispatch` (older): a null event is
     * rejected; a found endpoint consumes the event; otherwise the router
     * throws or, when configured not to, returns null.
     */
    method Route(event: Option<Event>) returns (r: Result<Option<Endpoint>>)
      modifies this, cache
      ensures event.None? ==> r == Failure(ValidationFailed("event must not be null")) && State() == old(State())
      ensures event.Some? ==> var s := RouteStep(config, old(State()), event.value); r == s.outcome && State() == s.state
    {
      if event.None? {
        return Failure(ValidationFailed("event must not be null"));
      }
      var e := event.value;
      var h := FindEndpoints(e.eventType);
      if h.Some? {
        invocations := invocations + [Invocation(h.value, e)];
        return Success(h);
      } else if config.throwOnNotFound {
        return Failure(NotFound(config.revision, e.eventType));
      }
      return Success(None);
    }

    /** The older revision's `dispatch`, which returns nothing. */
    method Dispatch(event: Option<Event>) returns (o: Outcome)
      requires config.revision == Legacy
      modifies this, cache
      ensures event.None? ==> o == Fail(ValidationFailed("event must not be null")) && State() == old(State())
      ensures event.Some? ==> var s := RouteStep(config, old(State()), event.value); o == OutcomeOf(s.outcome) && State() == s.state
    {
      var r := Route(event);
      o := OutcomeOf(r);
    }
  }

  /** `Base` of the router tests: protected `when(TestEvent1)` and `when(TestEvent2)`. */
  function BaseWhen(eventType: string): MethodDecl {
    MethodDecl("when", [eventType], "void", Protected, {})
  }

  const BaseClass: Hierarchy := [ClassLevel("Base", [BaseWhen("TestEvent1"), BaseWhen("TestEvent2")], Some(Public))]

  /** How often a handler method ran. */
  function CallsOf(invs: seq<Invocation>, decl: MethodDecl): (n: nat)
    ensures n <= |invs|
  {
    if |invs| == 0 then 0
    else CallsOf(invs[..|invs| - 1], decl) +
         (var x := invs[|invs| - 1]; if x.endpoint.InvokeMethod? && x.endpoint.handler.decl == decl then 1 else 0)
  }

  lemma BaseConventions()
    ensures Traverse(BaseClass, "when", "TestEvent1") == Some(MethodRef("Base", BaseWhen("TestEvent1")))
    ensures Traverse(BaseClass, "when", "TestEvent2") == Some(MethodRef("Base", BaseWhen("TestEvent2")))
  {
    assert DeclaredMethod(BaseClass[0].methods, "when", ["TestEvent1"]) == Some(BaseWhen("TestEvent1"));
    assert BaseClass[0].methods[1..] == [BaseWhen("TestEvent2")];
    assert DeclaredMethod(BaseClass[0].methods, "when", ["TestEvent2"]) == Some(BaseWhen("TestEvent2"));
  }

  /** How often a handler method ran, after one more invocation. */
  lemma CallsOfSnoc(invs: seq<Invocation>, x: Invocation, decl: MethodDecl)
    ensures CallsOf(invs + [x], decl) ==
            CallsOf(invs, decl) + (if x.endpoint.InvokeMethod? && x.endpoint.handler.decl == decl then 1 else 0)
  {
    assert (invs + [x])[..|invs|] == invs;
  }

  /**
   * One route of a `Base` event through a router bound to a `Base` receiver:
   * the handler for the event's type runs once more, the other not at all.
   */
  lemma BaseStep(cfg: RouterConfig, st: RouterState, obj: Receiver, e: Event)
    requires cfg.methodName == DefaultMethodName && obj.hierarchy == BaseClass
    requires BoundTo(st, cfg.methodName, obj)
    requires e.eventType == "TestEvent1" || e.eventType == "TestEvent2"
    ensures var s := RouteStep(cfg, st, e);
            && BoundTo(s.state, cfg.methodName, obj)
            && CallsOf(s.state.invocations, BaseWhen("TestEvent1")) ==
               CallsOf(st.invocations, BaseWhen("TestEvent1")) + (if e.eventType == "TestEvent1" then 1 else 0)
            && CallsOf(s.state.invocations, BaseWhen("TestEvent2")) ==
               CallsOf(st.invocations, BaseWhen("TestEvent2")) + (if e.eventType == "TestEvent2" then 1 else 0)
  {
    BaseConventions();
    RouteStepWhenBound(cfg, st, obj, e);
    var x := Invocation(InvokeMethod(obj, MethodRef("Base", BaseWhen(e.eventType))), e);
    assert RouteStep(cfg, st, e).state.invocations == st.invocations + [x];
    assert BaseWhen("TestEvent1") != BaseWhen("TestEvent2");
    CallsOfSnoc(st.invocations, x, BaseWhen("TestEvent1"));
    CallsOfSnoc(st.invocations, x, BaseWhen("TestEvent2"));
  }

  /** `routeEvent` of a `Base` event on a router bound to a `Base` receiver, counted per handler. */
  method RouteBase(router: ConventionEventRouter, obj: Receiver, e: Event)
    requires router.config.methodName == DefaultMethodName && obj.hierarchy == BaseClass
    requires BoundTo(router.State(), DefaultMethodName, obj)
    requires e.eventType == "TestEvent1" || e.eventType == "TestEvent2"
    modifies router, router.cache
    ensures BoundTo(router.State(), DefaultMethodName, obj)
    ensures CallsOf(router.invocations, BaseWhen("TestEvent1")) ==
            old(CallsOf(router.invocations, BaseWhen("TestEvent1"))) + (if e.eventType == "TestEvent1" then 1 else 0)
    ensures CallsOf(router.invocations, BaseWhen("TestEvent2")) ==
            old(CallsOf(router.invocations, BaseWhen("TestEvent2"))) + (if e.eventType == "TestEvent2" then 1 else 0)
  {
    BaseStep(router.config, router.State(), obj, e);
    var r := router.Route(Some(e));
  }

  /**
   * `testOnSimpleClass`: a default router with a `Base` receiver routes
   * TestEvent1, TestEvent2, TestEvent2; each handler runs once per event of
   * its type, whatever the shared cache already holds for `Base`.
   */
  method SimpleClassScenario(cache: MethodCache, foo: nat) returns (calledEv1: nat, calledEv2: nat)
    requires CacheAgrees(cache.entries, BaseClass)
    modifies cache
    ensures calledEv1 == 1 && calledEv2 == 2
  {
    var router := new ConventionEventRouter.Default(cache);
    var obj := Receiver(foo, BaseClass);
    router.RegisterReceiver(Some(obj));
    var e1 := Event("e1", "TestEvent1", 0);
    var e2 := Event("e2", "TestEvent2", 0);
    var e3 := Event("e3", "TestEvent2", 0);
    RouteBase(router, obj, e1);
    RouteBase(router, obj, e2);
    RouteBase(router, obj, e3);
    var invs := router.invocations;
    calledEv1 := CallsOf(invs, BaseWhen("TestEvent1"));
    calledEv2 := CallsOf(invs, BaseWhen("TestEvent2"));
  }

  /** The older `(Object, boolean)` constructor ignores `false`: a miss still throws. */
  method LegacyFlagIgnored() returns (r: Outcome)
    ensures r == Fail(HandlerNotFound("TestEvent1"))
  {
    var cache := new MethodCache();
    var router := new ConventionEventRouter.LegacyForFlag(cache, None, false);
    r := router.Dispatch(Some(Event("e1", "TestEvent1", 0)));
  }

  /** With the flag passed on, the same miss returns normally. */
  method LegacyFlagHonoured() returns (r: Outcome)
    ensures r == Pass
  {
    var cache := new MethodCache();
    var router := new ConventionEventRouter.LegacyForFlagIntended(cache, None, false);
    r := router.Dispatch(Some(Event("e1", "TestEvent1", 0)));
  }
}
