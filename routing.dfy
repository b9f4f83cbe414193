/**
 * The convention event router's resolution logic as pure functions, shared
 * by both revisions of ConventionEventRouter (the newer `routeEvent` one and
 * the older `dispatch` one). Module `ConventionRouting` ties the router class
 * to these functions; the lemmas here state what routing promises.
 */
module EventRouting {
  import opened Failures
  import opened Events
  import opened Reflection
  import opened Strings

  const DefaultMethodName: string := "when"

  /** An object registered with a router: its identity and its runtime class. */
  datatype Receiver = Receiver(identity: nat, hierarchy: Hierarchy)

  /**
   * A route endpoint: one registered explicitly (opaque to the router), or an
   * `InvokeMethodEndpoint` / anonymous handler that calls `method` on `target`.
   */
  datatype Endpoint = Supplied(tag: string) | InvokeMethod(target: Receiver, handler: MethodRef)

  /** One call of an endpoint with an event; handler bodies are outside the model. */
  datatype Invocation = Invocation(endpoint: Endpoint, event: Event)

  /** Which source revision a router follows. */
  datatype Revision =
    | Current  // common/.../convention/ConventionEventRouter: routeEvent, EndpointNotFoundException
    | Legacy   // src/.../routing/ConventionEventRouter: dispatch, HandlerNotFoundException

  datatype RouterConfig = RouterConfig(revision: Revision, throwOnNotFound: bool, methodName: string)

  /** The global method cache's key: receiver class, handler method name, event type. */
  datatype CacheKey = CacheKey(className: string, methodName: string, eventType: string)

  /** Everything routing reads and writes: the router's fields and the shared method cache. */
  datatype RouterState = RouterState(
    endpoints: map<string, Endpoint>,
    receiver: Option<Receiver>,
    cache: map<CacheKey, MethodRef>,
    invocations: seq<Invocation>)

  /** The source's string key, `String.format("%s#%s(%s)", class, method, event)`. */
  function KeyString(k: CacheKey): string {
    k.className + "#" + k.methodName + "(" + k.eventType + ")"
  }

  /**
   * Keying the cache by the triple is faithful to the string key: for class
   * names without '#' and method names without '(' (true of every Java
   * canonical name and identifier) distinct triples give distinct strings.
   */
  lemma KeyStringInjective(k1: CacheKey, k2: CacheKey)
    requires '#' !in k1.className && '#' !in k2.className
    requires '(' !in k1.methodName && '(' !in k2.methodName
    requires KeyString(k1) == KeyString(k2)
    ensures k1 == k2
  {
    var rest1 := k1.methodName + "(" + k1.eventType + ")";
    var rest2 := k2.methodName + "(" + k2.eventType + ")";
    assert KeyString(k1) == k1.className + ['#'] + rest1;
    assert KeyString(k2) == k2.className + ['#'] + rest2;
    SplitAtFirst(k1.className, rest1, k2.className, rest2, '#');
    var tail1 := k1.eventType + ")";
    var tail2 := k2.eventType + ")";
    assert rest1 == k1.methodName + ['('] + tail1;
    assert rest2 == k2.methodName + ['('] + tail2;
    SplitAtFirst(k1.methodName, tail1, k2.methodName, tail2, '(');
    assert k1.eventType == tail1[..|tail1| - 1] == tail2[..|tail2| - 1] == k2.eventType;
  }

  /**
   * `traverseClassHierarchy`: the first level (most-derived first) that declares
   * `methodName(eventType)` decides; its method is used if public or protected,
   * otherwise nothing is found and the climb stops.
   */
  function Traverse(h: Hierarchy, methodName: string, eventType: string): (r: Option<MethodRef>)
    ensures r.Some? ==> Accessible(r.value.decl.visibility)
    ensures r.Some? ==> r.value.decl.name == methodName && r.value.decl.params == [eventType]
  {
    if |h| == 0 then None
    else match DeclaredMethod(h[0].methods, methodName, [eventType])
      case Some(m) => if Accessible(m.visibility) then Some(MethodRef(h[0].name, m)) else None
      case None => Traverse(h[1..], methodName, eventType)
  }

  /** A level declaring the handler method stops the climb, whatever its visibility. */
  lemma {:induction false} TraverseDecidedByFirstDeclaringLevel(h: Hierarchy, methodName: string, eventType: string, i: nat)
    requires i < |h|
    requires DeclaredMethod(h[i].methods, methodName, [eventType]).Some?
    requires forall j :: 0 <= j < i ==> DeclaredMethod(h[j].methods, methodName, [eventType]).None?
    ensures var m := DeclaredMethod(h[i].methods, methodName, [eventType]).value;
            Traverse(h, methodName, eventType) == if Accessible(m.visibility) then Some(MethodRef(h[i].name, m)) else None
  {
    if i > 0 {
      assert DeclaredMethod(h[0].methods, methodName, [eventType]).None?;
      assert forall j :: 0 <= j < i - 1 ==> h[1..][j] == h[j + 1];
      TraverseDecidedByFirstDeclaringLevel(h[1..], methodName, eventType, i - 1);
    }
  }

  /** Nothing is found when no level declares the handler method. */
  lemma {:induction false} TraverseNoneWhenUndeclared(h: Hierarchy, methodName: string, eventType: string)
    requires forall j :: 0 <= j < |h| ==> DeclaredMethod(h[j].methods, methodName, [eventType]).None?
    ensures Traverse(h, methodName, eventType).None?
  {
    if |h| > 0 {
      assert forall j :: 0 <= j < |h| - 1 ==> h[1..][j] == h[j + 1];
      TraverseNoneWhenUndeclared(h[1..], methodName, eventType);
    }
  }

  /** What a cache entry must be for a receiver class: what traversal finds for that class. */
  ghost predicate CacheAgrees(cache: map<CacheKey, MethodRef>, h: Hierarchy) {
    forall k :: k in cache && k.className == CanonicalName(h) ==>
      Traverse(h, k.methodName, k.eventType) == Some(cache[k])
  }

  datatype Lookup = Lookup(found: Option<MethodRef>, cache: map<CacheKey, MethodRef>)

  /** `cacheLookup`: a cached method, or the traversal's result, which is cached only when found. */
  function CacheLookup(cache: map<CacheKey, MethodRef>, key: CacheKey, h: Hierarchy, eventType: string): (r: Lookup)
    requires key.className == CanonicalName(h)
    ensures key in cache ==> r == Lookup(Some(cache[key]), cache)
    ensures key !in cache ==> r.found == Traverse(h, key.methodName, eventType)
    ensures key !in cache && r.found.Some? ==> r.cache == cache[key := r.found.value]
    ensures r.found.None? ==> r.cache == cache
  {
    if key in cache then Lookup(Some(cache[key]), cache)
    else
      var m := Traverse(h, key.methodName, eventType);
      if m.Some? then Lookup(m, cache[key := m.value]) else Lookup(None, cache)
  }

  datatype Resolution = Resolution(found: Option<Endpoint>, endpoints: map<string, Endpoint>, cache: map<CacheKey, MethodRef>)

  /**
   * `findEndpoints` / `findHandlerFor`: an endpoint already mapped for the exact
   * event type wins without any lookup; otherwise, with a receiver, the
   * convention method is looked up through the cache and, when found, bound
   * to the receiver and registered for the type.
   */
  function Resolve(methodName: string, st: RouterState, eventType: string): (r: Resolution)
    ensures eventType in st.endpoints ==> r == Resolution(Some(st.endpoints[eventType]), st.endpoints, st.cache)
    ensures eventType !in st.endpoints && st.receiver.None? ==> r == Resolution(None, st.endpoints, st.cache)
    ensures r.found.None? ==> r.endpoints == st.endpoints && r.cache == st.cache
    ensures r.found.Some? ==> r.endpoints == st.endpoints[eventType := r.found.value]
    ensures eventType !in st.endpoints && r.found.Some? ==>
              st.receiver.Some? && r.found.value.InvokeMethod? && r.found.value.target == st.receiver.value
    ensures st.cache.Keys <= r.cache.Keys && forall k :: k in st.cache ==> r.cache[k] == st.cache[k]
  {
    if eventType in st.endpoints then Resolution(Some(st.endpoints[eventType]), st.endpoints, st.cache)
    else if st.receiver.None? then Resolution(None, st.endpoints, st.cache)
    else
      var obj := st.receiver.value;
      var key := CacheKey(CanonicalName(obj.hierarchy), methodName, eventType);
      var l := CacheLookup(st.cache, key, obj.hierarchy, eventType);
      if l.found.None? then Resolution(None, st.endpoints, l.cache)
      else
        var h := InvokeMethod(obj, l.found.value);
        Resolution(Some(h), st.endpoints[eventType := h], l.cache)
  }

  /** The exception a router throws when nothing is found, by revision. */
  function NotFound(revision: Revision, eventType: string): (e: Error)
    ensures revision == Current ==> e == EndpointNotFound(eventType)
    ensures revision == Legacy ==> e == HandlerNotFound(eventType)
  {
    if revision == Current then EndpointNotFound(eventType) else HandlerNotFound(eventType)
  }

  datatype Step = Step(outcome: Result<Option<Endpoint>>, state: RouterState)

  /**
   * One `routeEvent` / `dispatch` of a non-null event: the resolved endpoint is
   * invoked exactly once; with none, the router throws or returns null.
   */
  function RouteStep(cfg: RouterConfig, st: RouterState, e: Event): (s: Step)
    ensures s.state.receiver == st.receiver
    ensures s.outcome.Success? && s.outcome.value.Some? ==>
              s.state.invocations == st.invocations + [Invocation(s.outcome.value.value, e)]
    ensures s.outcome.Success? && s.outcome.value.None? ==> !cfg.throwOnNotFound && s.state == st
    ensures s.outcome.Failure? ==> cfg.throwOnNotFound && s.outcome.error == NotFound(cfg.revision, e.eventType) && s.state == st
  {
    var res := Resolve(cfg.methodName, st, e.eventType);
    var st' := st.(endpoints := res.endpoints, cache := res.cache);
    if res.found.Some? then
      Step(Success(res.found), st'.(invocations := st.invocations + [Invocation(res.found.value, e)]))
    else if cfg.throwOnNotFound then Step(Failure(NotFound(cfg.revision, e.eventType)), st')
    else Step(Success(None), st')
  }

  datatype Replay = Replay(failure: Option<Error>, state: RouterState)

  /** Routing a list of events in order, stopping at the first that throws. */
  function RouteAll(cfg: RouterConfig, st: RouterState, events: seq<Event>): (r: Replay)
    ensures r.state.receiver == st.receiver
  {
    if |events| == 0 then Replay(None, st)
    else
      var p := RouteAll(cfg, st, events[..|events| - 1]);
      if p.failure.Some? then p
      else
        var s := RouteStep(cfg, p.state, events[|events| - 1]);
        if s.outcome.Failure? then Replay(Some(s.outcome.error), s.state) else Replay(None, s.state)
  }

  /** Once routing a prefix has thrown, the rest of the list is never routed. */
  lemma {:induction false} RouteAllStopsAtFailure(cfg: RouterConfig, st: RouterState, events: seq<Event>, n: nat)
    requires n <= |events|
    requires RouteAll(cfg, st, events[..n]).failure.Some?
    ensures RouteAll(cfg, st, events) == RouteAll(cfg, st, events[..n])
  {
    if n < |events| {
      assert events[..|events| - 1][..n] == events[..n];
      RouteAllStopsAtFailure(cfg, st, events[..|events| - 1], n);
    } else {
      assert events[..n] == events;
    }
  }

  /** A resolved endpoint stays registered: routing the same type again takes the map path and changes nothing else. */
  lemma ResolveIsStable(methodName: string, st: RouterState, eventType: string)
    requires Resolve(methodName, st, eventType).found.Some?
    ensures var r := Resolve(methodName, st, eventType);
            Resolve(methodName, st.(endpoints := r.endpoints, cache := r.cache), eventType) == r
  {
  }

  /**
   * The router is bound to receiver `r` for handler name `methodName`: every
   * mapped endpoint invokes on `r` the method the convention finds, and every
   * cache entry for `r`'s class is what traversal finds.
   */
  ghost predicate BoundTo(st: RouterState, methodName: string, r: Receiver) {
    && st.receiver == Some(r)
    && CacheAgrees(st.cache, r.hierarchy)
    && forall t :: t in st.endpoints ==>
         Traverse(r.hierarchy, methodName, t).Some? &&
         st.endpoints[t] == InvokeMethod(r, Traverse(r.hierarchy, methodName, t).value)
  }

  /** The convention method for an event's type in the receiver's class, if any. */
  function ConventionFor(r: Receiver, methodName: string, e: Event): Option<MethodRef> {
    Traverse(r.hierarchy, methodName, e.eventType)
  }

  /**
   * Caching is transparent: for a router bound to `r`, one route invokes
   * exactly the method traversal finds for the event's type, and the router stays bound.
   */
  lemma RouteStepWhenBound(cfg: RouterConfig, st: RouterState, r: Receiver, e: Event)
    requires BoundTo(st, cfg.methodName, r)
    ensures var s := RouteStep(cfg, st, e);
            && BoundTo(s.state, cfg.methodName, r)
            && (ConventionFor(r, cfg.methodName, e).Some? ==>
                  s.outcome == Success(Some(InvokeMethod(r, ConventionFor(r, cfg.methodName, e).value))))
            && (ConventionFor(r, cfg.methodName, e).None? ==> s.state == st && (s.outcome.Success? ==> s.outcome.value.None?))
  {
    var key := CacheKey(CanonicalName(r.hierarchy), cfg.methodName, e.eventType);
    var res := Resolve(cfg.methodName, st, e.eventType);
    var st' := RouteStep(cfg, st, e).state;
    if e.eventType !in st.endpoints && key !in st.cache {
      var m := Traverse(r.hierarchy, cfg.methodName, e.eventType);
      if m.Some? {
        assert res.cache == st.cache[key := m.value];
        forall k | k in st'.cache && k.className == CanonicalName(r.hierarchy)
          ensures Traverse(r.hierarchy, k.methodName, k.eventType) == Some(st'.cache[k])
        {
          if k != key {
            assert k in st.cache;
          }
        }
      }
    }
  }

  /** The invocations a router bound to `r` performs for events that all have a convention method. */
  function ConventionInvocations(r: Receiver, methodName: string, events: seq<Event>): (invs: seq<Invocation>)
    requires forall i :: 0 <= i < |events| ==> ConventionFor(r, methodName, events[i]).Some?
    ensures |invs| == |events|
  {
    if |events| == 0 then []
    else ConventionInvocations(r, methodName, events[..|events| - 1]) +
         [Invocation(InvokeMethod(r, ConventionFor(r, methodName, events[|events| - 1]).value), events[|events| - 1])]
  }

  /**
   * Routing a list through a router bound to `r`, when every event's type has a
   * convention method: nothing throws, each event is handled exactly once, in
   * list order, by the method traversal finds, and the router stays bound.
   */
  lemma {:induction false} RouteAllWhenBound(cfg: RouterConfig, st: RouterState, r: Receiver, events: seq<Event>)
    requires BoundTo(st, cfg.methodName, r)
    requires forall i :: 0 <= i < |events| ==> ConventionFor(r, cfg.methodName, events[i]).Some?
    ensures var p := RouteAll(cfg, st, events);
            && p.failure.None?
            && BoundTo(p.state, cfg.methodName, r)
            && p.state.invocations == st.invocations + ConventionInvocations(r, cfg.methodName, events)
  {
    if |events| > 0 {
      var init := events[..|events| - 1];
      var last := events[|events| - 1];
      assert forall i :: 0 <= i < |init| ==> init[i] == events[i];
      RouteAllWhenBound(cfg, st, r, init);
      var p := RouteAll(cfg, st, init);
      RouteStepWhenBound(cfg, p.state, r, last);
      var s := RouteStep(cfg, p.state, last);
      var x := Invocation(InvokeMethod(r, ConventionFor(r, cfg.methodName, last).value), last);
      assert s.outcome == Success(Some(x.endpoint));
      assert s.state.invocations == p.state.invocations + [x];
      assert RouteAll(cfg, st, events) == Replay(None, s.state);
      assert ConventionInvocations(r, cfg.methodName, events) == ConventionInvocations(r, cfg.methodName, init) + [x];
      ConcatSnoc(st.invocations, ConventionInvocations(r, cfg.methodName, init), x);
    }
  }

  /** The handler calls, without the receiving object: which method ran on which event. */
  function HandlerCalls(invs: seq<Invocation>): (calls: seq<(Option<MethodRef>, Event)>)
    ensures |calls| == |invs|
  {
    if |invs| == 0 then []
    else
      var inv := invs[|invs| - 1];
      HandlerCalls(invs[..|invs| - 1]) +
        [(if inv.endpoint.InvokeMethod? then Some(inv.endpoint.handler) else None, inv.event)]
  }

  /**
   * The convention depends on the receiver's class alone: two receivers of
   * the same class get the same handler methods for the same events, in the same order.
   */
  lemma {:induction false} ReplayIsDeterministic(r1: Receiver, r2: Receiver, methodName: string, events: seq<Event>)
    requires r1.hierarchy == r2.hierarchy
    requires forall i :: 0 <= i < |events| ==> ConventionFor(r1, methodName, events[i]).Some?
    ensures HandlerCalls(ConventionInvocations(r1, methodName, events)) ==
            HandlerCalls(ConventionInvocations(r2, methodName, events))
  {
    if |events| > 0 {
      var init := events[..|events| - 1];
      assert forall i :: 0 <= i < |init| ==> init[i] == events[i];
      ReplayIsDeterministic(r1, r2, methodName, init);
      var c1 := ConventionInvocations(r1, methodName, events);
      var c2 := ConventionInvocations(r2, methodName, events);
      assert c1[..|c1| - 1] == ConventionInvocations(r1, methodName, init);
      assert c2[..|c2| - 1] == ConventionInvocations(r2, methodName, init);
    }
  }

  /**
   * Replay determinism: two routers bound to receivers of the same class,
   * whatever endpoints they already bound and whatever the method cache
   * holds, replay the same events without failure and run the same handler
   * methods on the same events in the same order.
   */
  lemma ReplayIndependentOfCache(cfg: RouterConfig, st1: RouterState, st2: RouterState, r1: Receiver, r2: Receiver,
                                 events: seq<Event>)
    requires r1.hierarchy == r2.hierarchy
    requires BoundTo(st1, cfg.methodName, r1) && BoundTo(st2, cfg.methodName, r2)
    requires forall i :: 0 <= i < |events| ==> ConventionFor(r1, cfg.methodName, events[i]).Some?
    ensures var p1 := RouteAll(cfg, st1, events);
            var p2 := RouteAll(cfg, st2, events);
            && p1.failure.None? && p2.failure.None?
            && |st1.invocations| <= |p1.state.invocations| && |st2.invocations| <= |p2.state.invocations|
            && HandlerCalls(p1.state.invocations[|st1.invocations|..]) == HandlerCalls(p2.state.invocations[|st2.invocations|..])
  {
    RouteAllWhenBound(cfg, st1, r1, events);
    RouteAllWhenBound(cfg, st2, r2, events);
    ReplayIsDeterministic(r1, r2, cfg.methodName, events);
    var p1 := RouteAll(cfg, st1, events);
    var p2 := RouteAll(cfg, st2, events);
    assert p1.state.invocations[|st1.invocations|..] == ConventionInvocations(r1, cfg.methodName, events);
    assert p2.state.invocations[|st2.invocations|..] == ConventionInvocations(r2, cfg.methodName, events);
  }

  /** The events a list of invocations carried, in order. */
  function EventsOf(invs: seq<Invocation>): (es: seq<Event>)
    ensures |es| == |invs| && forall i :: 0 <= i < |invs| ==> es[i] == invs[i].event
  {
    if |invs| == 0 then [] else EventsOf(invs[..|invs| - 1]) + [invs[|invs| - 1].event]
  }

  /** A route that succeeds hands its event to exactly one invocation, so replay handles the events in list order. */
  lemma {:induction false} RouteAllHandsOverInOrder(cfg: RouterConfig, st: RouterState, events: seq<Event>)
    requires cfg.throwOnNotFound
    requires RouteAll(cfg, st, events).failure.None?
    ensures EventsOf(RouteAll(cfg, st, events).state.invocations) == EventsOf(st.invocations) + events
  {
    if |events| > 0 {
      var init := events[..|events| - 1];
      var last := events[|events| - 1];
      assert init + [last] == events;
      var p := RouteAll(cfg, st, init);
      var s := RouteStep(cfg, p.state, last);
      assert p.failure.None? && s.outcome.Success? && RouteAll(cfg, st, events).state == s.state;
      RouteAllHandsOverInOrder(cfg, st, init);
      var x := Invocation(s.outcome.value.value, last);
      assert s.state.invocations == p.state.invocations + [x];
      EventsOfSnoc(p.state.invocations, x);
      var before := EventsOf(st.invocations);
      ConcatSnoc(before, init, last);
    }
  }

  lemma ConcatSnoc<T>(a: seq<T>, b: seq<T>, x: T)
    ensures (a + b) + [x] == a + (b + [x])
  {
  }

  lemma EventsOfSnoc(invs: seq<Invocation>, x: Invocation)
    ensures EventsOf(invs + [x]) == EventsOf(invs) + [x.event]
  {
    assert (invs + [x])[..|invs|] == invs;
  }
}
