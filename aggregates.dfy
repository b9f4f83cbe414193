/**
 * AbstractEventSourcedAggregateRoot: a pending-changes list and the persisted
 * version it is based on, with a convention router (handler name "when")
 * that the aggregate registers itself with. Handler bodies are outside the
 * model; what an aggregate's state becomes is a fold over the handler calls
 * its router performs.
 */
module Aggregates {
  import opened Failures
  import opened Events
  import opened Reflection
  import opened EventRouting
  import opened ConventionRouting
  import opened EventStoreModel
  import opened EventSourcedContract

  const EventHandlerName: string := "when"
  const DirtyLoadMessage: string := "Cannot loadFromEventStream() on dirty AggregateRoot"

  /** The annotation names and parameter types the reflective lookups use. */
  const LoadAnnotation: string := "Load"
  const StoreAnnotation: string := "Store"
  const VersionAnnotation: string := "Version"
  const LoadParams: seq<string> := ["long", "java.util.List"]
  const StoreParams: seq<string> := ["org.jeecqrs.common.event.sourcing.EventSourcingBus"]

  /** The level AbstractEventSourcedAggregateRoot contributes to every aggregate's hierarchy. */
  const RootLevel: ClassLevel := ClassLevel(
    "org.jeecqrs.common.domain.model.AbstractEventSourcedAggregateRoot",
    [ MethodDecl("load", LoadParams, "void", Private, {LoadAnnotation}),
      MethodDecl("store", StoreParams, "void", Private, {StoreAnnotation}),
      MethodDecl("version", [], "long", Private, {VersionAnnotation}) ],
    Some(Public))

  class AggregateRoot {
    /** The aggregate as the router's receiver: its identity and runtime class. */
    const receiver: Receiver
    const router: ConventionEventRouter
    var changes: seq<Event>
    var version: int

    /** What the `EventSourced` contract observes. */
    function View(): SourcedView
      reads this
    {
      SourcedView(version, changes)
    }

    /** `AbstractEventSourcedAggregateRoot()`: a new router `(true, "when")` with this aggregate registered. */
    constructor (cache: MethodCache, receiver: Receiver)
      ensures this.receiver == receiver && fresh(router) && router.cache == cache
      ensures router.config == RouterConfig(Current, true, EventHandlerName)
      ensures router.endpoints == map[] && router.receiver == Some(receiver) && router.invocations == []
      ensures changes == [] && version == 0
    {
      var r := new ConventionEventRouter.Configured(cache, true, EventHandlerName);
      r.RegisterReceiver(Some(receiver));
      this.receiver := receiver;
      router := r;
      changes := [];
      version := 0;
    }

    /** `AbstractEventSourcedAggregateRoot(eventRouter)` past its null check: registers with the given router. */
    constructor UsingRouter(router: ConventionEventRouter, receiver: Receiver)
      modifies router
      ensures this.receiver == receiver && this.router == router
      ensures router.receiver == Some(receiver)
      ensures router.endpoints == old(router.endpoints) && router.invocations == old(router.invocations)
      ensures changes == [] && version == 0
    {
      router.RegisterReceiver(Some(receiver));
      this.receiver := receiver;
      this.router := router;
      changes := [];
      version := 0;
    }

    /** `AbstractEventSourcedAggregateRoot(eventRouter)`: a null router is rejected. */
    static method WithRouter(router: Option<ConventionEventRouter>, receiver: Receiver) returns (r: Result<AggregateRoot>)
      modifies if router.Some? then {router.value} else {}
      ensures router.None? ==> r == Failure(ValidationFailed("eventRouter must not be null"))
      ensures router.Some? ==> r.Success? && fresh(r.value) && r.value.router == router.value
      ensures router.Some? ==> r.value.receiver == receiver && r.value.changes == [] && r.value.version == 0
      ensures router.Some? ==> (router.value.receiver == Some(receiver) &&
                router.value.endpoints == old(router.value.endpoints) && router.value.invocations == old(router.value.invocations))
    {
      if router.None? {
        return Failure(ValidationFailed("eventRouter must not be null"));
      }
      var a := new AggregateRoot.UsingRouter(router.value, receiver);
      return Success(a);
    }

    /** `apply`: record the event as a change, then route it; a routing failure leaves the change recorded. */
    method Apply(e: Event) returns (o: Outcome)
      modifies this, router, router.cache
      ensures Mutated(old(View()), View(), e)
      ensures var s := RouteStep(router.config, old(router.State()), e);
              router.State() == s.state && o == OutcomeOf(s.outcome)
    {
      changes := changes + [e];
      o := InvokeHandler(e);
    }

    /** `invokeHandler`: one route of the event through the aggregate's router. */
    method InvokeHandler(e: Event) returns (o: Outcome)
      modifies router, router.cache
      ensures var s := RouteStep(router.config, old(router.State()), e);
              router.State() == s.state && o == OutcomeOf(s.outcome)
    {
      var r := router.Route(Some(e));
      o := OutcomeOf(r);
    }

    /** The `for` loop of `load`: route each event in order, stopping at the first that throws. */
    method ReplayEvents(events: seq<Event>) returns (o: Outcome)
      modifies router, router.cache
      ensures var p := RouteAll(router.config, old(router.State()), events);
              router.State() == p.state && (o.Pass? <==> p.failure.None?) && (p.failure.Some? ==> o == Fail(p.failure.value))
    {
      var i := 0;
      while i < |events|
        invariant 0 <= i <= |events|
        invariant RouteAll(router.config, old(router.State()), events[..i]) == Replay(None, router.State())
      {
        assert events[..i + 1][..i] == events[..i];
        o := InvokeHandler(events[i]);
        if o.Fail? {
          RouteAllStopsAtFailure(router.config, old(router.State()), events, i + 1);
          return;
        }
        i := i + 1;
      }
      assert events[..i] == events;
      o := Pass;
    }

    /**
     * `load(version, events)` as written: the parameter shadows the field, so
     * the dirty check tests the argument, and the changes are never looked at.
     */
    method Load(v: int, events: seq<Event>) returns (o: Outcome)
      modifies this, router, router.cache
      ensures changes == old(changes)
      ensures v != 0 ==> o == Fail(ValidationFailed(DirtyLoadMessage)) && version == old(version) && router.State() == old(router.State())
      ensures v == 0 ==> var p := RouteAll(router.config, old(router.State()), events);
                router.State() == p.state &&
                (p.failure.None? ==> o == Pass && version == v) &&
                (p.failure.Some? ==> o == Fail(p.failure.value) && version == old(version))
    {
      if v != 0 {
        return Fail(ValidationFailed(DirtyLoadMessage));
      }
      o := ReplayEvents(events);
      if o.Pass? {
        version := v;
      }
    }

    /** `load` as evidently intended: only a newly constructed aggregate may be loaded. */
    method LoadIntended(v: int, events: seq<Event>) returns (o: Outcome)
      modifies this, router, router.cache
      ensures changes == old(changes)
      ensures !MayLoadVersion(old(View())) ==> o == Fail(ValidationFailed(DirtyLoadMessage)) && version == old(version) && router.State() == old(router.State())
      ensures MayLoadVersion(old(View())) ==> var p := RouteAll(router.config, old(router.State()), events);
                router.State() == p.state &&
                (p.failure.None? ==> o == Pass && LoadedAt(View(), v)) &&
                (p.failure.Some? ==> o == Fail(p.failure.value) && version == old(version))
    {
      if version != 0 || changes != [] {
        return Fail(ValidationFailed(DirtyLoadMessage));
      }
      o := ReplayEvents(events);
      if o.Pass? {
        version := v;
      }
    }

    /** `store(bus)`: every change to the bus in order, then clear them and step the version, changes or not. */
    method Store(bus: StreamBus)
      modifies this, bus.stream, bus.stream.store
      ensures Persisted(old(View()), View(), old(changes))
      ensures bus.stream.pending == old(bus.stream.pending) + old(changes)
      ensures bus.stream.store.calls == old(bus.stream.store.calls) + AppendCalls(bus.stream.key, old(changes))
      ensures bus.stream.store.streams == old(bus.stream.store.streams)
    {
      var i := 0;
      while i < |changes|
        invariant 0 <= i <= |changes|
        invariant changes == old(changes) && version == old(version)
        invariant bus.stream.pending == old(bus.stream.pending) + changes[..i]
        invariant bus.stream.store.calls == old(bus.stream.store.calls) + AppendCalls(bus.stream.key, changes[..i])
        invariant bus.stream.store.streams == old(bus.stream.store.streams)
      {
        assert changes[..i + 1][..i] == changes[..i];
        bus.Store(changes[i]);
        i := i + 1;
      }
      assert changes[..i] == changes;
      changes := [];
      version := version + 1;
    }

    /** `version()`: the persisted version, unaffected by pending changes. */
    method Version() returns (v: int)
      ensures v == version
    {
      return version;
    }
  }

  /** The test aggregate AESARImpl: `when(InstanceCreated)` sets the counter, `when(IncreasedCounter)` adds to it. */
  const WhenInstanceCreated: MethodDecl := MethodDecl("when", ["InstanceCreated"], "void", Protected, {})
  const WhenIncreasedCounter: MethodDecl := MethodDecl("when", ["IncreasedCounter"], "void", Protected, {})
  const AesarClass: Hierarchy := [ClassLevel("AESARImpl", [WhenInstanceCreated, WhenIncreasedCounter], Some(Private)), RootLevel]

  /** AESARImpl's counter after the handler calls `invs`: the state its two handlers build. */
  function CounterOf(invs: seq<Invocation>): int {
    if |invs| == 0 then 0
    else
      var c := CounterOf(invs[..|invs| - 1]);
      var x := invs[|invs| - 1];
      if x.endpoint.InvokeMethod? && x.endpoint.handler.decl == WhenInstanceCreated then x.event.payload
      else if x.endpoint.InvokeMethod? && x.endpoint.handler.decl == WhenIncreasedCounter then c + x.event.payload
      else c
  }

  lemma AesarConventions(r: Receiver)
    requires r.hierarchy == AesarClass
    ensures ConventionFor(r, EventHandlerName, Event("", "InstanceCreated", 0)) == Some(MethodRef("AESARImpl", WhenInstanceCreated))
    ensures forall e: Event :: e.eventType == "InstanceCreated" ==>
              ConventionFor(r, EventHandlerName, e) == Some(MethodRef("AESARImpl", WhenInstanceCreated))
    ensures forall e: Event :: e.eventType == "IncreasedCounter" ==>
              ConventionFor(r, EventHandlerName, e) == Some(MethodRef("AESARImpl", WhenIncreasedCounter))
  {
    assert DeclaredMethod(AesarClass[0].methods, "when", ["InstanceCreated"]) == Some(WhenInstanceCreated);
    assert AesarClass[0].methods[1..] == [WhenIncreasedCounter];
    assert DeclaredMethod(AesarClass[0].methods, "when", ["IncreasedCounter"]) == Some(WhenIncreasedCounter);
  }

  /** AESARImpl's counter as the events alone determine it: the creation event sets it, each increase adds its step. */
  function CounterSpec(events: seq<Event>): int {
    if |events| == 0 then 0
    else
      var e := events[|events| - 1];
      if e.eventType == "InstanceCreated" then e.payload
      else if e.eventType == "IncreasedCounter" then CounterSpec(events[..|events| - 1]) + e.payload
      else CounterSpec(events[..|events| - 1])
  }

  predicate AesarEvent(e: Event) {
    e.eventType == "InstanceCreated" || e.eventType == "IncreasedCounter"
  }

  /**
   * Routing AESARImpl's events through a router bound to any AESARImpl
   * builds the counter the events determine: replay reproduces the state.
   */
  lemma {:induction false} CounterFollowsEvents(r: Receiver, events: seq<Event>)
    requires r.hierarchy == AesarClass
    requires forall i :: 0 <= i < |events| ==> AesarEvent(events[i])
    ensures forall i :: 0 <= i < |events| ==> ConventionFor(r, EventHandlerName, events[i]).Some?
    ensures CounterOf(ConventionInvocations(r, EventHandlerName, events)) == CounterSpec(events)
  {
    AesarConventions(r);
    if |events| > 0 {
      var init := events[..|events| - 1];
      var e := events[|events| - 1];
      assert forall i :: 0 <= i < |init| ==> init[i] == events[i];
      CounterFollowsEvents(r, init);
      var invs := ConventionInvocations(r, EventHandlerName, events);
      assert invs[..|invs| - 1] == ConventionInvocations(r, EventHandlerName, init);
    }
  }

  /** The handler calls for one more event extend those for the events before it. */
  lemma ConventionInvocationsSnoc(r: Receiver, methodName: string, events: seq<Event>, e: Event)
    requires forall i :: 0 <= i < |events| ==> ConventionFor(r, methodName, events[i]).Some?
    requires ConventionFor(r, methodName, e).Some?
    ensures forall i :: 0 <= i < |events + [e]| ==> ConventionFor(r, methodName, (events + [e])[i]).Some?
    ensures ConventionInvocations(r, methodName, events + [e]) ==
            ConventionInvocations(r, methodName, events) + [Invocation(InvokeMethod(r, ConventionFor(r, methodName, e).value), e)]
  {
    assert (events + [e])[..|events|] == events;
  }

  /** `apply` on an aggregate whose router is bound to it, for an event its class handles. */
  method ApplyBound(a: AggregateRoot, e: Event) returns (o: Outcome)
    requires BoundTo(a.router.State(), a.router.config.methodName, a.receiver)
    requires ConventionFor(a.receiver, a.router.config.methodName, e).Some?
    modifies a, a.router, a.router.cache
    ensures o == Pass && a.changes == old(a.changes) + [e] && a.version == old(a.version)
    ensures BoundTo(a.router.State(), a.router.config.methodName, a.receiver)
    ensures a.router.invocations ==
            old(a.router.invocations) + [Invocation(InvokeMethod(a.receiver, ConventionFor(a.receiver, a.router.config.methodName, e).value), e)]
  {
    RouteStepWhenBound(a.router.config, a.router.State(), a.receiver, e);
    o := a.Apply(e);
  }

  /**
   * `load` as written refuses every version a committed stream has and lets a
   * dirty aggregate through: a new AESARImpl asked to load version 1 fails as
   * dirty, and one with a pending change loads version 0 and keeps the
   * change. The intended check decides both cases the other way.
   */
  method LoadShadowingScenario() returns (persisted: Outcome, persistedIntended: Outcome,
                                          dirty: Outcome, pendingAfter: nat, dirtyIntended: Outcome)
    ensures persisted == Fail(ValidationFailed(DirtyLoadMessage)) && persistedIntended == Pass
    ensures dirty == Pass && pendingAfter == 1 && dirtyIntended == Fail(ValidationFailed(DirtyLoadMessage))
  {
    var cache := new MethodCache();
    var a := new AggregateRoot(cache, Receiver(1, AesarClass));
    persisted := a.Load(1, []);
    var b := new AggregateRoot(cache, Receiver(2, AesarClass));
    persistedIntended := b.LoadIntended(1, []);
    var r := Receiver(3, AesarClass);
    AesarConventions(r);
    var c := new AggregateRoot(cache, r);
    var o := ApplyBound(c, TemplateHistory[0]);
    dirty := c.Load(0, []);
    pendingAfter := |c.changes|;
    dirtyIntended := c.LoadIntended(0, []);
  }

  /** The three events of the AESARImpl template: created with counter 8, then +5 and +27. */
  const TemplateHistory: seq<Event> :=
    [Event("ev1", "InstanceCreated", 8), Event("ev2", "IncreasedCounter", 5), Event("ev3", "IncreasedCounter", 27)]

  /** `fresh_instance()`: an AESARImpl created with counter 8, then increased by 5 and 27. */
  method FreshInstance(cache: MethodCache, r: Receiver) returns (t: AggregateRoot)
    requires r.hierarchy == AesarClass && CacheAgrees(cache.entries, AesarClass)
    modifies cache
    ensures fresh(t) && fresh(t.router) && t.router.cache == cache && t.receiver == r
    ensures t.router.config == RouterConfig(Current, true, EventHandlerName)
    ensures BoundTo(t.router.State(), EventHandlerName, r)
    ensures t.changes == TemplateHistory && t.version == 0
    ensures t.router.invocations == ConventionInvocations(r, EventHandlerName, TemplateHistory)
  {
    AesarConventions(r);
    TemplateInvocations(r);
    t := new AggregateRoot(cache, r);
    var h := TemplateHistory;
    var o1 := ApplyBound(t, h[0]);
    var o2 := ApplyBound(t, h[1]);
    var o3 := ApplyBound(t, h[2]);
  }

  /** The handler calls for the template's three events, one per event. */
  lemma TemplateInvocations(r: Receiver)
    requires r.hierarchy == AesarClass
    ensures forall i :: 0 <= i < |TemplateHistory| ==> ConventionFor(r, EventHandlerName, TemplateHistory[i]).Some?
    ensures var h := TemplateHistory;
            ConventionInvocations(r, EventHandlerName, h) ==
            [Invocation(InvokeMethod(r, ConventionFor(r, EventHandlerName, h[0]).value), h[0]),
             Invocation(InvokeMethod(r, ConventionFor(r, EventHandlerName, h[1]).value), h[1]),
             Invocation(InvokeMethod(r, ConventionFor(r, EventHandlerName, h[2]).value), h[2])]
  {
    AesarConventions(r);
    var h := TemplateHistory;
    ConventionInvocationsSnoc(r, EventHandlerName, [], h[0]);
    assert [] + [h[0]] == h[..1];
    ConventionInvocationsSnoc(r, EventHandlerName, h[..1], h[1]);
    assert h[..1] + [h[1]] == h[..2];
    ConventionInvocationsSnoc(r, EventHandlerName, h[..2], h[2]);
    assert h[..2] + [h[2]] == h;
  }

  /**
   * The AESARImpl scenario: the template has counter 40, three changes and
   * version 0; a fresh instance loaded with those changes has counter 40 and
   * no changes; applying steps 4..9 to it adds each step to the counter and
   * leaves six changes.
   */
  method IncreaseCounterScenario(cache: MethodCache) returns (freshCounter: int, freshChanges: nat, freshVersion: int,
                                                          replayedCounter: int, replayedChanges: nat,
                                                          finalCounter: int, finalChanges: nat)
    requires CacheAgrees(cache.entries, AesarClass)
    modifies cache
    ensures freshCounter == 40 && freshChanges == 3 && freshVersion == 0
    ensures replayedCounter == 40 && replayedChanges == 0
    ensures finalCounter == 79 && finalChanges == 6
  {
    var r1 := Receiver(1, AesarClass);
    var template := FreshInstance(cache, r1);
    var history := template.changes;
    CounterFollowsEvents(r1, history);
    ThreeEventCounter();
    freshCounter := CounterOf(template.router.invocations);
    freshChanges := |template.changes|;
    freshVersion := template.Version();

    var replayed, loaded := ReplayHistory(cache, Receiver(2, AesarClass), freshVersion, history);
    replayedCounter := CounterOf(replayed.router.invocations);
    replayedChanges := |replayed.changes|;

    IncreaseSteps(replayed);
    finalCounter := CounterOf(replayed.router.invocations);
    finalChanges := |replayed.changes|;
  }

  /**
   * `load(version, history)` as written on a new AESARImpl, as the test's
   * `replayed_instance` does it: version 0 replays the history, so the
   * counter is the one the history determines; any other version fails as
   * dirty before a single event is routed.
   */
  method ReplayHistory(cache: MethodCache, r: Receiver, v: int, history: seq<Event>) returns (a: AggregateRoot, o: Outcome)
    requires r.hierarchy == AesarClass && CacheAgrees(cache.entries, AesarClass)
    requires forall i :: 0 <= i < |history| ==> AesarEvent(history[i])
    modifies cache
    ensures fresh(a) && fresh(a.router) && a.router.cache == cache && a.receiver == r
    ensures a.router.config.methodName == EventHandlerName && BoundTo(a.router.State(), EventHandlerName, r)
    ensures a.changes == [] && a.version == 0
    ensures v != 0 ==> o == Fail(ValidationFailed(DirtyLoadMessage)) && a.router.invocations == []
    ensures v == 0 ==> o == Pass && CounterOf(a.router.invocations) == CounterSpec(history)
  {
    a := new AggregateRoot(cache, r);
    CounterFollowsEvents(r, history);
    RouteAllWhenBound(a.router.config, a.router.State(), r, history);
    o := a.Load(v, history);
    assert v == 0 ==> a.router.invocations == ConventionInvocations(r, EventHandlerName, history);
  }

  /** The test's loop: apply IncreasedCounter(i) for i = 4..9. */
  method IncreaseSteps(a: AggregateRoot)
    requires a.receiver.hierarchy == AesarClass && a.router.config.methodName == EventHandlerName
    requires BoundTo(a.router.State(), EventHandlerName, a.receiver)
    modifies a, a.router, a.router.cache
    ensures CounterOf(a.router.invocations) == old(CounterOf(a.router.invocations)) + 39
    ensures |a.changes| == old(|a.changes|) + 6 && a.version == old(a.version)
  {
    var i := 4;
    while i < 10
      invariant 4 <= i <= 10
      invariant BoundTo(a.router.State(), EventHandlerName, a.receiver)
      invariant CounterOf(a.router.invocations) == old(CounterOf(a.router.invocations)) + StepsBelow(i)
      invariant |a.changes| == old(|a.changes|) + i - 4 && a.version == old(a.version)
    {
      var e := Event("step", "IncreasedCounter", i);
      CounterStep(a.router.invocations, a.receiver, e);
      var o := ApplyBound(a, e);
      i := i + 1;
    }
    StepsBelowTen();
  }

  /** The test's steps 4, 5, ... below `i`, summed. */
  function StepsBelow(i: int): int
    decreases i
  {
    if i <= 4 then 0 else StepsBelow(i - 1) + (i - 1)
  }

  lemma StepsBelowTen()
    ensures StepsBelow(10) == 39
  {
    assert StepsBelow(5) == 4;
    assert StepsBelow(7) == 15;
  }

  lemma ThreeEventCounter()
    ensures CounterSpec(TemplateHistory) == 40
  {
    var h := TemplateHistory;
    assert h[..2][..1][..0] == [];
    assert CounterSpec(h[..2][..1]) == 8;
    assert h[..2][..1] == h[..1];
    assert CounterSpec(h[..2]) == 13;
  }

  /** One more handler call through a router bound to an AESARImpl. */
  lemma CounterStep(invs: seq<Invocation>, r: Receiver, e: Event)
    requires r.hierarchy == AesarClass
    requires AesarEvent(e)
    ensures var m := ConventionFor(r, EventHandlerName, e);
            m.Some? &&
            CounterOf(invs + [Invocation(InvokeMethod(r, m.value), e)]) ==
              if e.eventType == "InstanceCreated" then e.payload else CounterOf(invs) + e.payload
  {
    AesarConventions(r);
    assert (invs + [Invocation(InvokeMethod(r, ConventionFor(r, EventHandlerName, e).value), e)])[..|invs|] == invs;
  }
}
