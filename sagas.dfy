/**
 * AbstractSaga and AbstractEventSourcedSaga. A saga remembers the id strings
 * of the events it has handled and drops an event whose id it has seen; it
 * dispatches through the older revision's router (handler name "when"),
 * which it registers itself with. The event-sourced variant (`eventSourced`)
 * also records handled events as changes unless a replay is running, and is
 * loaded and stored like an aggregate.
 */
module Sagas {
  import opened Failures
  import opened Events
  import opened Identity
  import opened Reflection
  import opened EventRouting
  import opened ConventionRouting
  import opened EventStoreModel
  import opened EventSourcedContract

  const SagaHandlerName: string := "when"
  const SagaIdClass: string := "org.jeecqrs.common.sagas.SagaId"
  const DirtySagaMessage: string := "Cannot load on dirty saga"

  /** The id strings of a list of events. */
  function IdsOf(events: seq<Event>): (ids: set<string>)
    ensures forall i :: 0 <= i < |events| ==> events[i].id in ids
    ensures forall x :: x in ids ==> exists i :: 0 <= i < |events| && events[i].id == x
  {
    if |events| == 0 then {} else IdsOf(events[..|events| - 1]) + {events[|events| - 1].id}
  }

  /** What the replay loop of `load` leaves: the first failure, the router's state and the handled ids. */
  datatype SagaReplay = SagaReplay(failure: Option<Error>, state: RouterState, handled: set<string>)

  /**
   * The replay loop of `load`: each event goes through `invokeHandler`, which
   * dispatches it and then marks its id; the first event that throws ends the
   * loop unmarked.
   */
  function LoadSteps(cfg: RouterConfig, st: RouterState, handled: set<string>, events: seq<Event>): (r: SagaReplay)
    ensures handled <= r.handled
  {
    if |events| == 0 then SagaReplay(None, st, handled)
    else
      var p := LoadSteps(cfg, st, handled, events[..|events| - 1]);
      if p.failure.Some? then p
      else
        var s := RouteStep(cfg, p.state, events[|events| - 1]);
        if s.outcome.Failure? then SagaReplay(Some(s.outcome.error), s.state, p.handled)
        else SagaReplay(None, s.state, p.handled + {events[|events| - 1].id})
  }

  /**
   * The replay bypasses the handled-ids check: it routes exactly as the
   * router alone would, and a replay that does not throw marks every id.
   */
  lemma {:induction false} LoadStepsIsRouting(cfg: RouterConfig, st: RouterState, handled: set<string>, events: seq<Event>)
    ensures var p := LoadSteps(cfg, st, handled, events);
            var q := RouteAll(cfg, st, events);
            p.failure == q.failure && p.state == q.state
    ensures var p := LoadSteps(cfg, st, handled, events);
            p.failure.None? ==> p.handled == handled + IdsOf(events)
  {
    if |events| > 0 {
      LoadStepsIsRouting(cfg, st, handled, events[..|events| - 1]);
    }
  }

  /** Once a prefix of the history has thrown, the rest of it is never dispatched. */
  lemma {:induction false} LoadStepsStopsAtFailure(cfg: RouterConfig, st: RouterState, handled: set<string>, events: seq<Event>, n: nat)
    requires n <= |events|
    requires LoadSteps(cfg, st, handled, events[..n]).failure.Some?
    ensures LoadSteps(cfg, st, handled, events) == LoadSteps(cfg, st, handled, events[..n])
  {
    if n < |events| {
      assert events[..|events| - 1][..n] == events[..n];
      LoadStepsStopsAtFailure(cfg, st, handled, events[..|events| - 1], n);
    } else {
      assert events[..n] == events;
    }
  }

  class Saga {
    const id: Id
    /** The saga as the router's receiver: its identity and runtime class. */
    const receiver: Receiver
    const router: ConventionEventRouter
    /** Whether this is an AbstractEventSourcedSaga, whose `invokeHandler` also records changes. */
    const eventSourced: bool
    var handledEvents: set<string>
    var changes: seq<Event>
    var version: int
    var replayActive: bool

    /** Sagas dispatch through the older router interface. */
    predicate Valid() {
      router.config.revision == Legacy
    }

    /** What the `EventSourced` contract observes. */
    function View(): SourcedView
      reads this
    {
      SourcedView(version, changes)
    }

    /** `AbstractSaga(Identity, EventRouter)` past its null checks: registers with the router. */
    constructor UsingRouter(id: Id, router: ConventionEventRouter, receiver: Receiver, eventSourced: bool)
      modifies router
      ensures this.id == id && this.router == router && this.receiver == receiver && this.eventSourced == eventSourced
      ensures router.receiver == Some(receiver)
      ensures router.endpoints == old(router.endpoints) && router.invocations == old(router.invocations)
      ensures handledEvents == {} && changes == [] && version == 0 && !replayActive
    {
      router.RegisterReceiver(Some(receiver));
      this.id := id;
      this.router := router;
      this.receiver := receiver;
      this.eventSourced := eventSourced;
      handledEvents := {};
      changes := [];
      version := 0;
      replayActive := false;
    }

    /**
     * `AbstractSaga(String)`: the string becomes a `SagaId` (a null string is
     * rejected there) and the saga gets a new router `(true, "when")`.
     */
    static method Create(cache: MethodCache, sagaId: Option<string>, ref: nat, receiver: Receiver, eventSourced: bool)
      returns (r: Result<Saga>)
      ensures sagaId.None? ==> r == Failure(ValidationFailed("idString must not be null"))
      ensures sagaId.Some? ==> r.Success? && fresh(r.value) && fresh(r.value.router) && r.value.Valid()
      ensures sagaId.Some? ==> r.value.id == NewId(ref, SagaIdClass, sagaId).value && r.value.receiver == receiver
      ensures sagaId.Some? ==> r.value.eventSourced == eventSourced && r.value.router.cache == cache
      ensures sagaId.Some? ==> r.value.router.config == RouterConfig(Legacy, true, SagaHandlerName)
      ensures sagaId.Some? ==> (r.value.router.endpoints == map[] && r.value.router.receiver == Some(receiver) &&
                r.value.router.invocations == [])
      ensures sagaId.Some? ==> (r.value.handledEvents == {} && r.value.changes == [] && r.value.version == 0 &&
                !r.value.replayActive)
    {
      var id := NewId(ref, SagaIdClass, sagaId);
      if id.Failure? {
        return Failure(id.error);
      }
      var router := new ConventionEventRouter.LegacyConfigured(cache, None, true, SagaHandlerName);
      var s := new Saga.UsingRouter(id.value, router, receiver, eventSourced);
      return Success(s);
    }

    /** `AbstractSaga(Identity, EventRouter)`: a null id or router is rejected. */
    static method WithRouter(id: Option<Id>, router: Option<ConventionEventRouter>, receiver: Receiver, eventSourced: bool)
      returns (r: Result<Saga>)
      requires router.Some? ==> router.value.config.revision == Legacy
      modifies if router.Some? then {router.value} else {}
      ensures id.None? ==> r == Failure(ValidationFailed("id must not be null"))
      ensures id.Some? && router.None? ==> r == Failure(ValidationFailed("eventRouter must not be null"))
      ensures r.Success? <==> id.Some? && router.Some?
      ensures r.Success? ==> fresh(r.value) && r.value.id == id.value && r.value.router == router.value && r.value.Valid()
      ensures r.Success? ==> r.value.receiver == receiver && r.value.eventSourced == eventSourced
      ensures r.Success? ==> (router.value.receiver == Some(receiver) &&
                router.value.endpoints == old(router.value.endpoints) && router.value.invocations == old(router.value.invocations))
      ensures r.Success? ==> (r.value.handledEvents == {} && r.value.changes == [] && r.value.version == 0 &&
                !r.value.replayActive)
    {
      if id.None? {
        return Failure(ValidationFailed("id must not be null"));
      }
      if router.None? {
        return Failure(ValidationFailed("eventRouter must not be null"));
      }
      var s := new Saga.UsingRouter(id.value, router.value, receiver, eventSourced);
      return Success(s);
    }

    /** `handled(event)`: deduplication is by the event's id string alone. */
    predicate Handled(e: Event)
      reads this
      ensures Handled(e) <==> e.id in handledEvents
    {
      e.id in handledEvents
    }

    /** `markedAsHandled(event)`: the event's id joins the handled ids. */
    method MarkAsHandled(e: Event)
      modifies this
      ensures handledEvents == old(handledEvents) + {e.id} && Handled(e)
      ensures changes == old(changes) && version == old(version) && replayActive == old(replayActive)
    {
      handledEvents := handledEvents + {e.id};
    }

    /**
     * `invokeHandler(event)`: dispatch, then mark the id; an event-sourced saga
     * then records the event as a change unless a replay is running. A
     * dispatch that throws marks and records nothing.
     */
    method InvokeHandler(e: Event) returns (o: Outcome)
      requires Valid()
      modifies this, router, router.cache
      ensures var s := RouteStep(router.config, old(router.State()), e);
              router.State() == s.state && o == OutcomeOf(s.outcome)
      ensures handledEvents == if o.Pass? then old(handledEvents) + {e.id} else old(handledEvents)
      ensures changes == if o.Pass? && eventSourced && !replayActive then old(changes) + [e] else old(changes)
      ensures version == old(version) && replayActive == old(replayActive)
    {
      o := router.Dispatch(Some(e));
      if o.Fail? {
        return;
      }
      MarkAsHandled(e);
      if eventSourced && !replayActive {
        changes := changes + [e];
      }
    }

    /** `handle(event)`: an event whose id was handled already is dropped; any other goes to `invokeHandler`. */
    method Handle(e: Event) returns (o: Outcome)
      requires Valid()
      modifies this, router, router.cache
      ensures old(Handled(e)) ==> (o == Pass && router.State() == old(router.State()) &&
                handledEvents == old(handledEvents) && changes == old(changes))
      ensures !old(Handled(e)) ==> var s := RouteStep(router.config, old(router.State()), e);
                router.State() == s.state && o == OutcomeOf(s.outcome) &&
                handledEvents == (if o.Pass? then old(handledEvents) + {e.id} else old(handledEvents)) &&
                changes == (if o.Pass? && eventSourced && !replayActive then old(changes) + [e] else old(changes))
      ensures version == old(version) && replayActive == old(replayActive)
    {
      if Handled(e) {
        return Pass;
      }
      o := InvokeHandler(e);
    }

    /** The loop of `load`: every event through `invokeHandler`, stopping at the first that throws. */
    method ReplayEvents(events: seq<Event>) returns (o: Outcome)
      requires Valid() && replayActive
      modifies this, router, router.cache
      ensures var p := LoadSteps(router.config, old(router.State()), old(handledEvents), events);
              router.State() == p.state && handledEvents == p.handled &&
              (o.Pass? <==> p.failure.None?) && (p.failure.Some? ==> o == Fail(p.failure.value))
      ensures changes == old(changes) && version == old(version) && replayActive
    {
      var i := 0;
      while i < |events|
        invariant 0 <= i <= |events|
        invariant replayActive && changes == old(changes) && version == old(version)
        invariant LoadSteps(router.config, old(router.State()), old(handledEvents), events[..i]) ==
                  SagaReplay(None, router.State(), handledEvents)
      {
        assert events[..i + 1][..i] == events[..i];
        o := InvokeHandler(events[i]);
        if o.Fail? {
          LoadStepsStopsAtFailure(router.config, old(router.State()), old(handledEvents), events, i + 1);
          return;
        }
        i := i + 1;
      }
      assert events[..i] == events;
      o := Pass;
    }

    /**
     * `load(version, events)` as written: the parameter shadows the field, so
     * the dirty check tests the argument. The replay flag is raised around the
     * loop and stays raised when a handler throws.
     */
    method Load(v: int, events: seq<Event>) returns (o: Outcome)
      requires Valid() && eventSourced
      modifies this, router, router.cache
      ensures changes == old(changes)
      ensures v != 0 ==> (o == Fail(ValidationFailed(DirtySagaMessage)) && version == old(version) &&
                router.State() == old(router.State()) && handledEvents == old(handledEvents) &&
                replayActive == old(replayActive))
      ensures v == 0 ==> var p := LoadSteps(router.config, old(router.State()), old(handledEvents), events);
                router.State() == p.state && handledEvents == p.handled &&
                (p.failure.None? ==> o == Pass && version == v && !replayActive) &&
                (p.failure.Some? ==> o == Fail(p.failure.value) && version == old(version) && replayActive)
    {
      if v != 0 {
        return Fail(ValidationFailed(DirtySagaMessage));
      }
      replayActive := true;
      o := ReplayEvents(events);
      if o.Fail? {
        return;
      }
      replayActive := false;
      version := v;
    }

    /** `load` as evidently intended: only a saga at version 0 without changes may be loaded. */
    method LoadIntended(v: int, events: seq<Event>) returns (o: Outcome)
      requires Valid() && eventSourced
      modifies this, router, router.cache
      ensures changes == old(changes)
      ensures !MayLoadVersion(old(View())) ==> (o == Fail(ValidationFailed(DirtySagaMessage)) &&
                version == old(version) && router.State() == old(router.State()) &&
                handledEvents == old(handledEvents) && replayActive == old(replayActive))
      ensures MayLoadVersion(old(View())) ==> var p := LoadSteps(router.config, old(router.State()), old(handledEvents), events);
                router.State() == p.state && handledEvents == p.handled &&
                (p.failure.None? ==> o == Pass && LoadedAt(View(), v) && !replayActive) &&
                (p.failure.Some? ==> o == Fail(p.failure.value) && version == old(version) && replayActive)
    {
      if version != 0 || changes != [] {
        return Fail(ValidationFailed(DirtySagaMessage));
      }
      replayActive := true;
      o := ReplayEvents(events);
      if o.Fail? {
        return;
      }
      replayActive := false;
      version := v;
    }

    /** `store(eventBus)`: every change to the bus in order, then clear them and step the version. */
    method Store(bus: StreamBus)
      requires eventSourced
      modifies this, bus.stream, bus.stream.store
      ensures Persisted(old(View()), View(), old(changes))
      ensures handledEvents == old(handledEvents) && replayActive == old(replayActive)
      ensures bus.stream.pending == old(bus.stream.pending) + old(changes)
      ensures bus.stream.store.calls == old(bus.stream.store.calls) + AppendCalls(bus.stream.key, old(changes))
      ensures bus.stream.store.streams == old(bus.stream.store.streams)
    {
      var i := 0;
      while i < |changes|
        invariant 0 <= i <= |changes|
        invariant changes == old(changes) && version == old(version)
        invariant handledEvents == old(handledEvents) && replayActive == old(replayActive)
        invariant bus.stream.pending == old(bus.stream.pending) + changes[..i]
        invariant bus.stream.store.calls == old(bus.stream.store.calls) + AppendCalls(bus.stream.key, changes[..i])
        invariant bus.stream.store.streams == old(bus.stream.store.streams)
      {
        assert changes[..i + 1][..i] == changes[..i];
        bus.Store(changes[i]);
        i := i + 1;
      }
      assert changes[..i] == changes;
      changes := [];
      version := version + 1;
    }

    /** `version()`: the persisted version. */
    method Version() returns (v: int)
      ensures v == version
    {
      return version;
    }

    /** `eventSourceReplayActive()`: whether a replay is running, or was left running by a throwing handler. */
    method EventSourceReplayActive() returns (b: bool)
      ensures b == replayActive
    {
      return replayActive;
    }
  }

  /** A saga class with one protected handler `when(OrderPlaced)`. */
  const WhenOrderPlaced: MethodDecl := MethodDecl("when", ["OrderPlaced"], "void", Protected, {})
  const OrderSagaClass: Hierarchy := [ClassLevel("OrderSaga", [WhenOrderPlaced], Some(Public))]

  /** Replay through a router bound to the saga, of events its class handles. */
  lemma LoadStepsWhenBound(cfg: RouterConfig, st: RouterState, r: Receiver, handled: set<string>, events: seq<Event>)
    requires BoundTo(st, cfg.methodName, r)
    requires forall i :: 0 <= i < |events| ==> ConventionFor(r, cfg.methodName, events[i]).Some?
    ensures var p := LoadSteps(cfg, st, handled, events);
            && p.failure.None? && p.handled == handled + IdsOf(events)
            && BoundTo(p.state, cfg.methodName, r)
            && p.state.invocations == st.invocations + ConventionInvocations(r, cfg.methodName, events)
  {
    LoadStepsIsRouting(cfg, st, handled, events);
    RouteAllWhenBound(cfg, st, r, events);
  }

  /**
   * `load` skips the handled-ids check: a history holding one event twice
   * dispatches it twice, after which `handle` drops the same event.
   */
  method RepeatedIdScenario() returns (loaded: Outcome, dispatchedByLoad: nat, handledAfter: Outcome, dispatchedAfter: nat)
    ensures loaded == Pass && dispatchedByLoad == 2
    ensures handledAfter == Pass && dispatchedAfter == 2
  {
    var cache := new MethodCache();
    var r := Receiver(1, OrderSagaClass);
    var c := Saga.Create(cache, Some("saga-1"), 7, r, true);
    var s := c.value;
    var e := Event("ev1", "OrderPlaced", 0);
    assert ConventionFor(r, SagaHandlerName, e).Some? by {
      assert DeclaredMethod(OrderSagaClass[0].methods, "when", ["OrderPlaced"]) == Some(WhenOrderPlaced);
    }
    LoadStepsWhenBound(s.router.config, s.router.State(), r, s.handledEvents, [e, e]);
    loaded := s.Load(0, [e, e]);
    dispatchedByLoad := |s.router.invocations|;
    handledAfter := s.Handle(e);
    dispatchedAfter := |s.router.invocations|;
  }

  /**
   * A handler that throws during `load` leaves the replay flag raised: the
   * next new event is handled and marked but not recorded as a change.
   */
  method StuckReplayScenario() returns (loaded: Outcome, stuck: bool, handledLater: Outcome, marked: bool, recorded: nat)
    ensures loaded == Fail(HandlerNotFound("Unknown")) && stuck
    ensures handledLater == Pass && marked && recorded == 0
  {
    var cache := new MethodCache();
    var r := Receiver(1, OrderSagaClass);
    var c := Saga.Create(cache, Some("saga-2"), 8, r, true);
    var s := c.value;
    var u := Event("ev1", "Unknown", 0);
    var e := Event("ev2", "OrderPlaced", 0);
    ghost var st0 := s.router.State();
    assert BoundTo(st0, SagaHandlerName, r);
    assert Traverse(OrderSagaClass, SagaHandlerName, "Unknown").None?;
    RouteStepWhenBound(s.router.config, st0, r, u);
    assert [u][..0] == [];
    assert LoadSteps(s.router.config, st0, {}, [u]) == SagaReplay(Some(HandlerNotFound("Unknown")), st0, {});
    loaded := s.Load(0, [u]);
    stuck := s.EventSourceReplayActive();
    assert ConventionFor(r, SagaHandlerName, e).Some? by {
      assert DeclaredMethod(OrderSagaClass[0].methods, "when", ["OrderPlaced"]) == Some(WhenOrderPlaced);
    }
    RouteStepWhenBound(s.router.config, s.router.State(), r, e);
    handledLater := s.Handle(e);
    marked := s.Handled(e);
    recorded := |s.changes|;
  }

  /**
   * `load` as written refuses a committed version: a new event-sourced saga
   * asked to load version 1 fails as dirty, where the intended check loads it.
   */
  method LoadShadowingScenario() returns (persisted: Outcome, persistedIntended: Outcome, versionIntended: int)
    ensures persisted == Fail(ValidationFailed(DirtySagaMessage))
    ensures persistedIntended == Pass && versionIntended == 1
  {
    var cache := new MethodCache();
    var c1 := Saga.Create(cache, Some("saga-4"), 10, Receiver(1, OrderSagaClass), true);
    persisted := c1.value.Load(1, []);
    var c2 := Saga.Create(cache, Some("saga-5"), 11, Receiver(2, OrderSagaClass), true);
    persistedIntended := c2.value.LoadIntended(1, []);
    versionIntended := c2.value.Version();
  }

  /** Live delivery is idempotent: the same event handled twice is dispatched and recorded once. */
  method DeliverTwiceScenario() returns (dispatched: nat, recorded: seq<Event>)
    ensures dispatched == 1 && recorded == [Event("ev1", "OrderPlaced", 0)]
  {
    var cache := new MethodCache();
    var r := Receiver(1, OrderSagaClass);
    var c := Saga.Create(cache, Some("saga-3"), 9, r, true);
    var s := c.value;
    var e := Event("ev1", "OrderPlaced", 0);
    assert ConventionFor(r, SagaHandlerName, e).Some? by {
      assert DeclaredMethod(OrderSagaClass[0].methods, "when", ["OrderPlaced"]) == Some(WhenOrderPlaced);
    }
    RouteStepWhenBound(s.router.config, s.router.State(), r, e);
    var o1 := s.Handle(e);
    var o2 := s.Handle(e);
    dispatched := |s.router.invocations|;
    recorded := s.changes;
  }
}
