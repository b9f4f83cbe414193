/**
 * EventSourcingUtil, both revisions: building an entity from its event
 * stream (a new instance through the constructor without parameters, then its
 * `@Load` method with the version and the events) and reading an entity's
 * version through its `@Version` method. The entities are aggregates; the
 * method the annotation search finds is taken to be the aggregate root's own.
 */
module EventSourcingUtil {
  import opened Failures
  import opened Events
  import opened Reflection
  import opened EventRouting
  import opened ConventionRouting
  import opened EventStoreModel
  import opened EventSourcedContract
  import opened Aggregates

  /** How the class of `h` declares its constructor without parameters; `Object`'s is public. */
  function NoArgConstructor(h: Hierarchy): Option<Visibility> {
    if |h| == 0 then Some(Public) else h[0].noArgConstructor
  }

  /** The router state of a newly constructed aggregate of class `h`, before anything is routed. */
  function NewAggregateState(cache: map<CacheKey, MethodRef>, identity: nat, h: Hierarchy): RouterState {
    RouterState(map[], Some(Receiver(identity, h)), cache, [])
  }

  /** The router configuration every aggregate builds for itself. */
  const AggregateRouting: RouterConfig := RouterConfig(Current, true, EventHandlerName)

  /** The replay `load` performs on a new aggregate of class `h`. */
  function NewAggregateReplay(cache: map<CacheKey, MethodRef>, identity: nat, h: Hierarchy, events: seq<Event>): Replay {
    RouteAll(AggregateRouting, NewAggregateState(cache, identity, h), events)
  }

  /**
   * How a failed reflective lookup surfaces: IllegalStateException (nothing
   * annotated) propagates as is, anything else is wrapped in a RuntimeException.
   */
  function LookupFailure(e: Error): (f: Error)
    ensures e.IllegalState? ==> f == e
    ensures !e.IllegalState? ==> f == Wrapped(e)
  {
    if e.IllegalState? then e else Wrapped(e)
  }

  /**
   * The outcome of building an instance of class `h` from `(version, events)`
   * once a constructor has run, with the corrected `load` (`LoadIntended`),
   * which accepts any version on a new instance: the unique
   * `@Load(long, List)` lookup fails as `LookupFailure` says, or the replay
   * of the events through the new aggregate's own router decides; the shared
   * cache ends as the replay left it.
   */
  ghost predicate BuiltFrom(r: Result<AggregateRoot>, cache: MethodCache, before: map<CacheKey, MethodRef>,
                            h: Hierarchy, identity: nat, version: int, events: seq<Event>)
    reads cache, if r.Success? then {r.value, r.value.router, r.value.router.cache} else {}
    ensures BuiltFrom(r, cache, before, h, identity, version, events) && r.Success? ==>
              UniqueMethod(h, LoadAnnotation, LoadParams).Success? &&
              NewAggregateReplay(before, identity, h, events).failure.None? &&
              r.value.version == version && r.value.changes == [] && r.value.receiver == Receiver(identity, h)
    ensures BuiltFrom(r, cache, before, h, identity, version, events) && UniqueMethod(h, LoadAnnotation, LoadParams).Failure? ==>
              r.Failure? && cache.entries == before
  {
    var m := UniqueMethod(h, LoadAnnotation, LoadParams);
    && (m.Failure? ==> r == Failure(LookupFailure(m.error)) && cache.entries == before)
    && (m.Success? ==>
          var p := NewAggregateReplay(before, identity, h, events);
          && cache.entries == p.state.cache
          && (p.failure.Some? ==> r == Failure(Wrapped(p.failure.value)))
          && (p.failure.None? ==>
                && r.Success?
                && r.value.receiver == Receiver(identity, h) && r.value.router.cache == cache
                && r.value.router.config == AggregateRouting && r.value.router.State() == p.state
                && LoadedAt(r.value.View(), version)))
  }

  /**
   * The common tail of both revisions, once an instance exists: find the
   * unique `@Load(long, List)` method and invoke it once with the version and
   * the events (what it throws is wrapped). The load invoked is the
   * corrected `LoadIntended`; `LoadNewInstanceAsWritten` invokes `load` as written.
   */
  method LoadNewInstance(cache: MethodCache, h: Hierarchy, identity: nat, version: int, events: seq<Event>)
    returns (r: Result<AggregateRoot>)
    modifies cache
    ensures BuiltFrom(r, cache, old(cache.entries), h, identity, version, events)
    ensures r.Success? ==> fresh(r.value) && fresh(r.value.router)
  {
    var instance := new AggregateRoot(cache, Receiver(identity, h));
    assert instance.router.State() == NewAggregateState(old(cache.entries), identity, h);
    var load := FindUniqueMethod(h, LoadAnnotation, LoadParams);
    if load.Failure? {
      return Failure(LookupFailure(load.error));
    }
    var o := instance.LoadIntended(version, events);
    if o.Fail? {
      return Failure(Wrapped(o.error));
    }
    return Success(instance);
  }

  /**
   * The same tail invoking the aggregate root's `load` as written: its check
   * of the version argument refuses every version but 0, so only an empty,
   * never committed stream builds; at version 0 the outcome is the corrected one.
   */
  method LoadNewInstanceAsWritten(cache: MethodCache, h: Hierarchy, identity: nat, version: int, events: seq<Event>)
    returns (r: Result<AggregateRoot>)
    modifies cache
    ensures var m := UniqueMethod(h, LoadAnnotation, LoadParams);
            (m.Failure? ==> r == Failure(LookupFailure(m.error)) && cache.entries == old(cache.entries)) &&
            (m.Success? && version != 0 ==>
               r == Failure(Wrapped(ValidationFailed(DirtyLoadMessage))) && cache.entries == old(cache.entries))
    ensures version == 0 ==> BuiltFrom(r, cache, old(cache.entries), h, identity, version, events)
    ensures r.Success? ==> fresh(r.value) && fresh(r.value.router)
  {
    var instance := new AggregateRoot(cache, Receiver(identity, h));
    assert instance.router.State() == NewAggregateState(old(cache.entries), identity, h);
    var load := FindUniqueMethod(h, LoadAnnotation, LoadParams);
    if load.Failure? {
      return Failure(LookupFailure(load.error));
    }
    var o := instance.Load(version, events);
    if o.Fail? {
      return Failure(Wrapped(o.error));
    }
    return Success(instance);
  }

  /**
   * `createFromEventStream` (newer revision): a null class or event list is
   * rejected; the declared constructor without parameters is made accessible,
   * so only its absence fails (wrapped NoSuchMethodException).
   */
  method CreateFromEventStream(cache: MethodCache, clazz: Option<Hierarchy>, identity: nat, version: int, events: Option<seq<Event>>)
    returns (r: Result<AggregateRoot>)
    modifies cache
    ensures clazz.None? ==> r == Failure(ValidationFailed("class must not be null"))
    ensures clazz.Some? && events.None? ==> r == Failure(ValidationFailed("event must not be null"))
    ensures clazz.Some? && events.Some? && NoArgConstructor(clazz.value).None? ==> r == Failure(Wrapped(NoSuchConstructor))
    ensures clazz.None? || events.None? || NoArgConstructor(clazz.value).None? ==> cache.entries == old(cache.entries)
    ensures clazz.Some? && events.Some? && NoArgConstructor(clazz.value).Some? ==>
              BuiltFrom(r, cache, old(cache.entries), clazz.value, identity, version, events.value)
    ensures r.Success? ==> fresh(r.value) && fresh(r.value.router)
  {
    if clazz.None? {
      return Failure(ValidationFailed("class must not be null"));
    }
    if events.None? {
      return Failure(ValidationFailed("event must not be null"));
    }
    if NoArgConstructor(clazz.value).None? {
      return Failure(Wrapped(NoSuchConstructor));
    }
    r := LoadNewInstance(cache, clazz.value, identity, version, events.value);
  }

  /**
   * `createFromEventStream` (older revision): `Class.newInstance` needs an
   * accessible constructor without parameters; a missing one throws
   * InstantiationException, a non-public one IllegalAccessException, both wrapped.
   */
  method LegacyCreateFromEventStream(cache: MethodCache, clazz: Option<Hierarchy>, identity: nat, version: int, events: Option<seq<Event>>)
    returns (r: Result<AggregateRoot>)
    modifies cache
    ensures clazz.None? ==> r == Failure(ValidationFailed("class must not be null"))
    ensures clazz.Some? && events.None? ==> r == Failure(ValidationFailed("event must not be null"))
    ensures clazz.Some? && events.Some? && NoArgConstructor(clazz.value).None? ==> r == Failure(Wrapped(Instantiation))
    ensures clazz.Some? && events.Some? && NoArgConstructor(clazz.value).Some? && NoArgConstructor(clazz.value) != Some(Public) ==>
              r == Failure(Wrapped(IllegalAccess))
    ensures clazz.None? || events.None? || NoArgConstructor(clazz.value) != Some(Public) ==> cache.entries == old(cache.entries)
    ensures clazz.Some? && events.Some? && NoArgConstructor(clazz.value) == Some(Public) ==>
              BuiltFrom(r, cache, old(cache.entries), clazz.value, identity, version, events.value)
    ensures r.Success? ==> fresh(r.value) && fresh(r.value.router)
  {
    if clazz.None? {
      return Failure(ValidationFailed("class must not be null"));
    }
    if events.None? {
      return Failure(ValidationFailed("event must not be null"));
    }
    var ctor := NoArgConstructor(clazz.value);
    if ctor.None? {
      return Failure(Wrapped(Instantiation));
    }
    if ctor != Some(Public) {
      return Failure(Wrapped(IllegalAccess));
    }
    r := LoadNewInstance(cache, clazz.value, identity, version, events.value);
  }

  /** The return types `res.getClass()` reports as `Long`: a boxed `long`. */
  predicate ReturnsLong(returnType: string) {
    returnType == "long" || returnType == "java.lang.Long"
  }

  /**
   * `retrieveVersion(obj)`: `obj.getClass()` runs before the null check, so
   * null fails as a dereference of `null`; the unique `@Version()` method's
   * result must be a `Long` (IllegalStateException otherwise, not wrapped),
   * and a `void` method's null result fails on `getClass()`.
   */
  function RetrieveVersion(obj: Option<AggregateRoot>): (r: Result<int>)
    reads if obj.Some? then {obj.value} else {}
    ensures obj.None? ==> r == Failure(NullDereference)
    ensures obj.Some? ==>
              var m := UniqueMethod(obj.value.receiver.hierarchy, VersionAnnotation, []);
              (m.Failure? ==> r == Failure(LookupFailure(m.error))) &&
              (m.Success? && m.value.decl.returnType == "void" ==> r == Failure(NullDereference)) &&
              (m.Success? && ReturnsLong(m.value.decl.returnType) ==> r == Success(obj.value.version)) &&
              (m.Success? && m.value.decl.returnType != "void" && !ReturnsLong(m.value.decl.returnType) ==>
                 r.Failure? && r.error.IllegalState?)
  {
    if obj.None? then Failure(NullDereference)
    else
      var h := obj.value.receiver.hierarchy;
      var m := UniqueMethod(h, VersionAnnotation, []);
      if m.Failure? then Failure(LookupFailure(m.error))
      else if m.value.decl.returnType == "void" then Failure(NullDereference)
      else if !ReturnsLong(m.value.decl.returnType) then Failure(IllegalState("@Version method does not return long: class " + CanonicalName(h)))
      else Success(obj.value.version)
  }

  /**
   * An aggregate class: `AbstractEventSourcedAggregateRoot` at the top and no
   * level below it annotating another load, store or version method.
   */
  predicate AggregateClass(h: Hierarchy) {
    && |h| > 0 && h[|h| - 1] == RootLevel
    && forall j :: 0 <= j < |h| - 1 ==>
         FirstAnnotatedIn(h[j].methods, LoadAnnotation).None? &&
         FirstAnnotatedIn(h[j].methods, StoreAnnotation).None? &&
         FirstAnnotatedIn(h[j].methods, VersionAnnotation).None?
  }

  /** In an aggregate class the three annotation searches find the root's `load`, `store` and `version()`. */
  lemma AggregateClassFindsRootMethods(h: Hierarchy)
    requires AggregateClass(h)
    ensures FirstAnnotated(h, LoadAnnotation) == Some(MethodRef(RootLevel.name, RootLevel.methods[0]))
    ensures FirstAnnotated(h, StoreAnnotation) == Some(MethodRef(RootLevel.name, RootLevel.methods[1]))
    ensures FirstAnnotated(h, VersionAnnotation) == Some(MethodRef(RootLevel.name, RootLevel.methods[2]))
    ensures FirstAnnotated(h, LoadAnnotation).value.decl.params == LoadParams
    ensures FirstAnnotated(h, VersionAnnotation).value.decl.params == [] &&
            ReturnsLong(FirstAnnotated(h, VersionAnnotation).value.decl.returnType)
  {
    var ms := RootLevel.methods;
    assert FirstAnnotatedIn(ms, LoadAnnotation) == Some(ms[0]);
    assert ms[1..][0] == ms[1];
    assert StoreAnnotation !in ms[0].annotations;
    assert FirstAnnotatedIn(ms, StoreAnnotation) == Some(ms[1]);
    assert ms[1..][1..][0] == ms[2];
    assert VersionAnnotation !in ms[0].annotations && VersionAnnotation !in ms[1].annotations;
    assert FirstAnnotatedIn(ms, VersionAnnotation) == Some(ms[2]);
    FirstAnnotatedIsMostDerived(h, LoadAnnotation, |h| - 1);
    FirstAnnotatedIsMostDerived(h, StoreAnnotation, |h| - 1);
    FirstAnnotatedIsMostDerived(h, VersionAnnotation, |h| - 1);
  }

  /** The version of an aggregate, read reflectively, is its `version` field. */
  lemma RetrieveAggregateVersion(a: AggregateRoot)
    requires AggregateClass(a.receiver.hierarchy)
    ensures RetrieveVersion(Some(a)) == Success(a.version)
  {
    AggregateClassFindsRootMethods(a.receiver.hierarchy);
  }

  /** TestObject: an aggregate class handling `TestEvent`. */
  const WhenTestEvent: MethodDecl := MethodDecl("when", ["TestEvent"], "void", Protected, {})
  const TestObjectClass: Hierarchy := [ClassLevel("TestObject", [WhenTestEvent], Some(Public)), RootLevel]

  lemma TestObjectConventions(r: Receiver)
    requires r.hierarchy == TestObjectClass
    ensures AggregateClass(TestObjectClass)
    ensures forall e: Event :: e.eventType == "TestEvent" ==>
              ConventionFor(r, EventHandlerName, e) == Some(MethodRef("TestObject", WhenTestEvent))
  {
    assert DeclaredMethod(TestObjectClass[0].methods, "when", ["TestEvent"]) == Some(WhenTestEvent);
  }

  /** The three `TestEvent`s of the EventSourcingUtil test. */
  const TestHistory: seq<Event> := [Event("t1", "TestEvent", 0), Event("t2", "TestEvent", 0), Event("t3", "TestEvent", 0)]

  /**
   * Building, with the corrected load, an aggregate whose class handles
   * every event of the stream succeeds at any version: the instance is bound to its own router, is at the stream's
   * version with nothing pending, and its handlers saw exactly the stream, in order.
   */
  lemma AggregateClassBuilds(r: Result<AggregateRoot>, cache: MethodCache, before: map<CacheKey, MethodRef>,
                             h: Hierarchy, identity: nat, version: int, events: seq<Event>)
    requires AggregateClass(h) && CacheAgrees(before, h)
    requires forall i :: 0 <= i < |events| ==> ConventionFor(Receiver(identity, h), EventHandlerName, events[i]).Some?
    requires BuiltFrom(r, cache, before, h, identity, version, events)
    ensures r.Success? && r.value.receiver == Receiver(identity, h) && r.value.router.cache == cache
    ensures r.value.router.config == AggregateRouting && r.value.version == version && r.value.changes == []
    ensures BoundTo(r.value.router.State(), EventHandlerName, r.value.receiver)
    ensures r.value.router.invocations == ConventionInvocations(Receiver(identity, h), EventHandlerName, events)
    ensures EventsOf(r.value.router.invocations) == events
  {
    AggregateClassFindsRootMethods(h);
    var st0 := NewAggregateState(before, identity, h);
    RouteAllWhenBound(AggregateRouting, st0, Receiver(identity, h), events);
    RouteAllHandsOverInOrder(AggregateRouting, st0, events);
    assert EventsOf(st0.invocations) == [];
  }

  /**
   * Building AESARImpl from its three template events committed at version 1:
   * with `load` as written the build fails as dirty, with the corrected load
   * it gives an aggregate at version 1 with nothing pending that handled the stream.
   */
  method CreateShadowingScenario() returns (asWritten: Result<AggregateRoot>, intended: Result<AggregateRoot>)
    ensures asWritten == Failure(Wrapped(ValidationFailed(DirtyLoadMessage)))
    ensures intended.Success? && intended.value.version == 1 && intended.value.changes == []
    ensures intended.Success? && EventsOf(intended.value.router.invocations) == TemplateHistory
  {
    var cache := new MethodCache();
    assert AggregateClass(AesarClass);
    AggregateClassFindsRootMethods(AesarClass);
    asWritten := LoadNewInstanceAsWritten(cache, AesarClass, 1, 1, TemplateHistory);
    assert forall i :: 0 <= i < |TemplateHistory| ==> AesarEvent(TemplateHistory[i]);
    CounterFollowsEvents(Receiver(2, AesarClass), TemplateHistory);
    ghost var before := cache.entries;
    intended := CreateFromEventStream(cache, Some(AesarClass), 2, 1, Some(TemplateHistory));
    AggregateClassBuilds(intended, cache, before, AesarClass, 2, 1, TemplateHistory);
  }

  /** `createFromEventStream(TestObject, 2, orig)`: an object at version 2 that handled exactly `orig`, in order. */
  method CreateTestObject() returns (obj: AggregateRoot)
    ensures fresh(obj) && fresh(obj.router) && fresh(obj.router.cache) && obj.receiver.hierarchy == TestObjectClass
    ensures obj.router.config == AggregateRouting && BoundTo(obj.router.State(), EventHandlerName, obj.receiver)
    ensures obj.version == 2 && obj.changes == [] && EventsOf(obj.router.invocations) == TestHistory
  {
    var cache := new MethodCache();
    TestObjectConventions(Receiver(1, TestObjectClass));
    var created := CreateFromEventStream(cache, Some(TestObjectClass), 1, 2, Some(TestHistory));
    AggregateClassBuilds(created, cache, map[], TestObjectClass, 1, 2, TestHistory);
    obj := created.value;
  }

  /** `apply` of a `TestEvent` on a bound TestObject: one more pending change. */
  method ApplyTestEvent(obj: AggregateRoot, e: Event)
    requires obj.receiver.hierarchy == TestObjectClass && e.eventType == "TestEvent"
    requires obj.router.config == AggregateRouting && BoundTo(obj.router.State(), EventHandlerName, obj.receiver)
    modifies obj, obj.router, obj.router.cache
    ensures obj.router.config == AggregateRouting && BoundTo(obj.router.State(), EventHandlerName, obj.receiver)
    ensures obj.changes == old(obj.changes) + [e] && obj.version == old(obj.version)
  {
    TestObjectConventions(obj.receiver);
    var o := ApplyBound(obj, e);
  }

  /** `store` into a newly created stream: the bus is handed the pending changes and the version moves on. */
  method StoreIntoNewStream(obj: AggregateRoot, key: StreamKey) returns (handedOver: seq<Event>)
    modifies obj
    ensures handedOver == old(obj.changes) && obj.version == old(obj.version) + 1 && obj.changes == []
  {
    var store := new EventStore(map[], (k: StreamKey, c: string) => Accepted);
    var w := store.Create(key);
    var bus := new StreamBus(w);
    obj.Store(bus);
    handedOver := w.pending;
  }

  /**
   * The EventSourcingUtil test: the loaded object is at version 2 and handled
   * `orig`; two events applied afterwards are exactly what `store` hands
   * over, and the version the object was based on is still 2 until then.
   */
  method CreateFromEventStreamScenario() returns (loadedVersion: int, stream: seq<Event>, versionBeforeStore: int,
                                                  handedOver: seq<Event>, versionAfterStore: int)
    ensures loadedVersion == 2 && stream == TestHistory
    ensures versionBeforeStore == 2 && handedOver == [Event("t4", "TestEvent", 0), Event("t5", "TestEvent", 0)]
    ensures versionAfterStore == 3
  {
    var obj := CreateTestObject();
    loadedVersion := obj.Version();
    stream := EventsOf(obj.router.invocations);
    ApplyTestEvent(obj, Event("t4", "TestEvent", 0));
    ApplyTestEvent(obj, Event("t5", "TestEvent", 0));
    versionBeforeStore := obj.Version();
    handedOver := StoreIntoNewStream(obj, StreamKey("DEFAULT", "TestObject:1"));
    versionAfterStore := obj.Version();
  }
}
