# JEECQRS event-sourcing runtime, modelled in Dafny

JEECQRS is a Java EE framework for CQRS and event sourcing. This project models its runtime core and proves properties of the model:

- **Convention-based event routing.** Both revisions of `ConventionEventRouter` are modelled (modules `EventRouting` and `ConventionRouting`). A router finds the handler `when(EventType)` by climbing the receiver's class hierarchy. It caches found methods in a JVM-wide method cache and binds them per event type as endpoints.
- **The reflective look-ups** of `ReflectionUtils` (module `Reflection`). They are searches over a modelled class hierarchy: levels of method declarations with names, parameter types, return types, visibility and annotations.
- **Event-sourced aggregates** (`Aggregates`). `apply` appends a change and routes it. `load` replays history. `store` hands the pending changes to a bus and bumps the version.
- **The `EventSourced` contract** (`EventSourcedContract`), as predicates over the version and pending events of an entity.
- **Sagas**, plain and event-sourced (`Sagas`). This covers deduplication by event id, replay under the `eventSourceReplayActive` flag, and recording of changes.
- **`EventSourcingUtil`** in both revisions (`EventSourcingUtil`). It builds an entity from `(version, events)` through its constructor without parameters and its `@Load` method. It also reads the `@Version`.
- **The repositories** over an event store (`Repositories`):
  - the newer `AbstractEventSourcingRepository` together with `AbstractJEEventStoreRepository`;
  - the saga repository's existence check;
  - the older `AbstractEventSourcingRepository`.

  The event store is an abstract map of streams with a log of the calls made on it (`EventStoreModel`).
- **The stream-name generators** (`StreamNames`): canonical name, multi-tenancy and annotation-based with its per-class cache.
- **`AbstractId` and `AbstractIdentifiable`** equality and hashing (`Identity`), on Java's `String.trim`/`String.hashCode` (`Strings`).

Objects whose fields the Java code updates are Dafny classes whose methods state their whole new state. These are the router, the method cache, aggregates, sagas, the event store, its writable streams, the repositories and the stream-name cache. Each such method is tied to a pure specification:

- `Traverse`, `Resolve`, `RouteStep` and `RouteAll` for routing;
- `LoadSteps` for saga replay;
- `FirstAnnotated`/`UniqueMethod` for reflection;
- `Committed` for the store;
- `BuiltFrom`/`LoadedFrom` for construction from a stream, stated with the corrected aggregate `load` (see "## Findings"); `LoadNewInstanceAsWritten` states it with `load` as written.

Lemmas then prove what the source promises about those specifications.

Handlers are not executed. Instead, the router records every invocation (endpoint and event), and "the handler ran" means an invocation was appended. A business state such as the test aggregate's counter is a fold over the recorded invocations (`CounterOf`). Java `null` is `None` of an `Option` argument, and every exception is a `Failure`/`Fail` value carrying an `Error`.

## Model

| member | source | states |
|---|---|---|
| EventRouting.KeyStringInjective | common/src/main/java/org/jeecqrs/common/event/routing/convention/ConventionEventRouter.java:109-110 | the cache key string `class#method(event)` determines class, method name and event type, when class names hold no `#` and method names no `(` |
| EventRouting.Traverse | common/src/main/java/org/jeecqrs/common/event/routing/convention/ConventionEventRouter.java:141-157 | a method found by the hierarchy climb is public or protected, is named `methodName` and takes exactly the event type |
| EventRouting.TraverseDecidedByFirstDeclaringLevel | common/src/main/java/org/jeecqrs/common/event/routing/convention/ConventionEventRouter.java:141-157 | the first level that declares `methodName(eventType)` decides: its method if public or protected, otherwise none, and higher levels are never consulted |
| EventRouting.TraverseNoneWhenUndeclared | common/src/main/java/org/jeecqrs/common/event/routing/convention/ConventionEventRouter.java:141-157 | when no level declares the method, nothing is found |
| EventRouting.CacheLookup | common/src/main/java/org/jeecqrs/common/event/routing/convention/ConventionEventRouter.java:127-139 | a cached key answers from the cache unchanged; otherwise the climb answers, and only a found method is put into the cache under that key |
| EventRouting.Resolve | common/src/main/java/org/jeecqrs/common/event/routing/convention/ConventionEventRouter.java:102-117 | an endpoint already bound to the exact event type is used with no lookup; without a receiver nothing is resolved; a resolved method is bound as the endpoint of that type, targets the current receiver, and existing cache entries are kept |
| EventRouting.NotFound | src/main/java/org/jeecqrs/common/event/routing/ConventionEventRouter.java:80-83 | a miss is an EndpointNotFoundException in the newer revision and a HandlerNotFoundException in the older one |
| EventRouting.RouteStep | common/src/main/java/org/jeecqrs/common/event/routing/convention/ConventionEventRouter.java:74-84 | one route invokes a resolved endpoint exactly once; a miss returns null with no effect, or fails with the not-found error when the throw flag is set |
| EventRouting.RouteAll | common/src/main/java/org/jeecqrs/common/domain/model/AbstractEventSourcedAggregateRoot.java:100-101 | routing a list of events in order never changes the registered receiver |
| EventRouting.RouteAllStopsAtFailure | common/src/main/java/org/jeecqrs/common/domain/model/AbstractEventSourcedAggregateRoot.java:100-101 | once a route in the loop throws, the events after it are not routed |
| EventRouting.ResolveIsStable | common/src/main/java/org/jeecqrs/common/event/routing/convention/ConventionEventRouter.java:108-115 | after a resolution, resolving the same event type again gives the same endpoint with nothing new to cache or bind |
| EventRouting.RouteStepWhenBound | common/src/main/java/org/jeecqrs/common/event/routing/convention/ConventionEventRouter.java:102-117 | on a router whose bound endpoints and cache agree with its receiver, a route invokes exactly the method the convention gives, or misses with no effect on the state |
| EventRouting.ConventionInvocations | common/src/main/java/org/jeecqrs/common/event/routing/convention/ConventionEventRouter.java:74-84 | the invocations a replay makes on a bound receiver, one per event |
| EventRouting.RouteAllWhenBound | common/src/main/java/org/jeecqrs/common/domain/model/AbstractEventSourcedAggregateRoot.java:100-101 | replaying events that all have a handler succeeds, keeps the router bound, and appends exactly one convention invocation per event, in order |
| EventRouting.HandlerCalls | common/src/main/java/org/jeecqrs/common/event/routing/convention/ConventionEventRouter.java:108-115 | the handler methods and events of a run of invocations, one per invocation |
| EventRouting.ReplayIsDeterministic | common/src/main/java/org/jeecqrs/common/event/routing/convention/ConventionEventRouter.java:141-157 | the convention depends on the receiver's class alone: two receivers of the same class get the same handler methods for the same events, in the same order |
| EventRouting.ReplayIndependentOfCache | common/src/main/java/org/jeecqrs/common/event/routing/convention/ConventionEventRouter.java:102-139 | two routers bound to receivers of the same class, whatever endpoints they have bound and whatever the method cache holds, replay the same events without failure and run the same handler methods on the same events in the same order |
| EventRouting.EventsOf | common/src/main/java/org/jeecqrs/common/event/routing/convention/ConventionEventRouter.java:80-81 | the events handed to handlers, position by position |
| EventRouting.RouteAllHandsOverInOrder | common/src/main/java/org/jeecqrs/common/domain/model/AbstractEventSourcedAggregateRoot.java:100-101 | a throwing router that replays a list without failure hands every event to a handler exactly once, in list order |
| ConventionRouting.MethodCache.constructor | common/src/main/java/org/jeecqrs/common/event/routing/convention/ConventionEventRouter.java:55 | the JVM-wide method cache starts empty |
| ConventionRouting.MethodCache.Lookup | common/src/main/java/org/jeecqrs/common/event/routing/convention/ConventionEventRouter.java:127-139 | the synchronized get-or-traverse-and-put on the static method cache, as `CacheLookup` says |
| ConventionRouting.ConventionEventRouter.Default | common/src/main/java/org/jeecqrs/common/event/routing/convention/ConventionEventRouter.java:61-63 | a new router throws on a missing endpoint, uses method name `when`, has no receiver and no endpoints |
| ConventionRouting.ConventionEventRouter.WithThrowFlag | common/src/main/java/org/jeecqrs/common/event/routing/convention/ConventionEventRouter.java:65-67 | the flag is kept and the method name is `when` |
| ConventionRouting.ConventionEventRouter.Configured | common/src/main/java/org/jeecqrs/common/event/routing/convention/ConventionEventRouter.java:69-72 | flag and method name are kept, with no receiver and no endpoints |
| ConventionRouting.ConventionEventRouter.LegacyDefault | src/main/java/org/jeecqrs/common/event/routing/ConventionEventRouter.java:57-59 | the no-argument constructor registers a null receiver and throws on a miss |
| ConventionRouting.ConventionEventRouter.LegacyFor | src/main/java/org/jeecqrs/common/event/routing/ConventionEventRouter.java:61-63 | the receiver is registered, the router throws on a miss and uses `when` |
| ConventionRouting.ConventionEventRouter.LegacyForFlag | src/main/java/org/jeecqrs/common/event/routing/ConventionEventRouter.java:65-67 | as written: the boolean is ignored and the router always throws on a miss |
| ConventionRouting.ConventionEventRouter.LegacyForFlagIntended | src/main/java/org/jeecqrs/common/event/routing/ConventionEventRouter.java:65-67 | corrected: the boolean is passed on |
| ConventionRouting.ConventionEventRouter.LegacyConfigured | src/main/java/org/jeecqrs/common/event/routing/ConventionEventRouter.java:69-73 | flag and method name are kept and the receiver is registered |
| ConventionRouting.ConventionEventRouter.RegisterReceiver | common/src/main/java/org/jeecqrs/common/event/routing/convention/ConventionEventRouter.java:86-89 | `register(obj)` replaces only the receiver; endpoints bound earlier stay as they were, bound to the previous receiver |
| ConventionRouting.ConventionEventRouter.AlreadyRegistered | common/src/main/java/org/jeecqrs/common/event/routing/convention/ConventionEventRouter.java:96-97 | the message of a duplicate registration ends in the event type |
| ConventionRouting.ConventionEventRouter.Register | common/src/main/java/org/jeecqrs/common/event/routing/convention/ConventionEventRouter.java:91-100 | null type or endpoint is refused; an already bound type fails with IllegalStateException and leaves the map unchanged; it succeeds exactly otherwise, adding that one entry and changing no other |
| ConventionRouting.ConventionEventRouter.FindEndpoints | common/src/main/java/org/jeecqrs/common/event/routing/convention/ConventionEventRouter.java:102-117 | the endpoint map and the method cache end as `Resolve` says, and the receiver is untouched |
| ConventionRouting.ConventionEventRouter.Route | common/src/main/java/org/jeecqrs/common/event/routing/convention/ConventionEventRouter.java:74-84 | a null event is refused before any lookup and changes nothing; otherwise the route is one `RouteStep` |
| ConventionRouting.ConventionEventRouter.Dispatch | src/main/java/org/jeecqrs/common/event/routing/ConventionEventRouter.java:75-84 | the older `dispatch`: a null event is refused; otherwise one `RouteStep` of the older revision, as an outcome |
| ConventionRouting.CallsOf | common/src/test/java/org/jeecqrs/common/event/routing/Base.java:11-19 | how often a handler method ran, never more than the number of invocations |
| ConventionRouting.BaseConventions | common/src/test/java/org/jeecqrs/common/event/routing/Base.java:11-19 | `Base`'s protected `when(TestEvent1)` and `when(TestEvent2)` are what the climb finds |
| ConventionRouting.BaseStep | common/src/test/java/org/jeecqrs/common/event/routing/ConventionEventRouterTest.java:18-20 | one route of a Base event runs that event's handler once more and the other handler not at all |
| ConventionRouting.RouteBase | common/src/test/java/org/jeecqrs/common/event/routing/ConventionEventRouterTest.java:18-20 | `routeEvent` on a router bound to a Base receiver counts one call of the matching handler |
| ConventionRouting.SimpleClassScenario | common/src/test/java/org/jeecqrs/common/event/routing/ConventionEventRouterTest.java:14-23 | routing TestEvent1 once and TestEvent2 twice to a Base gives counts 1 and 2, whatever the shared cache already holds for Base |
| ConventionRouting.LegacyFlagIgnored | src/main/java/org/jeecqrs/common/event/routing/ConventionEventRouter.java:65-67 | a router built with `(obj, false)` still throws HandlerNotFoundException on a miss |
| ConventionRouting.LegacyFlagHonoured | src/main/java/org/jeecqrs/common/event/routing/ConventionEventRouter.java:65-67 | with the flag passed on, the same miss returns normally |
| Reflection.DeclaredMethod | src/main/java/org/jeecqrs/common/event/routing/ConventionEventRouter.java:153 | `getDeclaredMethod`: a found method is declared at that level with exactly that name and parameters, and none is found exactly when no declaration matches |
| Reflection.FirstAnnotatedIn | src/main/java/org/jeecqrs/common/util/ReflectionUtils.java:91-95 | the first annotated method declared at one level, and none exactly when no method there carries the annotation |
| Reflection.FirstAnnotated | src/main/java/org/jeecqrs/common/util/ReflectionUtils.java:88-98 | a method found by the upward scan carries the annotation |
| Reflection.FirstAnnotatedNoneIff | src/main/java/org/jeecqrs/common/util/ReflectionUtils.java:97 | the scan finds nothing exactly when no level below `Object` has an annotated method |
| Reflection.FirstAnnotatedIsMostDerived | src/main/java/org/jeecqrs/common/util/ReflectionUtils.java:88-97 | the result is the first annotated method of the most-derived level that has one |
| Reflection.FindAnnotatedMethod | src/main/java/org/jeecqrs/common/util/ReflectionUtils.java:88-98 | the `while` loop over the levels with its inner `for` returns what `FirstAnnotated` specifies |
| Reflection.FindAnnotatedMethodOrFail | src/main/java/org/jeecqrs/common/util/ReflectionUtils.java:69-78 | fails with IllegalStateException exactly when `findAnnotatedMethod` finds nothing, and otherwise returns its method |
| Reflection.UniqueMethod | src/main/java/org/jeecqrs/common/util/ReflectionUtils.java:45-58 | succeeds exactly when an annotated method is found whose parameter types are exactly `params`, returning that very method; nothing annotated is IllegalStateException, a wrong signature IllegalArgumentException |
| Reflection.FindUniqueMethod | src/main/java/org/jeecqrs/common/util/ReflectionUtils.java:45-58 | the straight-line checks of `findUniqueMethod`, as `UniqueMethod` says |
| Aggregates.AggregateRoot.constructor | common/src/main/java/org/jeecqrs/common/domain/model/AbstractEventSourcedAggregateRoot.java:66-68 | a new aggregate builds its own throwing router with method name `when` and registers itself; no changes, version 0 |
| Aggregates.AggregateRoot.UsingRouter | common/src/main/java/org/jeecqrs/common/domain/model/AbstractEventSourcedAggregateRoot.java:70-75 | the given router gets this aggregate as receiver and keeps its endpoints; no changes, version 0 |
| Aggregates.AggregateRoot.WithRouter | common/src/main/java/org/jeecqrs/common/domain/model/AbstractEventSourcedAggregateRoot.java:70-75 | a null router is refused; otherwise as `UsingRouter` |
| Aggregates.AggregateRoot.Apply | common/src/main/java/org/jeecqrs/common/domain/model/AbstractEventSourcedAggregateRoot.java:85-88 | the event is appended to `changes` and the version kept, even when the route then fails; the route is one `RouteStep` |
| Aggregates.AggregateRoot.InvokeHandler | common/src/main/java/org/jeecqrs/common/domain/model/AbstractEventSourcedAggregateRoot.java:90-92 | one route through the aggregate's router |
| Aggregates.AggregateRoot.ReplayEvents | common/src/main/java/org/jeecqrs/common/domain/model/AbstractEventSourcedAggregateRoot.java:100-101 | the `for` loop routes the events in list order, as `RouteAll` says, and stops at the first failure |
| Aggregates.AggregateRoot.Load | common/src/main/java/org/jeecqrs/common/domain/model/AbstractEventSourcedAggregateRoot.java:97-103 | as written: fails unless the argument is 0, whatever the field and the changes are; otherwise replays the events, never touches `changes`, then sets the version |
| Aggregates.AggregateRoot.LoadIntended | common/src/main/java/org/jeecqrs/common/domain/model/AbstractEventSourcedAggregateRoot.java:97-103 | corrected: fails unless the aggregate is at version 0 with no changes; on success the aggregate is loaded at the given version |
| Aggregates.AggregateRoot.Store | common/src/main/java/org/jeecqrs/common/domain/model/AbstractEventSourcedAggregateRoot.java:111-117 | every pending change goes to the bus in order, then `changes` is cleared and the version grows by exactly 1, also when there were no changes |
| Aggregates.AggregateRoot.Version | common/src/main/java/org/jeecqrs/common/domain/model/AbstractEventSourcedAggregateRoot.java:119-122 | returns the field unchanged |
| Aggregates.AesarConventions | common/src/test/java/org/jeecqrs/common/domain/model/AbstractEventSourcedAggregateRootTest.java:52-77 | AESARImpl's handlers for InstanceCreated and IncreasedCounter are what the climb finds |
| Aggregates.CounterFollowsEvents | common/src/test/java/org/jeecqrs/common/domain/model/AbstractEventSourcedAggregateRootTest.java:52-77 | replaying AESARImpl events gives the counter the events themselves define: set by creation, increased by each increment |
| Aggregates.ApplyBound | common/src/main/java/org/jeecqrs/common/domain/model/AbstractEventSourcedAggregateRoot.java:85-88 | `apply` of an event with a handler succeeds, appends the change, keeps the version and invokes exactly that handler once |
| Aggregates.LoadShadowingScenario | common/src/main/java/org/jeecqrs/common/domain/model/AbstractEventSourcedAggregateRoot.java:98-99 | as written, loading version 1 into a new aggregate fails and loading version 0 into a dirty one succeeds; the corrected check decides both the other way |
| Aggregates.FreshInstance | common/src/test/java/org/jeecqrs/common/domain/model/AbstractEventSourcedAggregateRootTest.java:13-18 | an AESARImpl created with 8 and increased by 5 and 27 holds those three changes at version 0 |
| Aggregates.IncreaseCounterScenario | common/src/test/java/org/jeecqrs/common/domain/model/AbstractEventSourcedAggregateRootTest.java:31-46 | counter 40, 3 changes and version 0; replayed into a fresh instance, counter 40 and no changes; after steps 4..9, counter 79 and 6 changes |
| Aggregates.ReplayHistory | common/src/main/java/org/jeecqrs/common/domain/model/AbstractEventSourcedAggregateRoot.java:97-103 | `load` as written on a fresh AESARImpl, as the test's `replayed_instance` does it: at version 0 it succeeds with no changes and the counter the history defines; any other version fails as dirty before any event is routed |
| Aggregates.IncreaseSteps | common/src/test/java/org/jeecqrs/common/domain/model/AbstractEventSourcedAggregateRootTest.java:40-45 | applying +4 … +9 grows the counter by 39 and adds exactly 6 changes |
| Aggregates.CounterStep | common/src/test/java/org/jeecqrs/common/domain/model/AbstractEventSourcedAggregateRootTest.java:52-77 | one AESARImpl handler call sets or increases the counter by the event's value |
| EventSourcedContract.MutateAll | src/main/java/org/jeecqrs/common/event/sourcing/EventSourced.java:46-49 | applying events leaves the version as it was and adds exactly those events to the mutating events |
| EventSourcedContract.LoadMutatePersist | src/main/java/org/jeecqrs/common/event/sourcing/EventSourced.java:33-58 | an object loaded at version v, then mutated by some events, then persisted, hands over exactly those events and ends at version v + 1 with none pending |
| EventStoreModel.AppendCalls | persistence-jeeventstore/src/main/java/org/jeecqrs/common/persistence/jeeventstore/AbstractJEEventStoreRepository.java:87-89 | one append per event, in order, to the same stream |
| EventStoreModel.AppendCallsConcat | persistence-jeeventstore/src/main/java/org/jeecqrs/common/persistence/jeeventstore/AbstractJEEventStoreRepository.java:76-79 | appending two runs of events appends them one after the other |
| EventStoreModel.EventStore.Exists | persistence-jeeventstore/src/main/java/org/jeecqrs/common/persistence/jeeventstore/AbstractJEEventStoreSagaRepository.java:37 | `existsStream` answers whether the stream is present and logs the call |
| EventStoreModel.EventStore.OpenForReading | persistence-jeeventstore/src/main/java/org/jeecqrs/common/persistence/jeeventstore/AbstractJEEventStoreRepository.java:56 | returns the stream's version and events, or fails when there is no such stream |
| EventStoreModel.EventStore.Create | persistence-jeeventstore/src/main/java/org/jeecqrs/common/persistence/jeeventstore/AbstractJEEventStoreRepository.java:62-66 | `createStream` gives a new writable stream with no expected version and nothing pending |
| EventStoreModel.EventStore.OpenForWriting | persistence-jeeventstore/src/main/java/org/jeecqrs/common/persistence/jeeventstore/AbstractJEEventStoreRepository.java:68-72 | `openStreamForWriting` gives a writable stream expecting exactly the given version |
| EventStoreModel.WritableStream.Append | persistence-jeeventstore/src/main/java/org/jeecqrs/common/persistence/jeeventstore/AbstractJEEventStoreRepository.java:87-89 | the event is added to the pending ones and the stored streams are unchanged |
| EventStoreModel.WritableStream.Commit | persistence-jeeventstore/src/main/java/org/jeecqrs/common/persistence/jeeventstore/AbstractJEEventStoreRepository.java:91-97 | an accepted commit writes the pending events; a duplicate commit or a conflict is reported and changes nothing |
| EventStoreModel.Committed | persistence-jeeventstore/src/main/java/org/jeecqrs/common/persistence/jeeventstore/AbstractJEEventStoreRepository.java:91-97 | a committed stream is one version further and holds the old events followed by the pending ones; a new stream starts at version 1 |
| EventStoreModel.StreamBus.constructor | persistence-jeeventstore/src/main/java/org/jeecqrs/common/persistence/jeeventstore/AbstractJEEventStoreRepository.java:74-85 | a bus is bound to one writable stream |
| EventStoreModel.StreamBus.Store | persistence-jeeventstore/src/main/java/org/jeecqrs/common/persistence/jeeventstore/AbstractJEEventStoreRepository.java:76-79 | the bus's `store` appends the event to the underlying stream and does nothing else |
| EventStoreModel.StreamBus.Commit | persistence-jeeventstore/src/main/java/org/jeecqrs/common/persistence/jeeventstore/AbstractJEEventStoreRepository.java:80-83 | commits with the commit id; DuplicateCommitException and ConcurrencyException come back wrapped in a RuntimeException |
| Identity.NewId | common/src/main/java/org/jeecqrs/common/AbstractId.java:51-54 | a null id string is refused; otherwise `toString` returns it unchanged |
| Identity.IdToString | common/src/main/java/org/jeecqrs/common/AbstractId.java:79-82 | `toString()` is the id string as given |
| Identity.SameValueAs | common/src/main/java/org/jeecqrs/common/AbstractId.java:56-62 | `sameValueAs` is reflexive, and when it holds the other id is present, of the same class and prints the same |
| Identity.IdEquals | common/src/main/java/org/jeecqrs/common/AbstractId.java:64-72 | `equals` is false for null, true for the same reference, and otherwise exactly `sameValueAs` |
| Identity.IdHash | common/src/main/java/org/jeecqrs/common/AbstractId.java:74-77 | `hashCode` is a 32-bit Java `int` |
| Identity.IdEqualsIsEquivalence | common/src/main/java/org/jeecqrs/common/AbstractId.java:64-72 | `equals` is reflexive, false for null, symmetric and transitive |
| Identity.IdEqualsIsValueEquality | common/src/main/java/org/jeecqrs/common/AbstractId.java:56-77 | two ids are equal exactly when of the same class with the same string, and equal ids hash equally |
| Identity.AbstractIdScenario | common/src/test/java/org/jeecqrs/common/domain/model/AbstractIdTest.java:13-42 | `TEST_ID` prints as itself, equals another `TEST_ID` and differs from `OTHER_TEST_ID` and from null, for `sameValueAs` and for `equals` |
| Identity.SameIdentityAs | src/main/java/org/jeecqrs/common/AbstractIdentifiable.java:8-14 | `sameIdentityAs` is reflexive, and when it holds the other object is present, of the same class, and (for distinct id objects) has an id of the same class and string |
| Identity.EntityEquals | src/main/java/org/jeecqrs/common/AbstractIdentifiable.java:16-24 | `equals` is false for null, true for the same reference, and otherwise exactly `sameIdentityAs` |
| Identity.EntityHash | src/main/java/org/jeecqrs/common/AbstractIdentifiable.java:26-29 | `hashCode` is a 32-bit Java `int` |
| Identity.EntityEqualsIsEquivalence | src/main/java/org/jeecqrs/common/AbstractIdentifiable.java:16-24 | entity `equals` is reflexive, false for null, symmetric and transitive |
| Identity.EntityEqualsIsIdEquality | src/main/java/org/jeecqrs/common/AbstractIdentifiable.java:8-29 | two entities are equal exactly when of the same class with equal ids, and then they hash equally |
| Strings.TrimStart | common/src/main/java/org/jeecqrs/common/persistence/es/AnnotationEventStreamNameGenerator.java:50 | drops exactly the leading characters up to U+0020 |
| Strings.TrimEnd | common/src/main/java/org/jeecqrs/common/persistence/es/AnnotationEventStreamNameGenerator.java:50 | drops exactly the trailing characters up to U+0020 |
| Strings.Trim | common/src/main/java/org/jeecqrs/common/persistence/es/AnnotationEventStreamNameGenerator.java:50 | `String.trim`: the result starts and ends with a character above U+0020, or is empty |
| Strings.TrimIdempotent | common/src/main/java/org/jeecqrs/common/persistence/es/AnnotationEventStreamNameGenerator.java:50 | trimming twice is trimming once |
| Strings.TrimEmptyIffAllTrimmable | common/src/main/java/org/jeecqrs/common/persistence/es/AnnotationEventStreamNameGenerator.java:46-49 | the trimmed value is blank exactly when every character is at most U+0020 |
| Strings.CodeUnits | common/src/main/java/org/jeecqrs/common/AbstractId.java:74-77 | a char below U+10000 is one UTF-16 code unit; any other is a high and a low surrogate that decode back to it |
| Strings.Utf16 | common/src/main/java/org/jeecqrs/common/AbstractId.java:74-77 | the UTF-16 code units of a string are 16-bit values, at least one per char, and a string inside the Basic Multilingual Plane is its own code units |
| Strings.UnitsHash | common/src/main/java/org/jeecqrs/common/AbstractId.java:74-77 | the `31 * h + unit` fold wraps around into 32 bits |
| Strings.UnsignedHash | common/src/main/java/org/jeecqrs/common/AbstractId.java:74-77 | `String.hashCode` over the UTF-16 code units, modulo 2^32 |
| Strings.SurrogatePairHash | common/src/main/java/org/jeecqrs/common/AbstractId.java:74-77 | U+1F600 is the code units 0xD83D, 0xDE00 and hashes to 31 * 0xD83D + 0xDE00 = 1772899 |
| Strings.JavaStringHash | common/src/main/java/org/jeecqrs/common/AbstractId.java:74-77 | `String.hashCode` is a 32-bit signed int |
| StreamNames.CanonicalStreamName | common/src/main/java/org/jeecqrs/common/persistence/es/CanonicalNameEventStreamNameGenerator.java:40-47 | the name is the canonical class name, `:`, then the id string; a null id fails on `toString` |
| StreamNames.CanonicalStreamNameOf | common/src/main/java/org/jeecqrs/common/persistence/es/CanonicalNameEventStreamNameGenerator.java:35-38 | `streamNameFor(obj)`: a null object fails; otherwise a name exactly when the id is present, the class's canonical name, `:`, then the id |
| StreamNames.CanonicalOverloadsAgree | common/src/main/java/org/jeecqrs/common/persistence/es/CanonicalNameEventStreamNameGenerator.java:35-47 | `streamNameFor(obj)` is `streamNameFor(obj.getClass(), obj.id())` |
| StreamNames.CanonicalStreamNameInjective | common/src/main/java/org/jeecqrs/common/persistence/es/CanonicalNameEventStreamNameGenerator.java:42-46 | when canonical names hold no `:`, equal names mean equal classes and equal ids |
| StreamNames.CanonicalStreamNameInjectiveInId | common/src/main/java/org/jeecqrs/common/persistence/es/CanonicalNameEventStreamNameGenerator.java:42-46 | for one class, distinct ids give distinct names |
| StreamNames.BuildTenantStreamName | persistence-jeeventstore-multitenancy/src/main/java/org/jeecqrs/common/persistence/jeeventstore/MultiTenancyCanonicalNameESNG.java:51-59 | the name is tenant, `:`, canonical name, `:`, object id; a null tenant or object id fails |
| StreamNames.TenantStreamNameOf | persistence-jeeventstore-multitenancy/src/main/java/org/jeecqrs/common/persistence/jeeventstore/MultiTenancyCanonicalNameESNG.java:41-44 | `streamNameFor(obj)` fails exactly on a null object, tenant or id, and is otherwise tenant, `:`, class, `:`, id |
| StreamNames.TenantStreamNameFor | persistence-jeeventstore-multitenancy/src/main/java/org/jeecqrs/common/persistence/jeeventstore/MultiTenancyCanonicalNameESNG.java:46-49 | `streamNameFor(clazz, mtid)` fails exactly on a null id, tenant or object id, and is otherwise tenant, `:`, class, `:`, object id |
| StreamNames.TenantOverloadsAgree | persistence-jeeventstore-multitenancy/src/main/java/org/jeecqrs/common/persistence/jeeventstore/MultiTenancyCanonicalNameESNG.java:41-49 | both overloads give the same name for the same class, tenant and object id, and it starts with the tenant and `:` |
| StreamNames.TenantStreamNameInjective | persistence-jeeventstore-multitenancy/src/main/java/org/jeecqrs/common/persistence/jeeventstore/MultiTenancyCanonicalNameESNG.java:51-59 | with no `:` in tenants and class names, equal names mean equal tenant, class and object id |
| StreamNames.TenantStreamNameInjectiveInObject | persistence-jeeventstore-multitenancy/src/main/java/org/jeecqrs/common/persistence/jeeventstore/MultiTenancyCanonicalNameESNG.java:51-59 | for a fixed tenant and class, distinct object ids give distinct names |
| StreamNames.AnnotatedStreamName | common/src/main/java/org/jeecqrs/common/persistence/es/AnnotationEventStreamNameGenerator.java:40-53 | a missing annotation or a blank value is IllegalArgumentException; otherwise the trimmed value, non-empty, with no surrounding whitespace |
| StreamNames.AnnotatedStreamNameIff | common/src/main/java/org/jeecqrs/common/persistence/es/AnnotationEventStreamNameGenerator.java:40-53 | a name is produced exactly when the annotation is present and holds a character above U+0020, and the name is already trimmed |
| StreamNames.StreamNameCache.constructor | common/src/main/java/org/jeecqrs/common/persistence/es/AnnotationEventStreamNameGenerator.java:33 | the cache starts empty |
| StreamNames.StreamNameCache.StreamNameFor | common/src/main/java/org/jeecqrs/common/persistence/es/AnnotationEventStreamNameGenerator.java:35-54 | a cached class answers from the cache; otherwise the annotation decides, and only a success is cached; the result never depends on the id, and a sound cache stays sound and answers as the annotation would |
| StreamNames.AnnotatedScenario | common/src/main/java/org/jeecqrs/common/persistence/es/AnnotationEventStreamNameGenerator.java:40-53 | `"  orders \t"` gives `orders`; a blank value and a missing annotation fail |
| Sagas.IdsOf | common/src/main/java/org/jeecqrs/common/sagas/AbstractSaga.java:103-105 | the id strings of a list of events, exactly |
| Sagas.LoadSteps | common/src/main/java/org/jeecqrs/common/sagas/AbstractEventSourcedSaga.java:67-70 | the replay loop of a saga only ever adds handled ids |
| Sagas.LoadStepsIsRouting | common/src/main/java/org/jeecqrs/common/sagas/AbstractEventSourcedSaga.java:67-70 | replay routes exactly as `RouteAll` does, with no deduplication; when no handler throws, every replayed id is marked handled |
| Sagas.LoadStepsStopsAtFailure | common/src/main/java/org/jeecqrs/common/sagas/AbstractEventSourcedSaga.java:67-70 | once a handler throws, no later event is dispatched or marked |
| Sagas.Saga.UsingRouter | common/src/main/java/org/jeecqrs/common/sagas/AbstractSaga.java:58-64 | the saga registers itself with the router, with nothing handled, no changes, version 0 and the replay flag off |
| Sagas.Saga.Create | common/src/main/java/org/jeecqrs/common/sagas/AbstractSaga.java:49-55 | a null saga id is refused; otherwise the saga gets a new throwing router with method name `when`, registered to it |
| Sagas.Saga.WithRouter | common/src/main/java/org/jeecqrs/common/sagas/AbstractSaga.java:58-64 | a null id or router is refused, and it succeeds exactly otherwise, registering the saga with the router |
| Sagas.Saga.Handled | common/src/main/java/org/jeecqrs/common/sagas/AbstractSaga.java:94-96 | an event counts as handled exactly when its id string is among the handled ids, whatever its type |
| Sagas.Saga.MarkAsHandled | common/src/main/java/org/jeecqrs/common/sagas/AbstractSaga.java:103-105 | adds the event's id string to `handledEvents` and nothing else |
| Sagas.Saga.InvokeHandler | common/src/main/java/org/jeecqrs/common/sagas/AbstractEventSourcedSaga.java:54-59 | dispatches once; marks the id only when dispatch did not throw; records the event as a change only for an event-sourced saga outside replay |
| Sagas.Saga.Handle | common/src/main/java/org/jeecqrs/common/sagas/AbstractSaga.java:77-86 | an event whose id string is already handled changes nothing, whatever its type; a new one goes through `invokeHandler` |
| Sagas.Saga.ReplayEvents | common/src/main/java/org/jeecqrs/common/sagas/AbstractEventSourcedSaga.java:68-69 | the `for` loop passes each event through `invokeHandler` in order, as `LoadSteps` says, recording no change |
| Sagas.Saga.Load | common/src/main/java/org/jeecqrs/common/sagas/AbstractEventSourcedSaga.java:64-72 | as written: fails unless the argument is 0; otherwise replays with the flag set; on success clears the flag and sets the version, and on failure leaves the flag set |
| Sagas.Saga.LoadIntended | common/src/main/java/org/jeecqrs/common/sagas/AbstractEventSourcedSaga.java:64-72 | corrected: fails unless the saga is at version 0 with no changes; on success loaded at the given version |
| Sagas.Saga.Store | common/src/main/java/org/jeecqrs/common/sagas/AbstractEventSourcedSaga.java:80-86 | every change goes to the bus in order, then the changes are cleared and the version grows by 1 |
| Sagas.Saga.Version | common/src/main/java/org/jeecqrs/common/sagas/AbstractEventSourcedSaga.java:88-91 | returns the field unchanged |
| Sagas.Saga.EventSourceReplayActive | common/src/main/java/org/jeecqrs/common/sagas/AbstractEventSourcedSaga.java:93-95 | returns the flag unchanged |
| Sagas.LoadStepsWhenBound | common/src/main/java/org/jeecqrs/common/sagas/AbstractEventSourcedSaga.java:67-70 | replaying events that all have a handler succeeds, marks all their ids and invokes one handler per event, in order |
| Sagas.RepeatedIdScenario | common/src/main/java/org/jeecqrs/common/sagas/AbstractEventSourcedSaga.java:68-69 | a history holding the same id twice is dispatched twice by `load`, and a later `handle` of that id dispatches nothing |
| Sagas.StuckReplayScenario | common/src/main/java/org/jeecqrs/common/sagas/AbstractEventSourcedSaga.java:67-70 | after a handler throws during `load`, the flag stays set, so an event handled later is marked but not recorded as a change |
| Sagas.LoadShadowingScenario | common/src/main/java/org/jeecqrs/common/sagas/AbstractEventSourcedSaga.java:65-66 | as written, loading version 1 into a new saga fails; the corrected check loads it |
| Sagas.DeliverTwiceScenario | common/src/main/java/org/jeecqrs/common/sagas/AbstractSaga.java:77-86 | the same event handled twice is dispatched and recorded once |
| EventSourcingUtil.LookupFailure | common/src/main/java/org/jeecqrs/common/event/sourcing/EventSourcingUtil.java:54-62 | IllegalStateException from the annotation search propagates as is; other failures are wrapped in a RuntimeException |
| EventSourcingUtil.BuiltFrom | common/src/main/java/org/jeecqrs/common/event/sourcing/EventSourcingUtil.java:46-62 | with the corrected load: a build succeeds only when the `@Load` lookup succeeds and the replay does not throw, and then the instance is at the given version with no changes; a failed lookup fails and leaves the cache alone |
| EventSourcingUtil.LoadNewInstance | common/src/main/java/org/jeecqrs/common/event/sourcing/EventSourcingUtil.java:50-53 | the `@Load(long, List)` method is looked up, then the corrected load is invoked once with `(version, events)` on the new instance, as `BuiltFrom` says |
| EventSourcingUtil.LoadNewInstanceAsWritten | common/src/main/java/org/jeecqrs/common/event/sourcing/EventSourcingUtil.java:50-53 | with `load` as written: a lookup failure surfaces; any version but 0 fails as dirty with the cache unchanged; at version 0 the outcome is `BuiltFrom`'s |
| EventSourcingUtil.CreateShadowingScenario | common/src/main/java/org/jeecqrs/common/domain/model/AbstractEventSourcedAggregateRoot.java:98-99 | building AESARImpl from its three events at version 1 fails as dirty with `load` as written, and with the corrected load gives version 1, no changes and the three events handled |
| EventSourcingUtil.CreateFromEventStream | common/src/main/java/org/jeecqrs/common/event/sourcing/EventSourcingUtil.java:41-64 | null class or events are refused; a missing constructor is wrapped; otherwise the result is a new instance built as `BuiltFrom` says, with the corrected load |
| EventSourcingUtil.LegacyCreateFromEventStream | src/main/java/org/jeecqrs/common/event/sourcing/EventSourcingUtil.java:40-56 | the older revision: null class or events are refused; `newInstance` fails on a missing or non-public constructor; otherwise as in the newer revision |
| EventSourcingUtil.RetrieveVersion | common/src/main/java/org/jeecqrs/common/event/sourcing/EventSourcingUtil.java:66-80 | a null object fails on `getClass()`; a lookup failure surfaces; a `long` result is the version; any other result type is IllegalStateException |
| EventSourcingUtil.AggregateClassFindsRootMethods | common/src/main/java/org/jeecqrs/common/domain/model/AbstractEventSourcedAggregateRoot.java:97-122 | in an aggregate class the annotation search finds the root's own `@Load(long, List)`, `@Store` and `@Version` methods, the last returning `long` |
| EventSourcingUtil.RetrieveAggregateVersion | common/src/main/java/org/jeecqrs/common/event/sourcing/EventSourcingUtil.java:66-80 | for an aggregate, `retrieveVersion` is exactly its `version` field |
| EventSourcingUtil.TestObjectConventions | src/test/java/org/jeecqrs/common/event/sourcing/TestObject.java:10-33 | the test object class is an aggregate class whose handler for TestEvent is what the climb finds |
| EventSourcingUtil.AggregateClassBuilds | common/src/main/java/org/jeecqrs/common/event/sourcing/EventSourcingUtil.java:46-53 | with the corrected load, building an aggregate from events that all have a handler succeeds at the given version with no changes, and hands the events to the handlers in order |
| EventSourcingUtil.CreateTestObject | common/src/test/java/org/jeecqrs/common/event/sourcing/EventSourcingUtilTest.java:45-48 | `createFromEventStream(TestObject, 2, orig)` is at version 2 with no changes and has seen exactly `orig` |
| EventSourcingUtil.ApplyTestEvent | common/src/test/java/org/jeecqrs/common/event/sourcing/EventSourcingUtilTest.java:50-51 | one added event becomes one more change, with the version kept |
| EventSourcingUtil.StoreIntoNewStream | common/src/test/java/org/jeecqrs/common/event/sourcing/EventSourcingUtilTest.java:56-66 | a store hands over exactly the pending changes and moves the version on by 1 |
| EventSourcingUtil.CreateFromEventStreamScenario | common/src/test/java/org/jeecqrs/common/event/sourcing/EventSourcingUtilTest.java:38-67 | version 2 and stream `orig` after loading; the store hands over exactly the 2 added changes from version 2 |
| Repositories.LoadedFrom | persistence-jeeventstore/src/main/java/org/jeecqrs/common/persistence/jeeventstore/AbstractJEEventStoreRepository.java:54-60 | a load from a stream succeeds only when the stream exists and the class has a constructor without parameters, and then at the stream's version with no changes (corrected load) |
| Repositories.CommittedNewStream | common/src/main/java/org/jeecqrs/common/persistence/es/AbstractEventSourcingRepository.java:83-90 | an accepted commit of a new stream holds exactly the committed events at version 1, and no other stream changes |
| Repositories.InvokeStore | common/src/main/java/org/jeecqrs/common/persistence/es/AbstractEventSourcingRepository.java:102-112 | the `@Store` lookup failure surfaces with nothing changed; otherwise the entity hands all its changes to the bus in order and is persisted |
| Repositories.PushAndCommit | common/src/main/java/org/jeecqrs/common/persistence/es/AbstractEventSourcingRepository.java:86-89 | the entity pushes its changes, then one commit happens with the commit id after them; a null commit id fails before the commit |
| Repositories.JEEventStoreRepository.constructor | persistence-jeeventstore/src/main/java/org/jeecqrs/common/persistence/jeeventstore/AbstractJEEventStoreRepository.java:45-50 | the repository keeps its store, bucket and object type |
| Repositories.JEEventStoreRepository.SetObjectType | common/src/main/java/org/jeecqrs/common/persistence/es/AbstractEventSourcingRepository.java:122-124 | sets the object type |
| Repositories.JEEventStoreRepository.LoadFromStream | persistence-jeeventstore/src/main/java/org/jeecqrs/common/persistence/jeeventstore/AbstractJEEventStoreRepository.java:54-60 | opens the stream for reading once, in the repository's bucket, and builds the entity from the stream's version and events, with the corrected load |
| Repositories.JEEventStoreRepository.OfIdentityOf | common/src/main/java/org/jeecqrs/common/persistence/es/AbstractEventSourcingRepository.java:61-70 | a null id is refused with no store access; otherwise loads from `streamIdFor(clazz, id)` as `LoadedFrom` says |
| Repositories.JEEventStoreRepository.OfIdentity | common/src/main/java/org/jeecqrs/common/persistence/es/AbstractEventSourcingRepository.java:72-77 | without an object type it fails with IllegalStateException; otherwise as `ofIdentity(objectType, id)` |
| Repositories.JEEventStoreRepository.Add | common/src/main/java/org/jeecqrs/common/persistence/es/AbstractEventSourcingRepository.java:83-90 | a null object is refused; `createStream` on the object's stream, then every change appended in order, then one commit with the commit id |
| Repositories.JEEventStoreRepository.Save | common/src/main/java/org/jeecqrs/common/persistence/es/AbstractEventSourcingRepository.java:92-100 | a null object is refused; the stream is opened for writing at the version read before `store` runs, then the changes are appended and committed once |
| Repositories.JEEventStoreSagaRepository.constructor | persistence-jeeventstore/src/main/java/org/jeecqrs/common/persistence/jeeventstore/AbstractJEEventStoreSagaRepository.java:30-31 | the saga repository works through a base repository |
| Repositories.JEEventStoreSagaRepository.OfIdentityOf | persistence-jeeventstore/src/main/java/org/jeecqrs/common/persistence/jeeventstore/AbstractJEEventStoreSagaRepository.java:33-40 | a null id is refused; a missing stream gives null after one existence check; otherwise the base load from the same stream id in the same bucket |
| Repositories.JEEventStoreSagaRepository.OfIdentity | common/src/main/java/org/jeecqrs/common/persistence/es/AbstractEventSourcingRepository.java:72-77 | `ofIdentity(id)` on the saga repository: the object-type check, then a null id refused with no store access, a missing stream giving null after one existence check, and otherwise the existence-checked load |
| Repositories.LegacyRepository.constructor | persistence-jeeventstore/src/main/java/org/jeecqrs/common/persistence/jeeventstore/AbstractEventSourcingRepository.java:50 | the older repository keeps its store and entity class |
| Repositories.LegacyRepository.Bucket | persistence-jeeventstore/src/main/java/org/jeecqrs/common/persistence/jeeventstore/AbstractEventSourcingRepository.java:121-123 | the default bucket is `DEFAULT` |
| Repositories.LegacyRepository.OfIdentity | persistence-jeeventstore/src/main/java/org/jeecqrs/common/persistence/jeeventstore/AbstractEventSourcingRepository.java:54-65 | a null id is refused; otherwise opens the entity class's stream for reading and builds the entity from its version and events |
| Repositories.LegacyRepository.Add | persistence-jeeventstore/src/main/java/org/jeecqrs/common/persistence/jeeventstore/AbstractEventSourcingRepository.java:71-77 | a null object is refused; a new stream, every change appended through `@Store`, then one commit with the commit id |
| Repositories.LegacyRepository.Save | persistence-jeeventstore/src/main/java/org/jeecqrs/common/persistence/jeeventstore/AbstractEventSourcingRepository.java:79-85 | as written: opens the stream at the object's version and commits, appending nothing |
| Repositories.LegacyRepository.SaveIntended | persistence-jeeventstore/src/main/java/org/jeecqrs/common/persistence/jeeventstore/AbstractEventSourcingRepository.java:79-85 | corrected: the pending changes are appended through `@Store` between the open and the commit |
| Repositories.AddThenLoad | common/src/main/java/org/jeecqrs/common/persistence/es/AbstractEventSourcingRepository.java:61-90 | with the corrected load, adding a new aggregate and loading it back gives an aggregate at version 1 with no changes that has seen exactly the added changes, in order |
| Repositories.ChangedTestObject | src/test/java/org/jeecqrs/common/event/sourcing/TestObject.java:10-33 | a test object loaded at version 2 with one added change |
| Repositories.LegacySaveScenario | persistence-jeeventstore/src/main/java/org/jeecqrs/common/persistence/jeeventstore/AbstractEventSourcingRepository.java:79-85 | as written, saving a changed object commits successfully, but the stream holds only the old events and the change stays pending |
| Repositories.LegacySaveIntendedScenario | persistence-jeeventstore/src/main/java/org/jeecqrs/common/persistence/jeeventstore/AbstractEventSourcingRepository.java:79-85 | corrected, the stream holds the old events followed by the change and nothing stays pending |

## Left out

- Reflection mechanics: `Method.invoke`, `setAccessible`, `getDeclaredConstructor`/`newInstance` and annotation reading are replaced by data describing each class level. The `SecurityException` and `InvocationTargetException` layers are not modelled beyond "a failure is wrapped".
- Handler bodies are not executed; a routed event is an invocation record. What a handler itself throws is not modelled, only a missing handler.
- `java.lang.Object` is not a level of the modelled hierarchies. It declares no annotated methods and no single-parameter event handlers, so the searches stop before it as the source's do.
- Event types are matched by exact name; the hierarchy of event classes is not modelled, just as the source looks up the exact runtime class.
- `synchronized (methodCache)` and the `ConcurrentHashMap` of the annotation generator: the caches are sequential maps.
- The event store library's internals (durability, how duplicate commits and version conflicts are detected) are not modelled. Its verdict on a commit is a parameter of the store.
- Logging and the load timing in the repositories.
- `AbstractId()` with a random UUID; the constructor taking a string is modelled.
- `InvokeMethodEndpoint` and `AbstractJEEventStoreARRepository` are not part of this model.
- Long overflow of the version counters: versions are unbounded integers.
- Identifiers are passed to the repositories as their `toString` value, because `id()` of the entity classes is not part of this model.
- The repositories handle aggregate roots as their entities; the saga repository's existence check is modelled over the same entities.
- The older repository builds entities with the newer `EventSourcingUtil`; its `(List)` cast of the stream's events is taken as the event list. Its commit id is a non-null string.
- `streamNameGenerator()` and `bucketId()` overrides by subclasses: the default canonical-name generator and the configured bucket are used.
- A null class passed to the protected `ofIdentity(clazz, id)`: the class is always present.
- EventSourcingUtil.RetrieveVersion: the IllegalStateException message names the class by canonical name rather than by `Class.toString`.
- Reflection.UniqueMethod: the IllegalArgumentException message leaves out the required and found parameter lists.
- Sagas: the routers sagas build are modelled on the older `dispatch` router revision (the one whose interface has `dispatch`), with the throw flag set and method name `when`. `DefaultSagaId`/`SagaId` are modelled as an id of a fixed class.
- `AbstractEventSourcedSaga`'s own constructors only forward to `AbstractSaga`'s; they are modelled by `Saga.Create` and `Saga.WithRouter`.
- EventSourcingUtil.LoadNewInstance: invokes the corrected aggregate `load` (`LoadIntended`), which accepts any version on a new instance. As written, `load` refuses every version but 0, so every stream that was ever committed fails to build. `LoadNewInstanceAsWritten` and `CreateShadowingScenario` state the as-written outcome.
- EventSourcingUtil.BuiltFrom: stated with the corrected load, as for `LoadNewInstance`.
- EventSourcingUtil.CreateFromEventStream: builds through `LoadNewInstance`, so a stream at a version other than 0 builds, where the program as written throws "Cannot create object of type …".
- EventSourcingUtil.LegacyCreateFromEventStream: the same corrected-load substitution as `CreateFromEventStream`.
- EventSourcingUtil.AggregateClassBuilds: proves success at any version, which holds of the corrected load only; as written only version 0 builds.
- Repositories.LoadedFrom: stated through `BuiltFrom`, with the corrected load.
- Repositories.JEEventStoreRepository.LoadFromStream: builds with the corrected load, so a stream at version 1 or more loads, where the program as written fails as dirty.
- Repositories.JEEventStoreRepository.OfIdentityOf: its load is `LoadFromStream`'s, with the corrected load.
- Repositories.JEEventStoreRepository.OfIdentity: its load is `LoadFromStream`'s, with the corrected load.
- Repositories.JEEventStoreSagaRepository.OfIdentityOf: the load of a present stream is the base's, with the corrected load.
- Repositories.JEEventStoreSagaRepository.OfIdentity: the load of a present stream is the base's, with the corrected load.
- Repositories.LegacyRepository.OfIdentity: builds through `CreateFromEventStream`, with the corrected load.
- Repositories.AddThenLoad: the round trip holds of the corrected load only. As written, the reload at version 1 fails as dirty, as `CreateShadowingScenario` shows for `createFromEventStream`.
- Strings.UnsignedHash: a Dafny string cannot hold a lone surrogate, so the Java strings containing one are not modelled. Every other string is hashed over its UTF-16 code units, as Java does.
- `TestObject` is modelled as an aggregate class: its own `@Load`, which checks nothing, is modelled by the corrected aggregate load, which on a new instance likewise takes any version; its `stream` is the events its handler was given, adding an event is `apply`, and its store hands over the changes one by one rather than as one `(version, list)` call.
- `testOnDerived` of the router tests: its `Derived` class is not part of this model.
- `CommandBus`, `SagaTimeoutProvider`, `EventBus` and the other interfaces without implementation.

## Findings

| source | as written | input that shows it | evidently intended | confidence | as-written member | corrected member |
|---|---|---|---|---|---|---|
| common/src/main/java/org/jeecqrs/common/domain/model/AbstractEventSourcedAggregateRoot.java:98-99 | `load` checks its `version` parameter, which shadows the field, and never looks at `changes` | a new AESARImpl asked to load version 1 fails as dirty; one with a pending change loads version 0 | refuse the load unless the aggregate itself is at version 0 with no changes | not executed | Aggregates.LoadShadowingScenario | Aggregates.AggregateRoot.LoadIntended |
| common/src/main/java/org/jeecqrs/common/sagas/AbstractEventSourcedSaga.java:65-66 | `load` checks its `version` parameter, which shadows the field | a new event-sourced saga asked to load version 1 fails as dirty | refuse the load unless the saga itself is at version 0 with no changes | not executed | Sagas.LoadShadowingScenario | Sagas.Saga.LoadIntended |
| persistence-jeeventstore/src/main/java/org/jeecqrs/common/persistence/jeeventstore/AbstractEventSourcingRepository.java:79-85 | `save` opens the stream at the object's version and commits without appending the pending changes | a test object loaded at version 2 with one added change: the commit succeeds, the stream keeps only the old events and the change stays pending | copy the changes into the stream before committing, as `add` does | not executed | Repositories.LegacySaveScenario | Repositories.LegacySaveIntendedScenario |
| common/src/main/java/org/jeecqrs/common/event/sourcing/EventSourcingUtil.java:46-53 | `createFromEventStream` invokes the aggregate's `load`, whose check of its argument refuses every version but 0, so no aggregate stream that was ever committed can be built, and no repository can load a saved aggregate | AESARImpl's three template events at version 1 fail with a wrapped "Cannot loadFromEventStream() on dirty AggregateRoot" | build a new instance at the stream's version, as the `EventSourced` contract describes | not executed | EventSourcingUtil.CreateShadowingScenario | EventSourcingUtil.CreateFromEventStream |
| src/main/java/org/jeecqrs/common/event/routing/ConventionEventRouter.java:65-67 | the `(Object, boolean)` constructor passes `true` instead of its argument | a router built with `(null, false)` throws HandlerNotFoundException on an unhandled event | pass `throwOnHandlerNotFound` on | not executed | ConventionRouting.LegacyFlagIgnored | ConventionRouting.LegacyFlagHonoured |
