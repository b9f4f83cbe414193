/**
 * The repositories over the event store, both revisions.
 *
 * Newer revision (AbstractEventSourcingRepository with its JEEventStore
 * subclass): `ofIdentity` opens the stream for reading and builds the entity
 * from it; `add` creates a stream, `save` opens one at the entity's version;
 * both let the entity's `@Store` method push its changes through a bus onto
 * the stream and then commit once. The saga repository first asks whether the
 * stream exists and answers `null` when it does not.
 *
 * Older revision: the same, against a fixed "DEFAULT" bucket and the class
 * `entityClass()`; its `save` opens and commits the stream without handing
 * over the changes.
 *
 * An entity's `id()` is passed as its `toString()` (`None` for null), and
 * `identity` is the reference of the instance a load constructs.
 */
module Repositories {
  import opened Failures
  import opened Events
  import opened Reflection
  import opened EventRouting
  import opened ConventionRouting
  import opened EventStoreModel
  import opened EventSourcedContract
  import opened Aggregates
  import opened EventSourcingUtil
  import opened StreamNames

  /** The stream of an entity of class `clazz` with id `id` in `bucket`, by the canonical-name generator. */
  function KeyFor(bucket: string, clazz: Hierarchy, id: string): StreamKey {
    StreamKey(bucket, CanonicalStreamName(CanonicalName(clazz), Some(id)).value)
  }

  /**
   * What building the entity from the stream at `key` leaves, given the
   * streams the store held; the build is `BuiltFrom`'s, with the corrected load.
   */
  ghost predicate LoadedFrom(r: Result<AggregateRoot>, cache: MethodCache, before: map<CacheKey, MethodRef>,
                             streams: map<StreamKey, StreamData>, key: StreamKey, clazz: Hierarchy, identity: nat)
    reads cache, if r.Success? then {r.value, r.value.router, r.value.router.cache} else {}
    ensures LoadedFrom(r, cache, before, streams, key, clazz, identity) && r.Success? ==>
              key in streams && NoArgConstructor(clazz).Some? &&
              r.value.version == streams[key].version && r.value.changes == [] && r.value.receiver == Receiver(identity, clazz)
  {
    && (key !in streams ==> r == Failure(StreamNotFound) && cache.entries == before)
    && (key in streams && NoArgConstructor(clazz).None? ==> r == Failure(Wrapped(NoSuchConstructor)) && cache.entries == before)
    && (key in streams && NoArgConstructor(clazz).Some? ==>
          BuiltFrom(r, cache, before, clazz, identity, streams[key].version, streams[key].events))
  }

  /** What a commit through a bus answers, and how it leaves the streams. */
  predicate Committing(o: Outcome, before: map<StreamKey, StreamData>, after: map<StreamKey, StreamData>,
                       verdict: Verdict, key: StreamKey, pending: seq<Event>)
  {
    && (verdict == Accepted ==> o == Pass && after == before[key := Committed(before, key, pending)])
    && (verdict == RejectDuplicate ==> o == Fail(Wrapped(DuplicateCommit)) && after == before)
    && (verdict == RejectConcurrency ==> o == Fail(Wrapped(ConcurrencyConflict)) && after == before)
  }

  /** An accepted commit of a new stream holds exactly the committed events, at version 1. */
  lemma CommittedNewStream(o: Outcome, before: map<StreamKey, StreamData>, after: map<StreamKey, StreamData>,
                           key: StreamKey, pending: seq<Event>)
    requires key !in before
    requires Committing(o, before, after, Accepted, key, pending)
    ensures o == Pass && key in after && after[key] == StreamData(1, pending)
    ensures forall k :: k != key ==> (k in after <==> k in before) && (k in before ==> after[k] == before[k])
  {
  }

  /**
   * `invokeStore(obj, bus)`: the unique `@Store(EventSourcingBus)` method of
   * class `h` is invoked on the entity with the bus; a failed lookup is
   * reported as `LookupFailure` says and changes nothing.
   */
  method InvokeStore(a: AggregateRoot, h: Hierarchy, bus: StreamBus) returns (o: Outcome)
    modifies a, bus.stream, bus.stream.store
    ensures var m := UniqueMethod(h, StoreAnnotation, StoreParams);
            (m.Failure? ==> (o == Fail(LookupFailure(m.error)) && a.View() == old(a.View()) &&
               bus.stream.pending == old(bus.stream.pending) && bus.stream.store.calls == old(bus.stream.store.calls))) &&
            (m.Success? ==> (o == Pass && Persisted(old(a.View()), a.View(), old(a.changes)) &&
               bus.stream.pending == old(bus.stream.pending) + old(a.changes) &&
               bus.stream.store.calls == old(bus.stream.store.calls) + AppendCalls(bus.stream.key, old(a.changes))))
    ensures bus.stream.store.streams == old(bus.stream.store.streams)
  {
    var m := FindUniqueMethod(h, StoreAnnotation, StoreParams);
    if m.Failure? {
      return Fail(LookupFailure(m.error));
    }
    a.Store(bus);
    o := Pass;
  }

  /**
   * The common tail of `add` and `save`: push the changes through the bus,
   * then commit with `commitId.toString()` (a null commit id fails only after
   * the changes have been pushed and the entity's version stepped).
   */
  method PushAndCommit(a: AggregateRoot, h: Hierarchy, bus: StreamBus, commitId: Option<string>) returns (o: Outcome)
    requires bus.stream.pending == []
    modifies a, bus.stream, bus.stream.store
    ensures var m := UniqueMethod(h, StoreAnnotation, StoreParams);
            var st := bus.stream.store;
            var key := bus.stream.key;
            (m.Failure? ==> (o == Fail(LookupFailure(m.error)) && a.View() == old(a.View()) &&
               st.calls == old(st.calls) && st.streams == old(st.streams))) &&
            (m.Success? ==> Persisted(old(a.View()), a.View(), old(a.changes))) &&
            (m.Success? && commitId.None? ==> (o == Fail(NullDereference) &&
               st.calls == old(st.calls) + AppendCalls(key, old(a.changes)) && st.streams == old(st.streams))) &&
            (m.Success? && commitId.Some? ==> (
               st.calls == old(st.calls) + AppendCalls(key, old(a.changes)) + [CommitStream(key, commitId.value)] &&
               Committing(o, old(st.streams), st.streams, st.verdict(key, commitId.value), key, old(a.changes))))
  {
    o := InvokeStore(a, h, bus);
    if o.Fail? {
      return;
    }
    assert bus.stream.pending == old(a.changes);
    if commitId.None? {
      return Fail(NullDereference);
    }
    o := bus.Commit(commitId.value);
  }

  /**
   * AbstractJEEventStoreRepository over AbstractEventSourcingRepository (newer
   * revision), with the default canonical-name stream name generator.
   */
  class JEEventStoreRepository {
    /** `eventStore()`. */
    const store: EventStore
    /** `bucketId()`. */
    const bucket: string
    /** The process-wide method cache the routers of loaded entities share. */
    const cache: MethodCache
    var objectType: Option<Hierarchy>

    constructor (store: EventStore, bucket: string, cache: MethodCache, objectType: Option<Hierarchy>)
      ensures this.store == store && this.bucket == bucket && this.cache == cache && this.objectType == objectType
    {
      this.store := store;
      this.bucket := bucket;
      this.cache := cache;
      this.objectType := objectType;
    }

    /** `setObjectType`. */
    method SetObjectType(t: Option<Hierarchy>)
      modifies this
      ensures objectType == t
    {
      objectType := t;
    }

    /** `loadFromStream(clazz, streamId)`: one read of the stream, then `createFromEventStream` on its version and events. */
    method LoadFromStream(clazz: Hierarchy, streamId: string, identity: nat) returns (r: Result<AggregateRoot>)
      modifies store, cache
      ensures store.streams == old(store.streams)
      ensures store.calls == old(store.calls) + [OpenStreamForReading(StreamKey(bucket, streamId))]
      ensures LoadedFrom(r, cache, old(cache.entries), old(store.streams), StreamKey(bucket, streamId), clazz, identity)
      ensures r.Success? ==> fresh(r.value) && fresh(r.value.router)
    {
      var stream := store.OpenForReading(StreamKey(bucket, streamId));
      if stream.Failure? {
        return Failure(stream.error);
      }
      r := CreateFromEventStream(cache, Some(clazz), identity, stream.value.version, Some(stream.value.events));
    }

    /** `ofIdentity(clazz, id)`: a null id is rejected; otherwise the entity is loaded from `streamIdFor(clazz, id)`. */
    method OfIdentityOf(clazz: Hierarchy, id: Option<string>, identity: nat) returns (r: Result<AggregateRoot>)
      modifies store, cache
      ensures store.streams == old(store.streams)
      ensures id.None? ==> (r == Failure(ValidationFailed("id must not be null")) &&
                store.calls == old(store.calls) && cache.entries == old(cache.entries))
      ensures id.Some? ==> (store.calls == old(store.calls) + [OpenStreamForReading(KeyFor(bucket, clazz, id.value))] &&
                LoadedFrom(r, cache, old(cache.entries), old(store.streams), KeyFor(bucket, clazz, id.value), clazz, identity))
      ensures r.Success? ==> fresh(r.value) && fresh(r.value.router)
    {
      if id.None? {
        return Failure(ValidationFailed("id must not be null"));
      }
      var streamId := CanonicalStreamName(CanonicalName(clazz), id).value;
      r := LoadFromStream(clazz, streamId, identity);
    }

    /** `ofIdentity(id)`: only a repository that knows its object type can load by id alone. */
    method OfIdentity(id: Option<string>, identity: nat) returns (r: Result<AggregateRoot>)
      modifies store, cache
      ensures store.streams == old(store.streams)
      ensures objectType.None? ==> (r == Failure(IllegalState("Cannot call #ofIdentity() without objectType")) &&
                store.calls == old(store.calls) && cache.entries == old(cache.entries))
      ensures objectType.Some? && id.None? ==> r == Failure(ValidationFailed("id must not be null")) && store.calls == old(store.calls)
      ensures objectType.Some? && id.Some? ==>
                var key := KeyFor(bucket, objectType.value, id.value);
                store.calls == old(store.calls) + [OpenStreamForReading(key)] &&
                LoadedFrom(r, cache, old(cache.entries), old(store.streams), key, objectType.value, identity)
      ensures r.Success? ==> fresh(r.value) && fresh(r.value.router)
    {
      if objectType.None? {
        return Failure(IllegalState("Cannot call #ofIdentity() without objectType"));
      }
      r := OfIdentityOf(objectType.value, id, identity);
    }

    /**
     * `add(obj, commitId)`: a null object is rejected; the stream id of the
     * object's runtime class and id is created, the changes are pushed and
     * committed once.
     */
    method Add(obj: Option<AggregateRoot>, id: Option<string>, commitId: Option<string>) returns (o: Outcome)
      modifies store, if obj.Some? then {obj.value} else {}
      ensures obj.None? ==> (o == Fail(ValidationFailed("object must not be null")) &&
                store.calls == old(store.calls) && store.streams == old(store.streams))
      ensures obj.Some? && id.None? ==> (o == Fail(NullDereference) &&
                store.calls == old(store.calls) && store.streams == old(store.streams) && obj.value.View() == old(obj.value.View()))
      ensures obj.Some? && id.Some? ==>
                var a := obj.value;
                var key := KeyFor(bucket, a.receiver.hierarchy, id.value);
                var m := UniqueMethod(a.receiver.hierarchy, StoreAnnotation, StoreParams);
                (m.Failure? ==> (o == Fail(LookupFailure(m.error)) && a.View() == old(a.View()) &&
                   store.calls == old(store.calls) + [CreateStream(key)] && store.streams == old(store.streams))) &&
                (m.Success? ==> Persisted(old(a.View()), a.View(), old(a.changes))) &&
                (m.Success? && commitId.None? ==> (o == Fail(NullDereference) && store.streams == old(store.streams) &&
                   store.calls == old(store.calls) + [CreateStream(key)] + AppendCalls(key, old(a.changes)))) &&
                (m.Success? && commitId.Some? ==> (
                   store.calls == old(store.calls) + [CreateStream(key)] + AppendCalls(key, old(a.changes)) + [CommitStream(key, commitId.value)] &&
                   Committing(o, old(store.streams), store.streams, store.verdict(key, commitId.value), key, old(a.changes))))
    {
      if obj.None? {
        return Fail(ValidationFailed("object must not be null"));
      }
      var a := obj.value;
      if id.None? {
        return Fail(NullDereference);
      }
      var streamId := CanonicalStreamName(CanonicalName(a.receiver.hierarchy), id).value;
      var w := store.Create(StreamKey(bucket, streamId));
      var bus := new StreamBus(w);
      o := PushAndCommit(a, a.receiver.hierarchy, bus, commitId);
    }

    /**
     * `save(obj, commitId)`: like `add`, but the stream is opened for writing
     * at the version the entity reports before its changes are pushed.
     */
    method Save(obj: Option<AggregateRoot>, id: Option<string>, commitId: Option<string>) returns (o: Outcome)
      modifies store, if obj.Some? then {obj.value} else {}
      ensures obj.None? ==> (o == Fail(ValidationFailed("object must not be null")) &&
                store.calls == old(store.calls) && store.streams == old(store.streams))
      ensures obj.Some? && (id.None? || old(RetrieveVersion(obj)).Failure?) ==> (
                store.calls == old(store.calls) && store.streams == old(store.streams) && obj.value.View() == old(obj.value.View()))
      ensures obj.Some? && id.None? ==> o == Fail(NullDereference)
      ensures obj.Some? && id.Some? && old(RetrieveVersion(obj)).Failure? ==> o == Fail(old(RetrieveVersion(obj)).error)
      ensures obj.Some? && id.Some? && old(RetrieveVersion(obj)).Success? ==>
                var a := obj.value;
                var key := KeyFor(bucket, a.receiver.hierarchy, id.value);
                var open := OpenStreamForWriting(key, old(RetrieveVersion(obj)).value);
                var m := UniqueMethod(a.receiver.hierarchy, StoreAnnotation, StoreParams);
                (m.Failure? ==> (o == Fail(LookupFailure(m.error)) && a.View() == old(a.View()) &&
                   store.calls == old(store.calls) + [open] && store.streams == old(store.streams))) &&
                (m.Success? ==> Persisted(old(a.View()), a.View(), old(a.changes))) &&
                (m.Success? && commitId.None? ==> (o == Fail(NullDereference) && store.streams == old(store.streams) &&
                   store.calls == old(store.calls) + [open] + AppendCalls(key, old(a.changes)))) &&
                (m.Success? && commitId.Some? ==> (
                   store.calls == old(store.calls) + [open] + AppendCalls(key, old(a.changes)) + [CommitStream(key, commitId.value)] &&
                   Committing(o, old(store.streams), store.streams, store.verdict(key, commitId.value), key, old(a.changes))))
    {
      if obj.None? {
        return Fail(ValidationFailed("object must not be null"));
      }
      var a := obj.value;
      if id.None? {
        return Fail(NullDereference);
      }
      var streamId := CanonicalStreamName(CanonicalName(a.receiver.hierarchy), id).value;
      var version := RetrieveVersion(obj);
      if version.Failure? {
        return Fail(version.error);
      }
      var w := store.OpenForWriting(StreamKey(bucket, streamId), version.value);
      var bus := new StreamBus(w);
      o := PushAndCommit(a, a.receiver.hierarchy, bus, commitId);
    }
  }

  /** The whole result of a load seen as non-null: a `null` answer is what a caller would dereference. */
  function NonNull(r: Result<Option<AggregateRoot>>): Result<AggregateRoot> {
    if r.Failure? then Failure(r.error)
    else if r.value.None? then Failure(NullDereference)
    else Success(r.value.value)
  }

  /**
   * AbstractJEEventStoreSagaRepository: `ofIdentity(clazz, id)` answers `null`
   * for a stream the store does not have and otherwise loads as the base does.
   */
  class JEEventStoreSagaRepository {
    const base: JEEventStoreRepository

    constructor (base: JEEventStoreRepository)
      ensures this.base == base
    {
      this.base := base;
    }

    method OfIdentityOf(clazz: Hierarchy, id: Option<string>, identity: nat) returns (r: Result<Option<AggregateRoot>>)
      modifies base.store, base.cache
      ensures base.store.streams == old(base.store.streams)
      ensures id.None? ==> (r == Failure(ValidationFailed("id must not be null")) &&
                base.store.calls == old(base.store.calls) && base.cache.entries == old(base.cache.entries))
      ensures id.Some? && KeyFor(base.bucket, clazz, id.value) !in old(base.store.streams) ==> (r == Success(None) &&
                base.store.calls == old(base.store.calls) + [ExistsStream(KeyFor(base.bucket, clazz, id.value))] &&
                base.cache.entries == old(base.cache.entries))
      ensures id.Some? && KeyFor(base.bucket, clazz, id.value) in old(base.store.streams) ==>
                var key := KeyFor(base.bucket, clazz, id.value);
                base.store.calls == old(base.store.calls) + [ExistsStream(key), OpenStreamForReading(key)] &&
                (r.Failure? || r.value.Some?) &&
                LoadedFrom(NonNull(r), base.cache, old(base.cache.entries), old(base.store.streams), key, clazz, identity)
      ensures r.Success? && r.value.Some? ==> fresh(r.value.value) && fresh(r.value.value.router)
    {
      if id.None? {
        return Failure(ValidationFailed("id must not be null"));
      }
      var streamId := CanonicalStreamName(CanonicalName(clazz), id).value;
      var present := base.store.Exists(StreamKey(base.bucket, streamId));
      if !present {
        return Success(None);
      }
      var loaded := base.OfIdentityOf(clazz, id, identity);
      if loaded.Failure? {
        return Failure(loaded.error);
      }
      return Success(Some(loaded.value));
    }

    /** `ofIdentity(id)`, which reaches the overridden `ofIdentity(clazz, id)`. */
    method OfIdentity(id: Option<string>, identity: nat) returns (r: Result<Option<AggregateRoot>>)
      modifies base.store, base.cache
      ensures base.store.streams == old(base.store.streams)
      ensures base.objectType.None? ==> (r == Failure(IllegalState("Cannot call #ofIdentity() without objectType")) &&
                base.store.calls == old(base.store.calls))
      ensures base.objectType.Some? && id.None? ==> (r == Failure(ValidationFailed("id must not be null")) &&
                base.store.calls == old(base.store.calls) && base.cache.entries == old(base.cache.entries))
      ensures base.objectType.Some? && id.Some? && KeyFor(base.bucket, base.objectType.value, id.value) !in old(base.store.streams) ==>
                r == Success(None) && base.cache.entries == old(base.cache.entries) &&
                base.store.calls == old(base.store.calls) + [ExistsStream(KeyFor(base.bucket, base.objectType.value, id.value))]
      ensures base.objectType.Some? && id.Some? && KeyFor(base.bucket, base.objectType.value, id.value) in old(base.store.streams) ==>
                var key := KeyFor(base.bucket, base.objectType.value, id.value);
                base.store.calls == old(base.store.calls) + [ExistsStream(key), OpenStreamForReading(key)] &&
                LoadedFrom(NonNull(r), base.cache, old(base.cache.entries), old(base.store.streams), key, base.objectType.value, identity)
    {
      if base.objectType.None? {
        return Failure(IllegalState("Cannot call #ofIdentity() without objectType"));
      }
      r := OfIdentityOf(base.objectType.value, id, identity);
    }
  }

  /** The older AbstractEventSourcingRepository, over `entityClass()` and the "DEFAULT" bucket. */
  class LegacyRepository {
    const store: EventStore
    const entityClass: Hierarchy
    const cache: MethodCache

    constructor (store: EventStore, entityClass: Hierarchy, cache: MethodCache)
      ensures this.store == store && this.entityClass == entityClass && this.cache == cache
    {
      this.store := store;
      this.entityClass := entityClass;
      this.cache := cache;
    }

    /** `bucketId()`. */
    function Bucket(): (b: string)
      ensures b == "DEFAULT"
    {
      "DEFAULT"
    }

    /** `ofIdentity(id)`: a null id is rejected; the stream of `entityClass()` and the id is read and built from. */
    method OfIdentity(id: Option<string>, identity: nat) returns (r: Result<AggregateRoot>)
      modifies store, cache
      ensures store.streams == old(store.streams)
      ensures id.None? ==> (r == Failure(ValidationFailed("id must not be null")) &&
                store.calls == old(store.calls) && cache.entries == old(cache.entries))
      ensures id.Some? ==> (store.calls == old(store.calls) + [OpenStreamForReading(KeyFor(Bucket(), entityClass, id.value))] &&
                LoadedFrom(r, cache, old(cache.entries), old(store.streams), KeyFor(Bucket(), entityClass, id.value), entityClass, identity))
      ensures r.Success? ==> fresh(r.value) && fresh(r.value.router)
    {
      if id.None? {
        return Failure(ValidationFailed("id must not be null"));
      }
      var streamId := CanonicalStreamName(CanonicalName(entityClass), id).value;
      var stream := store.OpenForReading(StreamKey(Bucket(), streamId));
      if stream.Failure? {
        return Failure(stream.error);
      }
      r := CreateFromEventStream(cache, Some(entityClass), identity, stream.value.version, Some(stream.value.events));
    }

    /** `add(obj, commitId)`: create the stream, copy the changes through `entityClass()`'s `@Store`, commit. */
    method Add(obj: Option<AggregateRoot>, id: Option<string>, commitId: string) returns (o: Outcome)
      modifies store, if obj.Some? then {obj.value} else {}
      ensures obj.None? ==> (o == Fail(ValidationFailed("object must not be null")) &&
                store.calls == old(store.calls) && store.streams == old(store.streams))
      ensures obj.Some? && id.None? ==> (o == Fail(NullDereference) &&
                store.calls == old(store.calls) && store.streams == old(store.streams) && obj.value.View() == old(obj.value.View()))
      ensures obj.Some? && id.Some? ==>
                var a := obj.value;
                var key := KeyFor(Bucket(), entityClass, id.value);
                var m := UniqueMethod(entityClass, StoreAnnotation, StoreParams);
                (m.Failure? ==> (o == Fail(LookupFailure(m.error)) && a.View() == old(a.View()) &&
                   store.calls == old(store.calls) + [CreateStream(key)] && store.streams == old(store.streams))) &&
                (m.Success? ==> (Persisted(old(a.View()), a.View(), old(a.changes)) &&
                   store.calls == old(store.calls) + [CreateStream(key)] + AppendCalls(key, old(a.changes)) + [CommitStream(key, commitId)] &&
                   Committing(o, old(store.streams), store.streams, store.verdict(key, commitId), key, old(a.changes))))
    {
      if obj.None? {
        return Fail(ValidationFailed("object must not be null"));
      }
      var a := obj.value;
      if id.None? {
        return Fail(NullDereference);
      }
      var streamId := CanonicalStreamName(CanonicalName(entityClass), id).value;
      var w := store.Create(StreamKey(Bucket(), streamId));
      var bus := new StreamBus(w);
      o := PushAndCommit(a, entityClass, bus, Some(commitId));
    }

    /**
     * `save(obj, commitId)` as written: the version is read, the stream is
     * opened at it and committed, and the changes are never copied; the
     * entity keeps them pending and its version.
     */
    method Save(obj: Option<AggregateRoot>, id: Option<string>, commitId: string) returns (o: Outcome)
      modifies store
      ensures obj.None? ==> o == Fail(ValidationFailed("object must not be null"))
      ensures obj.Some? && RetrieveVersion(obj).Failure? ==> o == Fail(RetrieveVersion(obj).error)
      ensures obj.Some? && RetrieveVersion(obj).Success? && id.None? ==> o == Fail(NullDereference)
      ensures obj.None? || RetrieveVersion(obj).Failure? || id.None? ==>
                store.calls == old(store.calls) && store.streams == old(store.streams)
      ensures obj.Some? && RetrieveVersion(obj).Success? && id.Some? ==>
                var key := KeyFor(Bucket(), entityClass, id.value);
                store.calls == old(store.calls) + [OpenStreamForWriting(key, RetrieveVersion(obj).value), CommitStream(key, commitId)] &&
                Committing(o, old(store.streams), store.streams, store.verdict(key, commitId), key, [])
    {
      if obj.None? {
        return Fail(ValidationFailed("object must not be null"));
      }
      var version := RetrieveVersion(obj);
      if version.Failure? {
        return Fail(version.error);
      }
      if id.None? {
        return Fail(NullDereference);
      }
      var streamId := CanonicalStreamName(CanonicalName(entityClass), id).value;
      var w := store.OpenForWriting(StreamKey(Bucket(), streamId), version.value);
      var bus := new StreamBus(w);
      o := bus.Commit(commitId);
    }

    /** `save` as evidently intended: the changes are copied onto the opened stream before the commit. */
    method SaveIntended(obj: Option<AggregateRoot>, id: Option<string>, commitId: string) returns (o: Outcome)
      modifies store, if obj.Some? then {obj.value} else {}
      ensures obj.None? ==> o == Fail(ValidationFailed("object must not be null"))
      ensures obj.Some? && old(RetrieveVersion(obj)).Failure? ==> o == Fail(old(RetrieveVersion(obj)).error)
      ensures obj.Some? && old(RetrieveVersion(obj)).Success? && id.None? ==> o == Fail(NullDereference)
      ensures obj.None? || old(RetrieveVersion(obj)).Failure? || id.None? ==>
                store.calls == old(store.calls) && store.streams == old(store.streams)
      ensures obj.Some? && (old(RetrieveVersion(obj)).Failure? || id.None?) ==> obj.value.View() == old(obj.value.View())
      ensures obj.Some? && old(RetrieveVersion(obj)).Success? && id.Some? ==>
                var a := obj.value;
                var key := KeyFor(Bucket(), entityClass, id.value);
                var open := OpenStreamForWriting(key, old(RetrieveVersion(obj)).value);
                var m := UniqueMethod(entityClass, StoreAnnotation, StoreParams);
                (m.Failure? ==> (o == Fail(LookupFailure(m.error)) && a.View() == old(a.View()) &&
                   store.calls == old(store.calls) + [open] && store.streams == old(store.streams))) &&
                (m.Success? ==> (Persisted(old(a.View()), a.View(), old(a.changes)) &&
                   store.calls == old(store.calls) + [open] + AppendCalls(key, old(a.changes)) + [CommitStream(key, commitId)] &&
                   Committing(o, old(store.streams), store.streams, store.verdict(key, commitId), key, old(a.changes))))
    {
      if obj.None? {
        return Fail(ValidationFailed("object must not be null"));
      }
      var version := RetrieveVersion(obj);
      if version.Failure? {
        return Fail(version.error);
      }
      if id.None? {
        return Fail(NullDereference);
      }
      var streamId := CanonicalStreamName(CanonicalName(entityClass), id).value;
      var w := store.OpenForWriting(StreamKey(Bucket(), streamId), version.value);
      var bus := new StreamBus(w);
      o := PushAndCommit(obj.value, entityClass, bus, Some(commitId));
    }
  }

  /**
   * What `add` stores, `ofIdentity` gives back: an aggregate whose class
   * handles all its changes, added under a new stream id and loaded again by
   * that id, comes back at version 1 having handled exactly those changes,
   * in order. This round trip holds of the corrected load only: `load` as
   * written refuses version 1 as dirty (`CreateShadowingScenario`).
   */
  method AddThenLoad(repo: JEEventStoreRepository, a: AggregateRoot, id: string, commitId: string, identity: nat)
    returns (added: Outcome, loaded: Result<AggregateRoot>)
    requires repo.objectType == Some(a.receiver.hierarchy)
    requires AggregateClass(a.receiver.hierarchy) && NoArgConstructor(a.receiver.hierarchy).Some?
    requires KeyFor(repo.bucket, a.receiver.hierarchy, id) !in repo.store.streams
    requires repo.store.verdict(KeyFor(repo.bucket, a.receiver.hierarchy, id), commitId) == Accepted
    requires CacheAgrees(repo.cache.entries, a.receiver.hierarchy)
    requires forall i :: 0 <= i < |a.changes| ==> ConventionFor(a.receiver, EventHandlerName, a.changes[i]).Some?
    modifies repo.store, repo.cache, a
    ensures added == Pass && a.changes == [] && a.version == old(a.version) + 1
    ensures loaded.Success? && loaded.value.receiver == Receiver(identity, a.receiver.hierarchy)
    ensures loaded.value.version == 1 && loaded.value.changes == []
    ensures EventsOf(loaded.value.router.invocations) == old(a.changes)
  {
    var h := a.receiver.hierarchy;
    var key := KeyFor(repo.bucket, h, id);
    ghost var events := a.changes;
    AggregateClassFindsRootMethods(h);
    added := repo.Add(Some(a), Some(id), Some(commitId));
    CommittedNewStream(added, old(repo.store.streams), repo.store.streams, key, events);
    ghost var before := repo.cache.entries;
    loaded := repo.OfIdentity(Some(id), identity);
    AggregateClassBuilds(loaded, repo.cache, before, h, identity, 1, events);
  }

  /** A TestObject loaded at version 2 from `TestHistory` that then applied one more event. */
  method ChangedTestObject() returns (obj: AggregateRoot)
    ensures fresh(obj) && obj.receiver.hierarchy == TestObjectClass
    ensures obj.version == 2 && obj.changes == [Event("t4", "TestEvent", 0)]
  {
    obj := CreateTestObject();
    ApplyTestEvent(obj, Event("t4", "TestEvent", 0));
  }

  /** The older `save` as written, on a stream holding `TestHistory`: the commit is accepted but appends nothing. */
  method LegacySaveScenario() returns (saved: Outcome, stored: seq<Event>, pending: seq<Event>)
    ensures saved == Pass && stored == TestHistory && pending == [Event("t4", "TestEvent", 0)]
  {
    var key := KeyFor("DEFAULT", TestObjectClass, "1");
    var obj := ChangedTestObject();
    RetrieveAggregateVersion(obj);
    var store := new EventStore(map[key := StreamData(2, TestHistory)], (k: StreamKey, c: string) => Accepted);
    var loadCache := new MethodCache();
    var repo := new LegacyRepository(store, TestObjectClass, loadCache);
    saved := repo.Save(Some(obj), Some("1"), "c1");
    stored := store.streams[key].events;
    pending := obj.changes;
  }

  /** The intended `save` in the same situation: the change is appended and no longer pending. */
  method LegacySaveIntendedScenario() returns (saved: Outcome, stored: seq<Event>, pending: seq<Event>)
    ensures saved == Pass && stored == TestHistory + [Event("t4", "TestEvent", 0)] && pending == []
  {
    var key := KeyFor("DEFAULT", TestObjectClass, "1");
    var obj := ChangedTestObject();
    AggregateClassFindsRootMethods(TestObjectClass);
    RetrieveAggregateVersion(obj);
    var store := new EventStore(map[key := StreamData(2, TestHistory)], (k: StreamKey, c: string) => Accepted);
    var loadCache := new MethodCache();
    var repo := new LegacyRepository(store, TestObjectClass, loadCache);
    saved := repo.SaveIntended(Some(obj), Some("1"), "c1");
    stored := store.streams[key].events;
    pending := obj.changes;
  }
}
