/**
 * The external event store the repositories talk to, as an abstract map from
 * (bucket, stream id) to a stream's version and events, plus a log of every
 * call made to it. Whether a commit is accepted is the store's own decision,
 * modelled as the function `verdict`; nothing else about the store is assumed
 * beyond an accepted commit extending its stream by the appended events.
 */
module EventStoreModel {
  import opened Failures
  import opened Events

  datatype StreamKey = StreamKey(bucket: string, streamId: string)

  datatype StreamData = StreamData(version: int, events: seq<Event>)

  /** One call into the event store or one of its writable streams. */
  datatype StoreCall =
    | ExistsStream(key: StreamKey)
    | OpenStreamForReading(key: StreamKey)
    | CreateStream(key: StreamKey)
    | OpenStreamForWriting(key: StreamKey, version: int)
    | AppendEvent(key: StreamKey, event: Event)
    | CommitStream(key: StreamKey, commitId: string)

  /** The store's answer to a commit: accepted, or one of its two exceptions. */
  datatype Verdict = Accepted | RejectDuplicate | RejectConcurrency

  /** The `AppendEvent` calls for a list of events, in order. */
  function AppendCalls(key: StreamKey, events: seq<Event>): (calls: seq<StoreCall>)
    ensures |calls| == |events|
    ensures forall i :: 0 <= i < |events| ==> calls[i] == AppendEvent(key, events[i])
  {
    if |events| == 0 then [] else AppendCalls(key, events[..|events| - 1]) + [AppendEvent(key, events[|events| - 1])]
  }

  /** Appending the calls for two lists is appending the calls for their concatenation. */
  lemma AppendCallsConcat(key: StreamKey, a: seq<Event>, b: seq<Event>)
    ensures AppendCalls(key, a + b) == AppendCalls(key, a) + AppendCalls(key, b)
  {
    assert |AppendCalls(key, a + b)| == |AppendCalls(key, a) + AppendCalls(key, b)|;
  }

  class EventStore {
    var streams: map<StreamKey, StreamData>
    var calls: seq<StoreCall>
    const verdict: (StreamKey, string) -> Verdict

    constructor (streams: map<StreamKey, StreamData>, verdict: (StreamKey, string) -> Verdict)
      ensures this.streams == streams && this.verdict == verdict && calls == []
    {
      this.streams := streams;
      this.verdict := verdict;
      calls := [];
    }

    /** `existsStream(bucket, id)`. */
    method Exists(key: StreamKey) returns (b: bool)
      modifies this
      ensures b <==> key in streams
      ensures streams == old(streams) && calls == old(calls) + [ExistsStream(key)]
    {
      calls := calls + [ExistsStream(key)];
      b := key in streams;
    }

    /** `openStreamForReading(bucket, id)`: the stream's version and events; a missing stream is the store's failure. */
    method OpenForReading(key: StreamKey) returns (r: Result<StreamData>)
      modifies this
      ensures key in streams ==> r == Success(streams[key])
      ensures key !in streams ==> r == Failure(StreamNotFound)
      ensures streams == old(streams) && calls == old(calls) + [OpenStreamForReading(key)]
    {
      calls := calls + [OpenStreamForReading(key)];
      if key in streams {
        r := Success(streams[key]);
      } else {
        r := Failure(StreamNotFound);
      }
    }

    /** `createStream(bucket, id)`: a writable stream with nothing appended yet. */
    method Create(key: StreamKey) returns (w: WritableStream)
      modifies this
      ensures fresh(w) && w.store == this && w.key == key && w.expected == None && w.pending == []
      ensures streams == old(streams) && calls == old(calls) + [CreateStream(key)]
    {
      calls := calls + [CreateStream(key)];
      w := new WritableStream(this, key, None);
    }

    /** `openStreamForWriting(bucket, id, version)`: a writable stream expecting `version`. */
    method OpenForWriting(key: StreamKey, version: int) returns (w: WritableStream)
      modifies this
      ensures fresh(w) && w.store == this && w.key == key && w.expected == Some(version) && w.pending == []
      ensures streams == old(streams) && calls == old(calls) + [OpenStreamForWriting(key, version)]
    {
      calls := calls + [OpenStreamForWriting(key, version)];
      w := new WritableStream(this, key, Some(version));
    }
  }

  /** A `WritableEventStream`: events appended to it are pending until it is committed. */
  class WritableStream {
    const store: EventStore
    const key: StreamKey
    /** `None` for a stream from `createStream`, the expected version otherwise. */
    const expected: Option<int>
    var pending: seq<Event>

    constructor (store: EventStore, key: StreamKey, expected: Option<int>)
      ensures this.store == store && this.key == key && this.expected == expected && pending == []
    {
      this.store := store;
      this.key := key;
      this.expected := expected;
      pending := [];
    }

    /** `append(event)`. */
    method Append(e: Event)
      modifies this, store
      ensures pending == old(pending) + [e]
      ensures store.streams == old(store.streams) && store.calls == old(store.calls) + [AppendEvent(key, e)]
    {
      pending := pending + [e];
      store.calls := store.calls + [AppendEvent(key, e)];
    }

    /** `commit(commitId)`: on acceptance the pending events extend the stream and its version grows by one. */
    method Commit(commitId: string) returns (o: Outcome)
      modifies store
      ensures store.calls == old(store.calls) + [CommitStream(key, commitId)]
      ensures store.verdict(key, commitId) == Accepted ==>
                o == Pass && store.streams == old(store.streams)[key := Committed(old(store.streams), key, pending)]
      ensures store.verdict(key, commitId) == RejectDuplicate ==> o == Fail(DuplicateCommit) && store.streams == old(store.streams)
      ensures store.verdict(key, commitId) == RejectConcurrency ==> o == Fail(ConcurrencyConflict) && store.streams == old(store.streams)
    {
      store.calls := store.calls + [CommitStream(key, commitId)];
      var v := store.verdict(key, commitId);
      if v == Accepted {
        store.streams := store.streams[key := Committed(store.streams, key, pending)];
        o := Pass;
      } else if v == RejectDuplicate {
        o := Fail(DuplicateCommit);
      } else {
        o := Fail(ConcurrencyConflict);
      }
    }
  }

  /** A stream after an accepted commit of `pending`. */
  function Committed(streams: map<StreamKey, StreamData>, key: StreamKey, pending: seq<Event>): (d: StreamData)
    ensures key !in streams ==> d == StreamData(1, pending)
    ensures key in streams ==> d.version == streams[key].version + 1 && d.events == streams[key].events + pending
  {
    if key in streams then StreamData(streams[key].version + 1, streams[key].events + pending)
    else StreamData(1, pending)
  }

  /**
   * The `EventSourcingBus` over a writable stream that AbstractJEEventStoreRepository
   * builds: `store` only appends, `commit` commits and turns the store's
   * DuplicateCommitException and ConcurrencyException into a RuntimeException.
   */
  class StreamBus {
    const stream: WritableStream

    constructor (stream: WritableStream)
      ensures this.stream == stream
    {
      this.stream := stream;
    }

    /** `store(event)` -> `appendToStream`. */
    method Store(e: Event)
      modifies stream, stream.store
      ensures stream.pending == old(stream.pending) + [e]
      ensures stream.store.streams == old(stream.store.streams)
      ensures stream.store.calls == old(stream.store.calls) + [AppendEvent(stream.key, e)]
    {
      stream.Append(e);
    }

    /** `commit(commitId)` -> `commitChanges`. */
    method Commit(commitId: string) returns (o: Outcome)
      modifies stream.store
      ensures stream.store.calls == old(stream.store.calls) + [CommitStream(stream.key, commitId)]
      ensures o.Pass? <==> stream.store.verdict(stream.key, commitId) == Accepted
      ensures o.Pass? ==> stream.store.streams == old(stream.store.streams)[stream.key := Committed(old(stream.store.streams), stream.key, stream.pending)]
      ensures o.Fail? ==> stream.store.streams == old(stream.store.streams)
      ensures stream.store.verdict(stream.key, commitId) == RejectDuplicate ==> o == Fail(Wrapped(DuplicateCommit))
      ensures stream.store.verdict(stream.key, commitId) == RejectConcurrency ==> o == Fail(Wrapped(ConcurrencyConflict))
    {
      o := stream.Commit(commitId);
      if o.Fail? {
        o := Fail(Wrapped(o.error));
      }
    }
  }
}
