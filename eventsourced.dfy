/**
 * The documented contract of the `EventSourced` interface, as relations
 * between an object's view before and after a call. The view is what the
 * interface exposes: `version()` and the mutating events not yet persisted.
 */
module EventSourcedContract {
  import opened Events

  datatype SourcedView = SourcedView(version: int, mutatingEvents: seq<Event>)

  /** `loadVersion` may only be called on a newly constructed object. */
  predicate MayLoadVersion(v: SourcedView) {
    v.version == 0 && v.mutatingEvents == []
  }

  /** After `loadVersion(version, events)` the object is at `version`, with no mutating events. */
  predicate LoadedAt(v: SourcedView, version: int) {
    v.version == version && v.mutatingEvents == []
  }

  /** A new mutating event leaves `version()` alone: it reports the unmutated version. */
  predicate Mutated(before: SourcedView, after: SourcedView, e: Event) {
    after.version == before.version && after.mutatingEvents == before.mutatingEvents + [e]
  }

  /** `persist` hands every change to the bus, in order, and increases the version. */
  predicate Persisted(before: SourcedView, after: SourcedView, handedOver: seq<Event>) {
    handedOver == before.mutatingEvents && after.version == before.version + 1 && after.mutatingEvents == []
  }

  /** The view after mutating with a list of events, one at a time. */
  function MutateAll(v: SourcedView, events: seq<Event>): (r: SourcedView)
    ensures r == SourcedView(v.version, v.mutatingEvents + events)
  {
    if |events| == 0 then v
    else
      var init := MutateAll(v, events[..|events| - 1]);
      assert events == events[..|events| - 1] + [events[|events| - 1]];
      SourcedView(init.version, init.mutatingEvents + [events[|events| - 1]])
  }

  /**
   * The lifecycle the contract describes: load a version, mutate, persist.
   * What is persisted is exactly the events applied since the load, and the
   * version grows by one per persist, whatever was applied.
   */
  lemma LoadMutatePersist(v0: SourcedView, loaded: SourcedView, version: int, events: seq<Event>, persisted: SourcedView, handedOver: seq<Event>)
    requires MayLoadVersion(v0) && LoadedAt(loaded, version)
    requires Persisted(MutateAll(loaded, events), persisted, handedOver)
    ensures handedOver == events
    ensures persisted == SourcedView(version + 1, [])
  {
  }
}
