/**
 * Identity equality: `AbstractId`, a value object wrapping an id string, and
 * `AbstractIdentifiable`, an object compared by its `id()`. Java objects are
 * values here that carry their reference; `this == o` compares references.
 */
module Identity {
  import opened Failures
  import opened Strings

  /** An `AbstractId` subclass instance: its reference, runtime class and id string. */
  datatype Id = Id(ref: nat, cls: string, idString: string)

  /** An `AbstractIdentifiable` subclass instance: its reference, runtime class and `id()`. */
  datatype Identifiable = Identifiable(ref: nat, cls: string, id: Id)

  /** Two values standing for objects of one heap: the same reference is the same object. */
  predicate Coherent(a: Id, b: Id) {
    a.ref == b.ref ==> a == b
  }

  predicate CoherentEntities(x: Identifiable, y: Identifiable) {
    (x.ref == y.ref ==> x == y) && Coherent(x.id, y.id)
  }

  /** `AbstractId(String)`: a null id string is rejected; the id keeps the string as given. */
  function NewId(ref: nat, cls: string, idString: Option<string>): (r: Result<Id>)
    ensures r.Success? <==> idString.Some?
    ensures r.Failure? ==> r.error == ValidationFailed("idString must not be null")
    ensures r.Success? ==> r.value.ref == ref && r.value.cls == cls && IdToString(r.value) == idString.value
  {
    if idString.None? then Failure(ValidationFailed("idString must not be null"))
    else Success(Id(ref, cls, idString.value))
  }

  /** `toString()`: the id string. */
  function IdToString(a: Id): (s: string)
    ensures s == a.idString
  {
    a.idString
  }

  /** `sameValueAs`: false for `null` or another class, otherwise the id strings are compared. */
  predicate SameValueAs(a: Id, other: Option<Id>)
    ensures other == Some(a) ==> SameValueAs(a, other)
    ensures SameValueAs(a, other) ==> other.Some? && other.value.cls == a.cls && IdToString(other.value) == IdToString(a)
  {
    other.Some? && a.cls == other.value.cls && IdToString(a) == IdToString(other.value)
  }

  /** `equals`: the same reference, or an object of the same class with the same value. */
  predicate IdEquals(a: Id, o: Option<Id>)
    ensures o.None? ==> !IdEquals(a, o)
    ensures o.Some? && o.value.ref == a.ref ==> IdEquals(a, o)
    ensures o.Some? && o.value.ref != a.ref ==> (IdEquals(a, o) <==> SameValueAs(a, o))
  {
    if o.Some? && o.value.ref == a.ref then true
    else o.Some? && a.cls == o.value.cls && SameValueAs(a, o)
  }

  /** `hashCode()`: the hash of `toString()`. */
  function IdHash(a: Id): (h: int)
    ensures -0x8000_0000 <= h < 0x8000_0000
  {
    JavaStringHash(IdToString(a))
  }

  /** `equals` is an equivalence on ids that is false for `null`. */
  lemma IdEqualsIsEquivalence(a: Id, b: Id, c: Id)
    requires Coherent(a, b) && Coherent(b, c) && Coherent(a, c)
    ensures IdEquals(a, Some(a)) && !IdEquals(a, None)
    ensures IdEquals(a, Some(b)) == IdEquals(b, Some(a))
    ensures IdEquals(a, Some(b)) && IdEquals(b, Some(c)) ==> IdEquals(a, Some(c))
  {
  }

  /** Two ids are equal exactly when they have the same class and id string; equal ids hash alike. */
  lemma IdEqualsIsValueEquality(a: Id, b: Id)
    requires Coherent(a, b)
    ensures IdEquals(a, Some(b)) <==> a.cls == b.cls && a.idString == b.idString
    ensures IdEquals(a, Some(b)) ==> IdHash(a) == IdHash(b)
  {
  }

  /** The `AbstractIdImpl` checks: "TEST_ID" twice is equal, "OTHER_TEST_ID" and `null` are not. */
  lemma AbstractIdScenario()
    ensures var i := NewId(1, "AbstractIdImpl", Some("TEST_ID"));
            var e := NewId(2, "AbstractIdImpl", Some("TEST_ID"));
            var n := NewId(3, "AbstractIdImpl", Some("OTHER_TEST_ID"));
            i.Success? && e.Success? && n.Success? &&
            IdToString(i.value) == "TEST_ID" &&
            SameValueAs(i.value, Some(e.value)) && !SameValueAs(i.value, Some(n.value)) && !SameValueAs(i.value, None) &&
            IdEquals(i.value, Some(e.value)) && !IdEquals(i.value, Some(n.value)) && !IdEquals(i.value, None)
  {
    assert "TEST_ID" != "OTHER_TEST_ID" by {
      assert |"TEST_ID"| != |"OTHER_TEST_ID"|;
    }
  }

  /** `sameIdentityAs`: false for `null` or another class, otherwise the ids are compared with `equals`. */
  predicate SameIdentityAs(x: Identifiable, other: Option<Identifiable>)
    ensures other == Some(x) ==> SameIdentityAs(x, other)
    ensures SameIdentityAs(x, other) ==>
              other.Some? && other.value.cls == x.cls &&
              (Coherent(x.id, other.value.id) ==> other.value.id.cls == x.id.cls && other.value.id.idString == x.id.idString)
  {
    other.Some? && x.cls == other.value.cls && IdEquals(x.id, Some(other.value.id))
  }

  /** `equals`: the same reference, or an object of the same class with the same identity. */
  predicate EntityEquals(x: Identifiable, o: Option<Identifiable>)
    ensures o.None? ==> !EntityEquals(x, o)
    ensures o.Some? && o.value.ref == x.ref ==> EntityEquals(x, o)
    ensures o.Some? && o.value.ref != x.ref ==> (EntityEquals(x, o) <==> SameIdentityAs(x, o))
  {
    if o.Some? && o.value.ref == x.ref then true
    else o.Some? && x.cls == o.value.cls && SameIdentityAs(x, o)
  }

  /** `hashCode()`: the hash of `id()`. */
  function EntityHash(x: Identifiable): (h: int)
    ensures -0x8000_0000 <= h < 0x8000_0000
  {
    IdHash(x.id)
  }

  /** `equals` on identifiable objects is an equivalence that is false for `null`. */
  lemma EntityEqualsIsEquivalence(x: Identifiable, y: Identifiable, z: Identifiable)
    requires CoherentEntities(x, y) && CoherentEntities(y, z) && CoherentEntities(x, z)
    ensures EntityEquals(x, Some(x)) && !EntityEquals(x, None)
    ensures EntityEquals(x, Some(y)) == EntityEquals(y, Some(x))
    ensures EntityEquals(x, Some(y)) && EntityEquals(y, Some(z)) ==> EntityEquals(x, Some(z))
  {
  }

  /** Identifiable objects are equal exactly when class and id agree, and equal objects hash alike. */
  lemma EntityEqualsIsIdEquality(x: Identifiable, y: Identifiable)
    requires CoherentEntities(x, y)
    ensures EntityEquals(x, Some(y)) <==> x.cls == y.cls && x.id.cls == y.id.cls && x.id.idString == y.id.idString
    ensures EntityEquals(x, Some(y)) ==> EntityHash(x) == EntityHash(y)
  {
  }
}
