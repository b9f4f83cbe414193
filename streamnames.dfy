/**
 * Event stream names: the canonical-name generator (`Class:id`), the
 * multi-tenancy generator (`tenant:Class:id`) and the annotation generator
 * (the class's trimmed `@EventStreamName` value, remembered per class in a
 * process-wide cache). An id's `toString()` is given as a string; `None`
 * stands for a null reference, whose `toString()` throws.
 */
module StreamNames {
  import opened Failures
  import opened Strings

  /** `CanonicalNameEventStreamNameGenerator.streamNameFor(clazz, id)`. */
  function CanonicalStreamName(canonicalName: string, id: Option<string>): (r: Result<string>)
    ensures r.Failure? <==> id.None?
    ensures r.Failure? ==> r.error == NullDereference
    ensures r.Success? ==> (|r.value| == |canonicalName| + 1 + |id.value| &&
              r.value[..|canonicalName|] == canonicalName && r.value[|canonicalName|] == ':' &&
              r.value[|canonicalName| + 1..] == id.value)
  {
    if id.None? then Failure(NullDereference) else Success(canonicalName + ":" + id.value)
  }

  /** An identifiable object as the canonical-name generator sees it: its class's canonical name and `id()`. */
  datatype IdentifiedObject = IdentifiedObject(canonicalName: string, id: Option<string>)

  /** `CanonicalNameEventStreamNameGenerator.streamNameFor(obj)`: the object's class and `id()`. */
  function CanonicalStreamNameOf(obj: Option<IdentifiedObject>): (r: Result<string>)
    ensures obj.None? ==> r == Failure(NullDereference)
    ensures obj.Some? ==> (r.Success? <==> obj.value.id.Some?)
    ensures r.Success? ==> r.value == obj.value.canonicalName + ":" + obj.value.id.value
  {
    if obj.None? then Failure(NullDereference) else CanonicalStreamName(obj.value.canonicalName, obj.value.id)
  }

  /** Both overloads name the same stream for the same class and id. */
  lemma CanonicalOverloadsAgree(obj: IdentifiedObject)
    ensures CanonicalStreamNameOf(Some(obj)) == CanonicalStreamName(obj.canonicalName, obj.id)
  {
  }

  /**
   * Canonical stream names identify their stream: for a fixed class distinct
   * ids give distinct names, and when class names hold no ':' (true of Java
   * canonical names) the class is determined as well.
   */
  lemma CanonicalStreamNameInjective(c1: string, id1: string, c2: string, id2: string)
    requires ':' !in c1 && ':' !in c2
    requires CanonicalStreamName(c1, Some(id1)) == CanonicalStreamName(c2, Some(id2))
    ensures c1 == c2 && id1 == id2
  {
    SplitAtFirst(c1, id1, c2, id2, ':');
  }

  lemma CanonicalStreamNameInjectiveInId(c: string, id1: string, id2: string)
    requires CanonicalStreamName(c, Some(id1)) == CanonicalStreamName(c, Some(id2))
    ensures id1 == id2
  {
    var n := CanonicalStreamName(c, Some(id1)).value;
    assert id1 == n[|c| + 1..] == id2;
  }

  /** A multi-tenancy id: `tenantId()` and `objectId()`, as their `toString()`. */
  datatype MultiTenancyId = MultiTenancyId(tenantId: Option<string>, objectId: Option<string>)

  /** An `AbstractTenantESAR`: its class's canonical name, `tenantId()` and `id()`. */
  datatype TenantObject = TenantObject(canonicalName: string, tenantId: Option<string>, id: Option<string>)

  /** `MultiTenancyCanonicalNameESNG.build`: tenant, class and object id, joined by ':'; the tenant is read first. */
  function BuildTenantStreamName(canonicalName: string, tenantId: Option<string>, objId: Option<string>): (r: Result<string>)
    ensures r.Failure? <==> tenantId.None? || objId.None?
    ensures r.Failure? ==> r.error == NullDereference
    ensures r.Success? ==> r.value == tenantId.value + ":" + CanonicalStreamName(canonicalName, objId).value
  {
    if tenantId.None? || objId.None? then Failure(NullDereference)
    else Success(tenantId.value + ":" + canonicalName + ":" + objId.value)
  }

  /** `streamNameFor(obj)`: the object's class, `tenantId()` and `id()`. */
  function TenantStreamNameOf(obj: Option<TenantObject>): (r: Result<string>)
    ensures r.Failure? <==> obj.None? || obj.value.tenantId.None? || obj.value.id.None?
    ensures r.Failure? ==> r.error == NullDereference
    ensures r.Success? ==> r.value == obj.value.tenantId.value + ":" + obj.value.canonicalName + ":" + obj.value.id.value
  {
    if obj.None? then Failure(NullDereference)
    else BuildTenantStreamName(obj.value.canonicalName, obj.value.tenantId, obj.value.id)
  }

  /** `streamNameFor(clazz, mtid)`: the class, `mtid.tenantId()` and `mtid.objectId()`. */
  function TenantStreamNameFor(canonicalName: string, mtid: Option<MultiTenancyId>): (r: Result<string>)
    ensures r.Failure? <==> mtid.None? || mtid.value.tenantId.None? || mtid.value.objectId.None?
    ensures r.Failure? ==> r.error == NullDereference
    ensures r.Success? ==> r.value == mtid.value.tenantId.value + ":" + canonicalName + ":" + mtid.value.objectId.value
  {
    if mtid.None? then Failure(NullDereference)
    else BuildTenantStreamName(canonicalName, mtid.value.tenantId, mtid.value.objectId)
  }

  /** Both overloads name the same stream for the same class, tenant and object id. */
  lemma TenantOverloadsAgree(obj: TenantObject)
    ensures TenantStreamNameOf(Some(obj)) == TenantStreamNameFor(obj.canonicalName, Some(MultiTenancyId(obj.tenantId, obj.id)))
    ensures TenantStreamNameOf(Some(obj)).Success? ==>
              TenantStreamNameOf(Some(obj)).value[..|obj.tenantId.value| + 1] == obj.tenantId.value + ":"
  {
  }

  /**
   * Tenant stream names identify their stream: for a fixed tenant and class
   * distinct object ids give distinct names, and with ':'-free tenants and
   * class names all three parts are determined.
   */
  lemma TenantStreamNameInjective(t1: string, c1: string, o1: string, t2: string, c2: string, o2: string)
    requires ':' !in t1 && ':' !in t2 && ':' !in c1 && ':' !in c2
    requires BuildTenantStreamName(c1, Some(t1), Some(o1)) == BuildTenantStreamName(c2, Some(t2), Some(o2))
    ensures t1 == t2 && c1 == c2 && o1 == o2
  {
    var rest1 := CanonicalStreamName(c1, Some(o1)).value;
    var rest2 := CanonicalStreamName(c2, Some(o2)).value;
    SplitAtFirst(t1, rest1, t2, rest2, ':');
    CanonicalStreamNameInjective(c1, o1, c2, o2);
  }

  lemma TenantStreamNameInjectiveInObject(t: string, c: string, o1: string, o2: string)
    requires BuildTenantStreamName(c, Some(t), Some(o1)) == BuildTenantStreamName(c, Some(t), Some(o2))
    ensures o1 == o2
  {
    var n := BuildTenantStreamName(c, Some(t), Some(o1)).value;
    assert n[|t| + 1..] == CanonicalStreamName(c, Some(o1)).value;
    assert n[|t| + 1..] == CanonicalStreamName(c, Some(o2)).value;
    CanonicalStreamNameInjectiveInId(c, o1, o2);
  }

  /** A class as the annotation generator sees it: its canonical name and its `@EventStreamName` value, if annotated. */
  datatype AnnotatedClass = AnnotatedClass(canonicalName: string, eventStreamName: Option<string>)

  const EventStreamNameAnnotation: string := "org.jeecqrs.common.persistence.es.EventStreamName"

  /**
   * The annotation generator's answer for a class it has not cached: the
   * trimmed annotation value; a missing annotation or a value that is blank
   * after trimming gives IllegalArgumentException.
   */
  function AnnotatedStreamName(clazz: AnnotatedClass): (r: Result<string>)
    ensures clazz.eventStreamName.None? ==> r.Failure? && r.error.IllegalArgument?
    ensures clazz.eventStreamName.Some? && Trim(clazz.eventStreamName.value) == "" ==> r.Failure? && r.error.IllegalArgument?
    ensures r.Success? ==> clazz.eventStreamName.Some? && r.value == Trim(clazz.eventStreamName.value)
    ensures r.Success? ==> r.value != [] && !IsTrimmable(r.value[0]) && !IsTrimmable(r.value[|r.value| - 1])
  {
    if clazz.eventStreamName.None? then
      Failure(IllegalArgument("Class " + clazz.canonicalName + " misses required " + EventStreamNameAnnotation + " annotation"))
    else if Trim(clazz.eventStreamName.value) == "" then
      Failure(IllegalArgument("Class " + clazz.canonicalName + " has invalid " + EventStreamNameAnnotation +
                              " annotation: " + clazz.eventStreamName.value))
    else Success(Trim(clazz.eventStreamName.value))
  }

  /** A class gets a name exactly when its annotation holds a char above U+0020; the name is already trimmed. */
  lemma AnnotatedStreamNameIff(clazz: AnnotatedClass)
    ensures AnnotatedStreamName(clazz).Success? <==>
            clazz.eventStreamName.Some? &&
            exists k :: 0 <= k < |clazz.eventStreamName.value| && !IsTrimmable(clazz.eventStreamName.value[k])
    ensures AnnotatedStreamName(clazz).Success? ==> Trim(AnnotatedStreamName(clazz).value) == AnnotatedStreamName(clazz).value
  {
    if clazz.eventStreamName.Some? {
      TrimEmptyIffAllTrimmable(clazz.eventStreamName.value);
      TrimIdempotent(clazz.eventStreamName.value);
    }
  }

  /** The static `streamNameCache`: remembered names, per class. */
  class StreamNameCache {
    var names: map<AnnotatedClass, string>

    constructor ()
      ensures names == map[]
    {
      names := map[];
    }

    /** Every remembered name is the one the class's annotation gives. */
    ghost predicate Sound()
      reads this
    {
      forall c :: c in names ==> AnnotatedStreamName(c) == Success(names[c])
    }

    /**
     * `AnnotationEventStreamNameGenerator.streamNameFor(clazz, id)`: a cached
     * name is returned as is; otherwise the annotation is read, and only a
     * successful result is cached. The id plays no part.
     */
    method StreamNameFor(clazz: AnnotatedClass, id: Option<string>) returns (r: Result<string>)
      modifies this
      ensures clazz in old(names) ==> r == Success(old(names)[clazz]) && names == old(names)
      ensures clazz !in old(names) ==> (r == AnnotatedStreamName(clazz) &&
                names == (if r.Success? then old(names)[clazz := r.value] else old(names)))
      ensures old(Sound()) ==> Sound() && r == AnnotatedStreamName(clazz)
    {
      if clazz in names {
        return Success(names[clazz]);
      }
      r := AnnotatedStreamName(clazz);
      if r.Success? {
        names := names[clazz := r.value];
      }
    }
  }

  /** An annotation value with surrounding blanks names its stream by the trimmed text. */
  lemma AnnotatedScenario()
    ensures AnnotatedStreamName(AnnotatedClass("Order", Some("  orders \t"))) == Success("orders")
    ensures AnnotatedStreamName(AnnotatedClass("Order", Some(" \n "))).Failure?
    ensures AnnotatedStreamName(AnnotatedClass("Order", None)).Failure?
  {
    assert TrimStart("  orders \t") == "orders \t" by {
      assert "  orders \t"[1..] == " orders \t";
      assert " orders \t"[1..] == "orders \t";
    }
    assert TrimEnd("orders \t") == "orders" by {
      assert "orders \t"[..7] == "orders ";
      assert "orders "[..6] == "orders";
    }
    assert TrimStart(" \n ") == "" by {
      assert " \n "[1..] == "\n ";
      assert "\n "[1..] == " ";
      assert " "[1..] == "";
    }
  }
}
