/**
 * Java reflection replaced by data, and the searches of ReflectionUtils.
 *
 * A class is described by its levels: the runtime class first, then each
 * superclass in turn, stopping before `java.lang.Object`. Each level lists the
 * methods it declares (with their parameter types, return type, visibility and
 * annotations) and how its constructor without parameters is declared, if at all.
 */
module Reflection {
  import opened Failures

  datatype Visibility = Public | Protected | PackagePrivate | Private

  datatype MethodDecl = MethodDecl(
    name: string,
    params: seq<string>,
    returnType: string,
    visibility: Visibility,
    annotations: set<string>)

  datatype ClassLevel = ClassLevel(
    name: string,
    methods: seq<MethodDecl>,
    noArgConstructor: Option<Visibility>)

  /** Most-derived level first; `java.lang.Object` is not listed. */
  type Hierarchy = seq<ClassLevel>

  /** A `java.lang.reflect.Method`: the declaring class and the declaration. */
  datatype MethodRef = MethodRef(owner: string, decl: MethodDecl)

  const ObjectClassName: string := "java.lang.Object"

  /** `getClass().getCanonicalName()` of an instance whose class has hierarchy `h`. */
  function CanonicalName(h: Hierarchy): string {
    if |h| == 0 then ObjectClassName else h[0].name
  }

  /** Public and protected methods are the ones the convention router may call. */
  predicate Accessible(v: Visibility) {
    v == Public || v == Protected
  }

  /**
   * `Class.getDeclaredMethod(name, params)`: the method this level declares with
   * exactly that name and that parameter list, or none (NoSuchMethodException).
   */
  function DeclaredMethod(methods: seq<MethodDecl>, name: string, params: seq<string>): (r: Option<MethodDecl>)
    ensures r.Some? ==> r.value in methods && r.value.name == name && r.value.params == params
    ensures r.None? <==> forall m :: m in methods ==> !(m.name == name && m.params == params)
  {
    if |methods| == 0 then None
    else if methods[0].name == name && methods[0].params == params then Some(methods[0])
    else DeclaredMethod(methods[1..], name, params)
  }

  /** The first method of one level, in declaration order, that carries `annotation`. */
  function FirstAnnotatedIn(methods: seq<MethodDecl>, annotation: string): (r: Option<MethodDecl>)
    ensures r.Some? ==> r.value in methods && annotation in r.value.annotations
    ensures r.None? <==> forall m :: m in methods ==> annotation !in m.annotations
  {
    if |methods| == 0 then None
    else if annotation in methods[0].annotations then Some(methods[0])
    else FirstAnnotatedIn(methods[1..], annotation)
  }

  /** What `findAnnotatedMethod` computes: the first annotated method of the most-derived level that has one. */
  function FirstAnnotated(h: Hierarchy, annotation: string): (r: Option<MethodRef>)
    ensures r.Some? ==> annotation in r.value.decl.annotations
  {
    if |h| == 0 then None
    else match FirstAnnotatedIn(h[0].methods, annotation)
      case Some(m) => Some(MethodRef(h[0].name, m))
      case None => FirstAnnotated(h[1..], annotation)
  }

  /** No level carries the annotation, exactly when the search comes back empty. */
  lemma {:induction false} FirstAnnotatedNoneIff(h: Hierarchy, annotation: string)
    ensures FirstAnnotated(h, annotation).None? <==>
            forall i :: 0 <= i < |h| ==> FirstAnnotatedIn(h[i].methods, annotation).None?
  {
    if |h| > 0 {
      FirstAnnotatedNoneIff(h[1..], annotation);
      assert forall i :: 1 <= i < |h| ==> h[i] == h[1..][i - 1];
    }
  }

  /**
   * The most-derived level that declares an annotated method decides the
   * result: that level's first annotated method is returned.
   */
  lemma {:induction false} FirstAnnotatedIsMostDerived(h: Hierarchy, annotation: string, i: nat)
    requires i < |h|
    requires FirstAnnotatedIn(h[i].methods, annotation).Some?
    requires forall j :: 0 <= j < i ==> FirstAnnotatedIn(h[j].methods, annotation).None?
    ensures FirstAnnotated(h, annotation) ==
            Some(MethodRef(h[i].name, FirstAnnotatedIn(h[i].methods, annotation).value))
  {
    if i > 0 {
      assert FirstAnnotatedIn(h[0].methods, annotation).None?;
      assert forall j :: 0 <= j < i - 1 ==> h[1..][j] == h[j + 1];
      FirstAnnotatedIsMostDerived(h[1..], annotation, i - 1);
    }
  }

  /**
   * `ReflectionUtils.findAnnotatedMethod`: climbs from the class towards
   * `Object`, scanning each level's declared methods in order.
   */
  method FindAnnotatedMethod(h: Hierarchy, annotation: string) returns (r: Option<MethodRef>)
    ensures r == FirstAnnotated(h, annotation)
  {
    var current := 0;
    while current < |h|
      invariant 0 <= current <= |h|
      invariant FirstAnnotated(h, annotation) == FirstAnnotated(h[current..], annotation)
    {
      var methods := h[current].methods;
      for k := 0 to |methods|
        invariant FirstAnnotatedIn(methods, annotation) == FirstAnnotatedIn(methods[k..], annotation)
      {
        assert methods[k..][1..] == methods[k + 1..];
        if annotation in methods[k].annotations {
          return Some(MethodRef(h[current].name, methods[k]));
        }
      }
      assert methods[|methods|..] == [];
      assert h[current..][1..] == h[current + 1..];
      current := current + 1;
    }
    return None;
  }

  /** The IllegalStateException's message when no level carries the annotation. */
  function NotAnnotatedMessage(h: Hierarchy, annotation: string): string {
    "Neither class " + CanonicalName(h) + " nor any of its super classes provide a method annotated with @" + annotation
  }

  /** The start of the IllegalArgumentException's message for a wrong parameter list. */
  function WrongSignatureMessage(annotation: string): string {
    "Method annotated with @" + annotation + " has wrong signature"
  }

  /** `ReflectionUtils.findAnnotatedMethodOrFail`: IllegalStateException exactly when nothing is found. */
  method FindAnnotatedMethodOrFail(h: Hierarchy, annotation: string) returns (r: Result<MethodRef>)
    ensures r.Failure? <==> FirstAnnotated(h, annotation).None?
    ensures r.Failure? ==> r.error == IllegalState(NotAnnotatedMessage(h, annotation))
    ensures r.Success? ==> Some(r.value) == FirstAnnotated(h, annotation)
  {
    var m := FindAnnotatedMethod(h, annotation);
    if m.None? {
      return Failure(IllegalState(NotAnnotatedMessage(h, annotation)));
    }
    return Success(m.value);
  }

  /**
   * What `findUniqueMethod` answers: the annotated method, provided its
   * parameter types are exactly `params`.
   */
  function UniqueMethod(h: Hierarchy, annotation: string, params: seq<string>): (r: Result<MethodRef>)
    ensures r.Success? <==> FirstAnnotated(h, annotation).Some? && FirstAnnotated(h, annotation).value.decl.params == params
    ensures r.Success? ==> Some(r.value) == FirstAnnotated(h, annotation)
    ensures r.Failure? ==> (r.error.IllegalState? <==> FirstAnnotated(h, annotation).None?)
    ensures r.Failure? ==> r.error.IllegalState? || r.error.IllegalArgument?
  {
    var m := FirstAnnotated(h, annotation);
    if m.None? then Failure(IllegalState(NotAnnotatedMessage(h, annotation)))
    else if m.value.decl.params != params then Failure(IllegalArgument(WrongSignatureMessage(annotation)))
    else Success(m.value)
  }

  /**
   * `ReflectionUtils.findUniqueMethod`: the annotated method, provided its
   * parameter types are exactly `params` (IllegalArgumentException otherwise).
   */
  method FindUniqueMethod(h: Hierarchy, annotation: string, params: seq<string>) returns (r: Result<MethodRef>)
    ensures r == UniqueMethod(h, annotation, params)
  {
    var m := FindAnnotatedMethodOrFail(h, annotation);
    if m.Failure? {
      return m;
    }
    if m.value.decl.params != params {
      return Failure(IllegalArgument(WrongSignatureMessage(annotation)));
    }
    return m;
  }
}
