/**
 * Generic instantiation (`make_generic`, `make_generic_type`): the type arguments become an
 * array of reflection objects, `System.RuntimeType.MakeGenericType` is called through the
 * universal invoker, and the class of the resulting type is resolved and initialised.
 */
module Generic {
  import opened Primitives
  import opened Errors
  import opened Method
  import opened Class
  import opened Object

  /** `api::type_get_object`: the reflection object of a type, or `None`. */
  type TypeGetObject = TypeHandle -> Option<ReflectionType>

  /**
   * The invoker of `MakeGenericType` called with (entry point, method descriptor, no `this`,
   * argument block {generic type, argument array contents}); `None` is a null result.
   */
  type InvokeMakeGenericType = (Ptr, Ptr, MethodInfo, ReflectionType, seq<ReflectionType>) -> Option<ReflectionType>

  /** The foreign services generic instantiation relies on. */
  datatype Runtime = Runtime(
    arrayNewSpecific: ArrayNewSpecific,
    systemTypeClass: Il2CppClass,
    getObject: TypeGetObject,
    makeGenericMethod: MethodInfo,
    invoke: InvokeMakeGenericType,
    classFromType: ClassFromType)

  /** The null entry the allocator leaves in a fresh array of reflection objects. */
  const NULL_REFLECTION: ReflectionType := ReflectionType(NULL, NULL)

  /** `Il2CppType::get_object`: the reflection object, or `FailedReflectionQuerying`. */
  function GetObject(getObject: TypeGetObject, ty: TypeHandle): (r: Result<ReflectionType>)
    ensures r.Err? <==> getObject(ty).None?
    ensures r.Err? ==> r.error == FailedReflectionQuerying
    ensures r.Ok? ==> getObject(ty) == Some(r.value)
  {
    match getObject(ty)
    case None => Err(FailedReflectionQuerying)
    case Some(t) => Ok(t)
  }

  /** `make_generic_type`: the invoker's result, or `FailedMethodInvocation` on null. */
  function MakeGenericType(invoke: InvokeMakeGenericType, m: MethodInfo, generic: ReflectionType, args: seq<ReflectionType>): (r: Result<ReflectionType>)
    ensures r.Err? <==> invoke(m.invokerMethod, m.methodPtr, m, generic, args).None?
    ensures r.Err? ==> r.error == FailedMethodInvocation
    ensures r.Ok? ==> invoke(m.invokerMethod, m.methodPtr, m, generic, args) == Some(r.value)
  {
    match invoke(m.invokerMethod, m.methodPtr, m, generic, args)
    case None => Err(FailedMethodInvocation)
    case Some(t) => Ok(t)
  }

  /**
   * The reflection objects of the type arguments, in order, or the first failure; this is what
   * the filling loop of `make_generic` computes.
   */
  function ReflectionArgs(getObject: TypeGetObject, types: seq<Il2CppClass>): (r: Result<seq<ReflectionType>>)
    ensures r.Ok? <==> forall i :: 0 <= i < |types| ==> getObject(types[i].byvalArg).Some?
    ensures r.Err? ==> r.error == FailedReflectionQuerying
    ensures r.Ok? ==> |r.value| == |types|
    ensures r.Ok? ==> forall i :: 0 <= i < |types| ==> getObject(types[i].byvalArg) == Some(r.value[i])
    decreases |types|
  {
    if |types| == 0 then Ok([])
    else
      match ReflectionArgs(getObject, types[..|types| - 1])
      case Err(e) => Err(e)
      case Ok(prefix) =>
        match GetObject(getObject, types[|types| - 1].byvalArg)
        case Err(e) => Err(e)
        case Ok(t) => Ok(prefix + [t])
  }

  /** What `make_generic` returns and which classes are initialised afterwards. */
  function MakeGenericSpec(rt: Runtime, initialized: set<Il2CppClass>, genericClass: Il2CppClass, types: seq<Il2CppClass>): (r: (Outcome<Result<Il2CppClass>>, set<Il2CppClass>))
    ensures initialized <= r.1
    ensures r.0.Returns? && r.0.value.Ok? ==> r.1 == initialized + {r.0.value.value}
    ensures !(r.0.Returns? && r.0.value.Ok?) ==> r.1 == initialized
    ensures r.0.Returns? && r.0.value.Err? ==> r.0.value.error in {FailedArrayInstantiation, FailedReflectionQuerying, MissingClassForType}
  {
    if !rt.arrayNewSpecific(rt.systemTypeClass, |types|) then (Returns(Err(FailedArrayInstantiation)), initialized)
    else
      match ReflectionArgs(rt.getObject, types)
      case Err(e) => (Returns(Err(e)), initialized)
      case Ok(args) =>
        match GetObject(rt.getObject, genericClass.byvalArg)
        case Err(e) => (Returns(Err(e)), initialized)
        case Ok(g) =>
          match MakeGenericType(rt.invoke, rt.makeGenericMethod, g, args)
          case Err(_) => (Panics, initialized)
          case Ok(t) =>
            var (res, s) := FromSystemType(rt.classFromType, initialized, t);
            (Returns(res), s)
  }

  /**
   * The outcomes of `make_generic`: a failed array allocation, a type argument or the generic
   * type without a reflection object, and a failed class resolution are errors; a failed
   * `MakeGenericType` call panics; only success initialises a class, and it is the result.
   */
  lemma MakeGenericOutcomes(rt: Runtime, initialized: set<Il2CppClass>, genericClass: Il2CppClass, types: seq<Il2CppClass>)
    ensures var (r, s) := MakeGenericSpec(rt, initialized, genericClass, types);
      && (!rt.arrayNewSpecific(rt.systemTypeClass, |types|) ==> r == Returns(Err(FailedArrayInstantiation)))
      && ((rt.arrayNewSpecific(rt.systemTypeClass, |types|) && exists i :: 0 <= i < |types| && rt.getObject(types[i].byvalArg).None?)
          ==> r == Returns(Err(FailedReflectionQuerying)))
      && (r.Returns? && r.value.Ok? ==> s == initialized + {r.value.value})
      && (!(r.Returns? && r.value.Ok?) ==> s == initialized)
      && ((rt.arrayNewSpecific(rt.systemTypeClass, |types|) && ReflectionArgs(rt.getObject, types).Ok?
           && rt.getObject(genericClass.byvalArg).None?)
          ==> r == Returns(Err(FailedReflectionQuerying)))
  {
  }

  /**
   * `make_generic` panics exactly when the argument array was allocated and filled, the generic
   * type has a reflection object, and the `MakeGenericType` call answers null (the `unwrap`);
   * when that call answers, the result is the resolution of the type it answered, so a type
   * without a class is `MissingClassForType`.
   */
  lemma MakeGenericPanicsAndResolution(rt: Runtime, initialized: set<Il2CppClass>, genericClass: Il2CppClass, types: seq<Il2CppClass>)
    ensures var r := MakeGenericSpec(rt, initialized, genericClass, types).0;
            var m := rt.makeGenericMethod;
      r.Panics? <==> (&& rt.arrayNewSpecific(rt.systemTypeClass, |types|)
                      && ReflectionArgs(rt.getObject, types).Ok?
                      && rt.getObject(genericClass.byvalArg).Some?
                      && rt.invoke(m.invokerMethod, m.methodPtr, m, rt.getObject(genericClass.byvalArg).value,
                                   ReflectionArgs(rt.getObject, types).value).None?)
    ensures var r := MakeGenericSpec(rt, initialized, genericClass, types).0;
            var m := rt.makeGenericMethod;
      (&& rt.arrayNewSpecific(rt.systemTypeClass, |types|)
       && ReflectionArgs(rt.getObject, types).Ok?
       && rt.getObject(genericClass.byvalArg).Some?
       && rt.invoke(m.invokerMethod, m.methodPtr, m, rt.getObject(genericClass.byvalArg).value,
                    ReflectionArgs(rt.getObject, types).value).Some?)
      ==> (var t := rt.invoke(m.invokerMethod, m.methodPtr, m, rt.getObject(genericClass.byvalArg).value,
                              ReflectionArgs(rt.getObject, types).value).value;
           && (rt.classFromType(t.ty).None? ==> r == Returns(Err(MissingClassForType)))
           && (rt.classFromType(t.ty).Some? ==> r == Returns(Ok(rt.classFromType(t.ty).value))))
  {
  }

  /**
   * On success, the argument array handed to `MakeGenericType` held the reflection object of
   * every type argument, in order, and the result is the class of the type it answered.
   */
  lemma MakeGenericSuccess(rt: Runtime, initialized: set<Il2CppClass>, genericClass: Il2CppClass, types: seq<Il2CppClass>, c: Il2CppClass)
    requires MakeGenericSpec(rt, initialized, genericClass, types).0 == Returns(Ok(c))
    ensures ReflectionArgs(rt.getObject, types).Ok?
    ensures rt.getObject(genericClass.byvalArg).Some?
    ensures var args := ReflectionArgs(rt.getObject, types).value;
            var g := rt.getObject(genericClass.byvalArg).value;
            var m := rt.makeGenericMethod;
            && rt.invoke(m.invokerMethod, m.methodPtr, m, g, args).Some?
            && rt.classFromType(rt.invoke(m.invokerMethod, m.methodPtr, m, g, args).value.ty) == Some(c)
  {
  }

  /**
   * `make_generic`: allocate an array of `System.Type` as long as `types` and fill entry `i` with
   * the reflection object of `types[i]`, stopping at the first failure; then instantiate.
   * `args` is the argument array when its allocation succeeded.
   */
  method MakeGeneric(rt: Runtime, initialized: set<Il2CppClass>, genericClass: Il2CppClass, types: seq<Il2CppClass>)
    returns (r: Outcome<Result<Il2CppClass>>, initialized': set<Il2CppClass>, args: Option<Il2CppArray<ReflectionType>>)
    ensures (r, initialized') == MakeGenericSpec(rt, initialized, genericClass, types)
    ensures args.Some? <==> rt.arrayNewSpecific(rt.systemTypeClass, |types|)
    ensures args.Some? ==> fresh(args.value) && args.value.klass == rt.systemTypeClass && args.value.MaxLength() == |types|
    ensures args.Some? && ReflectionArgs(rt.getObject, types).Ok? ==> args.value.Elements() == ReflectionArgs(rt.getObject, types).value
  {
    initialized', args := initialized, None;
    var created := ArrayNewSpecificOf(rt.arrayNewSpecific, rt.systemTypeClass, |types|, NULL_REFLECTION);
    if created.Err? {
      r := Returns(Err(created.error));
      return;
    }
    var argArray := created.value;
    args := Some(argArray);
    var i := 0;
    while i < |types|
      invariant 0 <= i <= |types|
      invariant ReflectionArgs(rt.getObject, types[..i]) == Ok(argArray.items[..i])
    {
      assert types[..i + 1][..i] == types[..i];
      match GetObject(rt.getObject, types[i].byvalArg)
      case Err(e) =>
        assert ReflectionArgs(rt.getObject, types[..i + 1]).Err?;
        ReflectionArgsPrefixErr(rt.getObject, types, i + 1);
        r := Returns(Err(e));
        return;
      case Ok(t) =>
        argArray.items[i] := t;
        assert argArray.items[..i + 1] == argArray.items[..i] + [t];
      i := i + 1;
    }
    assert types[..i] == types;
    assert argArray.items[..i] == argArray.items[..];
    match GetObject(rt.getObject, genericClass.byvalArg)
    case Err(e) =>
      r := Returns(Err(e));
    case Ok(g) =>
      match MakeGenericType(rt.invoke, rt.makeGenericMethod, g, argArray.items[..])
      case Err(_) =>
        r := Panics;
      case Ok(t) =>
        var (res, s) := FromSystemType(rt.classFromType, initialized, t);
        r, initialized' := Returns(res), s;
  }

  /** A failure among the first `n` type arguments is a failure for all of them. */
  lemma ReflectionArgsPrefixErr(getObject: TypeGetObject, types: seq<Il2CppClass>, n: nat)
    requires n <= |types|
    requires ReflectionArgs(getObject, types[..n]).Err?
    ensures ReflectionArgs(getObject, types).Err?
  {
    var k :| 0 <= k < n && getObject(types[..n][k].byvalArg).None?;
    assert types[k] == types[..n][k];
  }
}
