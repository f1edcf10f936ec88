/** Method descriptors (`MethodInfo`) and parameter descriptors (`ParameterInfo`). */
module Method {
  import opened Primitives
  import opened Errors

  /** Address of a class descriptor in the foreign heap. */
  type ClassRef = Ptr

  datatype ParameterInfo = ParameterInfo(
    name: CString,
    position: i32,
    token: u32,
    parameterType: Ptr)

  /**
   * A method descriptor. `parameters` is the block that the `parameters` pointer designates
   * ([] for null); only its first `parametersCount` entries belong to the method.
   */
  datatype MethodInfo = MethodInfo(
    methodPtr: Ptr,
    invokerMethod: Ptr,
    name: CString,
    klass: Option<ClassRef>,
    returnType: Ptr,
    parameters: seq<ParameterInfo>,
    infoOrDefinition: Ptr,
    genericMethodOrContainer: Ptr,
    token: u32,
    flags: u16,
    iflags: u16,
    slot: u16,
    parametersCount: u8,
    bitflags: u8)

  /** The fields that `new_from` takes from its base unchanged. */
  predicate SameUnresetFields(m: MethodInfo, b: MethodInfo) {
    && m.methodPtr == b.methodPtr
    && m.name == b.name
    && m.klass == b.klass
    && m.returnType == b.returnType
    && m.parameters == b.parameters
    && m.infoOrDefinition == b.infoOrDefinition
    && m.genericMethodOrContainer == b.genericMethodOrContainer
    && m.parametersCount == b.parametersCount
  }

  /** True when the six fields that `new_from` resets are all zero. */
  predicate ResetFieldsZero(m: MethodInfo) {
    m.invokerMethod == NULL && m.bitflags == 0 && m.flags == 0 && m.iflags == 0 && m.slot == 0 && m.token == 0
  }

  /** `MethodInfo::new`: every pointer null, no class, every integer zero. */
  function New(): (m: MethodInfo)
    ensures m.methodPtr == NULL && m.invokerMethod == NULL && m.name == None && m.klass == None
    ensures m.returnType == NULL && m.parameters == [] && m.infoOrDefinition == NULL
    ensures m.genericMethodOrContainer == NULL
    ensures m.token == 0 && m.flags == 0 && m.iflags == 0 && m.slot == 0
    ensures m.parametersCount == 0 && m.bitflags == 0
  {
    MethodInfo(NULL, NULL, None, None, NULL, [], NULL, NULL, 0, 0, 0, 0, 0, 0)
  }

  /** `MethodInfo::new_from`: a copy of `base` with the invoker, flags, slot and token reset. */
  function NewFrom(base: MethodInfo): (m: MethodInfo)
    ensures ResetFieldsZero(m)
    ensures SameUnresetFields(m, base)
  {
    base.(invokerMethod := NULL, bitflags := 0, flags := 0, iflags := 0, slot := 0, token := 0)
  }

  /** Two descriptors that agree on the kept fields have the same `new_from`. */
  lemma NewFromDeterminedByKeptFields(a: MethodInfo, b: MethodInfo)
    requires SameUnresetFields(a, b)
    ensures NewFrom(a) == NewFrom(b)
  {
  }

  /** Applying `new_from` twice is the same as applying it once. */
  lemma NewFromIdempotent(b: MethodInfo)
    ensures NewFrom(NewFrom(b)) == NewFrom(b)
  {
    NewFromDeterminedByKeptFields(NewFrom(b), b);
  }

  /** A descriptor is its own `new_from` exactly when its reset fields are already zero. */
  lemma NewFromFixedPoint(b: MethodInfo)
    ensures NewFrom(b) == b <==> ResetFieldsZero(b)
  {
  }

  /** `MethodInfo::get_name`: `None` exactly for a null name. */
  function GetName(m: MethodInfo): (r: Option<string>)
    ensures r.None? <==> m.name.None?
    ensures r.Some? ==> m.name == Some(r.value)
  {
    m.name
  }

  /** `ParameterInfo::get_name`: `None` exactly for a null name. */
  function ParameterName(p: ParameterInfo): (r: Option<string>)
    ensures r.None? <==> p.name.None?
    ensures r.Some? ==> p.name == Some(r.value)
  {
    p.name
  }

  /** `MethodInfo::get_parameters`: the first `parameters_count` descriptors of the block. */
  function GetParameters(m: MethodInfo): (r: seq<ParameterInfo>)
    requires m.parametersCount as int <= |m.parameters|
    ensures |r| == m.parametersCount as int
    ensures forall i :: 0 <= i < |r| ==> r[i] == m.parameters[i]
  {
    m.parameters[..m.parametersCount]
  }

  /**
   * The universal invoker, seen from outside: called through the `invoker_method` pointer
   * with (entry point, method, this object, argument block); `None` is a null result.
   */
  type RuntimeInvoke = (Ptr, Ptr, MethodInfo, Ptr, Ptr) -> Option<Ptr>

  /** `MethodInfo::invoke`: the invoker's result, or `FailedMethodInvocation` on null. */
  function Invoke(call: RuntimeInvoke, m: MethodInfo, obj: Ptr, params: Ptr): (r: Result<Ptr>)
    ensures r.Err? <==> call(m.invokerMethod, m.methodPtr, m, obj, params).None?
    ensures r.Err? ==> r.error == FailedMethodInvocation
    ensures r.Ok? ==> call(m.invokerMethod, m.methodPtr, m, obj, params) == Some(r.value)
  {
    match call(m.invokerMethod, m.methodPtr, m, obj, params)
    case None => Err(FailedMethodInvocation)
    case Some(p) => Ok(p)
  }
}
