/**
 * Class descriptors (`Il2CppClass`) and the rules that resolve classes and methods:
 * virtual-method lookup by name, class lookup over the loaded assemblies, method lookup
 * by name and arity, class resolution from a type handle, and the byte size of `clone`.
 */
module Class {
  import opened Primitives
  import opened Errors
  import opened Method

  /** Address of an `Il2CppType` (a type handle such as a class's `byval_arg`). */
  type TypeHandle = Ptr

  /** One virtual-table slot: the overriding entry point and its method descriptor. */
  datatype VirtualInvoke = VirtualInvoke(methodPtr: Ptr, methodInfo: MethodInfo)

  /**
   * The parts of a class descriptor that this layer reads. `methods`, `nestedTypes` and
   * `vtable` are the memory blocks the descriptor points at (the vtable is its inline
   * trailing array); the counts say how many entries of each belong to the class.
   */
  datatype Il2CppClass = Il2CppClass(
    name: string,
    namespace: string,
    byvalArg: TypeHandle,
    methods: seq<MethodInfo>,
    nestedTypes: seq<ClassRef>,
    vtable: seq<VirtualInvoke>,
    methodCount: u16,
    nestedTypeCount: u16,
    vtableCount: u16,
    instanceSize: u32)

  /** A `System.RuntimeType` reflection object: its address and the type it stands for. */
  datatype ReflectionType = ReflectionType(obj: Ptr, ty: TypeHandle)

  /** A loaded assembly; only its image is used by class lookup. */
  datatype Assembly = Assembly(image: Ptr, token: u32)

  /** The memory blocks hold at least as many entries as the counts claim. */
  predicate VtableInMemory(c: Il2CppClass) {
    c.vtableCount as int <= |c.vtable|
  }

  predicate MethodsInMemory(c: Il2CppClass) {
    c.methodCount as int <= |c.methods|
  }

  predicate NestedTypesInMemory(c: Il2CppClass) {
    c.nestedTypeCount as int <= |c.nestedTypes|
  }

  /** `get_vtable`: the first `vtable_count` slots. */
  function GetVtable(c: Il2CppClass): (r: seq<VirtualInvoke>)
    requires VtableInMemory(c)
    ensures |r| == c.vtableCount as int
    ensures forall i :: 0 <= i < |r| ==> r[i] == c.vtable[i]
  {
    c.vtable[..c.vtableCount]
  }

  /** `get_methods`: the first `method_count` method descriptors. */
  function GetMethods(c: Il2CppClass): (r: seq<MethodInfo>)
    requires MethodsInMemory(c)
    ensures |r| == c.methodCount as int
    ensures forall i :: 0 <= i < |r| ==> r[i] == c.methods[i]
  {
    c.methods[..c.methodCount]
  }

  /** `get_nested_types`: the first `nested_type_count` nested classes. */
  function GetNestedTypes(c: Il2CppClass): (r: seq<ClassRef>)
    requires NestedTypesInMemory(c)
    ensures |r| == c.nestedTypeCount as int
    ensures forall i :: 0 <= i < |r| ==> r[i] == c.nestedTypes[i]
  {
    c.nestedTypes[..c.nestedTypeCount]
  }

  /** The name a vtable search compares: the method's name, or "" when it is null. */
  function SlotName(v: VirtualInvoke): string {
    match GetName(v.methodInfo)
    case Some(n) => n
    case None => ""
  }

  /** Position of the first slot whose name is `name` (`Iterator::find`). */
  function FindSlot(vt: seq<VirtualInvoke>, name: string): (r: Option<nat>)
    ensures r.Some? ==> r.value < |vt| && SlotName(vt[r.value]) == name
    ensures r.Some? ==> forall j :: 0 <= j < r.value ==> SlotName(vt[j]) != name
    ensures r.None? <==> forall j :: 0 <= j < |vt| ==> SlotName(vt[j]) != name
    decreases |vt|
  {
    if |vt| == 0 then None
    else if SlotName(vt[0]) == name then Some(0)
    else
      match FindSlot(vt[1..], name)
      case None => None
      case Some(i) => Some(i + 1)
  }

  /**
   * `get_virtual_method_mut`: the position of the first matching slot among the first
   * `vtable_count`, through which the caller may overwrite it.
   */
  function GetVirtualMethodMut(c: Il2CppClass, name: string): (r: Option<nat>)
    requires VtableInMemory(c)
    ensures r.Some? ==> r.value < c.vtableCount as int && SlotName(c.vtable[r.value]) == name
    ensures r.Some? ==> forall j :: 0 <= j < r.value ==> SlotName(c.vtable[j]) != name
    ensures r.None? <==> forall j :: 0 <= j < c.vtableCount as int ==> SlotName(c.vtable[j]) != name
    ensures r.Some? && name != "" ==> c.vtable[r.value].methodInfo.name == Some(name)
  {
    FindSlot(GetVtable(c), name)
  }

  /**
   * `get_virtual_method`: the first slot among the first `vtable_count` whose method name
   * equals `name`, a null name reading as "".
   */
  function GetVirtualMethod(c: Il2CppClass, name: string): (r: Option<VirtualInvoke>)
    requires VtableInMemory(c)
    ensures r.None? <==> forall j :: 0 <= j < c.vtableCount as int ==> SlotName(c.vtable[j]) != name
    ensures r.Some? ==> exists i :: 0 <= i < c.vtableCount as int && c.vtable[i] == r.value
                                    && SlotName(c.vtable[i]) == name
                                    && forall j :: 0 <= j < i ==> SlotName(c.vtable[j]) != name
    ensures r.Some? ==> SlotName(r.value) == name
  {
    match GetVirtualMethodMut(c, name)
    case None => None
    case Some(i) => Some(c.vtable[i])
  }

  /** A slot with a null method name is found exactly by a search for "". */
  lemma NullNameMatchesOnlyEmpty(c: Il2CppClass, name: string, i: nat)
    requires VtableInMemory(c) && i < c.vtableCount as int
    requires c.vtable[i].methodInfo.name.None?
    requires forall j :: 0 <= j < i ==> SlotName(c.vtable[j]) != ""
    ensures name == "" ==> GetVirtualMethodMut(c, name) == Some(i)
    ensures name != "" ==> GetVirtualMethodMut(c, name) != Some(i)
  {
    if name == "" {
      var r := GetVirtualMethodMut(c, name);
      assert SlotName(c.vtable[i]) == "";
      assert r.Some?;
      assert r.value == i;
    }
  }

  /** `class_from_name` on one image: the class of that name, or `None`. */
  type ClassFromName = (Ptr, string, string) -> Option<Il2CppClass>

  /** `find_map` over the assemblies taken from last to first. */
  function FindMapReversed(lookup: ClassFromName, asms: seq<Assembly>, namespace: string, name: string): (r: Option<Il2CppClass>)
    ensures r.None? <==> forall j :: 0 <= j < |asms| ==> lookup(asms[j].image, namespace, name).None?
    ensures r.Some? ==> exists i :: 0 <= i < |asms| && lookup(asms[i].image, namespace, name) == r
                                    && forall j :: i < j < |asms| ==> lookup(asms[j].image, namespace, name).None?
    decreases |asms|
  {
    if |asms| == 0 then None
    else
      var last := asms[|asms| - 1];
      match lookup(last.image, namespace, name)
      case Some(c) => Some(c)
      case None => FindMapReversed(lookup, asms[..|asms| - 1], namespace, name)
  }

  /**
   * `get_class_from_name`: search the assemblies from the most recently loaded one.
   * Both strings become C strings inside the search closure, so a NUL in either panics,
   * but only when there is at least one assembly to ask.
   */
  function GetClassFromName(lookup: ClassFromName, asms: seq<Assembly>, namespace: string, name: string): (r: Outcome<Result<Il2CppClass>>)
    ensures r.Panics? <==> |asms| > 0 && (HasNul(namespace) || HasNul(name))
    ensures r.Returns? && r.value.Err? ==> r.value.error == MissingClass(name)
    ensures r.Returns? ==> (r.value.Err? <==> forall j :: 0 <= j < |asms| ==> lookup(asms[j].image, namespace, name).None?)
  {
    if |asms| == 0 then Returns(Err(MissingClass(name)))
    else if HasNul(namespace) || HasNul(name) then Panics
    else
      match FindMapReversed(lookup, asms, namespace, name)
      case Some(c) => Returns(Ok(c))
      case None => Returns(Err(MissingClass(name)))
  }

  /** When several assemblies define the class, the most recently loaded one wins. */
  lemma LastLoadedWins(lookup: ClassFromName, asms: seq<Assembly>, namespace: string, name: string, i: nat)
    requires i < |asms| && lookup(asms[i].image, namespace, name).Some?
    requires forall j :: i < j < |asms| ==> lookup(asms[j].image, namespace, name).None?
    requires !HasNul(namespace) && !HasNul(name)
    ensures GetClassFromName(lookup, asms, namespace, name) == Returns(Ok(lookup(asms[i].image, namespace, name).value))
  {
    var r := FindMapReversed(lookup, asms, namespace, name);
    assert r.Some?;
    var k :| 0 <= k < |asms| && lookup(asms[k].image, namespace, name) == r
             && forall j :: k < j < |asms| ==> lookup(asms[j].image, namespace, name).None?;
    assert k == i;
  }

  /** `get_method_from_name_flags`: the foreign method lookup by name, arity and flags. */
  type MethodFromName = (Il2CppClass, string, nat, u32) -> Option<MethodInfo>

  /** `get_method_from_name_with_flag`: a null lookup result is `MissingMethod`; a NUL in the name panics. */
  function GetMethodFromNameWithFlag(lookup: MethodFromName, c: Il2CppClass, name: string, argsCount: nat, flag: u32): (r: Outcome<Result<MethodInfo>>)
    ensures r.Panics? <==> HasNul(name)
    ensures r.Returns? ==> (r.value.Err? <==> lookup(c, name, argsCount, flag).None?)
    ensures r.Returns? && r.value.Err? ==> r.value.error == MissingMethod
    ensures r.Returns? && r.value.Ok? ==> lookup(c, name, argsCount, flag) == Some(r.value.value)
  {
    if HasNul(name) then Panics
    else
      match lookup(c, name, argsCount, flag)
      case None => Returns(Err(MissingMethod))
      case Some(m) => Returns(Ok(m))
  }

  /** `get_method_from_name`: the same lookup with flag 0. */
  function GetMethodFromName(lookup: MethodFromName, c: Il2CppClass, name: string, argsCount: nat): (r: Outcome<Result<MethodInfo>>)
    ensures r.Panics? <==> HasNul(name)
    ensures r.Returns? ==> (r.value.Err? <==> lookup(c, name, argsCount, 0).None?)
    ensures r.Returns? && r.value.Err? ==> r.value.error == MissingMethod
    ensures r.Returns? && r.value.Ok? ==> lookup(c, name, argsCount, 0) == Some(r.value.value)
  {
    GetMethodFromNameWithFlag(lookup, c, name, argsCount, 0)
  }

  /** `class_from_il2cpptype` as the foreign runtime answers it. */
  type ClassFromType = TypeHandle -> Option<Il2CppClass>

  /**
   * `class_from_il2cpptype`: `MissingClassForType` on a null result; otherwise the class's
   * static initialiser has run (it joins `initialized`) before the class is returned.
   */
  function ClassFromIl2CppType(lookup: ClassFromType, initialized: set<Il2CppClass>, ty: TypeHandle): (r: (Result<Il2CppClass>, set<Il2CppClass>))
    ensures lookup(ty).None? ==> r.0 == Err(MissingClassForType) && r.1 == initialized
    ensures lookup(ty).Some? ==> r.0 == Ok(lookup(ty).value) && r.1 == initialized + {lookup(ty).value}
    ensures r.0.Ok? ==> r.0.value in r.1
  {
    match lookup(ty)
    case None => (Err(MissingClassForType), initialized)
    case Some(c) => (Ok(c), initialized + {c})
  }

  /** Running the initialiser once more has no further effect. */
  lemma ClassInitIdempotent(lookup: ClassFromType, initialized: set<Il2CppClass>, ty: TypeHandle)
    ensures var (r1, s1) := ClassFromIl2CppType(lookup, initialized, ty);
            ClassFromIl2CppType(lookup, s1, ty) == (r1, s1)
  {
  }

  /** `class_from_system_type`: resolve the type a reflection object stands for. */
  function FromSystemType(lookup: ClassFromType, initialized: set<Il2CppClass>, t: ReflectionType): (r: (Result<Il2CppClass>, set<Il2CppClass>))
    ensures lookup(t.ty).None? ==> r == (Err(MissingClassForType), initialized)
    ensures lookup(t.ty).Some? ==> r == (Ok(lookup(t.ty).value), initialized + {lookup(t.ty).value})
  {
    ClassFromIl2CppType(lookup, initialized, t.ty)
  }

  /** Size of the fixed part of a class descriptor and of one vtable slot, in bytes. */
  const HEADER_SIZE: nat := 0x138
  const SLOT_SIZE: nat := 0x10

  /** The byte count `clone` copies as written: the slot product is computed in `u16` and wraps. */
  function CloneSizeAsWritten(vtableCount: u16): (n: nat)
    ensures n == HEADER_SIZE + (SLOT_SIZE * vtableCount as int) % 0x1_0000
    ensures HEADER_SIZE <= n < HEADER_SIZE + 0x1_0000
  {
    HEADER_SIZE + ((SLOT_SIZE * vtableCount as int) % 0x1_0000)
  }

  /** The byte count `clone` is meant to copy: the header and every vtable slot. */
  function CloneSize(vtableCount: u16): (n: nat)
    ensures n == HEADER_SIZE + SLOT_SIZE * vtableCount as int
    ensures HEADER_SIZE <= n <= HEADER_SIZE + SLOT_SIZE * 0xFFFF
  {
    HEADER_SIZE + SLOT_SIZE * vtableCount as int
  }

  /** The two agree below 0x1000 slots; from 0x1000 slots on the written product overflows and copies less. */
  lemma CloneSizeOverflow(vtableCount: u16)
    ensures vtableCount < 0x1000 ==> CloneSizeAsWritten(vtableCount) == CloneSize(vtableCount)
    ensures vtableCount >= 0x1000 ==> CloneSizeAsWritten(vtableCount) < CloneSize(vtableCount)
  {
  }

  /** With exactly 0x1000 slots the written size is the header alone: no slot is copied. */
  lemma CloneAsWrittenDropsWholeVtable()
    ensures CloneSizeAsWritten(0x1000) == HEADER_SIZE
  {
  }

  /** `clone` as written: copy the first `CloneSizeAsWritten` bytes of the descriptor's image. */
  function CloneAsWritten(image: seq<u8>, vtableCount: u16): (r: seq<u8>)
    requires CloneSizeAsWritten(vtableCount) <= |image|
    ensures |r| == CloneSizeAsWritten(vtableCount)
    ensures forall b :: 0 <= b < |r| ==> r[b] == image[b]
  {
    image[..CloneSizeAsWritten(vtableCount)]
  }

  /** `clone` with the intended size: a byte copy of the header and the whole vtable. */
  function Clone(image: seq<u8>, vtableCount: u16): (r: seq<u8>)
    requires CloneSize(vtableCount) <= |image|
    ensures |r| == CloneSize(vtableCount)
    ensures forall b :: 0 <= b < |r| ==> r[b] == image[b]
  {
    image[..CloneSize(vtableCount)]
  }

  /** Every byte of every vtable slot of the source is in the clone. */
  lemma CloneCopiesEverySlot(image: seq<u8>, vtableCount: u16, k: nat, b: nat)
    requires CloneSize(vtableCount) <= |image|
    requires k < vtableCount as int && b < SLOT_SIZE
    ensures HEADER_SIZE + SLOT_SIZE * k + b < |Clone(image, vtableCount)|
    ensures Clone(image, vtableCount)[HEADER_SIZE + SLOT_SIZE * k + b] == image[HEADER_SIZE + SLOT_SIZE * k + b]
  {
  }

  /** The as-written clone of a descriptor with 0x1000 slots holds no byte of slot 0. */
  lemma CloneAsWrittenMissesFirstSlot(image: seq<u8>)
    requires CloneSizeAsWritten(0x1000) <= |image|
    ensures |CloneAsWritten(image, 0x1000)| <= HEADER_SIZE
  {
  }
}
