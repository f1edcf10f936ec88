/**
 * The foreign `System.Collections.Generic` wrappers: `List<T>` (an item array plus a count),
 * its growth by `resize`, and the by-name method selection behind `List::add`, `List::clear`,
 * `ListVirtual::add`, `Dictionary::add` and `Dictionary::try_get_value`.
 */
module Collections {
  import opened Primitives
  import opened Errors
  import opened Method
  import opened Class
  import opened Object

  /**
   * A foreign list: the class of the list object, its backing array and the number of
   * elements in use. The backing array may be longer than `size`.
   */
  class List<T> {
    const klass: Il2CppClass
    var items: Il2CppArray<T>
    var size: u32

    /** The view `ListFields::deref` builds covers only initialised storage. */
    ghost predicate Valid()
      reads this
    {
      size as int <= items.items.Length
    }

    constructor (klass: Il2CppClass, items: Il2CppArray<T>, size: u32)
      requires size as int <= items.items.Length
      ensures Valid()
      ensures this.klass == klass && this.items == items && this.size == size
    {
      this.klass := klass;
      this.items := items;
      this.size := size;
    }

    /** `ListFields::deref`: the first `size` entries of the backing array. */
    function Elements(): (s: seq<T>)
      requires Valid()
      reads this, items.items
      ensures |s| == size as int
      ensures s == items.Elements()[..size]
    {
      items.items[..size]
    }

    /** `len`: the element count. */
    function Len(): (n: nat)
      reads this
      ensures n == size as int
    {
      size as nat
    }

    /** `capacity`: the length of the backing array. */
    function Capacity(): (n: nat)
      reads this
      ensures n == items.MaxLength()
    {
      items.MaxLength()
    }

    /** The view, the count and the capacity agree: `len` elements, all within the capacity. */
    lemma LenIsViewLength()
      requires Valid()
      ensures Len() == |Elements()| <= Capacity()
      ensures forall i :: 0 <= i < Len() ==> Elements()[i] == items.items[i]
    {
    }

    /**
     * `resize(length)`: when `length` differs from the capacity, allocate a new array of
     * `length` entries with the backing array's class and swap the old entries into its
     * front. A failed allocation panics in `unwrap`; a shorter `length` panics on the
     * out-of-range slice `new_array[..capacity]`. The old array receives the new array's
     * zeroed front. `size` never changes.
     */
    method Resize(alloc: ArrayNewSpecific, length: nat, zero: T) returns (r: Outcome<()>)
      requires Valid()
      modifies this, items.items
      ensures Valid()
      ensures size == old(size)
      ensures r.Panics? <==> length != old(items.MaxLength()) && (!alloc(old(items).klass, length) || length < old(items.MaxLength()))
      ensures r.Panics? || length == old(items.MaxLength()) ==> items == old(items) && items.items[..] == old(items.items[..])
      ensures r.Returns? && length != old(items.MaxLength()) ==>
        && fresh(items) && fresh(items.items)
        && items.klass == old(items).klass
        && items.MaxLength() == length
        && items.items[..old(items.MaxLength())] == old(items.items[..])
        && (forall i :: old(items.MaxLength()) <= i < length ==> items.items[i] == zero)
        && (forall i :: 0 <= i < old(items.MaxLength()) ==> old(items).items[i] == zero)
    {
      var capacity := items.MaxLength();
      r := Returns(());
      if capacity != length {
        var created := ArrayNewSpecificOf(alloc, items.klass, length, zero);
        if created.Err? {
          r := Panics;
          return;
        }
        var newArray := created.value;
        if length < capacity {
          r := Panics;
          return;
        }
        SwapPrefix(newArray.items, items.items);
        items := newArray;
      }
    }
  }

  /**
   * `iter().find(|m| m.get_name() == Some(name))`: the index of the first descriptor whose
   * name is `name`; a null name matches nothing.
   */
  function FindMethodNamed(methods: seq<MethodInfo>, name: string): (r: Option<nat>)
    ensures r.Some? ==> r.value < |methods| && GetName(methods[r.value]) == Some(name)
    ensures r.Some? ==> forall j :: 0 <= j < r.value ==> GetName(methods[j]) != Some(name)
    ensures r.None? <==> forall j :: 0 <= j < |methods| ==> GetName(methods[j]) != Some(name)
  {
    if |methods| == 0 then None
    else if GetName(methods[0]) == Some(name) then Some(0)
    else
      match FindMethodNamed(methods[1..], name)
      case None => None
      case Some(i) => Some(i + 1)
  }

  /** The method name `List::add` looks up in the method table. */
  const ADD: string := "Add"

  /**
   * The method `List::add` calls: the first of the class's `method_count` methods named
   * `"Add"`; `unwrap` panics when there is none. The call goes to its `method_ptr`.
   */
  function ListAddTarget(c: Il2CppClass): (r: Outcome<MethodInfo>)
    requires MethodsInMemory(c)
    ensures r.Panics? <==> forall j :: 0 <= j < c.methodCount as int ==> c.methods[j].name != Some(ADD)
    ensures r.Returns? ==> r.value.name == Some(ADD)
    ensures r.Returns? ==> exists i :: 0 <= i < c.methodCount as int && c.methods[i] == r.value
                                       && forall j :: 0 <= j < i ==> c.methods[j].name != Some(ADD)
  {
    var methods := GetMethods(c);
    match FindMethodNamed(methods, ADD)
    case None => Panics
    case Some(i) => Returns(methods[i])
  }

  /** The first method named `"Add"` is the one `List::add` picks, whatever follows it. */
  lemma ListAddTakesFirst(c: Il2CppClass, i: nat)
    requires MethodsInMemory(c) && i < c.methodCount as int
    requires c.methods[i].name == Some(ADD)
    requires forall j :: 0 <= j < i ==> c.methods[j].name != Some(ADD)
    ensures ListAddTarget(c) == Returns(c.methods[i])
  {
    var r := FindMethodNamed(GetMethods(c), ADD);
    assert r.Some?;
    assert r.value == i;
  }

  /**
   * The method a by-name virtual call uses (`List::clear` with `"Clear"`, `ListVirtual::add`
   * and `Dictionary::add` with `"Add"`, `Dictionary::try_get_value` with `"TryGetValue"`):
   * the method descriptor of the first vtable slot so named; `unwrap` panics when there is
   * none. The call goes to that descriptor's `method_ptr`.
   */
  function VirtualCallTarget(c: Il2CppClass, name: string): (r: Outcome<MethodInfo>)
    requires VtableInMemory(c)
    ensures r.Panics? <==> forall j :: 0 <= j < c.vtableCount as int ==> SlotName(c.vtable[j]) != name
    ensures r.Returns? ==> exists i :: 0 <= i < c.vtableCount as int && c.vtable[i].methodInfo == r.value
                                       && SlotName(c.vtable[i]) == name
                                       && forall j :: 0 <= j < i ==> SlotName(c.vtable[j]) != name
  {
    match GetVirtualMethodMut(c, name)
    case None => Panics
    case Some(i) => Returns(c.vtable[i].methodInfo)
  }

  /**
   * The two `add` paths of a list can disagree: `List::add` searches the method table while
   * `ListVirtual::add` searches the vtable, so a class whose only `"Add"` is a vtable slot
   * panics on one and not the other.
   */
  lemma AddPathsDiffer(c: Il2CppClass, m: MethodInfo)
    requires m.name == Some(ADD)
    requires c.methods == [] && c.methodCount == 0
    requires c.vtable == [VirtualInvoke(m.methodPtr, m)] && c.vtableCount == 1
    ensures ListAddTarget(c).Panics?
    ensures VirtualCallTarget(c, ADD) == Returns(m)
  {
    assert SlotName(c.vtable[0]) == ADD;
    var k := GetVirtualMethodMut(c, ADD);
    assert k == Some(0);
  }

  /**
   * The foreign `TryGetValue` body, called with (entry point, key, current value, method):
   * whether the key was found and the value written back.
   */
  type TryGetValueCall<!K, !V> = (Ptr, K, V, MethodInfo) -> (bool, V)

  /** `Dictionary::try_get_value`: the foreign call through the first `"TryGetValue"` slot. */
  function TryGetValue<K, V>(call: TryGetValueCall<K, V>, c: Il2CppClass, key: K, value: V): (r: Outcome<(bool, V)>)
    requires VtableInMemory(c)
    ensures r.Panics? <==> forall j :: 0 <= j < c.vtableCount as int ==> SlotName(c.vtable[j]) != "TryGetValue"
    ensures r.Returns? ==> exists m :: VirtualCallTarget(c, "TryGetValue") == Returns(m)
                                       && r.value == call(m.methodPtr, key, value, m)
  {
    match VirtualCallTarget(c, "TryGetValue")
    case Panics => Panics
    case Returns(m) => Returns(call(m.methodPtr, key, value, m))
  }
}
