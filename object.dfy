/**
 * Foreign objects and arrays: allocation through the foreign runtime with its error
 * mapping, the array's element view, and the swap-based copies in and out of an array.
 */
module Object {
  import opened Primitives
  import opened Errors
  import opened Class

  /**
   * A foreign array (`Il2CppArray<T>`): the header's class and the inline element storage.
   * `max_length` is the length of `items`.
   */
  class Il2CppArray<T> {
    const klass: Il2CppClass
    const items: array<T>

    /** A freshly allocated array: the foreign allocator fills the storage with zero bytes (`zero`). */
    constructor (klass: Il2CppClass, length: nat, zero: T)
      ensures this.klass == klass && fresh(items)
      ensures items.Length == length
      ensures forall i :: 0 <= i < length ==> items[i] == zero
    {
      this.klass := klass;
      items := new T[length](_ => zero);
    }

    /** `max_length`. */
    function MaxLength(): (n: nat)
      ensures n == items.Length
    {
      items.Length
    }

    /** `Deref for Array<T>`: the `max_length` elements that follow the length field. */
    function Elements(): (s: seq<T>)
      reads items
      ensures |s| == MaxLength()
      ensures forall i :: 0 <= i < |s| ==> s[i] == items[i]
    {
      items[..]
    }

    /**
     * `to_vec`: a vector of `len()` elements swapped out of the array. The vector's storage is
     * uninitialised (`garbage`), and that is what the array holds afterwards.
     */
    method ToVec(garbage: T) returns (v: seq<T>)
      modifies items
      ensures v == old(items[..])
      ensures forall i :: 0 <= i < items.Length ==> items[i] == garbage
    {
      var vec := new T[items.Length](_ => garbage);
      SwapPrefix(items, vec);
      v := vec[..];
    }
  }

  /**
   * `<[T]>::swap_with_slice` on the first `b.Length` elements of `a`: afterwards that prefix holds
   * what `b` held and `b` holds what the prefix held; the rest of `a` is untouched.
   */
  method SwapPrefix<T>(a: array<T>, b: array<T>)
    requires b.Length <= a.Length && a != b
    modifies a, b
    ensures a[..b.Length] == old(b[..])
    ensures a[b.Length..] == old(a[b.Length..])
    ensures b[..] == old(a[..b.Length])
  {
    var i := 0;
    while i < b.Length
      invariant 0 <= i <= b.Length
      invariant forall k :: 0 <= k < i ==> a[k] == old(b[k]) && b[k] == old(a[k])
      invariant forall k :: i <= k < a.Length ==> a[k] == old(a[k])
      invariant forall k :: i <= k < b.Length ==> b[k] == old(b[k])
    {
      a[i], b[i] := b[i], a[i];
      i := i + 1;
    }
  }

  /** `api::object_new`: a new instance of the class, or `None`. */
  type ObjectNew = Il2CppClass -> Option<Ptr>

  /** `api::array_new`: a new array of that element class, seen as the class of the array it creates. */
  type ArrayNew = (Il2CppClass, nat) -> Option<Il2CppClass>

  /** `api::array_new_specific`: whether an array of that array class and length can be allocated. */
  type ArrayNewSpecific = (Il2CppClass, nat) -> bool

  /** `Il2CppObject::from_class`: the new object, or `FailedInstantiation` naming the class. */
  function FromClass(objectNew: ObjectNew, c: Il2CppClass): (r: Result<Ptr>)
    ensures r.Err? <==> objectNew(c).None?
    ensures r.Err? ==> r.error == FailedInstantiation(c.name)
    ensures r.Ok? ==> objectNew(c) == Some(r.value)
  {
    match objectNew(c)
    case None => Err(FailedInstantiation(c.name))
    case Some(p) => Ok(p)
  }

  /** `array_new` (and `Il2CppArray::new`): a zero-filled array of `length` elements, or `FailedArrayInstantiation`. */
  method ArrayNewOf<T>(alloc: ArrayNew, elementClass: Il2CppClass, length: nat, zero: T) returns (r: Result<Il2CppArray<T>>)
    ensures r.Err? <==> alloc(elementClass, length).None?
    ensures r.Err? ==> r.error == FailedArrayInstantiation
    ensures r.Ok? ==> fresh(r.value) && fresh(r.value.items) && r.value.klass == alloc(elementClass, length).value
    ensures r.Ok? ==> r.value.items.Length == length && forall i :: 0 <= i < length ==> r.value.items[i] == zero
  {
    match alloc(elementClass, length)
    case None =>
      r := Err(FailedArrayInstantiation);
    case Some(arrayClass) =>
      var a := new Il2CppArray(arrayClass, length, zero);
      r := Ok(a);
  }

  /** `array_new_specific` (and `Il2CppArray::new_specific`): as above, for a given array class. */
  method ArrayNewSpecificOf<T>(alloc: ArrayNewSpecific, arrayClass: Il2CppClass, length: nat, zero: T) returns (r: Result<Il2CppArray<T>>)
    ensures r.Err? <==> !alloc(arrayClass, length)
    ensures r.Err? ==> r.error == FailedArrayInstantiation
    ensures r.Ok? ==> fresh(r.value) && fresh(r.value.items) && r.value.klass == arrayClass
    ensures r.Ok? ==> r.value.items.Length == length && forall i :: 0 <= i < length ==> r.value.items[i] == zero
  {
    if alloc(arrayClass, length) {
      var a := new Il2CppArray(arrayClass, length, zero);
      r := Ok(a);
    } else {
      r := Err(FailedArrayInstantiation);
    }
  }

  /**
   * `Il2CppArray::new_from`: allocate an array as long as `slice` and swap the slice's contents
   * into it; the slice receives the new array's zeroed storage. When allocation fails the
   * slice is left as it was, since the error returns before the swap.
   */
  method NewFrom<T>(alloc: ArrayNew, elementClass: Il2CppClass, slice: array<T>, zero: T) returns (r: Result<Il2CppArray<T>>)
    modifies slice
    ensures r.Err? <==> alloc(elementClass, slice.Length).None?
    ensures r.Err? ==> r.error == FailedArrayInstantiation && slice[..] == old(slice[..])
    ensures r.Ok? ==> fresh(r.value) && r.value.klass == alloc(elementClass, slice.Length).value
    ensures r.Ok? ==> r.value.Elements() == old(slice[..])
    ensures r.Ok? ==> forall i :: 0 <= i < slice.Length ==> slice[i] == zero
  {
    r := ArrayNewOf(alloc, elementClass, slice.Length, zero);
    if r.Ok? {
      SwapPrefix(r.value.items, slice);
    }
  }

  /** `Il2CppArray::new_specific_from`: `new_from` for a given array class. */
  method NewSpecificFrom<T>(alloc: ArrayNewSpecific, arrayClass: Il2CppClass, slice: array<T>, zero: T) returns (r: Result<Il2CppArray<T>>)
    modifies slice
    ensures r.Err? <==> !alloc(arrayClass, slice.Length)
    ensures r.Err? ==> r.error == FailedArrayInstantiation && slice[..] == old(slice[..])
    ensures r.Ok? ==> fresh(r.value) && r.value.klass == arrayClass
    ensures r.Ok? ==> r.value.Elements() == old(slice[..])
    ensures r.Ok? ==> forall i :: 0 <= i < slice.Length ==> slice[i] == zero
  {
    r := ArrayNewSpecificOf(alloc, arrayClass, slice.Length, zero);
    if r.Ok? {
      SwapPrefix(r.value.items, slice);
    }
  }
}
