# unity: a Dafny model of the il2cpp interop core

This project models the sequential logic of `unity`, a Rust library for code loaded into an
il2cpp (Unity) game process. The library reads and drives the game's managed runtime through the
runtime's own descriptors and entry points. This model covers:

- method descriptors (`MethodInfo`, `ParameterInfo`) and how they are copied and invoked;
- class descriptors (`Il2CppClass`): vtable, method and nested-type views, virtual-method lookup by
  name, class lookup over the loaded assemblies, method lookup by name and arity, class resolution
  from a type handle (which runs the class initialiser), generic instantiation, and the byte size
  that `clone` copies;
- foreign objects and arrays: allocation and its error mapping, the element view, and the
  swap-based copies into and out of an array;
- the foreign `List<T>` (length, capacity, `resize`), and how `List` and `Dictionary` choose the
  method they call;
- `System.String` decoding from UTF-16, following section 2.2 of RFC 2781;
- `CppVector<T>`, the native growable buffer, and its two iterators;
- the procedural macros: parameter counting for `hook`/`from_offset`, attribute processing for
  `class`, and the header-field injection of `object`.

Every entry point of the foreign runtime is a function-typed parameter (an oracle): class and
method lookup, object and array allocation, type objects, the invoker, class resolution and the
`TryGetValue` call. A null answer is `None`. Library errors are `Errors.Result`; panics from
`unwrap`, `expect` and out-of-range slicing are `Primitives.Outcome.Panics`. The `class_init` side
effect is modelled as the set of initialised classes, threaded through the calls.

Files: `primitives.dfy`, `errors.dfy`, `method.dfy`, `class.dfy`, `object.dfy`, `generic.dfy`,
`collections.dfy`, `strings.dfy`, `cppvector.dfy`, `scan.dfy`, `classmacro.dfy`,
`objectmacro.dfy`. There is one module per file.

## Model

| member | source | states |
|---|---|---|
| Method.New | src/il2cpp/method.rs:41-58 | every pointer is null, there is no class, and every count, flag, slot and token is zero |
| Method.NewFrom | src/il2cpp/method.rs:60-70 | the copy has the invoker, bitflags, flags, iflags, slot and token zeroed, and every other field equals the base's |
| Method.NewFromDeterminedByKeptFields | src/il2cpp/method.rs:60-70 | two bases that agree on the kept fields give the same copy |
| Method.NewFromIdempotent | src/il2cpp/method.rs:60-70 | `new_from(new_from(b)) == new_from(b)` |
| Method.NewFromFixedPoint | src/il2cpp/method.rs:60-70 | a descriptor is its own `new_from` if and only if its six reset fields are already zero |
| Method.GetName | src/il2cpp/method.rs:74-80 | `None` exactly when the name pointer is null; otherwise the name |
| Method.ParameterName | src/il2cpp/method.rs:96-104 | `None` exactly when the parameter's name is null; otherwise the name |
| Method.GetParameters | src/il2cpp/method.rs:82-84 | exactly `parameters_count` descriptors: the first ones of the pointed-to block |
| Method.Invoke | src/il2cpp/method.rs:86-93 | through the `invoker_method` pointer, called with (method_ptr, descriptor, obj, params); `FailedMethodInvocation` if and only if it returns null, otherwise its result |
| Class.GetVtable | src/il2cpp/class.rs:149-155 | exactly `vtable_count` slots, the first of the inline vtable, in order |
| Class.GetMethods | src/il2cpp/class.rs:169-171 | exactly `method_count` descriptors, the first of the method block |
| Class.GetNestedTypes | src/il2cpp/class.rs:173-175 | exactly `nested_type_count` classes, the first of the nested-type block |
| Class.FindSlot | src/il2cpp/class.rs:157-167 | the first slot whose name (null read as "") equals the request; `None` if and only if no slot matches |
| Class.GetVirtualMethodMut | src/il2cpp/class.rs:163-167 | the position, below `vtable_count`, of the first matching slot; no earlier slot matches; `None` if and only if none of the first `vtable_count` matches |
| Class.GetVirtualMethod | src/il2cpp/class.rs:157-161 | the first of the `vtable_count` slots whose name equals the request; `None` if and only if none does |
| Class.NullNameMatchesOnlyEmpty | src/il2cpp/class.rs:157-167 | a slot with a null method name is found by a search for "" and by no other search |
| Class.FindMapReversed | src/il2cpp/class.rs:209-214 | the answer of the last assembly whose image knows the class; no later assembly knows it; `None` if and only if no assembly does |
| Class.GetClassFromName | src/il2cpp/class.rs:207-216 | a NUL in the namespace or the name panics when there is an assembly to ask; `Err(MissingClass(name))` (the bare name) if and only if no assembly knows the class |
| Class.LastLoadedWins | src/il2cpp/class.rs:207-216 | when several assemblies define the class, the most recently loaded one's class is returned |
| Class.GetMethodFromNameWithFlag | src/il2cpp/class.rs:181-185 | a NUL in the name panics; `MissingMethod` if and only if the foreign lookup by (name, arity, flag) returns null, otherwise its descriptor |
| Class.GetMethodFromName | src/il2cpp/class.rs:177-179 | the same lookup with flag 0: it panics on a NUL, gives `MissingMethod` exactly on a null answer, and otherwise returns that answer |
| Class.ClassFromIl2CppType | src/il2cpp/class.rs:228-237 | `Err(MissingClassForType)` with no class initialised on a null answer; otherwise the class, now in the initialised set |
| Class.ClassInitIdempotent | src/il2cpp/class.rs:228-237 | resolving the same type again gives the same class and initialises nothing more |
| Class.FromSystemType | src/il2cpp/class.rs:239-241 | resolves the type the reflection object stands for, with the same error and initialisation |
| Class.CloneSizeOverflow | src/il2cpp/class.rs:108 | the size as written is less than the true size exactly when `vtable_count >= 0x1000` |
| Class.CloneAsWrittenDropsWholeVtable | src/il2cpp/class.rs:108 | for `vtable_count == 0x1000` the size as written is the header alone |
| Class.CloneAsWritten | src/il2cpp/class.rs:107-117 | the copy is the first size-as-written bytes of the descriptor image |
| Class.CloneAsWrittenMissesFirstSlot | src/il2cpp/class.rs:107-117 | with 0x1000 slots the first vtable slot's bytes are not part of the copy |
| Class.Clone | src/il2cpp/class.rs:107-117 | the copy is the header and all `vtable_count` slots, byte for byte |
| Class.CloneCopiesEverySlot | src/il2cpp/class.rs:107-117 | every byte of every vtable slot is in the copy at its original offset |
| Class.CloneSizeAsWritten | src/il2cpp/class.rs:108 | the size as written: header 0x138 plus the slot product wrapped to 16 bits, so never 0x1_0000 bytes or more past the header |
| Class.CloneSize | src/il2cpp/class.rs:108 | the intended size: header 0x138 plus 0x10 bytes for every one of the `vtable_count` slots, at most the header plus 0xFFFF slots |
| Object.Il2CppArray.constructor | src/il2cpp/object.rs:70-75 | a fresh array of the class, `length` entries long, all zero |
| Object.Il2CppArray.MaxLength | src/il2cpp/object.rs:73 | `max_length` is the number of elements stored inline |
| Object.Il2CppArray.Elements | src/il2cpp/object.rs:77-89 | the view has exactly `max_length` elements, the stored ones in order |
| Object.Il2CppArray.ToVec | src/il2cpp/object.rs:124-130 | the vector equals the array's former contents in order; the array is left holding the vector's uninitialised storage |
| Object.SwapPrefix | src/il2cpp/object.rs:98 | `swap_with_slice` on the array's first `slice.len()` elements: the prefix and the slice exchange contents and the rest of the array is unchanged; `swap_with_slice` itself panics on unequal lengths, and every call site (object.rs:98, 117, 128; system.rs:51) swaps equal lengths, so that panic is never reached |
| Object.FromClass | src/il2cpp/object.rs:51-53 | `FailedInstantiation(class name)` if and only if the allocator returns null, otherwise the new object |
| Object.ArrayNewOf | src/il2cpp/object.rs:137-139 | `FailedArrayInstantiation` if and only if allocation fails; otherwise a fresh zeroed array of `length` entries |
| Object.ArrayNewSpecificOf | src/il2cpp/object.rs:133-135 | the same for a given array class, which the new array carries |
| Object.NewFrom | src/il2cpp/object.rs:96-100 | on success the array holds the slice's former contents in order and the slice holds the array's zeroes; on failure the slice is untouched |
| Object.NewSpecificFrom | src/il2cpp/object.rs:115-119 | the same for a given array class |
| Generic.GetObject | src/il2cpp/mod.rs:46-50 | `FailedReflectionQuerying` if and only if the type has no reflection object, otherwise that object |
| Generic.MakeGenericType | src/il2cpp/class.rs:249-267 | `FailedMethodInvocation` if and only if the invoker of `MakeGenericType` returns null, otherwise its type |
| Generic.ReflectionArgs | src/il2cpp/class.rs:276-278 | `Ok` if and only if every type argument has a reflection object; then entry `i` is the object of argument `i` |
| Generic.MakeGenericOutcomes | src/il2cpp/class.rs:269-285 | a failed allocation is `FailedArrayInstantiation`; a type argument, or after a full fill the generic type, without an object is `FailedReflectionQuerying`; only success initialises a class, and it is the result |
| Generic.MakeGenericPanicsAndResolution | src/il2cpp/class.rs:280-284 | panics if and only if the array was allocated and filled, the generic type has an object and `MakeGenericType` answers null; when it answers, a type without a class is `MissingClassForType` and otherwise the result is that class |
| Generic.MakeGenericSpec | src/il2cpp/class.rs:269-285 | the initialised set only grows, and by exactly the result class on success; every error is `FailedArrayInstantiation`, `FailedReflectionQuerying` or `MissingClassForType` |
| Generic.MakeGenericSuccess | src/il2cpp/class.rs:269-285 | on success `MakeGenericType` answered and the result is the class of the type it answered |
| Generic.MakeGeneric | src/il2cpp/class.rs:269-285 | the result and the initialised set follow the rules above; the argument array is fresh, of class `System.Type`, `types.len()` long, and holds the argument objects in order |
| Generic.ReflectionArgsPrefixErr | src/il2cpp/class.rs:276-278 | a failure among the first `n` arguments aborts the whole fill |
| Collections.List.constructor | src/system.rs:25-30 | the list holds the given class, item array and size |
| Collections.List.Elements | src/system.rs:32-45 | the view has exactly `size` elements, the front of the item array |
| Collections.List.Len | src/system.rs:72-74 | `len()` is the `size` field, not the array length |
| Collections.List.Capacity | src/system.rs:76-78 | `capacity()` is the item array's `max_length` |
| Collections.List.LenIsViewLength | src/system.rs:32-45 | the view is `len()` (the `size` field) long, reads the item array, and fits within `capacity()` (the item array's length) |
| Collections.List.Resize | src/system.rs:48-54 | nothing changes when `length` is the capacity; panics exactly when allocation fails or the list would shrink; growth gives a fresh array of that class and length, the old items in front, zeroes after; `size` never changes |
| Collections.FindMethodNamed | src/system.rs:57-61 | the first descriptor named exactly `name`; `None` if and only if none is |
| Collections.ListAddTarget | src/system.rs:56-61 | `List::add` calls the first of the `method_count` methods named "Add", and panics if and only if there is none |
| Collections.ListAddTakesFirst | src/system.rs:56-61 | the first method named "Add" is chosen, whatever follows it |
| Collections.VirtualCallTarget | src/system.rs:80-85 | the method of the first vtable slot with that name; panics if and only if none has it (as used by `clear`, `ListVirtual::add`, `Dictionary::add` and `try_get_value`); the class searched is a parameter: the object's class for `clear` and `Dictionary`, the statically resolved `Self::class()` for `ListVirtual::add` |
| Collections.AddPathsDiffer | src/system.rs:56-100 | a class whose only "Add" is a vtable slot panics in `List::add` but not in `ListVirtual::add`, taking the object's class (`self.get_class()`) and the static `Self::class()` to be the same class |
| Collections.TryGetValue | src/system.rs:122-134 | panics if and only if no vtable slot is named "TryGetValue"; otherwise the foreign call through that slot's method |
| Strings.Combine | src/system/string.rs:80 | a high surrogate followed by a low surrogate stands for a supplementary character, in 0x10000..0x10FFFF (section 2.2 of RFC 2781) |
| Strings.EncodeChar | src/system/string.rs:80 | one non-surrogate unit below 0x10000, otherwise a high/low surrogate pair that combines back to the character |
| Strings.Encode | src/system/string.rs:80 | the encoding has between one and two units per character |
| Strings.Decode | src/system/string.rs:80 | never more characters than units |
| Strings.DecodeEncode | src/system/string.rs:80 | decoding the UTF-16 encoding of any text gives that text back |
| Strings.EncodeDecode | src/system/string.rs:80 | valid code units are exactly the encoding of the text they decode to |
| Strings.ValidIffEncoding | src/system/string.rs:80 | a unit sequence decodes if and only if it is the encoding of some text |
| Strings.LoneLowSurrogateInvalid | src/system/string.rs:80 | a low surrogate not preceded by a high one makes the input invalid |
| Strings.LoneHighSurrogateInvalid | src/system/string.rs:80 | a high surrogate not followed by a low one makes the input invalid |
| Strings.Units | src/system/string.rs:16-19 | exactly `len` code units, the first of the inline storage |
| Strings.GetString | src/system/string.rs:76-82 | "" for `len == 0`; decodes if and only if the `len` units are an encoding, and then exactly of the returned text |
| Strings.ToString | src/system/string.rs:84-90 | the text `get_string` returns, or "" when it fails |
| Strings.UnpairedSurrogate | src/system/string.rs:76-90 | an unpaired surrogate among the `len` units makes `get_string` fail and `to_string` return "" |
| Strings.EncodedTextReadsBack | src/system/string.rs:76-90 | a string holding the encoding of a text reads back as that text in both functions |
| Strings.Fmt | src/system/string.rs:122-126 | `Display` keeps what was written before and appends text that encodes to the units, or nothing for invalid input |
| CppVectors.Pow2 | src/cppvector.rs:25-28 | a power of two is at least 1 |
| CppVectors.Pow2Step | src/cppvector.rs:25-28 | doubling the capacity before `k` more doublings is the same as `k + 1` doublings |
| CppVectors.ReserveCapacity | src/cppvector.rs:67-73 | `reserve` leaves the capacity as it is or doubles it once, never more |
| CppVectors.ReserveFitsIffOneDoublingSuffices | src/cppvector.rs:67-73 | after `reserve(n)` there is room for `len + n` if and only if one doubling was enough |
| CppVectors.ReserveMayNotFit | src/cppvector.rs:67-73 | from capacity 1 with three more requested, the capacity is 2 |
| CppVectors.Doublings | src/cppvector.rs:109-122 | the least number of doublings after which the slice fits |
| CppVectors.ExtendCapacity | src/cppvector.rs:109-122 | the final capacity holds `len + n` and is either the old one or less than twice `len + n` |
| CppVectors.ExtendCapacityStep | src/cppvector.rs:114-116 | one doubling followed by a retry ends at the same capacity |
| CppVectors.NextStep | src/cppvector.rs:205-214 | ends exactly at `index == len`; reads position `index` exactly when `0 <= index < len`; otherwise advances and reads outside the live elements |
| CppVectors.NextBackStep | src/cppvector.rs:218-227 | ends exactly at `len + index == 0`; reads position `len + index - 1` exactly when `-len < index <= 0`; otherwise steps back and reads outside |
| CppVectors.Forward | src/cppvector.rs:205-214 | repeated `next` calls read only positions from `index` up to `len` |
| CppVectors.Backward | src/cppvector.rs:218-227 | repeated `next_back` calls read only positions below `len + index` |
| CppVectors.ForwardInOrder | src/cppvector.rs:205-214 | from `index`, `next` reads `index`, `index + 1`, ..., `len - 1` |
| CppVectors.BackwardInOrder | src/cppvector.rs:218-227 | from `index`, `next_back` reads `len + index - 1` down to 0 |
| CppVectors.Traversals | src/cppvector.rs:179-227 | a fresh iterator yields the slice in order by `next` and in reverse by `next_back` |
| CppVectors.MixedStepsLeaveTheBlock | src/cppvector.rs:198-227 | on a non-empty vector, `next` then `next_back`, or `next_back` then `next`, reads outside the live elements |
| CppVectors.DriveAsWritten | src/cppvector.rs:198-227 | a run of steps gives one read per step |
| CppVectors.MixedRunAsWritten | src/cppvector.rs:198-227 | on two elements, `next` then `next_back` reads position 0 and then past the end |
| CppVectors.CursorStep | src/cppvector.rs:198-227 | the corrected step takes the front or back position of the remaining range and shrinks it by one; it ends exactly when the range is empty |
| CppVectors.Drive | src/cppvector.rs:198-227 | with the corrected cursor, any mix of steps reads `back - front` distinct positions of the range, then only the end |
| CppVectors.DriveCoversAll | src/cppvector.rs:198-227 | with the corrected cursor, enough steps in any order read every position of the range |
| CppVectors.MixedRunIntended | src/cppvector.rs:198-227 | with the corrected cursor, on two elements, `next` then `next_back` reads positions 0 and 1 |
| CppVectors.CopyInto | src/cppvector.rs:30 | `copy_nonoverlapping`: the block keeps its first `at` elements and `src` follows them |
| CppVectors.CppVector.AsSlice | src/cppvector.rs:95-100 | the live elements: `len` of them, the front of the block, and no more than the capacity |
| CppVectors.CppVector.Len | src/cppvector.rs:83-85 | `len` is the number of live elements, `end - start` |
| CppVectors.CppVector.Capacity | src/cppvector.rs:9-13 | the capacity is the block length, `eos - start` |
| CppVectors.CppVector.New | src/cppvector.rs:40-46 | length 0, capacity 0, empty slice |
| CppVectors.CppVector.WithCapacity | src/cppvector.rs:48-55 | length 0, capacity `cap`, empty slice |
| CppVectors.CppVector.FromSlice | src/cppvector.rs:126-135 | length and capacity are `slice.len()` and the contents are the slice in order |
| CppVectors.CppVector.CloneFromSlice | src/cppvector.rs:139-148 | length and capacity are `slice.len()` and the contents are the slice in order |
| CppVectors.CppVector.Realloc | src/cppvector.rs:22-38 | a fresh block of exactly twice the capacity; the same length and the same live elements |
| CppVectors.CppVector.Push | src/cppvector.rs:57-65 | makes progress if and only if the capacity is non-zero or there is room; then appends `val` with every earlier element unchanged; a full vector doubles first; capacity 0 stays empty |
| CppVectors.CppVector.Reserve | src/cppvector.rs:67-73 | contents unchanged; the capacity doubles once exactly when `len + additional` exceeds it, and is otherwise the same block |
| CppVectors.CppVector.ExtendFromSlice | src/cppvector.rs:109-122 | completes if and only if the capacity is non-zero or the slice is empty; the contents become old ++ slice; the capacity is the least doubling that holds them |
| CppVectors.CppVector.Get | src/cppvector.rs:151-157 | `as_slice()[index]`, and panics if and only if `index >= len` |
| CppVectors.CppVector.Slice | src/cppvector.rs:159-165 | `as_slice()[lo..hi]`, and panics unless `lo <= hi <= len` |
| CppVectors.CppVector.Set | src/cppvector.rs:167-171 | replaces exactly element `index`, and panics, changing nothing, if and only if `index >= len` |
| CppVectors.CppVectorIterator.constructor | src/cppvector.rs:179-185 | the iterator starts at index 0 |
| CppVectors.CppVectorIterator.Next | src/cppvector.rs:205-214 | advances `index` as `NextStep` says and yields the element at the read position, the end, or an invalid read |
| CppVectors.CppVectorIterator.NextBack | src/cppvector.rs:218-227 | the same with `NextBackStep` |
| CppVectors.CppVectorIteratorMut.constructor | src/cppvector.rs:187-193 | the iterator starts at index 0 |
| CppVectors.CppVectorIteratorMut.Next | src/cppvector.rs:238-247 | lends out the position `NextStep` reads and advances `index` |
| CppVectors.CppVectorIteratorMut.NextBack | src/cppvector.rs:251-260 | lends out the position `NextBackStep` reads and steps `index` back |
| Scan.Counts | unity-macro/src/scan.rs:56-65 | a parameter panics exactly when it is an identifier whose first character is not one byte; otherwise it counts exactly when it is a typed plain identifier that is not `_`-prefixed, `method_info` or `this` |
| Scan.ArgCount | unity-macro/src/scan.rs:54-68 | panics if and only if some parameter does; the count is at most the number of inputs |
| Scan.ArgCountIsNumberCounted | unity-macro/src/scan.rs:54-68 | the count is the number of counted parameters |
| Scan.SkippedArgs | unity-macro/src/scan.rs:57-58 | receivers and non-identifier patterns never change the count |
| Scan.NamedArg | unity-macro/src/scan.rs:59-65 | an excluded name leaves the count unchanged; any other identifier adds one |
| Scan.PrefixPanics | unity-macro/src/scan.rs:54-68 | a panic on an early parameter is a panic for the whole list |
| Scan.GetFnArgCount | unity-macro/src/scan.rs:54-68 | the loop computes the count (or the panic) of the whole input list |
| Scan.ChosenArgCount | unity-macro/src/scan.rs:13-17 | a non-zero forced count wins; 0 means the computed count |
| Scan.ZeroCannotBeForced | unity-macro/src/scan.rs:13-17 | the chosen arity is 0 if and only if both the forced and the computed counts are 0 |
| Scan.ResolveInfo | unity-macro/src/scan.rs:25-32 | returns if and only if the class resolves, the method name has no NUL and the lookup with the chosen `ARG_COUNT` and flag 0 answers; the result is that answer |
| Scan.AsBase | unity-macro/src/scan.rs:34-36 | panics exactly when resolution does; otherwise the resolved descriptor with the `new_from` fields reset and all others kept |
| ClassMacro.GetIdent | unity-macro/src/il2cpp.rs:152 | an identifier exactly for a path of one bare segment with no leading `::`, and then it is that segment |
| ClassMacro.ProcessOne | unity-macro/src/il2cpp.rs:152-163 | `static_fields` replaces the static type, or is a syntax error; `interfaces` appends the listed paths, or panics; any other attribute changes nothing |
| ClassMacro.ProcessSpec | unity-macro/src/il2cpp.rs:148-168 | a panic comes from some `interfaces` attribute whose paths do not parse; a syntax error from some `static_fields` attribute whose type does not parse; a static type on success is the parsed type of some `static_fields` attribute |
| ClassMacro.ProcessAttrs | unity-macro/src/il2cpp.rs:148-168 | the loop gives the result of processing the attributes in order, stopping at the first error or panic |
| ClassMacro.ProcessSpecStaysDone | unity-macro/src/il2cpp.rs:155-158 | after an error or a panic, later attributes change nothing |
| ClassMacro.LastStaticFields | unity-macro/src/il2cpp.rs:151-156 | the index of the last `static_fields` attribute; `None` if and only if there is none |
| ClassMacro.InterfacesOf | unity-macro/src/il2cpp.rs:157-161 | no `interfaces` attribute means no interfaces; every interface listed comes from a parsed `interfaces` attribute |
| ClassMacro.InterfacesOfAppend | unity-macro/src/il2cpp.rs:157-161 | the interfaces of a longer attribute list are those of the shorter list followed by those of the new attribute |
| ClassMacro.ProcessedAttributes | unity-macro/src/il2cpp.rs:148-168 | on success the static type comes from the last `static_fields` attribute (none without one), and the interfaces are those of every `interfaces` attribute, in order |
| ClassMacro.OtherAttributesIgnored | unity-macro/src/il2cpp.rs:152-164 | an attribute with another name, or with a path that is not an identifier, changes nothing |
| ClassMacro.ParseFailures | unity-macro/src/il2cpp.rs:155-158 | a bad `static_fields` argument is a syntax error; a bad `interfaces` argument panics |
| ClassMacro.ClassAttributesOf | unity-macro/src/il2cpp.rs:25 | `class` returns the processed attributes, and panics if and only if processing did not succeed |
| ClassMacro.Stripped | unity-macro/src/il2cpp.rs:139-141 | a type parameter loses its attributes and keeps its name and bounds; lifetime and const parameters are unchanged |
| ClassMacro.StrippedIdempotent | unity-macro/src/il2cpp.rs:137-144 | stripping a parameter twice is the same as stripping it once |
| ClassMacro.StripGenericsAttrs | unity-macro/src/il2cpp.rs:137-144 | in place, every type parameter loses its attributes; lifetime and const parameters, the count and the order are unchanged |
| ClassMacro.FieldsName | unity-macro/src/il2cpp.rs:29 | the struct's name followed by `Fields` |
| ClassMacro.FieldsNameInjective | unity-macro/src/il2cpp.rs:29 | different structs get different fields-struct names |
| ObjectMacro.Injected | unity-macro/src/lib.rs:7-17 | two more fields: `klass` and then `monitor`, both `*const u8`, followed by the original fields in order |
| ObjectMacro.InjectedInjective | unity-macro/src/lib.rs:7-17 | different field lists stay different after injection |
| ObjectMacro.FieldsNamed.constructor | unity-macro/src/lib.rs:7 | holds the given fields |
| ObjectMacro.InjectRecordFields | unity-macro/src/lib.rs:7-17 | in place, the fields become `[klass, monitor] ++ old fields` |
| ObjectMacro.Object | unity-macro/src/lib.rs:19-32 | named fields come back injected under the same name; tuple and unit structs become the compile error |

## Left out

- C strings: names are read with lossy UTF-8 decoding from NUL-terminated bytes. The model holds names as already-decoded text (`Option<string>`, `None` for null).
- The foreign entry points (`api`, `ffi`) are oracle parameters. Their own behaviour, the fixed offsets they are found at, and pattern scanning (including `get_offset`) are not modelled.
- `ListVirtual::add` searches the statically resolved `Self::class()`, while `List::add`, `List::clear` and `Dictionary` search the object's own class. The model takes the class to search as a parameter and does not relate the two.
- The effects of the foreign calls that `List::add`, `List::clear`, `ListVirtual::add` and `Dictionary::add` make are not modelled. Only how each picks its method is, by `Collections.ListAddTarget` and `Collections.VirtualCallTarget`. `try_get_value`'s call is an oracle.
- `LazyLock` caches of classes and method descriptors are not modelled (process-lifetime memoisation with concurrency). `Scan.ResolveInfo` is the value the cache holds.
- The assembly list is a plain sequence parameter. `get_assemblies` itself is a foreign call.
- Byte-exact `repr(C)` layouts, padding, `transmute` of entry points and `static_fields` casts are not modelled. The only layout fact kept is the byte size that `clone` copies.
- `Class.CloneSizeAsWritten`: follows a release build, where the `u16` product wraps. A debug build panics on the overflow instead.
- `CppVectors.CppVector.Push`: in the source, a full vector of capacity 0 writes through an empty block (undefined behaviour). The model reports no progress and leaves the vector unchanged.
- `CppVectors.CppVector.ExtendFromSlice`: with capacity 0 and a non-empty slice the source recurses forever. The model stops and reports `completed == false`.
- `CppVector` keeps `len` as a real field and the capacity as the block length rather than as ghost fields. `end` is `start + len`, and `eos` is the end of `data`.
- Reads outside the live elements by an iterator are undefined behaviour in the source. The model reports them as `Invalid` (or `OutOfBlock`) and does not say what is read.
- `CppVectors.CppVectorIteratorMut.Next`: the mutable reference it lends is modelled by the position it designates. Aliasing between lent references is not modelled.
- `IndexMut<Range<usize>>` is not a separate member. It has the bounds of `CppVectors.CppVector.Slice` and lends the same elements mutably.
- Uninitialised memory in `with_capacity`, `to_vec` and `realloc` blocks is modelled by Dafny's default value or an explicit `garbage` parameter. Alignment, `dealloc`, and zero-sized `T` (`len` divides by `size_of::<T>()`) are not modelled.
- Foreign string operations (`Copy`, `Clone`, `Contains`, `GetHashCode`, `string_new`, the `From` conversions) and `Display`'s formatter flags are not modelled.
- `Strings.GetString`: requires `0 <= len <= stored units`. A negative `len` converts to a huge length in the source (undefined behaviour), and that case is not modelled.
- `instantiate_class` in src/il2cpp/mod.rs is the same mapping as `Object.FromClass` and is not repeated.
- The `quote!` token generation and `deluxe` parsing of the macros' arguments are not modelled. Parsing an attribute's arguments is an oracle parameter.
- Engine, UI, rendering and app layout mirrors carry no algorithm and are not modelled.
- The source hands the invoker a pointer to a `MakeGenericTypeArgs` block that refers to the argument array. The model passes the generic type and the array's contents as values instead, so that block's layout is not modelled. `MakeGenericType`'s method descriptor is a parameter.

## Findings

| source | as written | input that shows it | evidently intended | confidence | as-written member | corrected member |
|---|---|---|---|---|---|---|
| src/il2cpp/class.rs:108 | `0x10 * self._2.vtable_count` is computed in `u16` before widening, so the copy size wraps | `vtable_count = 0x1000`: size is 0x138 and no vtable slot is copied | copy `0x138 + 0x10 * vtable_count` bytes computed in `usize` | not executed | Class.CloneAsWritten | Class.Clone |
| src/cppvector.rs:198-227 | `next` and `next_back` share one signed `index`, so a traversal that mixes them reads outside the live elements | two elements, `next` then `next_back`: reads element 0, then one past the end | a double-ended traversal where `next` and `next_back` take the front and back of the remaining range and meet in the middle | not executed | CppVectors.MixedRunAsWritten | CppVectors.Drive |
