/** Fixed-width integers, raw pointers and the small wrapper types shared by every module. */
module Primitives {

  newtype u8 = x: int | 0 <= x < 0x100
  newtype u16 = x: int | 0 <= x < 0x1_0000
  newtype u32 = x: int | 0 <= x < 0x1_0000_0000
  newtype i32 = x: int | -0x8000_0000 <= x < 0x8000_0000

  /** A foreign address that the interop layer only stores and passes on; 0 is null. */
  type Ptr = nat

  const NULL: Ptr := 0

  /** A C string pointer, modelled by the text it designates; `None` is the null pointer. */
  type CString = Option<string>

  datatype Option<+T> = None | Some(value: T)

  /** Whether an operation returned normally or panicked (`unwrap`, `expect`, an out-of-range slice). */
  datatype Outcome<+T> = Returns(value: T) | Panics

  /** True when `s` holds a NUL character, which makes `CString::new(s).unwrap()` panic. */
  predicate HasNul(s: string) {
    exists i :: 0 <= i < |s| && s[i] == '\0'
  }
}
