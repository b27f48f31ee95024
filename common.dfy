/** Small value types shared by the model: an optional value, and a boxed
    .NET `object?` reference described by what it is at run time. */
module Common {

  /** A value that may be absent (`null`, or `default` of a type). */
  datatype Option<+T> = None | Some(value: T)

  /** An `object?` argument seen from a method that expects a `T`:
      a null reference, an instance whose run-time type is exactly `T`,
      or an instance of some other run-time type (another class, or a
      subclass, for which `GetType()` differs). */
  datatype Object<+T> = Null | Instance(value: T) | OtherInstance

  /** The C# `int`: a signed 32-bit integer. */
  newtype int32 = x: int | -0x8000_0000 <= x < 0x8000_0000

  const Int32Min: int := -0x8000_0000
  const Int32Max: int := 0x7FFF_FFFF

  /** The result of 32-bit arithmetic in C#'s default unchecked context: the
      only `int` congruent to `x` modulo 2^32. */
  function Wrap32(x: int): (r: int32)
    ensures Int32Min <= x <= Int32Max ==> r as int == x
    ensures (r as int - x) % 0x1_0000_0000 == 0
  {
    ((x + 0x8000_0000) % 0x1_0000_0000 - 0x8000_0000) as int32
  }
}
