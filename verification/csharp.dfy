/** The C# value semantics the service relies on: 32-bit integers, references
    that may hold null, and the null-aware operators. */
module CSharp {

  /** The 32-bit storage of a C# `int` or `int`-backed enum. */
  newtype int32 = x: int | -0x8000_0000 <= x < 0x8000_0000

  /** A value of a nullable reference type: `None` stands for `null`. */
  datatype Option<+T> = None | Some(value: T)

  /** The null-conditional member access `o?.f`. */
  function Select<T, U>(o: Option<T>, f: T -> U): Option<U>
  {
    match o
    case Some(v) => Some(f(v))
    case None => None
  }

  /** The null-coalescing operator `o ?? d`. */
  function Coalesce<T>(o: Option<T>, d: T): T
  {
    match o
    case Some(v) => v
    case None => d
  }

  /** `string.IsNullOrEmpty` on a nullable string. */
  predicate IsNullOrEmpty(s: Option<string>)
  {
    s.None? || s.value == ""
  }
}
