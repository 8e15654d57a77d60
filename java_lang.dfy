/** Java-level building blocks shared by the whole model: nullable references,
    the exceptions the core can raise, fixed-width integers and Java's
    truncating division. */
module JavaLang {

  /** A Java reference that may be null. */
  datatype Option<+T> = None | Some(value: T)

  /** The exceptions that the modelled code can raise itself. */
  datatype ExceptionKind = NullPointer | Arithmetic | UnsupportedOperation | Runtime

  /** A thrown exception with its `getMessage()` (which may be null). */
  datatype JavaException = JavaException(kind: ExceptionKind, message: Option<string>)

  /** A value, or the exception raised instead of returning one. */
  datatype Result<T> = Value(value: T) | Raised(exception: JavaException)

  /** The ArithmeticException HotSpot raises for an int division by zero. */
  function DivisionByZero(): (e: JavaException)
    ensures e.kind == Arithmetic && e.message == Some("/ by zero")
  {
    JavaException(Arithmetic, Some("/ by zero"))
  }

  /** The NullPointerException raised by unboxing or dereferencing a null.
      Its message is left null: the detail text of such an exception is
      chosen by the virtual machine, not by the code. */
  function NullDereference(): (e: JavaException)
    ensures e.kind == NullPointer && e.message.None?
  {
    JavaException(NullPointer, None)
  }

  /** String concatenation of a possibly-null String: null prints as "null". */
  function Text(s: Option<string>): (r: string)
    ensures s.Some? ==> r == s.value
    ensures s.None? ==> r == "null"
  {
    match s
    case None => "null"
    case Some(v) => v
  }

  const INT32_MIN: int := -0x8000_0000
  const INT32_MAX: int := 0x7fff_ffff
  const INT64_MIN: int := -0x8000_0000_0000_0000
  const INT64_MAX: int := 0x7fff_ffff_ffff_ffff

  predicate IsInt32(x: int) { INT32_MIN <= x <= INT32_MAX }
  predicate IsInt64(x: int) { INT64_MIN <= x <= INT64_MAX }

  /** Two's-complement wrap-around of an `int` result to 32 bits. */
  function Wrap32(x: int): (r: int)
    ensures IsInt32(r)
    ensures (x - r) % 0x1_0000_0000 == 0
    ensures IsInt32(x) ==> r == x
  {
    var m := (x - INT32_MIN) % 0x1_0000_0000;
    m + INT32_MIN
  }

  /** Java's `a / b` on integers: the quotient truncated toward zero. */
  function JavaDiv(a: int, b: int): (q: int)
    requires b != 0
    ensures a >= 0 && b > 0 ==> q == a / b
    ensures (a >= 0) == (b > 0) || a == 0 ==> q >= 0
    ensures Abs(q * b) <= Abs(a) < Abs(q * b) + Abs(b)
  {
    var m := Abs(a) / Abs(b);
    if (a >= 0) == (b > 0) then m else -m
  }

  function Abs(x: int): nat { if x < 0 then -x else x }
}
