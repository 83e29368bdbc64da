/**
 * The small part of the Java platform that the modelled classes lean on:
 * nullable references as `Option`, thrown exceptions as `Result`, the range
 * of `long`, 32-bit `int` arithmetic with wrap-around, and the hash codes of
 * `Long`, `String`, `BigInteger`, `BigDecimal` and `java.util.Objects.hash`.
 */
module JavaLang {

  /** A nullable reference: `None` is Java's `null`. */
  datatype Option<+T> = None | Some(value: T)

  /** A computation that either returns a value or throws. */
  datatype Result<+T, +E> = Ok(value: T) | Err(error: E)

  /**
   * The unchecked exceptions the modelled code can throw, with the two
   * messaging exceptions of the flows: the router's failure to resolve a
   * channel, and a transformer's failure, which carries the exception its
   * transform threw as its cause.
   */
  datatype Throwable =
    | NumberFormatException
    | IllegalArgumentException
    | NullPointerException
    | ArrayIndexOutOfBoundsException
    | ClassCastException
    | MessageDeliveryException
    | MessageTransformationException(cause: Throwable)

  const MIN_LONG: int := -0x8000_0000_0000_0000
  const MAX_LONG: int := 0x7FFF_FFFF_FFFF_FFFF
  const MIN_INT: int := -0x8000_0000
  const MAX_INT: int := 0x7FFF_FFFF
  const TWO_32: int := 0x1_0000_0000
  const TWO_64: int := 0x1_0000_0000_0000_0000

  /** Java's `long`. */
  type Long = x: int | MIN_LONG <= x <= MAX_LONG

  /** Java's `int`. */
  type Int = x: int | MIN_INT <= x <= MAX_INT

  /** The `int` that Java's 32-bit arithmetic yields for the exact value `x`. */
  function Wrap32(x: int): (r: Int)
    ensures (x - r) % TWO_32 == 0
    ensures MIN_INT <= x <= MAX_INT ==> r == x
  {
    var u := x % TWO_32;
    if u <= MAX_INT then u else u - TWO_32
  }

  /** `Long.hashCode(v)`: `(int) (v ^ (v >>> 32))`. */
  function LongHash(v: Long): Int
  {
    var bits := v % TWO_64;
    var high := bits / TWO_32;
    var low := bits % TWO_32;
    Wrap32(((high as bv32) ^ (low as bv32)) as int)
  }

  /**
   * `String.hashCode()`: `s[0]*31^(n-1) + ... + s[n-1]` in `int` arithmetic.
   * Characters are taken as their code points.
   */
  function StringHash(s: string): Int
  {
    if s == [] then 0 else Wrap32(31 * StringHash(s[..|s| - 1]) + s[|s| - 1] as int)
  }

  /** The 32-bit words of a magnitude, most significant first (`BigInteger.mag`). */
  function Words(n: nat): (ws: seq<nat>)
    ensures forall i :: 0 <= i < |ws| ==> ws[i] < TWO_32
    ensures n == 0 <==> ws == []
  {
    if n == 0 then [] else Words(n / TWO_32) + [n % TWO_32]
  }

  /** The loop of `BigInteger.hashCode()` over the magnitude words. */
  function WordsHash(ws: seq<nat>): Int
  {
    if ws == [] then 0 else Wrap32(31 * WordsHash(ws[..|ws| - 1]) + ws[|ws| - 1])
  }

  function Signum(u: int): int
  {
    if u < 0 then -1 else if u == 0 then 0 else 1
  }

  /** `BigInteger.hashCode()` of the value `u`. */
  function BigIntegerHash(u: int): Int
  {
    Wrap32(WordsHash(Words(if u < 0 then -u else u)) * Signum(u))
  }

  /** `java.util.Objects.hash(...)` of elements whose hash codes are `hs` (`0` for `null`). */
  function ObjectsHash(hs: seq<Int>): Int
  {
    if hs == [] then 1 else Wrap32(31 * ObjectsHash(hs[..|hs| - 1]) + hs[|hs| - 1])
  }

  /** The hash code of a nullable element, as `Objects.hash` takes it. */
  function NullableHash<T>(x: Option<T>, hash: T -> Int): Int
  {
    match x
    case None => 0
    case Some(v) => hash(v)
  }
}
