/**
 * Java's 32-bit `int` and the hash codes built from it: `Objects.hash`
 * (that is, `Arrays.hashCode` over the arguments) and `String.hashCode`.
 * Every step wraps around modulo 2^32, as Java's int arithmetic does.
 */
module JavaHash {

  const TWO_32: int := 0x1_0000_0000

  /** Java's `int`. */
  type Int32 = x: int | -0x8000_0000 <= x < 0x8000_0000

  /** Two's-complement truncation to 32 bits, as Java applies to every int result. */
  function Wrap32(x: int): (r: Int32)
    ensures (r - x) % TWO_32 == 0
    ensures -0x8000_0000 <= x < 0x8000_0000 ==> r == x
  {
    var m := x % TWO_32;
    if m >= 0x8000_0000 then m - TWO_32 else m
  }

  /** `h = seed; for each x: h = 31 * h + x`, with int wrap-around at every step. */
  function Horner31(seed: Int32, xs: seq<Int32>): Int32
    decreases |xs|
  {
    if xs == [] then seed
    else Wrap32(31 * Horner31(seed, xs[..|xs| - 1]) + xs[|xs| - 1])
  }

  /** `Objects.hash(a, b, ...)` given the hash codes of its (non-null) arguments. */
  function ObjectsHash(hashes: seq<Int32>): Int32
  {
    Horner31(1, hashes)
  }

  /**
   * `String.hashCode`: the characters folded with 31, from 0. A Dafny `char`
   * is a Unicode scalar value, so this is Java's hash for text within the
   * Basic Multilingual Plane, where each character is one UTF-16 code unit.
   */
  function StringHash(s: string): Int32
  {
    Horner31(0, seq(|s|, i requires 0 <= i < |s| => s[i] as int))
  }

  /**
   * What `equals(Object o)` can be handed: `null`, an instance of the
   * receiver's class, or an instance of some other class. `ref` is the
   * object's identity.
   */
  datatype JavaObject<T> = Null | Instance(ref: nat, value: T) | OtherInstance(ref: nat)

  /** One reference names one object: `o` does not claim the receiver's identity with other contents. */
  predicate Coherent<T(==)>(selfRef: nat, self: T, o: JavaObject<T>)
  {
    match o
    case Null => true
    case Instance(r, v) => r == selfRef ==> v == self
    case OtherInstance(r) => r != selfRef
  }
}
