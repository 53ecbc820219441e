/**
 * JavaScript typed arrays as the engine uses them: an element kind and the numbers held.
 * Numbers are reals; the rounding of a double to single precision is not modelled
 * (a Float32Array keeps the value it is given).
 */
module TypedArrays {
  /** The element kinds of the typed-array constructors. */
  datatype ArrayKind =
    | Int8 | Uint8 | Uint8Clamped | Int16 | Uint16 | Int32 | Uint32 | Float32 | Float64

  /** A typed array: its constructor and its elements. */
  datatype NumArray = NumArray(kind: ArrayKind, values: seq<real>)

  const TWO_32: int := 0x1_0000_0000

  /** BYTES_PER_ELEMENT of each constructor. */
  function BytesPerElement(k: ArrayKind): (n: nat)
    ensures n in {1, 2, 4, 8}
  {
    match k
    case Int8 => 1
    case Uint8 => 1
    case Uint8Clamped => 1
    case Int16 => 2
    case Uint16 => 2
    case Int32 => 4
    case Uint32 => 4
    case Float32 => 4
    case Float64 => 8
  }

  /** The byte length of the array's own storage. */
  function ByteLength(a: NumArray): nat
  {
    |a.values| * BytesPerElement(a.kind)
  }

  /** Truncation toward zero, as the ToIntegerOrInfinity step of the integer conversions. */
  function Trunc(x: real): (r: int)
    ensures x >= 0.0 ==> r as real <= x < r as real + 1.0
    ensures x < 0.0 ==> r as real - 1.0 < x <= r as real
  {
    if x >= 0.0 then x.Floor else -((-x).Floor)
  }

  /** Reduction of an integer into [0, m): the unsigned integer conversions. */
  function WrapUnsigned(x: int, m: int): (r: int)
    requires m > 0
    ensures 0 <= r < m
  {
    x % m
  }

  /** Reduction of an integer into [-m/2, m/2): the signed integer conversions. */
  function WrapSigned(x: int, m: int): (r: int)
    requires m > 0 && m % 2 == 0
    ensures -(m / 2) <= r < m / 2
  {
    var u := x % m;
    if u >= m / 2 then u - m else u
  }

  /** The JavaScript ToInt32 of an integer: the value `x | 0` takes. */
  function Int32Of(x: int): (r: int)
    ensures -0x8000_0000 <= r < 0x8000_0000
    ensures (x - r) % TWO_32 == 0
  {
    var u := x % TWO_32;
    if u >= 0x8000_0000 then u - TWO_32 else u
  }

  /**
   * Two integers congruent modulo 2^32 have the same ToInt32: the conversion only sees the
   * low 32 bits.
   */
  lemma {:induction false} Int32OfCongruent(x: int, y: int)
    requires (x - y) % TWO_32 == 0
    ensures Int32Of(x) == Int32Of(y)
  {
    var q := (x - y) / TWO_32;
    assert x == y + TWO_32 * q;
    assert x % TWO_32 == y % TWO_32 by {
      var qy := y / TWO_32;
      assert y == TWO_32 * qy + y % TWO_32;
      assert x == TWO_32 * (qy + q) + y % TWO_32;
    }
  }

  /** The JavaScript ToInt32 of a number (the engine writes it as `x | 0`). */
  function ToInt32(x: real): int
  {
    Int32Of(Trunc(x))
  }

  /** Round half to even, then clamp to [0, 255]: the Uint8Clamped conversion. */
  function ClampToUint8(x: real): (r: int)
    ensures 0 <= r <= 255
  {
    if x <= 0.0 then 0
    else if x >= 255.0 then 255
    else
      var f := x.Floor;
      if x - f as real < 0.5 then f
      else if x - f as real > 0.5 then f + 1
      else if f % 2 == 0 then f else f + 1
  }

  /** The value a number takes when stored into a typed array of the given kind. */
  function ElementOf(k: ArrayKind, x: real): real
  {
    match k
    case Int8 => WrapSigned(Trunc(x), 0x100) as real
    case Uint8 => WrapUnsigned(Trunc(x), 0x100) as real
    case Uint8Clamped => ClampToUint8(x) as real
    case Int16 => WrapSigned(Trunc(x), 0x1_0000) as real
    case Uint16 => WrapUnsigned(Trunc(x), 0x1_0000) as real
    case Int32 => Int32Of(Trunc(x)) as real
    case Uint32 => WrapUnsigned(Trunc(x), TWO_32) as real
    case Float32 => x
    case Float64 => x
  }

  /** `new Kind(values)`: a typed array of the given kind built from plain numbers. */
  function Convert(k: ArrayKind, xs: seq<real>): (a: NumArray)
    ensures a.kind == k && |a.values| == |xs|
    ensures forall i :: 0 <= i < |xs| ==> a.values[i] == ElementOf(k, xs[i])
  {
    NumArray(k, seq(|xs|, i requires 0 <= i < |xs| => ElementOf(k, xs[i])))
  }

  /** An integer already in the range of a 16-bit unsigned array is stored unchanged. */
  lemma Uint16Exact(n: int)
    requires 0 <= n < 0x1_0000
    ensures ElementOf(Uint16, n as real) == n as real
  {
    assert Trunc(n as real) == n;
  }
}
