/**
 * The integer arms of the `convert_sample!` macros and the per-sample
 * pipelines of the input and output callbacks for integer hardware types.
 *
 * An integer-to-integer conversion computes `s as i64 * MAX_target as i64 /
 * MAX_source as i64` and narrows the quotient with `as`. Rust's `/` on i64
 * truncates toward zero and `as` keeps the low bits, so both are written out.
 */
module SampleConversion {
  import opened EndianCodec

  /** The integer sample widths the ASIO hardware types use. */
  datatype IntWidth = W16 | W32

  /** The ASIO sample types the callbacks dispatch on. */
  datatype AsioSampleType =
    | Int32LSB | Int16LSB | Int32MSB | Int16MSB
    | Float32LSB | Float64LSB | Float32MSB | Float64MSB
    | Other

  predicate IsInteger(t: AsioSampleType) {
    t.Int32LSB? || t.Int16LSB? || t.Int32MSB? || t.Int16MSB?
  }

  predicate IsFloat(t: AsioSampleType) {
    t.Float32LSB? || t.Float64LSB? || t.Float32MSB? || t.Float64MSB?
  }

  /** The integer width of an integer hardware type. */
  function WidthOf(t: AsioSampleType): IntWidth
    requires IsInteger(t)
  {
    if t.Int16LSB? || t.Int16MSB? then W16 else W32
  }

  /** LSB types are little-endian, MSB types big-endian. */
  function EndianOf(t: AsioSampleType): Endian
  {
    match t
    case Int32LSB | Int16LSB | Float32LSB | Float64LSB => Little
    case Int32MSB | Int16MSB | Float32MSB | Float64MSB => Big
    case Other => Little
  }

  function Bytes(w: IntWidth): nat {
    match w
    case W16 => 2
    case W32 => 4
  }

  /** `i16::MAX` and `i32::MAX`. */
  function Max(w: IntWidth): (m: int)
    ensures m > 0 && m + 1 == Half(Bytes(w))
  {
    BaseValues();
    match w
    case W16 => 32767
    case W32 => 2147483647
  }

  /** Rust's `/` on signed integers: the quotient truncated toward zero. */
  function TruncDiv(a: int, b: int): int
    requires b > 0
  {
    if a >= 0 then a / b else -((-a) / b)
  }

  /** The truncated quotient is the multiple of b nearest a on the side of zero. */
  lemma TruncDivBounds(a: int, b: int)
    requires b > 0
    ensures a >= 0 ==> 0 <= TruncDiv(a, b) && TruncDiv(a, b) * b <= a < TruncDiv(a, b) * b + b
    ensures a < 0 ==> TruncDiv(a, b) <= 0 && TruncDiv(a, b) * b - b < a <= TruncDiv(a, b) * b
  {
    if a >= 0 {
      FloorBounds(a, b);
    } else {
      FloorBounds(-a, b);
      var p := (-a) / b;
      assert (-p) * b == -(p * b);
    }
  }

  lemma FloorBounds(n: int, b: int)
    requires n >= 0 && b > 0
    ensures 0 <= n / b && (n / b) * b <= n < (n / b) * b + b
  {
    var p := n / b;
    assert n == p * b + n % b;
    MulBounds(p, b);
  }

  /**
   * The `as` cast to i16 or i32: keep the low 16 or 32 bits and read them
   * as two's complement.
   */
  function Narrow(x: int, w: IntWidth): (r: int)
    ensures InRange(r, Bytes(w))
  {
    BaseValues();
    match w
    case W16 => Signed(x % 0x1_0000, 2)
    case W32 => Signed(x % 0x1_0000_0000, 4)
  }

  /** The cast leaves a value that already fits unchanged. */
  lemma NarrowInRange(x: int, w: IntWidth)
    requires InRange(x, Bytes(w))
    ensures Narrow(x, w) == x
  {
    BaseValues();
  }

  /** Narrowing a sum after narrowing one operand is narrowing once. */
  lemma NarrowAddNarrow(x: int, y: int, w: IntWidth)
    ensures Narrow(Narrow(x, w) + y, w) == Narrow(x + y, w)
  {
    BaseValues();
    var b := if w == W16 then 0x1_0000 else 0x1_0000_0000;
    var c := if x % b >= b / 2 then x / b + 1 else x / b;
    assert Narrow(x, w) == x - c * b;
    var z := x + y;
    DivModUnique(z - c * b, b, z / b - c, z % b);
  }

  /** The i64 quotient `s * target::MAX / source::MAX` before the `as` cast. */
  function ScaleQuotient(s: int, source: IntWidth, target: IntWidth): (q: int)
    ensures q == TruncDiv(s * Max(target), Max(source))
  {
    match (source, target)
    case (W16, W16) => TruncDiv(s * 32767, 32767)
    case (W16, W32) => TruncDiv(s * 2147483647, 32767)
    case (W32, W16) => TruncDiv(s * 32767, 2147483647)
    case (W32, W32) => TruncDiv(s * 2147483647, 2147483647)
  }

  /** `(s as i64 * target::MAX as i64 / source::MAX as i64) as target` */
  function ScaleSample(s: int, source: IntWidth, target: IntWidth): (r: int)
    ensures InRange(r, Bytes(target))
  {
    Narrow(ScaleQuotient(s, source, target), target)
  }

  /** The product formed in i64 never overflows for i16 and i32 samples. */
  lemma ScaleProductFitsI64(s: int, source: IntWidth, target: IntWidth)
    requires InRange(s, Bytes(source))
    ensures -0x8000_0000_0000_0000 <= s * Max(target) < 0x8000_0000_0000_0000
  {
    match target
    case W16 =>
    case W32 =>
  }

  /** Converting between equal widths is the identity. */
  lemma ScaleIdentity(s: int, w: IntWidth)
    requires InRange(s, Bytes(w))
    ensures ScaleSample(s, w, w) == s
  {
    var m := Max(w);
    if s >= 0 {
      DivModUnique(s * m, m, s, 0);
    } else {
      DivModUnique(-s * m, m, -s, 0);
    }
    NarrowInRange(s, w);
  }

  /**
   * A sample within [-MAX_source, MAX_source] lands in
   * [-MAX_target, MAX_target], and the `as` cast does not change it.
   */
  lemma ScaleBounded(s: int, source: IntWidth, target: IntWidth)
    requires -Max(source) <= s <= Max(source)
    ensures ScaleSample(s, source, target) == ScaleQuotient(s, source, target)
    ensures -Max(target) <= ScaleSample(s, source, target) <= Max(target)
  {
    var ms, mt := Max(source), Max(target);
    var a := if s >= 0 then s else -s;
    var q := TruncDiv(a * mt, ms);
    TruncDivBounds(a * mt, ms);
    assert q <= mt by {
      match source {
        case W16 =>
          match target {
            case W16 => assert q * 32767 <= a * 32767;
            case W32 => assert q * 32767 <= a * 2147483647 <= 32767 * 2147483647;
          }
        case W32 =>
          match target {
            case W16 => assert q * 2147483647 <= a * 32767 <= 2147483647 * 32767;
            case W32 => assert q * 2147483647 <= a * 2147483647;
          }
      }
    }
    assert TruncDiv(s * mt, ms) == if s >= 0 then q else -q;
    NarrowInRange(ScaleQuotient(s, source, target), target);
  }

  /**
   * Narrowing i32 -> i16 (the input path) never wraps, even at i32::MIN:
   * every i32 sample lands in [-i16::MAX, i16::MAX].
   */
  lemma NarrowingNeverWraps(s: int)
    requires InRange(s, Bytes(W32))
    ensures ScaleSample(s, W32, W16) == ScaleQuotient(s, W32, W16)
    ensures -Max(W16) <= ScaleSample(s, W32, W16) <= Max(W16)
  {
    if s == -0x8000_0000 {
      DivModUnique(0x8000_0000 * 32767, 2147483647, 32767, 32767);
      NarrowInRange(-32767, W16);
    } else {
      ScaleBounded(s, W32, W16);
    }
  }

  /**
   * Widening i16 -> i32 (the output path) is unguarded at i16::MIN: the
   * quotient lies below i32::MIN and the `as` cast wraps it to a large
   * positive sample.
   */
  lemma WideningWrapsAtMin()
    ensures ScaleQuotient(-32768, W16, W32) == -2147549185
    ensures ScaleQuotient(-32768, W16, W32) < -(Half(Bytes(W32)) as int)
    ensures ScaleSample(-32768, W16, W32) == 2147418111
  {
    DivModUnique(32768 * 2147483647, 32767, 2147549185, 1);
    BaseValues();
    DivModUnique(-2147549185, 0x1_0000_0000, -1, 2147418111);
  }

  /**
   * i16 -> i32 -> i16 reproduces a sample within one LSB, rounding toward
   * zero (the truncating divisions of both conversions).
   */
  lemma WidenNarrowWithinOneLsb(s: int)
    requires -Max(W16) <= s <= Max(W16)
    ensures var back := ScaleSample(ScaleSample(s, W16, W32), W32, W16);
      (s >= 0 ==> s - 1 <= back <= s) && (s <= 0 ==> s <= back <= s + 1)
  {
    var a := if s >= 0 then s else -s;
    var wide := ScaleSample(s, W16, W32);
    ScaleBounded(s, W16, W32);
    ScaleBounded(wide, W32, W16);
    if a == 32767 {
      DivModUnique(a * 2147483647, 32767, 2147483647, 0);
      DivModUnique(2147483647 * 32767, 2147483647, 32767, 0);
    } else if a > 0 {
      DivModUnique(a * 2147483647, 32767, 65538 * a, a);
      DivModUnique(65538 * a * 32767, 2147483647, a - 1, 2147483647 - a);
    }
  }

  /**
   * The one i16 the round trip does not reproduce: i16::MIN widens with a
   * wrap to 2147418111, which narrows back to 32766.
   */
  lemma MinRoundTrip()
    ensures ScaleSample(ScaleSample(-32768, W16, W32), W32, W16) == 32766
  {
    WideningWrapsAtMin();
    DivModUnique(2147418111 * 32767, 2147483647, 32766, 65535);
    NarrowInRange(32766, W16);
  }

  /**
   * One input sample: `convert_endian_from(convert_sample!(raw), endian)`.
   * The byte-order fix is applied to the already converted i16.
   */
  function InputSample(t: AsioSampleType, raw: int, host: Endian): (r: int)
    requires IsInteger(t)
    ensures InRange(r, 2)
    ensures EndianOf(t) == host ==> r == ScaleSample(raw, WidthOf(t), W16)
    ensures EndianOf(t) != host ==> SwapBytes(r, 2) == ScaleSample(raw, WidthOf(t), W16)
  {
    ConvertEndianFrom(ScaleSample(raw, WidthOf(t), W16), EndianOf(t), host, Bytes(W16))
  }

  /**
   * One output sample: `convert_endian_to(convert_sample!(s), endian)`,
   * swapped at the hardware width.
   */
  function OutputSample(t: AsioSampleType, s: int, host: Endian): (r: int)
    requires IsInteger(t)
    ensures InRange(r, Bytes(WidthOf(t)))
    ensures EndianOf(t) == host ==> r == ScaleSample(s, W16, WidthOf(t))
    ensures EndianOf(t) != host ==> SwapBytes(r, Bytes(WidthOf(t))) == ScaleSample(s, W16, WidthOf(t))
  {
    var scaled := ScaleSample(s, W16, WidthOf(t));
    EndianRoundTrip(scaled, EndianOf(t), host, Bytes(WidthOf(t)));
    ConvertEndianTo(scaled, EndianOf(t), host, Bytes(WidthOf(t)))
  }

  /** A 16-bit native-order hardware type passes i16 samples through both ways. */
  lemma NativeInt16PassesThrough(s: int, host: Endian)
    requires InRange(s, 2)
    ensures InputSample(if host == Little then Int16LSB else Int16MSB, s, host) == s
    ensures OutputSample(if host == Little then Int16LSB else Int16MSB, s, host) == s
  {
    ScaleIdentity(s, W16);
  }

  /**
   * On a little-endian host, a full-scale big-endian i32 sample (bytes
   * 7F FF FF FF, read natively as -129) comes out of the input path as 0,
   * because the swap is applied after the conversion; swapping first and
   * then converting would give i16::MAX.
   */
  lemma InputSwapAfterConversion()
    ensures SwapBytes(-129, 4) == 2147483647
    ensures InputSample(Int32MSB, -129, Little) == 0
    ensures ScaleSample(SwapBytes(-129, 4), W32, W16) == 32767
  {
    SwapOfMinus129();
    assert ScaleSample(-129, W32, W16) == 0 by {
      DivModUnique(129 * 32767, 2147483647, 0, 129 * 32767);
      NarrowInRange(0, W16);
    }
    SwapOfZero();
    assert ScaleSample(2147483647, W32, W16) == 32767 by {
      DivModUnique(2147483647 * 32767, 2147483647, 32767, 0);
      NarrowInRange(32767, W16);
    }
  }

  lemma SwapOfMinus129()
    ensures SwapBytes(-129, 4) == 2147483647
  {
    BaseValues();
    assert Unsigned(-129, 4) == 0xFFFF_FF7F;
    BytesOfMinus129();
    ReversedBytesOfMinus129();
    ValueOfReversedBytes();
  }

  lemma BytesOfMinus129()
    ensures ToBytes(0xFFFF_FF7F, 4) == [0x7F, 0xFF, 0xFF, 0xFF]
  {
    BaseValues();
    assert ToBytes(0xFF, 1) == [0xFF];
    assert ToBytes(0xFFFF, 2) == [0xFF, 0xFF];
    assert ToBytes(0xFF_FFFF, 3) == [0xFF, 0xFF, 0xFF];
  }

  lemma ReversedBytesOfMinus129()
    ensures Reverse([0x7F, 0xFF, 0xFF, 0xFF]) == [0xFF, 0xFF, 0xFF, 0x7F]
  {
  }

  lemma ValueOfReversedBytes()
    ensures FromBytes([0xFF, 0xFF, 0xFF, 0x7F]) == 0x7FFF_FFFF
  {
    var r: seq<nat> := [0xFF, 0xFF, 0xFF, 0x7F];
    assert FromBytes(r[3..]) == 0x7F;
    assert FromBytes(r[2..]) == 0x7FFF;
    assert FromBytes(r[1..]) == 0x7F_FFFF;
  }

  lemma SwapOfZero()
    ensures SwapBytes(0, 2) == 0
  {
    BaseValues();
    var b := ToBytes(Unsigned(0, 2), 2);
    assert b == [0, 0];
    assert Reverse(b) == [0, 0];
  }
}
