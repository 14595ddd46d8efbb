/**
 * Fixed-width two's-complement integers as byte strings, and the two
 * endianness helpers `convert_endian_to` / `convert_endian_from`.
 *
 * A Rust `to_be`/`to_le`/`from_be`/`from_le` call is the identity when the
 * requested byte order is the host's and a byte swap otherwise; the host
 * byte order is therefore a parameter here.
 */
module EndianCodec {

  datatype Endian = Little | Big

  /** 256^n: the number of distinct n-byte values. */
  function Base(n: nat): (r: nat)
    ensures r >= 1
  {
    if n == 0 then 1 else 256 * Base(n - 1)
  }

  /** 2^(8n-1): one more than the largest signed n-byte value. */
  function Half(n: nat): (r: nat)
    requires n >= 1
    ensures 2 * r == Base(n)
  {
    128 * Base(n - 1)
  }

  lemma BaseValues()
    ensures Base(1) == 256 && Base(2) == 0x1_0000 && Base(3) == 0x100_0000 && Base(4) == 0x1_0000_0000
    ensures Half(2) == 0x8000 && Half(4) == 0x8000_0000
  {
  }

  /** The values of a signed n-byte integer (i16 for n = 2, i32 for n = 4). */
  predicate InRange(x: int, n: nat)
    requires n >= 1
  {
    -(Half(n) as int) <= x < Half(n)
  }

  /** Reinterpret a signed value's bits as unsigned. */
  function Unsigned(x: int, n: nat): (u: nat)
    requires n >= 1 && InRange(x, n)
    ensures u < Base(n)
    ensures u < Half(n) <==> x >= 0
  {
    if x < 0 then x + Base(n) else x
  }

  /** Reinterpret an unsigned value's bits as signed. */
  function Signed(u: nat, n: nat): (x: int)
    requires n >= 1 && u < Base(n)
    ensures InRange(x, n)
    ensures Unsigned(x, n) == u
  {
    if u >= Half(n) then u - Base(n) else u
  }

  lemma SignedUnsigned(x: int, n: nat)
    requires n >= 1 && InRange(x, n)
    ensures Signed(Unsigned(x, n), n) == x
  {
  }

  /** Euclidean division is determined by any quotient/remainder pair. */
  lemma DivModUnique(x: int, m: int, q: int, r: int)
    requires m > 0 && x == q * m + r && 0 <= r < m
    ensures x / m == q && x % m == r
  {
    var q', r' := x / m, x % m;
    var d := q - q';
    assert d * m == r' - r;
    MulBounds(d, m);
    if d >= 1 {
      assert false;
    } else if d <= -1 {
      assert false;
    }
  }

  /** A non-zero multiple of m is at least m away from zero. */
  lemma MulBounds(d: int, m: int)
    requires m > 0
    ensures d >= 1 ==> d * m >= m
    ensures d <= -1 ==> d * m <= -m
  {
    if d >= 1 {
      MulAtLeast(d, m);
    } else if d <= -1 {
      MulAtLeast(-d, m);
      assert d * m == -((-d) * m);
    }
  }

  lemma {:induction false} MulAtLeast(d: int, m: int)
    requires d >= 1 && m > 0
    ensures d * m >= m
    decreases d
  {
    if d > 1 {
      MulAtLeast(d - 1, m);
      assert d * m == (d - 1) * m + m;
    }
  }

  /** Little-endian bytes of an unsigned value below 256^n. */
  function ToBytes(u: nat, n: nat): (b: seq<nat>)
    requires u < Base(n)
    ensures |b| == n
    ensures forall i :: 0 <= i < |b| ==> b[i] < 256
  {
    if n == 0 then [] else [u % 256] + ToBytes(u / 256, n - 1)
  }

  /** The unsigned value whose little-endian bytes are b. */
  function FromBytes(b: seq<nat>): (u: nat)
    requires forall i :: 0 <= i < |b| ==> b[i] < 256
    ensures u < Base(|b|)
  {
    if b == [] then 0 else b[0] + 256 * FromBytes(b[1..])
  }

  lemma {:induction false} FromToBytes(u: nat, n: nat)
    requires u < Base(n)
    ensures FromBytes(ToBytes(u, n)) == u
  {
    if n > 0 {
      FromToBytes(u / 256, n - 1);
      assert ToBytes(u, n)[1..] == ToBytes(u / 256, n - 1);
    }
  }

  lemma {:induction false} ToFromBytes(b: seq<nat>)
    requires forall i :: 0 <= i < |b| ==> b[i] < 256
    ensures ToBytes(FromBytes(b), |b|) == b
  {
    if b != [] {
      var rest := FromBytes(b[1..]);
      assert (b[0] + 256 * rest) % 256 == b[0];
      assert (b[0] + 256 * rest) / 256 == rest;
      ToFromBytes(b[1..]);
    }
  }

  function Reverse(s: seq<nat>): (r: seq<nat>)
    ensures |r| == |s|
    ensures forall i :: 0 <= i < |s| ==> r[i] == s[|s| - 1 - i]
  {
    if s == [] then [] else Reverse(s[1..]) + [s[0]]
  }

  lemma ReverseReverse(s: seq<nat>)
    ensures Reverse(Reverse(s)) == s
  {
    assert forall i :: 0 <= i < |s| ==> Reverse(Reverse(s))[i] == s[i];
  }

  /** Reverse the byte order of a signed n-byte value. */
  function SwapBytes(x: int, n: nat): (r: int)
    requires n >= 1 && InRange(x, n)
    ensures InRange(r, n)
  {
    Signed(FromBytes(Reverse(ToBytes(Unsigned(x, n), n))), n)
  }

  /** Swapping twice restores the value, for every width. */
  lemma SwapBytesInvolution(x: int, n: nat)
    requires n >= 1 && InRange(x, n)
    ensures SwapBytes(SwapBytes(x, n), n) == x
  {
    var b := ToBytes(Unsigned(x, n), n);
    var r := Reverse(b);
    var y := SwapBytes(x, n);
    assert Unsigned(y, n) == FromBytes(r);
    ToFromBytes(r);
    ReverseReverse(b);
    FromToBytes(Unsigned(x, n), n);
    SignedUnsigned(x, n);
  }

  /**
   * `convert_endian_to(sample, endian)`: `sample.to_be()` for Big and
   * `sample.to_le()` for Little, on a host of byte order `host`.
   */
  function ConvertEndianTo(sample: int, endian: Endian, host: Endian, n: nat): (r: int)
    requires n >= 1 && InRange(sample, n)
    ensures InRange(r, n)
    ensures endian == host ==> r == sample
    ensures endian != host ==> r == SwapBytes(sample, n)
  {
    match endian
    case Big => if host == Big then sample else SwapBytes(sample, n)
    case Little => if host == Little then sample else SwapBytes(sample, n)
  }

  /**
   * `convert_endian_from(sample, endian)`: `T::from_be(sample)` for Big and
   * `T::from_le(sample)` for Little, on a host of byte order `host`.
   */
  function ConvertEndianFrom(sample: int, endian: Endian, host: Endian, n: nat): (r: int)
    requires n >= 1 && InRange(sample, n)
    ensures InRange(r, n)
    ensures endian == host ==> r == sample
    ensures endian != host ==> SwapBytes(r, n) == sample
  {
    if endian == host then sample
    else
      SwapBytesInvolution(sample, n);
      SwapBytes(sample, n)
  }

  /** from(to(x, e), e) == x for both byte orders, every width and either host. */
  lemma EndianRoundTrip(x: int, e: Endian, host: Endian, n: nat)
    requires n >= 1 && InRange(x, n)
    ensures ConvertEndianFrom(ConvertEndianTo(x, e, host, n), e, host, n) == x
    ensures ConvertEndianTo(ConvertEndianFrom(x, e, host, n), e, host, n) == x
  {
    if e != host {
      SwapBytesInvolution(x, n);
    }
  }
}
