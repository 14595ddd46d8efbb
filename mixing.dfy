/**
 * The tail of the output callback: each channel's converted samples are
 * added into the hardware half-buffer (`*asio_s += ...`), after zeroing it
 * when this callback is the one that silences the half.
 *
 * The i32/i16 `+=` is modelled with two's-complement wrap-around (a release
 * build; a debug build would panic on overflow instead).
 */
module Mixing {
  import opened EndianCodec
  import opened SampleConversion

  /** A channel's samples as the output path converts them for the hardware. */
  function ConvertOutput(samples: seq<int>, t: AsioSampleType, host: Endian): (r: seq<int>)
    requires IsInteger(t)
    ensures |r| == |samples|
  {
    if samples == [] then [] else [OutputSample(t, samples[0], host)] + ConvertOutput(samples[1..], t, host)
  }

  /** Sample k of a converted channel is the conversion of sample k. */
  lemma {:induction false} ConvertOutputAt(samples: seq<int>, t: AsioSampleType, host: Endian, k: nat)
    requires IsInteger(t) && k < |samples|
    ensures ConvertOutput(samples, t, host)[k] == OutputSample(t, samples[k], host)
  {
    if k > 0 {
      assert samples[1..][k - 1] == samples[k];
      ConvertOutputAt(samples[1..], t, host, k - 1);
      assert ConvertOutput(samples, t, host)[k] == ConvertOutput(samples[1..], t, host)[k - 1];
    }
  }

  /** `*asio_s` after `if silence { *asio_s = 0 } *asio_s += converted`. */
  function Accumulate(prior: int, converted: int, silence: bool, w: IntWidth): int {
    Narrow((if silence then 0 else prior) + converted, w)
  }

  /**
   * One channel's half-buffer after mixing in converted samples: the zip of
   * the buffer with the samples is accumulated; hardware samples beyond the
   * shorter of the two are left as they were, even when silencing.
   */
  function MixedChannel(hw: seq<int>, converted: seq<int>, silence: bool, w: IntWidth): (r: seq<int>)
    ensures |r| == |hw|
    ensures forall k :: 0 <= k < |hw| && k < |converted| ==>
      r[k] == Accumulate(hw[k], converted[k], silence, w)
    ensures forall k :: |converted| <= k < |hw| ==> r[k] == hw[k]
  {
    if hw == [] || converted == [] then hw
    else [Accumulate(hw[0], converted[0], silence, w)] + MixedChannel(hw[1..], converted[1..], silence, w)
  }

  /** The inner loop over `asio_buffer.iter_mut().zip(channel)`. */
  method MixChannel(asio: array<int>, samples: seq<int>, silence: bool, t: AsioSampleType, host: Endian)
    requires IsInteger(t)
    modifies asio
    ensures asio[..] == MixedChannel(old(asio[..]), ConvertOutput(samples, t, host), silence, WidthOf(t))
  {
    ghost var hw := asio[..];
    ghost var target := MixedChannel(hw, ConvertOutput(samples, t, host), silence, WidthOf(t));
    var k := 0;
    while k < asio.Length && k < |samples|
      invariant 0 <= k <= asio.Length && k <= |samples|
      invariant forall j :: 0 <= j < k ==> asio[j] == target[j]
      invariant forall j :: k <= j < asio.Length ==> asio[j] == hw[j]
    {
      var converted := OutputSample(t, samples[k], host);
      assert target[k] == Accumulate(hw[k], converted, silence, WidthOf(t)) by {
        ConvertOutputAt(samples, t, host, k);
      }
      MixSample(asio, k, converted, silence, WidthOf(t));
      k := k + 1;
    }
    assert asio[..] == target;
  }

  /** `if silence { *asio_s = 0 } *asio_s += converted` for one sample. */
  method MixSample(asio: array<int>, k: nat, converted: int, silence: bool, w: IntWidth)
    requires k < asio.Length
    modifies asio
    ensures asio[k] == Accumulate(old(asio[k]), converted, silence, w)
    ensures forall j :: 0 <= j < asio.Length && j != k ==> asio[j] == old(asio[j])
  {
    if silence {
      asio[k] := 0;
    }
    asio[k] := Narrow(asio[k] + converted, w);
  }

  /** Within one half, the channels' buffers are distinct arrays. */
  predicate Distinct(halves: seq<array<int>>) {
    forall i, j :: 0 <= i < j < |halves| ==> halves[i] != halves[j]
  }

  /**
   * The outer loop over `my_buffers.channel`: channel `i` is mixed into
   * `halves[i]`; the halves of channels beyond the stream's own are untouched.
   */
  method MixHalves(halves: seq<array<int>>, channels: seq<seq<int>>, silence: bool, t: AsioSampleType, host: Endian)
    requires IsInteger(t) && |channels| <= |halves| && Distinct(halves)
    modifies set i | 0 <= i < |halves| :: halves[i]
    ensures forall i :: 0 <= i < |channels| ==>
      halves[i][..] == MixedChannel(old(halves[i][..]), ConvertOutput(channels[i], t, host), silence, WidthOf(t))
    ensures forall i :: |channels| <= i < |halves| ==> halves[i][..] == old(halves[i][..])
  {
    var i := 0;
    while i < |channels|
      invariant 0 <= i <= |channels|
      invariant forall j :: 0 <= j < i ==>
        halves[j][..] == MixedChannel(old(halves[j][..]), ConvertOutput(channels[j], t, host), silence, WidthOf(t))
      invariant forall j :: i <= j < |halves| ==> halves[j][..] == old(halves[j][..])
    {
      MixChannel(halves[i], channels[i], silence, t, host);
      i := i + 1;
    }
  }

  /** Every stream's converted sample at position k, summed. */
  function SampleSum(streams: seq<seq<int>>, k: nat): int
    requires forall j :: 0 <= j < |streams| ==> k < |streams[j]|
  {
    if streams == [] then 0
    else SampleSum(streams[..|streams| - 1], k) + streams[|streams| - 1][k]
  }

  /**
   * One fill cycle of a half-buffer by several playing output streams (their
   * converted samples in callback order): the first callback silences the
   * half, every later one only accumulates.
   */
  function MixCycle(hw: seq<int>, streams: seq<seq<int>>, w: IntWidth): (r: seq<int>)
    ensures |r| == |hw|
  {
    if streams == [] then hw
    else MixedChannel(MixCycle(hw, streams[..|streams| - 1], w), streams[|streams| - 1], |streams| == 1, w)
  }

  /**
   * After a fill cycle, every hardware sample that all streams cover holds
   * the wrapped sum of their converted samples: stale data never leaks in
   * and no stream's contribution is lost.
   */
  lemma {:induction false} MixCycleSums(hw: seq<int>, streams: seq<seq<int>>, w: IntWidth, k: nat)
    requires streams != [] && k < |hw|
    requires forall j :: 0 <= j < |streams| ==> k < |streams[j]|
    ensures MixCycle(hw, streams, w)[k] == Narrow(SampleSum(streams, k), w)
  {
    var last := streams[|streams| - 1];
    var init := streams[..|streams| - 1];
    var before := MixCycle(hw, init, w);
    assert MixCycle(hw, streams, w)[k] == Accumulate(before[k], last[k], |streams| == 1, w);
    if |streams| == 1 {
      assert init == [];
    } else {
      MixCycleSums(hw, init, w, k);
      NarrowAddNarrow(SampleSum(init, k), last[k], w);
    }
  }

  /**
   * Two playing output streams in one fill cycle: where both have a
   * sample, the half-buffer ends up holding the wrapped sum of their
   * converted samples, whatever it held before.
   */
  lemma TwoStreamsMix(hw: seq<int>, x1: seq<int>, x2: seq<int>, w: IntWidth, k: nat)
    requires k < |hw| && k < |x1| && k < |x2| && InRange(x1[k], Bytes(w))
    ensures MixedChannel(MixedChannel(hw, x1, true, w), x2, false, w)[k] == Narrow(x1[k] + x2[k], w)
  {
    SilencingStores(hw, x1, w, k);
    AccumulateStep(MixedChannel(hw, x1, true, w), x2, w, k);
  }

  /** A callback that does not silence adds its converted sample to what the half holds. */
  lemma AccumulateStep(hw: seq<int>, x: seq<int>, w: IntWidth, k: nat)
    requires k < |hw| && k < |x|
    ensures MixedChannel(hw, x, false, w)[k] == Narrow(hw[k] + x[k], w)
  {
  }

  /** The callback that silences a half stores its own converted sample there. */
  lemma SilencingStores(hw: seq<int>, x: seq<int>, w: IntWidth, k: nat)
    requires k < |hw| && k < |x| && InRange(x[k], Bytes(w))
    ensures MixedChannel(hw, x, true, w)[k] == x[k]
  {
    NarrowInRange(x[k], w);
  }
}
