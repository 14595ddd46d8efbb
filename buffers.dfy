/**
 * The per-stream scratch buffers a callback closure owns (`I16Buffer`),
 * the conversion of one hardware half-buffer into a channel (input path),
 * and the state a `set_callback` closure captures.
 */
module Buffers {
  import opened EndianCodec
  import opened SampleConversion

  /** Every hardware sample of one channel converted for the input path. */
  function ConvertChannel(raw: seq<int>, t: AsioSampleType, host: Endian): (r: seq<int>)
    requires IsInteger(t)
    ensures |r| == |raw|
  {
    if raw == [] then [] else [InputSample(t, raw[0], host)] + ConvertChannel(raw[1..], t, host)
  }

  /** Sample k of a converted channel is the conversion of hardware sample k. */
  lemma {:induction false} ConvertChannelAt(raw: seq<int>, t: AsioSampleType, host: Endian, k: nat)
    requires IsInteger(t) && k < |raw|
    ensures ConvertChannel(raw, t, host)[k] == InputSample(t, raw[k], host)
  {
    if k > 0 {
      assert raw[1..][k - 1] == raw[k];
      ConvertChannelAt(raw[1..], t, host, k - 1);
      assert ConvertChannel(raw, t, host)[k] == ConvertChannel(raw[1..], t, host)[k - 1];
    }
  }

  /**
   * `I16Buffer`: the interleaved buffer handed to the user (`cpal`) and one
   * scratch vector per channel (`channel`).
   */
  class I16Buffer {
    var cpal: seq<int>
    var channel: seq<seq<int>>

    /** The buffers built for an I16 stream: `cpal` zeroed, each channel empty. */
    constructor (numSamples: nat, numChannels: nat)
      ensures cpal == seq(numSamples, _ => 0)
      ensures channel == seq(numChannels, _ => [])
    {
      cpal := seq(numSamples, _ => 0);
      channel := seq(numChannels, _ => []);
    }

    /** `I16Buffer::default()`: what a stream of any other format gets. */
    constructor Empty()
      ensures cpal == [] && channel == []
    {
      cpal := [];
      channel := [];
    }

    predicate Cleared()
      reads this
    {
      forall i :: 0 <= i < |channel| ==> channel[i] == []
    }

    /**
     * The input callback's nested loops: for each channel `i`, push the
     * converted sample of every hardware sample of half-buffer `halves[i]`.
     */
    method FillChannels(halves: seq<array<int>>, t: AsioSampleType, host: Endian)
      requires IsInteger(t) && |channel| <= |halves|
      modifies this
      ensures cpal == old(cpal) && |channel| == old(|channel|)
      ensures forall i :: 0 <= i < |channel| ==>
        channel[i] == old(channel[i]) + ConvertChannel(halves[i][..], t, host)
    {
      var i := 0;
      while i < |channel|
        invariant 0 <= i <= |channel| == old(|channel|)
        invariant cpal == old(cpal)
        invariant forall j :: 0 <= j < i ==>
          channel[j] == old(channel[j]) + ConvertChannel(halves[j][..], t, host)
        invariant forall j :: i <= j < |channel| ==> channel[j] == old(channel[j])
      {
        var pushed := PushConverted(channel[i], halves[i], t, host);
        channel := channel[i := pushed];
        i := i + 1;
      }
    }

    /** `for c in channels.iter_mut() { c.clear(); }` */
    method ClearChannels()
      modifies this
      ensures cpal == old(cpal) && |channel| == old(|channel|)
      ensures Cleared()
    {
      var i := 0;
      while i < |channel|
        invariant 0 <= i <= |channel| == old(|channel|)
        invariant cpal == old(cpal)
        invariant forall j :: 0 <= j < i ==> channel[j] == []
      {
        channel := channel[i := []];
        i := i + 1;
      }
    }
  }

  /** `for asio_s in asio_buffer.iter() { channel.push(convert(asio_s)) }` */
  method PushConverted(channel: seq<int>, asio: array<int>, t: AsioSampleType, host: Endian) returns (pushed: seq<int>)
    requires IsInteger(t)
    ensures pushed == channel + ConvertChannel(asio[..], t, host)
  {
    pushed := channel;
    ghost var raw := asio[..];
    var k := 0;
    while k < asio.Length
      invariant 0 <= k <= asio.Length
      invariant pushed == channel + ConvertChannel(raw[..k], t, host)
    {
      var sample := asio[k];
      ConvertStep(channel, raw, k, t, host);
      pushed := pushed + [InputSample(t, sample, host)];
      k := k + 1;
    }
    assert raw[..k] == raw;
  }

  /** Pushing the conversion of one more sample extends the converted prefix. */
  lemma ConvertStep(channel: seq<int>, raw: seq<int>, k: nat, t: AsioSampleType, host: Endian)
    requires IsInteger(t) && k < |raw|
    ensures channel + ConvertChannel(raw[..k + 1], t, host) ==
      channel + ConvertChannel(raw[..k], t, host) + [InputSample(t, raw[k], host)]
  {
    assert raw[..k + 1] == raw[..k] + [raw[k]];
    ConvertAppend(raw[..k], raw[k], t, host);
  }

  lemma {:induction false} ConvertAppend(raw: seq<int>, x: int, t: AsioSampleType, host: Endian)
    requires IsInteger(t)
    ensures ConvertChannel(raw + [x], t, host) == ConvertChannel(raw, t, host) + [InputSample(t, x, host)]
  {
    if raw != [] {
      assert (raw + [x])[1..] == raw[1..] + [x];
      ConvertAppend(raw[1..], x, t, host);
    }
  }

  /** Which hardware stream a closure reads from or writes to. */
  datatype Direction = Input | Output

  /**
   * The state a `set_callback` closure captures: the id it was built with
   * (`count`), its direction, the hardware sample type read at build time,
   * and its own scratch buffers.
   */
  class StreamCallback {
    const count: nat
    const direction: Direction
    const streamType: AsioSampleType
    const buffers: I16Buffer

    constructor (count: nat, direction: Direction, streamType: AsioSampleType, buffers: I16Buffer)
      ensures this.count == count && this.direction == direction
      ensures this.streamType == streamType && this.buffers == buffers
    {
      this.count := count;
      this.direction := direction;
      this.streamType := streamType;
      this.buffers := buffers;
    }
  }
}
