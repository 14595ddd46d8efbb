/**
 * A stand-in for the `asio_sys` driver the event loop talks to. The driver
 * itself is foreign code; here it is a class whose fields are its observable
 * state (current sample rate, the rates it accepts, its native sample type,
 * the devices' default channel counts, whether the next stream preparation
 * succeeds and with what buffer size) and which records every call the
 * event loop makes on it.
 */
module AsioSys {
  import opened Outcomes
  import opened SampleConversion
  import opened Silence
  import opened Buffers

  /** One channel's two half-buffers (`buffer_infos[i].buffers`). */
  datatype BufferInfo = BufferInfo(first: array<int>, second: array<int>) {
    function Half(index: nat): array<int>
      requires index < 2
    {
      if index == 0 then first else second
    }
  }

  /** A hardware stream: its fixed half-buffer size and one entry per channel. */
  datatype AsioStream = AsioStream(bufferSize: nat, bufferInfos: seq<BufferInfo>)

  /**
   * Every half-buffer holds `bufferSize` samples, and within one half no two
   * channels share memory.
   */
  predicate ValidStream(s: AsioStream) {
    (forall i :: 0 <= i < |s.bufferInfos| ==>
      s.bufferInfos[i].first.Length == s.bufferSize && s.bufferInfos[i].second.Length == s.bufferSize) &&
    (forall i, j, h :: 0 <= i < j < |s.bufferInfos| && 0 <= h < 2 ==>
      s.bufferInfos[i].Half(h) != s.bufferInfos[j].Half(h))
  }

  /** The half-buffers of every channel for one index. */
  function Halves(s: AsioStream, index: nat): (r: seq<array<int>>)
    requires index < 2
    ensures |r| == |s.bufferInfos|
    ensures forall i :: 0 <= i < |r| ==> r[i] == s.bufferInfos[i].Half(index)
  {
    seq(|s.bufferInfos|, i requires 0 <= i < |s.bufferInfos| => s.bufferInfos[i].Half(index))
  }

  /** `sys::AsioStreams`: at most one input and one output hardware stream. */
  datatype AsioStreams = AsioStreams(input: Option<AsioStream>, output: Option<AsioStream>)

  predicate ValidStreams(s: AsioStreams) {
    (s.input.Some? ==> ValidStream(s.input.value)) &&
    (s.output.Some? ==> ValidStream(s.output.value))
  }

  /** The calls the event loop makes on the driver, in order. */
  datatype DriverCall =
    | RateSet(rate: nat)
    | InputPrepared(channels: nat)
    | OutputPrepared(channels: nat)
    | CallbackSet(count: nat)
    | Started
    | Stopped

  datatype AsioError = NoDrivers | HardwareMalfunction

  class Driver {
    var sampleRate: nat
    /** The rates `can_sample_rate` accepts. */
    const supportedRates: set<nat>
    /** The answer of `get_data_type`. */
    const dataType: AsioSampleType
    /** The channel count of the device's default input format, if it has one. */
    const inputChannels: Option<nat>
    /** The channel count of the device's default output format, if it has one. */
    const outputChannels: Option<nat>
    /** Whether the next `prepare_*_stream` succeeds, and the buffer size it picks. */
    var prepareSucceeds: bool
    var preferredBufferSize: nat
    /** `sys::SILENCE_FIRST` and `sys::SILENCE_SECOND`. */
    const silence: SilenceFlags
    /** The closures registered with `set_callback`, in order. */
    var callbacks: seq<StreamCallback>
    var calls: seq<DriverCall>

    constructor (rate: nat, supportedRates: set<nat>, dataType: AsioSampleType,
                 inputChannels: Option<nat>, outputChannels: Option<nat>,
                 prepareSucceeds: bool, preferredBufferSize: nat)
      ensures this.sampleRate == rate && this.supportedRates == supportedRates
      ensures this.dataType == dataType
      ensures this.inputChannels == inputChannels && this.outputChannels == outputChannels
      ensures this.prepareSucceeds == prepareSucceeds && this.preferredBufferSize == preferredBufferSize
      ensures fresh(silence) && silence.Value() == Initial
      ensures callbacks == [] && calls == []
    {
      this.sampleRate := rate;
      this.supportedRates := supportedRates;
      this.dataType := dataType;
      this.inputChannels := inputChannels;
      this.outputChannels := outputChannels;
      this.prepareSucceeds := prepareSucceeds;
      this.preferredBufferSize := preferredBufferSize;
      this.silence := new SilenceFlags();
      this.callbacks := [];
      this.calls := [];
    }

    /** `can_sample_rate`. */
    predicate CanSampleRate(rate: nat)
      reads this
    {
      rate in supportedRates
    }

    /** `set_sample_rate(rate).expect(..)`: only called with a rate it accepts. */
    method SetSampleRate(rate: nat)
      requires CanSampleRate(rate)
      modifies this
      ensures sampleRate == rate && calls == old(calls) + [RateSet(rate)]
      ensures prepareSucceeds == old(prepareSucceeds) && preferredBufferSize == old(preferredBufferSize)
      ensures callbacks == old(callbacks)
    {
      sampleRate := rate;
      calls := calls + [RateSet(rate)];
    }

    /**
     * `prepare_input_stream(output, channels)`: on success a new input stream
     * with the requested channels, and the given output stream (if any)
     * recreated with the same buffer size.
     */
    method PrepareInput(output: Option<AsioStream>, numChannels: nat) returns (r: Result<AsioStreams, AsioError>)
      modifies this
      ensures calls == old(calls) + [InputPrepared(numChannels)]
      ensures sampleRate == old(sampleRate) && callbacks == old(callbacks)
      ensures prepareSucceeds == old(prepareSucceeds) && preferredBufferSize == old(preferredBufferSize)
      ensures r.Ok? <==> prepareSucceeds
      ensures r.Ok? ==> ValidStreams(r.value) && r.value.input.Some?
      ensures r.Ok? ==> r.value.input.value.bufferSize == preferredBufferSize
      ensures r.Ok? ==> |r.value.input.value.bufferInfos| == numChannels
      ensures r.Ok? ==> r.value.output.Some? == output.Some?
      ensures r.Ok? && output.Some? ==> |r.value.output.value.bufferInfos| == |output.value.bufferInfos|
    {
      calls := calls + [InputPrepared(numChannels)];
      if !prepareSucceeds {
        return Err(HardwareMalfunction);
      }
      var input := NewStream(preferredBufferSize, numChannels);
      var recreated := None;
      if output.Some? {
        var o := NewStream(preferredBufferSize, |output.value.bufferInfos|);
        recreated := Some(o);
      }
      r := Ok(AsioStreams(Some(input), recreated));
    }

    /** `prepare_output_stream(input, channels)`, the mirror image of `PrepareInput`. */
    method PrepareOutput(input: Option<AsioStream>, numChannels: nat) returns (r: Result<AsioStreams, AsioError>)
      modifies this
      ensures calls == old(calls) + [OutputPrepared(numChannels)]
      ensures sampleRate == old(sampleRate) && callbacks == old(callbacks)
      ensures prepareSucceeds == old(prepareSucceeds) && preferredBufferSize == old(preferredBufferSize)
      ensures r.Ok? <==> prepareSucceeds
      ensures r.Ok? ==> ValidStreams(r.value) && r.value.output.Some?
      ensures r.Ok? ==> r.value.output.value.bufferSize == preferredBufferSize
      ensures r.Ok? ==> |r.value.output.value.bufferInfos| == numChannels
      ensures r.Ok? ==> r.value.input.Some? == input.Some?
      ensures r.Ok? && input.Some? ==> |r.value.input.value.bufferInfos| == |input.value.bufferInfos|
    {
      calls := calls + [OutputPrepared(numChannels)];
      if !prepareSucceeds {
        return Err(HardwareMalfunction);
      }
      var output := NewStream(preferredBufferSize, numChannels);
      var recreated := None;
      if input.Some? {
        var i := NewStream(preferredBufferSize, |input.value.bufferInfos|);
        recreated := Some(i);
      }
      r := Ok(AsioStreams(recreated, Some(output)));
    }

    /** `set_callback(closure)`: the closure is added to those the driver invokes. */
    method SetCallback(cb: StreamCallback)
      modifies this
      ensures callbacks == old(callbacks) + [cb] && calls == old(calls) + [CallbackSet(cb.count)]
      ensures sampleRate == old(sampleRate)
      ensures prepareSucceeds == old(prepareSucceeds) && preferredBufferSize == old(preferredBufferSize)
    {
      callbacks := callbacks + [cb];
      calls := calls + [CallbackSet(cb.count)];
    }

    /** `sys::play()`. */
    method Play()
      modifies this
      ensures calls == old(calls) + [Started] && callbacks == old(callbacks)
      ensures sampleRate == old(sampleRate)
      ensures prepareSucceeds == old(prepareSucceeds) && preferredBufferSize == old(preferredBufferSize)
    {
      calls := calls + [Started];
    }

    /** `sys::stop()`. */
    method Stop()
      modifies this
      ensures calls == old(calls) + [Stopped] && callbacks == old(callbacks)
      ensures sampleRate == old(sampleRate)
      ensures prepareSucceeds == old(prepareSucceeds) && preferredBufferSize == old(preferredBufferSize)
    {
      calls := calls + [Stopped];
    }
  }

  /** Fresh zeroed half-buffers for `numChannels` channels. */
  method NewStream(bufferSize: nat, numChannels: nat) returns (s: AsioStream)
    ensures ValidStream(s) && s.bufferSize == bufferSize && |s.bufferInfos| == numChannels
    ensures forall i, h :: 0 <= i < numChannels && 0 <= h < 2 ==> fresh(s.bufferInfos[i].Half(h))
  {
    var infos: seq<BufferInfo> := [];
    while |infos| < numChannels
      invariant |infos| <= numChannels
      invariant ValidStream(AsioStream(bufferSize, infos))
      invariant forall i, h :: 0 <= i < |infos| && 0 <= h < 2 ==> fresh(infos[i].Half(h))
    {
      var a := new int[bufferSize](_ => 0);
      var b := new int[bufferSize](_ => 0);
      infos := infos + [BufferInfo(a, b)];
    }
    s := AsioStream(bufferSize, infos);
  }
}
