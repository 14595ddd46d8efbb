/**
 * The ASIO `EventLoop`: the registry of CPAL streams laid over one shared
 * hardware input stream and one shared hardware output stream, the
 * building, playing, pausing and destroying of CPAL streams, and the two
 * closures the driver calls at every half-buffer swap.
 *
 * The `Arc<Mutex<..>>` fields and the atomic counter are plain fields: the
 * model is sequential. The host is little-endian (ASIO is Windows-only).
 */
module AsioEventLoop {
  import opened Outcomes
  import opened EndianCodec
  import opened SampleConversion
  import opened Silence
  import opened Buffers
  import opened AsioSys
  import opened Registry
  import opened Mixing

  /** The byte order of the machine the driver runs on. */
  const Host: Endian := Little

  /** CPAL's logical sample formats. */
  datatype SampleFormat = I16 | U16 | F32

  /** The format a CPAL stream is requested with. */
  datatype Format = Format(channels: nat, sampleRate: nat, dataType: SampleFormat)

  datatype BuildStreamError = FormatNotSupported | DeviceNotAvailable

  /**
   * The verdict of `check_format` for a device whose default format has
   * `numAsioChannels` channels, while the driver runs at `rate` and accepts
   * the rates in `supported`.
   */
  function FormatCheck(format: Format, rate: nat, supported: set<nat>, numAsioChannels: nat): (r: Result<Unit, BuildStreamError>)
    ensures r.Ok? <==>
      (format.sampleRate == rate || format.sampleRate in supported) &&
      format.dataType != U16 && format.channels <= numAsioChannels
    ensures r.Err? ==> r.error == FormatNotSupported
  {
    if format.sampleRate != rate && format.sampleRate !in supported then Err(FormatNotSupported)
    else if format.dataType == U16 then Err(FormatNotSupported)
    else if format.channels > numAsioChannels then Err(FormatNotSupported)
    else Ok(Unit)
  }

  /**
   * The driver's sample rate after `check_format`: switched to the requested
   * rate whenever it differs and the driver accepts it, before any other
   * test is made.
   */
  function RateAfterCheck(format: Format, rate: nat, supported: set<nat>): (r: nat)
    ensures r == rate || (r == format.sampleRate && r in supported)
    ensures r == format.sampleRate <==> format.sampleRate == rate || format.sampleRate in supported
  {
    if format.sampleRate != rate && format.sampleRate in supported then format.sampleRate else rate
  }

  /**
   * A rejected format can still leave the driver at a new rate: the rate is
   * set before the sample format and the channel count are looked at.
   */
  lemma RejectionAfterRateChange(format: Format, rate: nat, supported: set<nat>, numAsioChannels: nat)
    requires format.sampleRate != rate && format.sampleRate in supported
    requires format.dataType == U16 || format.channels > numAsioChannels
    ensures FormatCheck(format, rate, supported, numAsioChannels) == Err(FormatNotSupported)
    ensures RateAfterCheck(format, rate, supported) == format.sampleRate
  {
  }

  /**
   * `check_format` against the device's default format of one direction:
   * a device without one rejects every format, and leaves the rate alone.
   */
  function DeviceCheck(channels: Option<nat>, format: Format, rate: nat, supported: set<nat>): (r: Result<Unit, BuildStreamError>)
    ensures channels.None? ==> r == Err(FormatNotSupported)
    ensures channels.Some? ==> r == FormatCheck(format, rate, supported, channels.value)
  {
    match channels
    case None => Err(FormatNotSupported)
    case Some(n) => FormatCheck(format, rate, supported, n)
  }

  /**
   * The driver's rate after `check_format` on one direction: a device
   * without a default format is rejected before the rate is looked at.
   */
  function DeviceRate(channels: Option<nat>, format: Format, rate: nat, supported: set<nat>): nat {
    if channels.Some? then RateAfterCheck(format, rate, supported) else rate
  }

  /**
   * The driver calls of `get_input_stream` / `get_output_stream`, in order:
   * the `set_sample_rate` of `check_format` when the rate moved from
   * `oldRate` to `newRate`, then the stream preparation `prepared` when the
   * format passed and the direction had no hardware stream.
   */
  function StreamCalls(oldRate: nat, newRate: nat, check: Result<Unit, BuildStreamError>,
                       current: Option<AsioStream>, prepared: DriverCall): seq<DriverCall>
  {
    (if newRate != oldRate then [RateSet(newRate)] else []) +
    (if check.Ok? && current.None? then [prepared] else [])
  }

  /**
   * What `get_input_stream` / `get_output_stream` return: the format
   * check's error; else the buffer size of the direction's existing stream,
   * with no comparison of channel counts; else the buffer size of a newly
   * prepared stream, or `DeviceNotAvailable` when preparation fails.
   */
  function StreamRequest(current: Option<AsioStream>, check: Result<Unit, BuildStreamError>,
                         prepareSucceeds: bool, preferred: nat): (r: Result<nat, BuildStreamError>)
    ensures r.Ok? <==> check.Ok? && (current.Some? || prepareSucceeds)
    ensures r.Ok? && current.Some? ==> r.value == current.value.bufferSize
    ensures r.Ok? && current.None? ==> r.value == preferred
    ensures r.Err? && check.Ok? ==> r.error == DeviceNotAvailable && current.None?
    ensures check.Err? ==> r == Err(check.error)
  {
    if check.Err? then Err(check.error)
    else if current.Some? then Ok(current.value.bufferSize)
    else if prepareSucceeds then Ok(preferred)
    else Err(DeviceNotAvailable)
  }

  /**
   * Whether a closure built with id `count` gets past its guards: its
   * stream is not known to be paused, the hardware stream of its direction
   * exists and a user callback is registered.
   */
  predicate Runs(slots: Slots, count: nat, hw: Option<AsioStream>, userCallback: bool) {
    !SkipsAsPaused(slots, count) && hw.Some? && userCallback
  }

  /**
   * The gate: a closure does its work exactly when its stream is playing or
   * has no slot, provided the hardware stream and the user callback exist.
   */
  lemma {:induction false} GateOpensIffPlaying(slots: Slots, count: nat, hw: Option<AsioStream>, userCallback: bool)
    requires NoHoles(slots)
    ensures Runs(slots, count, hw, userCallback) <==>
      (count >= |slots| || slots[count].value.playing) && hw.Some? && userCallback
    ensures Runs(slots, count, hw, userCallback) && count < |slots| ==> IsPlaying(slots[count])
  {
  }

  /** The half-buffers of one index, as the set of arrays a mix may write. */
  function HalfSet(s: AsioStream, index: nat): set<array<int>>
    requires index < 2
  {
    set i | 0 <= i < |s.bufferInfos| :: s.bufferInfos[i].Half(index)
  }

  /** Within one half of a valid stream, the channels' arrays are distinct. */
  lemma {:induction false} HalvesDistinct(s: AsioStream, index: nat)
    requires ValidStream(s) && index < 2
    ensures Distinct(Halves(s, index))
    ensures HalfSet(s, index) == set i | 0 <= i < |Halves(s, index)| :: Halves(s, index)[i]
  {
    var h := Halves(s, index);
    forall i, j | 0 <= i < j < |h|
      ensures h[i] != h[j]
    {
      assert h[i] == s.bufferInfos[i].Half(index) && h[j] == s.bufferInfos[j].Half(index);
    }
  }

  class EventLoop {
    /** `asio_streams`: the shared hardware streams. */
    var asioStreams: AsioStreams
    /** `cpal_streams`: one slot per CPAL stream ever built, indexed by id. */
    var cpalStreams: Slots
    /** `stream_count`: the id the next successful build hands out. */
    var streamCount: nat
    /** Whether `callbacks` holds the user callback (set by `run`). */
    var userCallback: bool

    /**
     * One slot per id handed out, none of them emptied (nothing in the
     * event loop clears a slot), and hardware streams with well-formed
     * half-buffers.
     */
    predicate Valid()
      reads this
    {
      |cpalStreams| == streamCount && NoHoles(cpalStreams) && ValidStreams(asioStreams)
    }

    /** What `get_input_stream` returns when called in the current state. */
    function InputRequest(driver: Driver, format: Format): Result<nat, BuildStreamError>
      reads this, driver
    {
      StreamRequest(asioStreams.input, DeviceCheck(driver.inputChannels, format, driver.sampleRate, driver.supportedRates),
                    driver.prepareSucceeds, driver.preferredBufferSize)
    }

    /** What `get_output_stream` returns when called in the current state. */
    function OutputRequest(driver: Driver, format: Format): Result<nat, BuildStreamError>
      reads this, driver
    {
      StreamRequest(asioStreams.output, DeviceCheck(driver.outputChannels, format, driver.sampleRate, driver.supportedRates),
                    driver.prepareSucceeds, driver.preferredBufferSize)
    }

    /** `EventLoop::new`: no hardware stream, no CPAL stream, counter at 0. */
    constructor ()
      ensures Valid()
      ensures asioStreams == AsioStreams(None, None) && cpalStreams == [] && streamCount == 0
      ensures !userCallback
    {
      asioStreams := AsioStreams(None, None);
      cpalStreams := [];
      streamCount := 0;
      userCallback := false;
    }

    /**
     * `check_format`: sets the driver's rate first when it differs and the
     * driver accepts it, then rejects U16 and excess channels.
     */
    method CheckFormat(driver: Driver, format: Format, numAsioChannels: nat) returns (r: Result<Unit, BuildStreamError>)
      modifies driver
      ensures r == FormatCheck(format, old(driver.sampleRate), driver.supportedRates, numAsioChannels)
      ensures driver.sampleRate == RateAfterCheck(format, old(driver.sampleRate), driver.supportedRates)
      ensures driver.calls == old(driver.calls) +
        (if driver.sampleRate != old(driver.sampleRate) then [RateSet(driver.sampleRate)] else [])
      ensures driver.callbacks == old(driver.callbacks)
      ensures driver.prepareSucceeds == old(driver.prepareSucceeds)
      ensures driver.preferredBufferSize == old(driver.preferredBufferSize)
    {
      if format.sampleRate != driver.sampleRate {
        if driver.CanSampleRate(format.sampleRate) {
          driver.SetSampleRate(format.sampleRate);
        } else {
          return Err(FormatNotSupported);
        }
      }
      match format.dataType {
        case I16 =>
        case F32 =>
        case U16 => return Err(FormatNotSupported);
      }
      if format.channels > numAsioChannels {
        return Err(FormatNotSupported);
      }
      return Ok(Unit);
    }

    /**
     * `get_input_stream`: the existing hardware input stream's buffer size,
     * or a new input stream prepared together with a re-created output
     * stream. The output stream is taken out before preparing, so a failed
     * preparation leaves no hardware stream at all.
     */
    method GetInputStream(driver: Driver, format: Format) returns (r: Result<nat, BuildStreamError>)
      requires Valid()
      modifies this, driver
      ensures Valid()
      ensures cpalStreams == old(cpalStreams) && streamCount == old(streamCount) && userCallback == old(userCallback)
      ensures r == old(InputRequest(driver, format))
      ensures driver.sampleRate == DeviceRate(driver.inputChannels, format, old(driver.sampleRate), driver.supportedRates)
      ensures driver.calls == old(driver.calls) +
        StreamCalls(old(driver.sampleRate), driver.sampleRate,
                    DeviceCheck(driver.inputChannels, format, old(driver.sampleRate), driver.supportedRates),
                    old(asioStreams.input), InputPrepared(format.channels))
      ensures driver.callbacks == old(driver.callbacks)
      ensures driver.prepareSucceeds == old(driver.prepareSucceeds)
      ensures driver.preferredBufferSize == old(driver.preferredBufferSize)
      ensures DeviceCheck(driver.inputChannels, format, old(driver.sampleRate), driver.supportedRates).Err? || old(asioStreams.input).Some? ==>
        asioStreams == old(asioStreams)
      ensures r.Err? && r.error == DeviceNotAvailable ==> asioStreams == AsioStreams(None, None)
      ensures DeviceCheck(driver.inputChannels, format, old(driver.sampleRate), driver.supportedRates).Ok? &&
              old(asioStreams.input).None? && r.Ok? ==>
        asioStreams.input.Some? && |asioStreams.input.value.bufferInfos| == format.channels &&
        asioStreams.input.value.bufferSize == driver.preferredBufferSize &&
        asioStreams.output.Some? == old(asioStreams.output).Some?
    {
      if driver.inputChannels.None? {
        return Err(FormatNotSupported);
      }
      var check := CheckFormat(driver, format, driver.inputChannels.value);
      if check.Err? {
        return Err(check.error);
      }
      match asioStreams.input {
        case Some(input) =>
          return Ok(input.bufferSize);
        case None =>
          var output := asioStreams.output;
          asioStreams := asioStreams.(output := None);
          var prepared := driver.PrepareInput(output, format.channels);
          match prepared {
            case Ok(newStreams) =>
              asioStreams := newStreams;
              return Ok(newStreams.input.value.bufferSize);
            case Err(_) =>
              return Err(DeviceNotAvailable);
          }
      }
    }

    /** `get_output_stream`, the mirror image of `GetInputStream`. */
    method GetOutputStream(driver: Driver, format: Format) returns (r: Result<nat, BuildStreamError>)
      requires Valid()
      modifies this, driver
      ensures Valid()
      ensures cpalStreams == old(cpalStreams) && streamCount == old(streamCount) && userCallback == old(userCallback)
      ensures r == old(OutputRequest(driver, format))
      ensures driver.sampleRate == DeviceRate(driver.outputChannels, format, old(driver.sampleRate), driver.supportedRates)
      ensures driver.calls == old(driver.calls) +
        StreamCalls(old(driver.sampleRate), driver.sampleRate,
                    DeviceCheck(driver.outputChannels, format, old(driver.sampleRate), driver.supportedRates),
                    old(asioStreams.output), OutputPrepared(format.channels))
      ensures driver.callbacks == old(driver.callbacks)
      ensures driver.prepareSucceeds == old(driver.prepareSucceeds)
      ensures driver.preferredBufferSize == old(driver.preferredBufferSize)
      ensures DeviceCheck(driver.outputChannels, format, old(driver.sampleRate), driver.supportedRates).Err? || old(asioStreams.output).Some? ==>
        asioStreams == old(asioStreams)
      ensures r.Err? && r.error == DeviceNotAvailable ==> asioStreams == AsioStreams(None, None)
      ensures DeviceCheck(driver.outputChannels, format, old(driver.sampleRate), driver.supportedRates).Ok? &&
              old(asioStreams.output).None? && r.Ok? ==>
        asioStreams.output.Some? && |asioStreams.output.value.bufferInfos| == format.channels &&
        asioStreams.output.value.bufferSize == driver.preferredBufferSize &&
        asioStreams.input.Some? == old(asioStreams.input).Some?
    {
      if driver.outputChannels.None? {
        return Err(FormatNotSupported);
      }
      var check := CheckFormat(driver, format, driver.outputChannels.value);
      if check.Err? {
        return Err(check.error);
      }
      match asioStreams.output {
        case Some(output) =>
          return Ok(output.bufferSize);
        case None =>
          var input := asioStreams.input;
          asioStreams := asioStreams.(input := None);
          var prepared := driver.PrepareOutput(input, format.channels);
          match prepared {
            case Ok(newStreams) =>
              asioStreams := newStreams;
              return Ok(newStreams.output.value.bufferSize);
            case Err(_) =>
              return Err(DeviceNotAvailable);
          }
      }
    }

    /**
     * The common tail of `build_input_stream` / `build_output_stream` once
     * the hardware stream's buffer size is known: take the next id, build
     * the closure's buffers, register the closure with the driver and push
     * a paused stream.
     */
    method Register(driver: Driver, format: Format, direction: Direction, bufferSize: nat) returns (id: StreamId)
      requires Valid() && format.channels > 0 && format.dataType != U16
      modifies this, driver
      ensures Valid()
      ensures id == StreamId(old(streamCount))
      ensures cpalStreams == old(cpalStreams) + [Some(Stream(false))] && streamCount == old(streamCount) + 1
      ensures asioStreams == old(asioStreams) && userCallback == old(userCallback)
      ensures driver.sampleRate == old(driver.sampleRate) && driver.calls == old(driver.calls) + [CallbackSet(id.index)]
      ensures driver.prepareSucceeds == old(driver.prepareSucceeds)
      ensures driver.preferredBufferSize == old(driver.preferredBufferSize)
      ensures |driver.callbacks| == |old(driver.callbacks)| + 1
      ensures driver.callbacks[..|old(driver.callbacks)|] == old(driver.callbacks)
      ensures var cb := driver.callbacks[|old(driver.callbacks)|];
        fresh(cb) && fresh(cb.buffers) && cb.count == id.index && cb.direction == direction &&
        cb.streamType == driver.dataType && cb.buffers.Cleared() &&
        (format.dataType == I16 ==>
          cb.buffers.cpal == seq(bufferSize * format.channels, _ => 0) && |cb.buffers.channel| == format.channels) &&
        (format.dataType == F32 ==> cb.buffers.cpal == [] && cb.buffers.channel == [])
    {
      var cpalNumSamples := bufferSize * format.channels;
      var count := streamCount;
      streamCount := streamCount + 1;
      var buffers: I16Buffer;
      if format.dataType == I16 {
        buffers := new I16Buffer(cpalNumSamples, format.channels);
      } else {
        buffers := new I16Buffer.Empty();
      }
      var cb := new StreamCallback(count, direction, driver.dataType, buffers);
      driver.SetCallback(cb);
      NoHolesPreserved(cpalStreams, 0, false);
      cpalStreams := cpalStreams + [Some(Stream(false))];
      id := StreamId(count);
    }

    /**
     * `build_input_stream`: on success the id is the counter's value before
     * the build, the counter advances and one paused stream is pushed; on
     * failure neither the counter nor the registry changes.
     */
    method BuildInputStream(driver: Driver, format: Format) returns (r: Result<StreamId, BuildStreamError>)
      requires Valid() && (format.channels > 0 || InputRequest(driver, format).Err?)
      modifies this, driver
      ensures Valid() && userCallback == old(userCallback)
      ensures var request := old(InputRequest(driver, format));
        (r.Ok? <==> request.Ok?) && (r.Err? ==> r.error == request.error) &&
        (r.Ok? ==> asioStreams.input.Some? && asioStreams.input.value.bufferSize == request.value)
      ensures DeviceCheck(driver.inputChannels, format, old(driver.sampleRate), driver.supportedRates).Err? ||
              old(asioStreams.input).Some? ==>
        asioStreams == old(asioStreams)
      ensures r.Err? && r.error == DeviceNotAvailable ==> asioStreams == AsioStreams(None, None)
      ensures old(asioStreams.input).None? && r.Ok? ==>
        |asioStreams.input.value.bufferInfos| == format.channels &&
        asioStreams.output.Some? == old(asioStreams.output).Some?
      ensures r.Ok? ==> (r.value == StreamId(old(streamCount)) && streamCount == old(streamCount) + 1 &&
        cpalStreams == old(cpalStreams) + [Some(Stream(false))])
      ensures r.Err? ==> (streamCount == old(streamCount) && cpalStreams == old(cpalStreams) &&
        driver.callbacks == old(driver.callbacks))
      ensures r.Ok? ==> (|driver.callbacks| == |old(driver.callbacks)| + 1 &&
        driver.callbacks[..|old(driver.callbacks)|] == old(driver.callbacks) &&
        var cb := driver.callbacks[|old(driver.callbacks)|];
        fresh(cb) && fresh(cb.buffers) && cb.count == r.value.index && cb.direction == Input &&
        cb.streamType == driver.dataType && cb.buffers.Cleared() &&
        (format.dataType == I16 ==>
          cb.buffers.cpal == seq(asioStreams.input.value.bufferSize * format.channels, _ => 0) &&
          |cb.buffers.channel| == format.channels) &&
        (format.dataType == F32 ==> cb.buffers.cpal == [] && cb.buffers.channel == []))
      ensures driver.sampleRate == DeviceRate(driver.inputChannels, format, old(driver.sampleRate), driver.supportedRates)
      ensures driver.calls == old(driver.calls) +
        StreamCalls(old(driver.sampleRate), driver.sampleRate,
                    DeviceCheck(driver.inputChannels, format, old(driver.sampleRate), driver.supportedRates),
                    old(asioStreams.input), InputPrepared(format.channels)) +
        (if r.Ok? then [CallbackSet(r.value.index)] else [])
      ensures driver.prepareSucceeds == old(driver.prepareSucceeds)
      ensures driver.preferredBufferSize == old(driver.preferredBufferSize)
    {
      var inputStream := GetInputStream(driver, format);
      match inputStream {
        case Err(e) =>
          return Err(e);
        case Ok(bufferSize) =>
          var id := Register(driver, format, Input, bufferSize);
          return Ok(id);
      }
    }

    /** `build_output_stream`, the mirror image of `BuildInputStream`. */
    method BuildOutputStream(driver: Driver, format: Format) returns (r: Result<StreamId, BuildStreamError>)
      requires Valid() && (format.channels > 0 || OutputRequest(driver, format).Err?)
      modifies this, driver
      ensures Valid() && userCallback == old(userCallback)
      ensures var request := old(OutputRequest(driver, format));
        (r.Ok? <==> request.Ok?) && (r.Err? ==> r.error == request.error) &&
        (r.Ok? ==> asioStreams.output.Some? && asioStreams.output.value.bufferSize == request.value)
      ensures DeviceCheck(driver.outputChannels, format, old(driver.sampleRate), driver.supportedRates).Err? ||
              old(asioStreams.output).Some? ==>
        asioStreams == old(asioStreams)
      ensures r.Err? && r.error == DeviceNotAvailable ==> asioStreams == AsioStreams(None, None)
      ensures old(asioStreams.output).None? && r.Ok? ==>
        |asioStreams.output.value.bufferInfos| == format.channels &&
        asioStreams.input.Some? == old(asioStreams.input).Some?
      ensures r.Ok? ==> (r.value == StreamId(old(streamCount)) && streamCount == old(streamCount) + 1 &&
        cpalStreams == old(cpalStreams) + [Some(Stream(false))])
      ensures r.Err? ==> (streamCount == old(streamCount) && cpalStreams == old(cpalStreams) &&
        driver.callbacks == old(driver.callbacks))
      ensures r.Ok? ==> (|driver.callbacks| == |old(driver.callbacks)| + 1 &&
        driver.callbacks[..|old(driver.callbacks)|] == old(driver.callbacks) &&
        var cb := driver.callbacks[|old(driver.callbacks)|];
        fresh(cb) && fresh(cb.buffers) && cb.count == r.value.index && cb.direction == Output &&
        cb.streamType == driver.dataType && cb.buffers.Cleared() &&
        (format.dataType == I16 ==>
          cb.buffers.cpal == seq(asioStreams.output.value.bufferSize * format.channels, _ => 0) &&
          |cb.buffers.channel| == format.channels) &&
        (format.dataType == F32 ==> cb.buffers.cpal == [] && cb.buffers.channel == []))
      ensures driver.sampleRate == DeviceRate(driver.outputChannels, format, old(driver.sampleRate), driver.supportedRates)
      ensures driver.calls == old(driver.calls) +
        StreamCalls(old(driver.sampleRate), driver.sampleRate,
                    DeviceCheck(driver.outputChannels, format, old(driver.sampleRate), driver.supportedRates),
                    old(asioStreams.output), OutputPrepared(format.channels)) +
        (if r.Ok? then [CallbackSet(r.value.index)] else [])
      ensures driver.prepareSucceeds == old(driver.prepareSucceeds)
      ensures driver.preferredBufferSize == old(driver.preferredBufferSize)
    {
      var outputStream := GetOutputStream(driver, format);
      match outputStream {
        case Err(e) =>
          return Err(e);
        case Ok(bufferSize) =>
          var id := Register(driver, format, Output, bufferSize);
          return Ok(id);
      }
    }

    /**
     * `play_stream`: marks the addressed stream as playing and starts the
     * driver; an id beyond the registry panics. Always returns `Ok(())`.
     */
    method PlayStream(driver: Driver, id: StreamId)
      requires Valid() && id.index < |cpalStreams|
      modifies this, driver
      ensures Valid()
      ensures cpalStreams == SetPlaying(old(cpalStreams), id.index, true)
      ensures asioStreams == old(asioStreams) && streamCount == old(streamCount) && userCallback == old(userCallback)
      ensures driver.calls == old(driver.calls) + [Started] && driver.callbacks == old(driver.callbacks)
      ensures driver.sampleRate == old(driver.sampleRate)
      ensures driver.prepareSucceeds == old(driver.prepareSucceeds)
      ensures driver.preferredBufferSize == old(driver.preferredBufferSize)
    {
      NoHolesPreserved(cpalStreams, id.index, true);
      if cpalStreams[id.index].Some? {
        cpalStreams := cpalStreams[id.index := Some(Stream(true))];
      }
      driver.Play();
    }

    /**
     * `pause_stream` as written: marks the addressed stream as paused, then
     * stops the driver when some stream is still playing.
     */
    method PauseStream(driver: Driver, id: StreamId)
      requires Valid() && id.index < |cpalStreams|
      modifies this, driver
      ensures Valid()
      ensures cpalStreams == SetPlaying(old(cpalStreams), id.index, false)
      ensures asioStreams == old(asioStreams) && streamCount == old(streamCount) && userCallback == old(userCallback)
      ensures driver.calls == old(driver.calls) + (if AnyPlaying(cpalStreams) then [Stopped] else [])
      ensures driver.callbacks == old(driver.callbacks) && driver.sampleRate == old(driver.sampleRate)
      ensures driver.prepareSucceeds == old(driver.prepareSucceeds)
      ensures driver.preferredBufferSize == old(driver.preferredBufferSize)
    {
      NoHolesPreserved(cpalStreams, id.index, false);
      if cpalStreams[id.index].Some? {
        cpalStreams := cpalStreams[id.index := Some(Stream(false))];
      }
      var anyPlaying := AnyPlayingLoop(cpalStreams);
      if anyPlaying {
        driver.Stop();
      }
    }

    /**
     * `pause_stream` as its documentation describes it: the driver is
     * stopped only when no stream is left playing.
     */
    method PauseStreamAsDocumented(driver: Driver, id: StreamId)
      requires Valid() && id.index < |cpalStreams|
      modifies this, driver
      ensures Valid()
      ensures cpalStreams == SetPlaying(old(cpalStreams), id.index, false)
      ensures asioStreams == old(asioStreams) && streamCount == old(streamCount) && userCallback == old(userCallback)
      ensures driver.calls == old(driver.calls) +
        (if exists j :: 0 <= j < |cpalStreams| && j != id.index && IsPlaying(old(cpalStreams)[j]) then [] else [Stopped])
      ensures driver.callbacks == old(driver.callbacks) && driver.sampleRate == old(driver.sampleRate)
      ensures driver.prepareSucceeds == old(driver.prepareSucceeds)
      ensures driver.preferredBufferSize == old(driver.preferredBufferSize)
    {
      NoHolesPreserved(cpalStreams, id.index, false);
      PausedAnyPlaying(cpalStreams, id.index);
      if cpalStreams[id.index].Some? {
        cpalStreams := cpalStreams[id.index := Some(Stream(false))];
      }
      var anyPlaying := AnyPlayingLoop(cpalStreams);
      if !anyPlaying {
        driver.Stop();
      }
    }

    /**
     * `destroy_stream`: `get_mut(..).take()` empties the returned `Option`,
     * not the slot, so the registry is left exactly as it was.
     */
    method DestroyStream(id: StreamId)
      requires Valid()
      ensures Valid() && cpalStreams == old(cpalStreams) && streamCount == old(streamCount)
    {
      var slot: Option<Stream> := if id.index < |cpalStreams| then cpalStreams[id.index] else None;
      slot := None;
    }

    /** The registration `run` makes before its endless sleep loop. */
    method SetUserCallback()
      modifies this`userCallback
      ensures userCallback
    {
      userCallback := true;
    }

    /**
     * The input closure for half-buffer `index`: past the guards, each
     * channel's scratch vector receives the converted samples of its
     * hardware half-buffer; `au::interleave` writes the vectors into the
     * interleaved buffer (its result, `interleaved`, is a parameter: only its
     * length is known here), the vectors are cleared and the interleaved
     * buffer is handed to the user callback. `delivered` is what the vectors
     * held when they were interleaved, or `None` when the user callback is
     * not called.
     */
    method InputCallback(cb: StreamCallback, index: nat, interleaved: seq<int>) returns (delivered: Option<seq<seq<int>>>)
      requires Valid() && index < 2 && !IsFloat(cb.streamType)
      requires |interleaved| == |cb.buffers.cpal|
      requires Runs(cpalStreams, cb.count, asioStreams.input, userCallback) && IsInteger(cb.streamType) ==>
        |cb.buffers.channel| <= |asioStreams.input.value.bufferInfos|
      modifies cb.buffers
      ensures !Runs(cpalStreams, cb.count, asioStreams.input, userCallback) || !IsInteger(cb.streamType) ==>
        delivered == None && cb.buffers.cpal == old(cb.buffers.cpal) && cb.buffers.channel == old(cb.buffers.channel)
      ensures Runs(cpalStreams, cb.count, asioStreams.input, userCallback) && IsInteger(cb.streamType) ==>
        var halves := Halves(asioStreams.input.value, index);
        delivered.Some? && |delivered.value| == |old(cb.buffers.channel)| &&
        (forall i :: 0 <= i < |delivered.value| ==>
          delivered.value[i] == old(cb.buffers.channel[i]) + ConvertChannel(halves[i][..], cb.streamType, Host)) &&
        cb.buffers.Cleared() && |cb.buffers.channel| == |old(cb.buffers.channel)| &&
        cb.buffers.cpal == interleaved
    {
      if SkipsAsPaused(cpalStreams, cb.count) {
        return None;
      }
      if asioStreams.input.None? || !userCallback {
        return None;
      }
      if !IsInteger(cb.streamType) {
        return None;
      }
      var halves := Halves(asioStreams.input.value, index);
      cb.buffers.FillChannels(halves, cb.streamType, Host);
      delivered := Some(cb.buffers.channel);
      cb.buffers.cpal := interleaved;
      cb.buffers.ClearChannels();
    }

    /**
     * The output closure for half-buffer `index`. Past the guards, the user
     * callback rewrites the interleaved buffer (`written`), which is split
     * into one vector per channel (`split`); the silence flag of the half is
     * claimed, and every channel's converted samples are mixed into its
     * hardware half-buffer, zeroing it first when this closure silences it.
     */
    method OutputCallback(driver: Driver, cb: StreamCallback, index: nat, written: seq<int>, split: seq<seq<int>>)
      requires Valid() && index < 2 && !IsFloat(cb.streamType)
      requires |written| == |cb.buffers.cpal| && |split| == |cb.buffers.channel|
      requires Runs(cpalStreams, cb.count, asioStreams.output, userCallback) && IsInteger(cb.streamType) ==>
        |cb.buffers.channel| <= |asioStreams.output.value.bufferInfos|
      modifies cb.buffers, driver.silence
      modifies if asioStreams.output.Some? then HalfSet(asioStreams.output.value, index) else {}
      ensures !Runs(cpalStreams, cb.count, asioStreams.output, userCallback) || !IsInteger(cb.streamType) ==>
        cb.buffers.cpal == old(cb.buffers.cpal) && cb.buffers.channel == old(cb.buffers.channel) &&
        driver.silence.Value() == old(driver.silence.Value()) &&
        (asioStreams.output.Some? ==> forall a :: a in HalfSet(asioStreams.output.value, index) ==> a[..] == old(a[..]))
      ensures Runs(cpalStreams, cb.count, asioStreams.output, userCallback) && IsInteger(cb.streamType) ==>
        var halves := Halves(asioStreams.output.value, index);
        var silence := !Flag(old(driver.silence.Value()), index);
        cb.buffers.cpal == written && cb.buffers.channel == split &&
        driver.silence.Value() == ClaimStep(old(driver.silence.Value()), index).1 &&
        (forall i :: 0 <= i < |split| ==>
          halves[i][..] == MixedChannel(old(halves[i][..]), ConvertOutput(split[i], cb.streamType, Host),
                                        silence, WidthOf(cb.streamType))) &&
        (forall i :: |split| <= i < |halves| ==> halves[i][..] == old(halves[i][..]))
    {
      if SkipsAsPaused(cpalStreams, cb.count) {
        return;
      }
      if asioStreams.output.None? || !userCallback {
        return;
      }
      if !IsInteger(cb.streamType) {
        return;
      }
      var output := asioStreams.output.value;
      var halves := Halves(output, index);
      cb.buffers.cpal := written;
      cb.buffers.channel := split;
      var silence := driver.silence.Claim(index);
      HalvesDistinct(output, index);
      MixHalves(halves, split, silence, cb.streamType, Host);
    }
  }

  /**
   * Three builds, the destruction of the second stream and one more build
   * hand out ids 0, 1, 2 and 3: ids count from zero and are never reused.
   */
  method IdsNeverReused() returns (ids: seq<StreamId>)
    ensures ids == [StreamId(0), StreamId(1), StreamId(2), StreamId(3)]
  {
    var driver := new Driver(48000, {48000}, Int16LSB, Some(2), Some(2), true, 256);
    var eventLoop := new EventLoop();
    var format := Format(2, 48000, I16);
    var first := eventLoop.BuildInputStream(driver, format);
    var second := eventLoop.BuildInputStream(driver, format);
    var third := eventLoop.BuildOutputStream(driver, format);
    eventLoop.DestroyStream(StreamId(1));
    var fourth := eventLoop.BuildOutputStream(driver, format);
    ids := [first.value, second.value, third.value, fourth.value];
  }

  /**
   * An output stream is built, then an input stream whose preparation
   * fails: the build reports `DeviceNotAvailable` and the hardware output
   * stream is gone as well, because `get_input_stream` takes it out before
   * preparing and puts nothing back. From then on the output stream's
   * closure returns early, although the stream was never paused.
   */
  method FailedPrepareDropsOutput() returns (built: Result<StreamId, BuildStreamError>,
                                             failed: Result<StreamId, BuildStreamError>, outputRuns: bool)
    ensures built == Ok(StreamId(0)) && failed == Err(DeviceNotAvailable) && !outputRuns
  {
    var driver := new Driver(48000, {48000}, Int16LSB, Some(2), Some(2), true, 256);
    var eventLoop := new EventLoop();
    var format := Format(2, 48000, I16);
    built := eventLoop.BuildOutputStream(driver, format);
    eventLoop.PlayStream(driver, StreamId(0));
    eventLoop.SetUserCallback();
    driver.prepareSucceeds := false;
    failed := eventLoop.BuildInputStream(driver, format);
    outputRuns := Runs(eventLoop.cpalStreams, 0, eventLoop.asioStreams.output, eventLoop.userCallback);
  }

  /** `streams.iter().any(..)`, the loop over the registry. */
  method AnyPlayingLoop(slots: Slots) returns (anyPlaying: bool)
    ensures anyPlaying == AnyPlaying(slots)
  {
    var i := 0;
    while i < |slots|
      invariant 0 <= i <= |slots|
      invariant forall j :: 0 <= j < i ==> !IsPlaying(slots[j])
    {
      if IsPlaying(slots[i]) {
        return true;
      }
      i := i + 1;
    }
    return false;
  }
}
