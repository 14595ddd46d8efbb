# ASIO event loop of cpal, in Dafny

This project models the ASIO host's `EventLoop` from cpal
(`src/host/asio/stream.rs`). The event loop lays any number of CPAL
streams over one shared hardware input stream and one shared hardware
output stream. The driver calls a closure per CPAL stream at every swap of
the hardware double buffer.

The model covers:

- **The stream registry.** `cpal_streams` is a vector of optional streams
  and `stream_count` is the id counter. The model covers build, play, pause
  and destroy, and proves the registry invariant: one slot per id handed
  out, and no slot ever emptied.
- **Shared hardware streams.** `check_format` checks a requested format.
  `get_input_stream` / `get_output_stream` either reuse the direction's
  hardware stream or prepare a new input/output pair.
- **Integer sample conversion.** This is the integer arm of
  `convert_sample!`: an i64 product, a truncating division, then an `as`
  cast that wraps. `convert_endian_to` / `convert_endian_from` are byte
  swaps on a little- or big-endian host.
- **Callback gating.** A closure returns early when its stream is paused,
  when there is no hardware stream for its direction, or when no user
  callback is registered.
- **Output mixing.** A pair of flags, `SILENCE_FIRST` / `SILENCE_SECOND`,
  decides which output callback zeroes a half-buffer. Every output stream's
  converted samples are then added (`+=`) into that half-buffer.

The modules follow the source's concerns:

| file | module | content |
|---|---|---|
| `outcomes.dfy` | `Outcomes` | Option / Result |
| `endian_codec.dfy` | `EndianCodec` | two's complement, little-endian bytes, byte swap, `convert_endian_*` |
| `sample_conversion.dfy` | `SampleConversion` | ASIO sample types, integer scaling, one sample in and out |
| `silence.dfy` | `Silence` | the silence flags and their handshake |
| `buffers.dfy` | `Buffers` | `I16Buffer` and the input path's per-channel fill |
| `asio_driver.dfy` | `AsioSys` | a stand-in for the `asio_sys` driver; hardware streams as arrays |
| `registry.dfy` | `Registry` | the registry as a value, and the gating and stop decisions |
| `mixing.dfy` | `Mixing` | zeroing and accumulation into a hardware half-buffer |
| `byte_order_mix.dfy` | `ByteOrderMix` | the `+=` on hardware words not in host byte order, as written and as intended |
| `event_loop.dfy` | `AsioEventLoop` | the `EventLoop` class, its build/play/pause/destroy and both closures |

Modelling choices:

- **Integers.**
  - Sample values are unbounded integers. Every `as` cast is written out as
    two's-complement wrap-around (`Narrow`).
  - The i64 products provably fit in i64.
  - Rust's division truncates toward zero (`TruncDiv`).
- **Driver.**
  - The driver (`asio_sys`) is a class. Its state is its current rate, the
    rates it accepts, its native sample type and the device's default
    channel counts. It also records whether the next stream preparation
    succeeds, and with what buffer size.
  - It records the calls made on it and the closures registered with it.
- **Hardware buffers.**
  - Each channel's two half-buffers are `array<int>`s.
  - The closures are methods of the event loop that take the closure's
    captured state (`StreamCallback`) and the half index.
- **Panics are preconditions.** This covers `expect`, indexing out of
  bounds, division by zero and `unreachable!`/`unimplemented!`.
- **Host byte order.** The host is little-endian (ASIO runs on Windows).
  The byte-order helpers take the host as a parameter, and their round trip
  is proved for either host.

Where the code and its comments or design disagree, the model follows the
code:

- **Ids start at 0.** `fetch_add` returns the counter's old value, and the
  counter starts at 0, so the first id is 0 despite the comment on
  `StreamId` (`AsioEventLoop.IdsNeverReused`).
- **`destroy_stream` does nothing.** It calls `take()` on the `Option`
  returned by `get_mut`, not on the slot, so the registry is unchanged. No
  slot is ever emptied (`AsioEventLoop.EventLoop.DestroyStream`).
- **`pause_stream` stops the driver when some stream is still playing.**
  See Findings.
- **Output streams mix hardware words, not sample values.** On hardware
  whose byte order is not the host's, the `+=` adds byte-swapped words, so
  carries land in the wrong byte. See Findings.
- **Preparing one direction re-creates or drops the other.** An existing
  hardware stream of the requested direction is reused whatever channel
  count is asked for. When there is none, `get_input_stream` takes the
  output stream out (`take()`) before preparing, and `get_output_stream`
  does the same with the input stream. A successful preparation re-creates
  that stream, so it is prepared a second time. A failed one never puts it
  back, so a running stream of the other direction is dropped, and the
  closures of its playing CPAL streams return early from then on
  (`AsioEventLoop.FailedPrepareDropsOutput`).
- **An F32 stream on integer hardware mixes nothing but still silences.**
  An F32 CPAL stream gets an empty `I16Buffer`, and integer hardware is
  dispatched to that buffer. Its output closure still claims the half's
  silence flag but has no channel to write, so when it is the first
  closure of a cycle, nothing zeroes the half and stale samples stay
  there. `AsioEventLoop.EventLoop.OutputCallback` states this: with an
  empty split the flag is claimed and every half-buffer keeps its contents.
- **The input path swaps after converting.** It applies the byte-order fix
  to the already converted i16 sample, not to the raw hardware sample
  (`SampleConversion.InputSwapAfterConversion`). The output path swaps at
  the hardware width, also after conversion.

## Model

| member | source | states |
|---|---|---|
| EndianCodec.SwapBytesInvolution | src/host/asio/stream.rs:950-963 | swapping the bytes of an n-byte two's-complement value twice restores it |
| EndianCodec.SwapBytes | src/host/asio/stream.rs:950-963 | the byte swap inside `to_be`/`from_be` on a little-endian host: reverse the n bytes of the two's-complement encoding; the result keeps the width |
| EndianCodec.ConvertEndianTo | src/host/asio/stream.rs:950-955 | `to_be`/`to_le`: the identity when the target byte order is the host's, else a byte swap; the result keeps its width |
| EndianCodec.ConvertEndianFrom | src/host/asio/stream.rs:958-963 | `from_be`/`from_le`: the identity on a matching host, else a value whose swap is the input |
| EndianCodec.EndianRoundTrip | src/host/asio/stream.rs:950-963 | from(to(x, e), e) == x and to(from(x, e), e) == x for both byte orders, every width and either host |
| EndianCodec.FromToBytes | src/host/asio/stream.rs:950-963 | reading back the little-endian bytes of an unsigned value gives the value |
| EndianCodec.ToFromBytes | src/host/asio/stream.rs:950-963 | writing out the value of n bytes gives the same n bytes |
| SampleConversion.TruncDivBounds | src/host/asio/stream.rs:341-342 | Rust's `/` truncates toward zero: for a >= 0 the quotient q has q·b <= a < q·b + b and q >= 0; for a < 0, q·b - b < a <= q·b and q <= 0 |
| SampleConversion.TruncDiv | src/host/asio/stream.rs:341-342 | Rust's i64 `/`: the quotient truncated toward zero (its bounds are `TruncDivBounds`) |
| SampleConversion.Narrow | src/host/asio/stream.rs:341-342 | the `as` cast and the wrapping `+=`: the low 16 or 32 bits read as two's complement, always within the width |
| SampleConversion.ScaleQuotient | src/host/asio/stream.rs:341-342 | the i64 quotient is `s * MAX_target / MAX_source` with truncation toward zero |
| SampleConversion.ScaleSample | src/host/asio/stream.rs:341-342 | the converted sample always fits the target width (the `as` cast wraps) |
| SampleConversion.ScaleProductFitsI64 | src/host/asio/stream.rs:341-342 | the product `s as i64 * MAX_target` never overflows i64 for i16 or i32 samples |
| SampleConversion.ScaleIdentity | src/host/asio/stream.rs:341-342 | converting between equal widths is the identity |
| SampleConversion.ScaleBounded | src/host/asio/stream.rs:663-664 | for \|s\| <= MAX_source the result lies in [-MAX_target, MAX_target] and the cast does not change it |
| SampleConversion.NarrowingNeverWraps | src/host/asio/stream.rs:341-342 | i32 to i16 on the input path never wraps, even at i32::MIN |
| SampleConversion.WideningWrapsAtMin | src/host/asio/stream.rs:663-664 | i16::MIN widened to i32 on the output path gives a quotient below i32::MIN, which the cast wraps to 2147418111 |
| SampleConversion.WidenNarrowWithinOneLsb | src/host/asio/stream.rs:341-342 | i16 to i32 and back reproduces every i16 except i16::MIN within one LSB, rounding toward zero |
| SampleConversion.MinRoundTrip | src/host/asio/stream.rs:341-342 | i16::MIN, widened to i32 and narrowed back, comes back as 32766 |
| SampleConversion.InputSample | src/host/asio/stream.rs:370-377 | one input sample is the converted i16, byte-swapped when the hardware byte order is not the host's |
| SampleConversion.OutputSample | src/host/asio/stream.rs:744-752 | one output sample is the converted hardware-width value, byte-swapped when the hardware byte order is not the host's |
| SampleConversion.NativeInt16PassesThrough | src/host/asio/stream.rs:422-435 | a native-order i16 hardware type passes samples through unchanged in both directions |
| SampleConversion.InputSwapAfterConversion | src/host/asio/stream.rs:370-377 | on a little-endian host a full-scale big-endian i32 sample reads as 0, where swapping before converting would give i16::MAX |
| Silence.ClaimStep | src/host/asio/stream.rs:708-728 | silences iff the half's flag was clear; sets that flag; clears the other flag only when silencing; otherwise leaves both flags |
| Silence.ClaimMarksOnlyIndex | src/host/asio/stream.rs:708-728 | from a state where not both flags are set, a claim leaves exactly the claimed half marked |
| Silence.SilenceOncePerSwap | src/host/asio/stream.rs:708-728 | over any sequence of output callbacks from the initial flags, a callback silences iff it is the first one or its index differs from the previous one's, so a half is never silenced twice in one fill cycle |
| Silence.SilenceFlags.Claim | src/host/asio/stream.rs:708-728 | the loads and stores on the two flags, proved equal to `ClaimStep` |
| Buffers.ConvertChannelAt | src/host/asio/stream.rs:362-379 | sample k of a converted channel (`ConvertChannel`, one output per hardware sample) is the input conversion of hardware sample k |
| Buffers.PushConverted | src/host/asio/stream.rs:369-378 | the push loop leaves the channel vector holding its old contents followed by the conversions of the whole half-buffer, in order |
| Buffers.I16Buffer.FillChannels | src/host/asio/stream.rs:362-379 | each channel's vector gets, appended in order, the conversions of all samples of its half-buffer; `cpal` is untouched |
| Buffers.I16Buffer.ClearChannels | src/host/asio/stream.rs:389-392 | every channel vector is emptied; their number and `cpal` are kept |
| Buffers.I16Buffer.constructor | src/host/asio/stream.rs:227-235 | an I16 stream's buffers: `cpal` zeroed with buffer size × channels samples, one empty vector per channel |
| AsioSys.Driver.PrepareInput | src/host/asio/stream.rs:143-156 | the driver stand-in: on success a valid new input stream with the requested channels and the given output re-created; fails as configured |
| AsioSys.Driver.PrepareOutput | src/host/asio/stream.rs:184-197 | the mirror image for an output stream |
| Registry.SetPlaying | src/host/asio/stream.rs:888-890 | only the addressed slot changes, and only when it holds a stream |
| Registry.AnyPlaying | src/host/asio/stream.rs:906-908 | true iff some slot holds a playing stream |
| Registry.SkipsAsPaused | src/host/asio/stream.rs:252-260 | the first early return: the stream's slot exists, holds a stream, and that stream is not playing |
| Registry.NewStreamIsPaused | src/host/asio/stream.rs:525-527 | a pushed stream's callback is skipped as paused, and pushing it does not change whether any stream plays |
| Registry.PlayAndPauseGate | src/host/asio/stream.rs:252-260 | after play a callback is not skipped; after pause it is; an empty slot is never skipped |
| Registry.PausedAnyPlaying | src/host/asio/stream.rs:898-913 | after pausing stream n, some stream plays iff some other stream was playing |
| Registry.NoHolesPreserved | src/host/asio/stream.rs:886-913 | pushing a stream or setting its `playing` never empties a slot |
| Registry.PauseStopDecisionInverted | src/host/asio/stream.rs:906-911 | pausing one of two playing streams leaves a stream playing, so the driver is stopped; pausing the only one leaves none, so it is not |
| Mixing.ConvertOutputAt | src/host/asio/stream.rs:744-752 | sample k of a channel converted for the hardware (`ConvertOutput`) is the output conversion of sample k |
| Mixing.MixSample | src/host/asio/stream.rs:741-752 | one hardware sample: zeroed when silencing, then the converted sample added with wrap-around; no other sample changes |
| Mixing.MixedChannel | src/host/asio/stream.rs:740-753 | over the zip of the half-buffer with the samples, `(silence ? 0 : hw[k]) + sample` wrapped; hardware samples past the zip are unchanged even when silencing |
| Mixing.MixChannel | src/host/asio/stream.rs:740-753 | the in-place loop leaves the half-buffer equal to `MixedChannel` of its old contents |
| Mixing.MixHalves | src/host/asio/stream.rs:732-753 | channel i is mixed into half-buffer i; half-buffers of channels the stream does not have are unchanged |
| Mixing.MixCycleSums | src/host/asio/stream.rs:708-753 | after one fill cycle by several output streams, every sample they all cover holds the wrapped sum of their converted words, so stale data never leaks in; for hardware in host byte order the words are the samples' values, so no contribution is lost (for the other byte order see Findings) |
| Mixing.TwoStreamsMix | src/host/asio/stream.rs:740-753 | two streams in one cycle, the first silencing: the half holds the wrapped sum of both converted samples |
| Mixing.SilencingStores | src/host/asio/stream.rs:741-743 | the silencing callback stores its own converted sample |
| Mixing.Accumulate | src/host/asio/stream.rs:741-752 | one sample's `if silence { *asio_s = 0 } *asio_s += converted`, wrapped to the hardware width |
| Mixing.MixCycle | src/host/asio/stream.rs:708-753 | one fill cycle of a half-buffer by several output streams in callback order: the first silences, the rest accumulate; the buffer keeps its length |
| ByteOrderMix.SwappedWordsLoseCarry | src/host/asio/stream.rs:744-752 | on a little-endian host with Int16MSB hardware, samples 255 and 1 are written as -256 and 256, and a cycle of the two leaves 0, while the word for 256 is 1 |
| ByteOrderMix.AccumulateDecoded | src/host/asio/stream.rs:744-752 | the intended `+=`: swap both words into host order, accumulate, swap back; the identity on the byte order when it is the host's |
| ByteOrderMix.CycleDecoded | src/host/asio/stream.rs:708-753 | one hardware sample after a fill cycle with the intended `+=`, always within the hardware width |
| ByteOrderMix.CycleDecodedSums | src/host/asio/stream.rs:708-753 | with the intended `+=`, a fill cycle leaves the word encoding the wrapped sum of the streams' scaled samples, in either byte order and on either host |
| ByteOrderMix.CycleDecodedKeepsCarry | src/host/asio/stream.rs:744-752 | the counterexample under the intended `+=`: the half holds the word for 256 |
| AsioEventLoop.FormatCheck | src/host/asio/stream.rs:87-118 | Ok iff the rate is the current one or the driver accepts it, the format is not U16, and the channels fit the device; every rejection is `FormatNotSupported` |
| AsioEventLoop.RateAfterCheck | src/host/asio/stream.rs:98-106 | the rate becomes the requested one iff it was already that or the driver accepts it |
| AsioEventLoop.RejectionAfterRateChange | src/host/asio/stream.rs:98-117 | a format rejected for U16 or too many channels still leaves the driver at the new rate |
| AsioEventLoop.DeviceCheck | src/host/asio/stream.rs:129-135 | a device without a default format of the direction rejects every format with `FormatNotSupported` |
| AsioEventLoop.StreamRequest | src/host/asio/stream.rs:123-200 | Ok iff the format passes and either the direction's stream exists or preparation succeeds; the existing stream's buffer size, without comparing channel counts, else the new one's; `DeviceNotAvailable` only when preparing a new stream fails |
| AsioEventLoop.Runs | src/host/asio/stream.rs:573-598 | the three early returns of a closure (also at lines 252-275): not paused, the direction's hardware stream exists, a user callback is registered |
| AsioEventLoop.GateOpensIffPlaying | src/host/asio/stream.rs:252-275 | a closure runs iff its stream is playing or has no slot, the direction's hardware stream exists and a user callback is registered |
| AsioEventLoop.HalvesDistinct | src/host/asio/stream.rs:732-739 | within one half of a valid stream the channels write to distinct arrays |
| AsioEventLoop.EventLoop.constructor | src/host/asio/stream.rs:73-85 | no hardware stream, no CPAL stream, counter at 0, no user callback |
| AsioEventLoop.EventLoop.CheckFormat | src/host/asio/stream.rs:87-118 | returns `FormatCheck`; the driver's rate is set first when it differs and is accepted, so the change is logged even if the format is then rejected |
| AsioEventLoop.EventLoop.GetInputStream | src/host/asio/stream.rs:123-159 | returns `InputRequest`, which is `StreamRequest` on the input side; the rate moves as `DeviceRate` says; the driver's call log gains the `RateSet` entry iff the rate changed, then `InputPrepared` iff the format passed and there was no input stream (`StreamCalls`), so a reuse makes no preparation; an existing input stream is reused with no change to the hardware streams; otherwise the output stream is taken out, and on failure no hardware stream is left |
| AsioEventLoop.EventLoop.GetOutputStream | src/host/asio/stream.rs:164-200 | the mirror image for the output stream: returns `OutputRequest`, and the call log gains `StreamCalls` with `OutputPrepared` |
| AsioEventLoop.EventLoop.Register | src/host/asio/stream.rs:212-250 | the id is the counter before the build; the counter advances by one; one paused stream is pushed; the closure gets the id, the direction, the driver's sample type and fresh buffers sized by the format; the driver gains exactly that closure (`SetCallback`) and exactly one `CallbackSet` call; its rate and configuration are kept |
| AsioEventLoop.EventLoop.BuildInputStream | src/host/asio/stream.rs:203-530 | succeeds iff `get_input_stream` does (`InputRequest`), with its error on failure; the driver's call log gains that method's `StreamCalls` and then, iff the build succeeds, one `CallbackSet` for the new id; on success returns `StreamId(old count)`, advances the counter, pushes one paused stream, leaves an input stream whose buffer size is the one returned, and registers a closure whose buffers are sized by it; on failure changes neither and registers no closure; a format rejection keeps the hardware streams, and `DeviceNotAvailable` leaves none; a zero-channel request is accepted when it is rejected before the division |
| AsioEventLoop.EventLoop.BuildOutputStream | src/host/asio/stream.rs:533-882 | the mirror image for output streams (`OutputRequest`), with the same hardware-stream, buffer and driver call-log guarantees |
| AsioEventLoop.EventLoop.PlayStream | src/host/asio/stream.rs:886-894 | the addressed stream plays, no other slot changes, and the driver is started (`Play`): one `Started` call, with its rate, callbacks and configuration kept |
| AsioEventLoop.EventLoop.PauseStream | src/host/asio/stream.rs:898-913 | the addressed stream is paused, no other slot changes, and the driver is stopped (`Stop`) iff some stream is still playing; its rate, callbacks and configuration are kept |
| AsioEventLoop.EventLoop.PauseStreamAsDocumented | src/host/asio/stream.rs:896-913 | as above, but the driver is stopped iff no other stream was playing; its rate, callbacks and configuration are kept |
| AsioEventLoop.EventLoop.DestroyStream | src/host/asio/stream.rs:916-919 | the registry and the counter are left exactly as they were |
| AsioEventLoop.EventLoop.SetUserCallback | src/host/asio/stream.rs:928 | a user callback is registered |
| AsioEventLoop.EventLoop.InputCallback | src/host/asio/stream.rs:250-404 | when gated, nothing changes and the user callback is not called; otherwise each channel vector gets its half-buffer's converted samples, those vectors are what is interleaved, the interleaved buffer becomes `interleaved`, and the vectors are cleared |
| AsioEventLoop.EventLoop.OutputCallback | src/host/asio/stream.rs:573-755 | when gated, nothing changes; otherwise the user's buffer and its split are kept, the half's silence flag is claimed, and every channel's half-buffer becomes `MixedChannel` of its old contents, silenced iff the flag was clear |
| AsioEventLoop.IdsNeverReused | src/host/asio/stream.rs:212-214 | three builds, destroying stream 1 and one more build hand out ids 0, 1, 2, 3 |
| AsioEventLoop.FailedPrepareDropsOutput | src/host/asio/stream.rs:143-156 | with a playing output stream, a failed input preparation reports `DeviceNotAvailable` and the output stream's closure no longer runs |
| AsioEventLoop.AnyPlayingLoop | src/host/asio/stream.rs:906-908 | the loop over the registry returns `AnyPlaying` |

## Left out

- Floating-point conversion: the float arms of `convert_sample!`, the `Float32*`/`Float64*` dispatch cases and `F32Buffer`. Both closures require a non-float hardware sample type. An F32 CPAL stream gets empty `I16Buffer`s, as in the source.
- `au::interleave` / `au::deinterleave`: `asio_utils` is not part of this model.
  - The input closure returns the per-channel vectors it interleaves. `interleave`'s result is a parameter of the closure, of the interleaved buffer's length. Its layout is not stated.
  - The output closure takes the user's rewritten buffer and its split into channels as parameters, and requires only that the split has one vector per channel.
- The `asio_sys` driver: it is foreign code. The stand-in's `set_callback` appends the closure to a list, and `prepare_*_stream` succeeds or fails as configured. `clean_up` is not modelled.
- `Device::default_input_format` / `default_output_format` are not part of this model. They are a per-direction optional channel count.
- Unsafe `from_raw_parts` slices into driver memory: these are bounded arrays. The sample values are integers of either width, and the width is carried by the sample type.
- `Arc`/`Mutex` locking, the atomic counter and the `SeqCst` flags: the model is sequential, and one callback runs at a time.
- `run`: its `transmute` and its endless sleep loop are left out. Only its registration of the user callback is modelled (`SetUserCallback`).
- `Drop` is left out, because the event loop is never dropped.
- `println!` logging and the "unsupported format" fallthrough are left out. A closure for an `Other` sample type does nothing.
- The user callback's body is not modelled. It is the arbitrary `written` buffer of the output closure.
- `AsioEventLoop.EventLoop.BuildInputStream`: `stream_count` is unbounded, so its usize wrap-around after 2^64 builds is not modelled.
- `AsioEventLoop.EventLoop.InputCallback`: a stream with more channels than the hardware stream panics on `buffer_infos[i]`. This is a precondition, not modelled behaviour.
- `AsioEventLoop.EventLoop.OutputCallback`: the same channel-count panic is a precondition.
- `SampleConversion.WidenNarrowWithinOneLsb`: excludes i16::MIN. Its widening to i32 wraps (`SampleConversion.WideningWrapsAtMin`), and the round trip gives 32766 (`SampleConversion.MinRoundTrip`).
- `Mixing.MixChannel`: the `+=` wraps as in a release build. A debug build panics on that overflow instead.
- `Mixing.TwoStreamsMix`: requires the first stream's converted sample to be within the hardware width. `OutputSample` guarantees this for every converted sample (its result is narrowed to that width).

## Findings

| source | as written | input that shows it | evidently intended | confidence | as-written member | corrected member |
|---|---|---|---|---|---|---|
| src/host/asio/stream.rs:906-911 | `pause_stream` calls `sys::stop()` when `any_playing` is true | two playing streams, pause stream 0: the driver is stopped while stream 1 still plays; with one playing stream, pausing it never stops the driver | stop the driver only when no CPAL stream is left playing, as the doc comment says (lines 896-897) | not executed | AsioEventLoop.EventLoop.PauseStream (with Registry.PauseStopDecisionInverted) | AsioEventLoop.EventLoop.PauseStreamAsDocumented |
| src/host/asio/stream.rs:744-752 | `*asio_s += convert_endian_to(sample, endian)` adds words already in the hardware byte order | little-endian host, Int16MSB hardware, two output streams playing 255 and 1: the words are -256 and 256, and the half holds 0 instead of 1, the word for 256 | swap the word into host order, add, swap back, so the half encodes the wrapped sum of the samples | not executed | Mixing.MixCycle (with ByteOrderMix.SwappedWordsLoseCarry) | ByteOrderMix.AccumulateDecoded (with ByteOrderMix.CycleDecodedSums) |
