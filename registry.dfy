/**
 * The logical-stream registry `cpal_streams: Vec<Option<Stream>>` as a
 * value, and the decisions the event loop takes from it.
 */
module Registry {
  import opened Outcomes

  /** A CPAL stream: playing or paused. */
  datatype Stream = Stream(playing: bool)

  /** `StreamId(usize)`: the index of the stream's slot. */
  datatype StreamId = StreamId(index: nat)

  type Slots = seq<Option<Stream>>

  predicate IsPlaying(slot: Option<Stream>) {
    slot.Some? && slot.value.playing
  }

  /**
   * The update of `play_stream` / `pause_stream`: the addressed slot's
   * `playing` is set when the slot holds a stream; nothing else changes.
   */
  function SetPlaying(slots: Slots, n: nat, playing: bool): (r: Slots)
    requires n < |slots|
    ensures |r| == |slots|
    ensures forall j :: 0 <= j < |slots| && j != n ==> r[j] == slots[j]
    ensures r[n].Some? == slots[n].Some?
    ensures r[n].Some? ==> r[n].value.playing == playing
  {
    if slots[n].Some? then slots[n := Some(Stream(playing))] else slots
  }

  /** `streams.iter().any(|s| if let Some(s) = s { s.playing } else { false })` */
  function AnyPlaying(slots: Slots): (r: bool)
    ensures r <==> exists i :: 0 <= i < |slots| && IsPlaying(slots[i])
  {
    if slots == [] then false
    else
      var rest := AnyPlaying(slots[1..]);
      assert forall i :: 1 <= i < |slots| ==> slots[i] == slots[1..][i - 1];
      IsPlaying(slots[0]) || rest
  }

  /**
   * The early return at the top of a callback built with id `count`:
   * taken only when the slot exists, holds a stream, and that stream is
   * paused. A missing or empty slot does not stop the callback.
   */
  predicate SkipsAsPaused(slots: Slots, count: nat) {
    count < |slots| && slots[count].Some? && !slots[count].value.playing
  }

  /** No slot is empty. */
  predicate NoHoles(slots: Slots) {
    forall i :: 0 <= i < |slots| ==> slots[i].Some?
  }

  /** A freshly built stream is paused: its callback returns early. */
  lemma NewStreamIsPaused(slots: Slots)
    ensures SkipsAsPaused(slots + [Some(Stream(false))], |slots|)
    ensures !AnyPlaying(slots + [Some(Stream(false))]) <==> !AnyPlaying(slots)
  {
    var s := slots + [Some(Stream(false))];
    if AnyPlaying(slots) {
      var i :| 0 <= i < |slots| && IsPlaying(slots[i]);
      assert IsPlaying(s[i]);
    }
  }

  /**
   * Play makes a stream's callback run and pause makes it return early,
   * provided its slot holds a stream; an empty slot is never skipped.
   */
  lemma PlayAndPauseGate(slots: Slots, n: nat)
    requires n < |slots|
    ensures slots[n].Some? ==> !SkipsAsPaused(SetPlaying(slots, n, true), n)
    ensures slots[n].Some? ==> SkipsAsPaused(SetPlaying(slots, n, false), n)
    ensures slots[n].None? ==> !SkipsAsPaused(SetPlaying(slots, n, true), n) && !SkipsAsPaused(SetPlaying(slots, n, false), n)
  {
  }

  /** After a pause, some stream plays iff some other stream was playing. */
  lemma PausedAnyPlaying(slots: Slots, n: nat)
    requires n < |slots|
    ensures AnyPlaying(SetPlaying(slots, n, false)) <==>
      exists j :: 0 <= j < |slots| && j != n && IsPlaying(slots[j])
  {
    var r := SetPlaying(slots, n, false);
    if AnyPlaying(r) {
      var j :| 0 <= j < |r| && IsPlaying(r[j]);
      assert j != n && IsPlaying(slots[j]);
    }
    if exists j :: 0 <= j < |slots| && j != n && IsPlaying(slots[j]) {
      var j :| 0 <= j < |slots| && j != n && IsPlaying(slots[j]);
      assert IsPlaying(r[j]);
    }
  }

  /** Building and play/pause never leave an empty slot behind. */
  lemma NoHolesPreserved(slots: Slots, n: nat, playing: bool)
    requires NoHoles(slots)
    ensures NoHoles(slots + [Some(Stream(false))])
    ensures n < |slots| ==> NoHoles(SetPlaying(slots, n, playing))
  {
  }

  /**
   * `pause_stream` as written calls `sys::stop()` when some stream is still
   * playing: pausing one of two playing streams stops the driver, while
   * pausing the only playing stream does not.
   */
  lemma PauseStopDecisionInverted()
    ensures AnyPlaying(SetPlaying([Some(Stream(true)), Some(Stream(true))], 0, false))
    ensures !AnyPlaying(SetPlaying([Some(Stream(true))], 0, false))
  {
    var two := SetPlaying([Some(Stream(true)), Some(Stream(true))], 0, false);
    assert IsPlaying(two[1]);
  }
}
