/**
 * The two-flag "silence" handshake of the output callback
 * (`sys::SILENCE_FIRST` / `sys::SILENCE_SECOND`).
 *
 * The first output callback to touch half-buffer `index` after the other
 * half was touched zeroes it before accumulating; every later callback for
 * the same half only adds.
 */
module Silence {

  datatype Flags = Flags(first: bool, second: bool)

  /** Both flags start false. */
  const Initial: Flags := Flags(false, false)

  function Flag(f: Flags, index: nat): bool
    requires index < 2
  {
    if index == 0 then f.first else f.second
  }

  /** Never both halves marked silenced: true initially and kept by every claim. */
  predicate Exclusive(f: Flags) {
    !(f.first && f.second)
  }

  /**
   * One claim on half `index`: whether to silence, and the new flags.
   * Silences exactly when the half's flag was clear; the half's flag is set
   * and, when silencing, the other half's flag is cleared.
   */
  function ClaimStep(f: Flags, index: nat): (r: (bool, Flags))
    requires index < 2
    ensures r.0 == !Flag(f, index)
    ensures Flag(r.1, index)
    ensures r.0 ==> !Flag(r.1, 1 - index)
    ensures !r.0 ==> r.1 == f
  {
    if index == 0 then
      if !f.first then (true, Flags(true, false)) else (false, f)
    else
      if !f.second then (true, Flags(false, true)) else (false, f)
  }

  /** After a claim on a reachable state, only the claimed half is marked. */
  lemma ClaimMarksOnlyIndex(f: Flags, index: nat)
    requires index < 2 && Exclusive(f)
    ensures Exclusive(ClaimStep(f, index).1)
    ensures Flag(ClaimStep(f, index).1, index) && !Flag(ClaimStep(f, index).1, 1 - index)
  {
  }

  predicate Indices(trace: seq<nat>) {
    forall k :: 0 <= k < |trace| ==> trace[k] < 2
  }

  /** The silence decisions of a sequence of output callbacks, one per index in `trace`. */
  function Decisions(f: Flags, trace: seq<nat>): (r: seq<bool>)
    requires Indices(trace)
    ensures |r| == |trace|
    ensures trace != [] ==> r[0] == !Flag(f, trace[0])
    decreases |trace|
  {
    if trace == [] then []
    else [ClaimStep(f, trace[0]).0] + Decisions(ClaimStep(f, trace[0]).1, trace[1..])
  }

  /**
   * From a reachable state, every callback after the first silences exactly
   * when its index differs from the previous callback's.
   */
  lemma {:induction false} SilenceOnIndexChange(f: Flags, trace: seq<nat>, k: nat)
    requires Indices(trace) && Exclusive(f)
    requires 1 <= k < |trace|
    ensures Decisions(f, trace)[k] == (trace[k] != trace[k - 1])
    decreases |trace|
  {
    var g := ClaimStep(f, trace[0]).1;
    ClaimMarksOnlyIndex(f, trace[0]);
    assert Decisions(f, trace)[k] == Decisions(g, trace[1..])[k - 1];
    if k >= 2 {
      SilenceOnIndexChange(g, trace[1..], k - 1);
    }
  }

  /**
   * From the initial flags, a callback silences its half exactly when it is
   * the first callback or the index changed since the previous one; so a
   * run of callbacks on the same half silences it once, at the start.
   */
  lemma SilenceOncePerSwap(trace: seq<nat>, k: nat)
    requires Indices(trace) && k < |trace|
    ensures Decisions(Initial, trace)[k] == (k == 0 || trace[k] != trace[k - 1])
  {
    if k > 0 {
      SilenceOnIndexChange(Initial, trace, k);
    }
  }

  /** The process-wide pair of flags, updated in place by each output callback. */
  class SilenceFlags {
    var first: bool
    var second: bool

    function Value(): Flags
      reads this
    {
      Flags(first, second)
    }

    constructor ()
      ensures Value() == Initial
    {
      first, second := false, false;
    }

    /** The `match index { 0 => …, 1 => … }` block of the output callback. */
    method Claim(index: nat) returns (silence: bool)
      requires index < 2
      modifies this
      ensures silence == !Flag(old(Value()), index)
      ensures Value() == ClaimStep(old(Value()), index).1
    {
      if index == 0 {
        if !first {
          first := true;
          second := false;
          silence := true;
        } else {
          silence := false;
        }
      } else {
        if !second {
          second := true;
          first := false;
          silence := true;
        } else {
          silence := false;
        }
      }
    }
  }
}
