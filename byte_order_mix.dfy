/**
 * Output mixing for hardware whose byte order is not the host's. The `+=`
 * of the output closure adds words that are already in the hardware byte
 * order, so for such hardware a carry out of one byte lands in the wrong
 * byte. This module shows that with concrete values, and defines and proves
 * the accumulation the mixing evidently intends: decode, add, encode.
 */
module ByteOrderMix {
  import opened EndianCodec
  import opened SampleConversion
  import opened Mixing

  /**
   * On a little-endian host with Int16MSB hardware, two streams playing 255
   * and 1 write the words -256 and 256 (bytes 00 FF and 01 00 read
   * natively). The `+=` adds the words, so the carry leaves the wrong byte
   * and the half-buffer holds 0, while the word that encodes 255 + 1 is 1.
   */
  lemma SwappedWordsLoseCarry(h: int)
    ensures ConvertOutput([255], Int16MSB, Little) == [-256]
    ensures ConvertOutput([1], Int16MSB, Little) == [256]
    ensures MixCycle([h], [[-256], [256]], W16) == [0]
    ensures OutputSample(Int16MSB, 256, Little) == 1
  {
    BaseValues();
    ScaleIdentity(255, W16);
    ScaleIdentity(1, W16);
    ScaleIdentity(256, W16);
    SwapWord(255, 255, 0);
    SwapWord(1, 1, 0);
    SwapWord(256, 0, 1);
    assert MixCycle([h], [[-256]], W16) == [-256] by {
      NarrowInRange(-256, W16);
    }
    NarrowInRange(0, W16);
  }

  /** The byte swap of a 16-bit value whose little-endian bytes are lo, hi. */
  lemma SwapWord(x: int, lo: nat, hi: nat)
    requires lo < 256 && hi < 128 && x == lo + 256 * hi
    ensures SwapBytes(x, 2) == Signed(hi + 256 * lo, 2)
  {
    BaseValues();
    assert Unsigned(x, 2) == x;
    assert ToBytes(x, 2) == [lo, hi] by {
      assert x % 256 == lo && x / 256 == hi by {
        DivModUnique(x, 256, hi, lo);
      }
      assert hi % 256 == hi && hi / 256 == 0;
    }
    assert Reverse([lo, hi]) == [hi, lo];
    assert FromBytes([hi, lo]) == hi + 256 * lo by {
      assert [hi, lo][1..] == [lo];
    }
  }

  /**
   * The `+=` as evidently intended for hardware words of width `w` in byte
   * order `e`: when `e` is not the host's byte order, both words are swapped
   * into host order, accumulated there, and the result is swapped back.
   */
  function AccumulateDecoded(prior: int, converted: int, silence: bool, w: IntWidth, e: Endian, host: Endian): (r: int)
    requires InRange(prior, Bytes(w)) && InRange(converted, Bytes(w))
    ensures InRange(r, Bytes(w))
  {
    if e == host then Accumulate(prior, converted, silence, w)
    else SwapBytes(Accumulate(SwapBytes(prior, Bytes(w)), SwapBytes(converted, Bytes(w)), silence, w), Bytes(w))
  }

  /**
   * One hardware sample of width `w` and byte order `e` after a fill cycle
   * with the intended `+=`: `samples` holds each playing stream's i16 sample
   * in callback order, each converted as `OutputSample` converts it, and
   * the first callback silences.
   */
  function CycleDecoded(prior: int, samples: seq<int>, w: IntWidth, e: Endian, host: Endian): (r: int)
    requires InRange(prior, Bytes(w))
    ensures InRange(r, Bytes(w))
    decreases |samples|
  {
    if samples == [] then prior
    else
      var converted := ConvertEndianTo(ScaleSample(samples[|samples| - 1], W16, w), e, host, Bytes(w));
      AccumulateDecoded(CycleDecoded(prior, samples[..|samples| - 1], w, e, host), converted, |samples| == 1, w, e, host)
  }

  /** The samples scaled to the hardware width `w`, summed before any wrap. */
  function ScaledSum(samples: seq<int>, w: IntWidth): int
  {
    if samples == [] then 0
    else ScaledSum(samples[..|samples| - 1], w) + ScaleSample(samples[|samples| - 1], W16, w)
  }

  /**
   * With the intended `+=`, a fill cycle leaves the word that encodes the
   * wrapped sum of the streams' scaled samples, in either byte order.
   */
  lemma {:induction false} CycleDecodedSums(prior: int, samples: seq<int>, w: IntWidth, e: Endian, host: Endian)
    requires InRange(prior, Bytes(w)) && samples != []
    ensures CycleDecoded(prior, samples, w, e, host) ==
      ConvertEndianTo(Narrow(ScaledSum(samples, w), w), e, host, Bytes(w))
    decreases |samples|
  {
    var init := samples[..|samples| - 1];
    var scaled := ScaleSample(samples[|samples| - 1], W16, w);
    var before := CycleDecoded(prior, init, w, e, host);
    var converted := ConvertEndianTo(scaled, e, host, Bytes(w));
    assert CycleDecoded(prior, samples, w, e, host) == AccumulateDecoded(before, converted, |samples| == 1, w, e, host);
    assert ScaledSum(samples, w) == ScaledSum(init, w) + scaled;
    var a := ScaledSum(init, w);
    if |samples| == 1 {
      assert a == 0 by {
        assert init == [];
      }
    } else {
      CycleDecodedSums(prior, init, w, e, host);
    }
    DecodedStep(before, a, scaled, |samples| == 1, w, e, host);
  }

  /**
   * One intended `+=`: a word that encodes the wrapped partial sum `a`,
   * plus the encoded scaled sample, encodes the wrapped `a + scaled`.
   */
  lemma DecodedStep(before: int, a: int, scaled: int, silence: bool, w: IntWidth, e: Endian, host: Endian)
    requires InRange(before, Bytes(w)) && InRange(scaled, Bytes(w))
    requires !silence ==> before == ConvertEndianTo(Narrow(a, w), e, host, Bytes(w))
    requires silence ==> a == 0
    ensures AccumulateDecoded(before, ConvertEndianTo(scaled, e, host, Bytes(w)), silence, w, e, host) ==
      ConvertEndianTo(Narrow(a + scaled, w), e, host, Bytes(w))
  {
    var sum := Narrow(a + scaled, w);
    assert Accumulate(Narrow(a, w), scaled, silence, w) == sum by {
      NarrowAddNarrow(a, scaled, w);
    }
    if e == host {
      assert before == Narrow(a, w) || silence;
    } else {
      SwappedStep(before, Narrow(a, w), scaled, silence, w, e, host);
    }
  }

  /** The intended `+=` on swapped words is the host-order `+=` between two swaps. */
  lemma SwappedStep(before: int, prev: int, scaled: int, silence: bool, w: IntWidth, e: Endian, host: Endian)
    requires e != host && InRange(prev, Bytes(w)) && InRange(scaled, Bytes(w))
    requires InRange(before, Bytes(w)) && (!silence ==> before == SwapBytes(prev, Bytes(w)))
    ensures AccumulateDecoded(before, SwapBytes(scaled, Bytes(w)), silence, w, e, host) ==
      SwapBytes(Accumulate(prev, scaled, silence, w), Bytes(w))
  {
    SwapBytesInvolution(scaled, Bytes(w));
    if !silence {
      SwapBytesInvolution(prev, Bytes(w));
    }
  }

  /** The counterexample above under the intended `+=`: the half holds the word for 256. */
  lemma CycleDecodedKeepsCarry(h: int)
    requires InRange(h, 2)
    ensures CycleDecoded(h, [255, 1], W16, Big, Little) == OutputSample(Int16MSB, 256, Little)
  {
    ScaleIdentity(255, W16);
    ScaleIdentity(1, W16);
    assert ScaledSum([255, 1], W16) == 256 by {
      assert [255, 1][..1] == [255];
      assert [255][..0] == [];
    }
    CycleDecodedSums(h, [255, 1], W16, Big, Little);
    assert Narrow(256, W16) == 256 by {
      NarrowInRange(256, W16);
    }
    assert OutputSample(Int16MSB, 256, Little) == ConvertEndianTo(256, Big, Little, 2) by {
      ScaleIdentity(256, W16);
    }
  }
}
