/**
 * HGCROC digi samples and the HGCROC digi collection
 * (Event/src/HgcrocDigiCollection.cxx), using the word layout and constants of
 * the ECal digi header.
 */
module HgcrocDigi {
  import opened Wrappers
  import opened BitFields
  import opened EcalDigi

  function Bit(b: bool): int { if b then 1 else 0 }

  /**
   * The TOT packing of the sample constructor: when the TOT is complete and no
   * longer in progress, a second measurement above 512 is stored as 512 + m / 8.
   */
  function PackTot(totProgress: bool, totComplete: bool, seconMeas: int): int
  {
    if !totProgress && totComplete && seconMeas > 512 then 512 + seconMeas / 8 else seconMeas
  }

  /**
   * A measurement as the constructor stores it: capped at TEN_BIT_MASK, then
   * masked to ten bits (a negative int is masked in two's complement).
   */
  function Saturate(m: int): (r: int)
    ensures 0 <= r <= TenBitMask
    ensures 0 <= m ==> r == if m > TenBitMask then TenBitMask else m
  {
    (if m > TenBitMask then TenBitMask else m) % (TenBitMask + 1)
  }

  /**
   * The word built by the Sample constructor, as its 32 bits read unsigned: the
   * two flags, then the three saturated measurements, the second one TOT-packed.
   */
  function PackSample(totProgress: bool, totComplete: bool, firstMeas: int, seconMeas: int, toa: int): (word: int)
    ensures 0 <= word < 0x1_0000_0000
  {
    Bit(totProgress) * FirstFlagScale + Bit(totComplete) * SeconFlagScale
      + Saturate(firstMeas) * FirstMeasScale
      + Saturate(PackTot(totProgress, totComplete, seconMeas)) * SeconMeasScale
      + Saturate(toa)
  }

  /**
   * Bit 31 is tot_progress, bit 30 tot_complete, and each ten-bit field holds
   * its saturated measurement, so no measurement spills into a neighbour.
   */
  lemma PackSampleFields(p: bool, c: bool, f: int, s: int, t: int)
    ensures TotInProgress(PackSample(p, c, f, s, t)) == p
    ensures TotComplete(PackSample(p, c, f, s, t)) == c
    ensures FirstMeas(PackSample(p, c, f, s, t)) == Saturate(f)
    ensures SeconMeas(PackSample(p, c, f, s, t)) == Saturate(PackTot(p, c, s))
    ensures ThirdMeas(PackSample(p, c, f, s, t)) == Saturate(t)
  {
    var sf, ss, st := Saturate(f), Saturate(PackTot(p, c, s)), Saturate(t);
    var w := PackSample(p, c, f, s, t);
    Field(0, Bit(p), Bit(c) * SeconFlagScale + sf * FirstMeasScale + ss * SeconMeasScale + st, FirstFlagScale, 2);
    Field(Bit(p), Bit(c), sf * FirstMeasScale + ss * SeconMeasScale + st, SeconFlagScale, 2);
    Field(Bit(p) * 2 + Bit(c), sf, ss * SeconMeasScale + st, FirstMeasScale, 1024);
    Field(Bit(p) * 0x800 + Bit(c) * 0x400 + sf, ss, st, SeconMeasScale, 1024);
    Field(Bit(p) * 0x20_0000 + Bit(c) * 0x10_0000 + sf * 0x400 + ss, st, 0, 1, 1024);
  }

  /** Any 12-bit TOT above 512 packs into 512 + tot / 8, which fits ten bits unsaturated. */
  lemma PackTotFitsTenBits(tot: int)
    requires 512 < tot < 4096
    ensures PackTot(false, true, tot) == 512 + tot / 8
    ensures Saturate(PackTot(false, true, tot)) == 512 + tot / 8
  {}

  /**
   * Decoding a packed sample with the header's rule gives back the flags, the TOA,
   * and the two measurements the flags name, for in-range values.
   */
  lemma {:induction false} DecodePackedSample(id: int, p: bool, c: bool, f: int, s: int, t: int)
    requires 0 <= f <= TenBitMask && 0 <= s <= TenBitMask && 0 <= t <= TenBitMask
    requires !p && c ==> s <= 512
    ensures DecodeSample(id, PackSample(p, c, f, s, t)) ==
      (if !c then DefaultSample.(adcTm1 := f, adcT := s)
       else if !p then DefaultSample.(adcTm1 := f, tot := s)
       else DefaultSample.(adcT := f, tot := s)).(rawID := id, toa := t, totProgress := p, totComplete := c)
  {
    PackSampleFields(p, c, f, s, t);
  }

  /**
   * The current-clock ADC of a sample word (adc_t of the HGCROC sample): the
   * second measurement while the TOT is not complete, the first when both flags
   * are set, and -1 (unset) when the TOT is complete but no longer in progress.
   */
  function AdcT(word: int): int
  {
    if !TotComplete(word) then SeconMeas(word) else if TotInProgress(word) then FirstMeas(word) else -1
  }

  /** AdcT reads the same field as the ECal decoding rule. */
  lemma AdcTIsDecoded(id: int, word: int)
    ensures AdcT(word) == DecodeSample(id, word).adcT
  {}

  /** The sum of the current-clock ADCs of a digi's samples. */
  function SumAdc(digi: seq<int>): int
  {
    if digi == [] then 0 else SumAdc(digi[..|digi| - 1]) + AdcT(digi[|digi| - 1])
  }

  /** The current-clock ADCs of a digi's samples, in sample order. */
  function AdcTs(digi: seq<int>): (r: seq<int>)
    ensures |r| == |digi|
    ensures forall i :: 0 <= i < |digi| ==> r[i] == AdcT(digi[i])
  {
    if digi == [] then [] else AdcTs(digi[..|digi| - 1]) + [AdcT(digi[|digi| - 1])]
  }

  /** The running maximum of addDigi: 0, raised by every larger current-clock ADC. */
  function MaxAdc(digi: seq<int>): int
  {
    if digi == [] then 0
    else var m := MaxAdc(digi[..|digi| - 1]);
      if AdcT(digi[|digi| - 1]) > m then AdcT(digi[|digi| - 1]) else m
  }

  /** MaxAdc is the maximum of 0 and every sample's current-clock ADC. */
  lemma {:induction false} MaxAdcIsMaximum(digi: seq<int>)
    ensures MaxAdc(digi) >= 0
    ensures forall i :: 0 <= i < |digi| ==> AdcT(digi[i]) <= MaxAdc(digi)
    ensures MaxAdc(digi) == 0 || exists i :: 0 <= i < |digi| && AdcT(digi[i]) == MaxAdc(digi)
  {
    if digi != [] {
      var init := digi[..|digi| - 1];
      MaxAdcIsMaximum(init);
      forall i | 0 <= i < |digi| ensures AdcT(digi[i]) <= MaxAdc(digi) {
        if i < |digi| - 1 { assert digi[i] == init[i]; }
      }
      if MaxAdc(digi) != 0 && MaxAdc(digi) == MaxAdc(init) {
        var i :| 0 <= i < |init| && AdcT(init[i]) == MaxAdc(init);
        assert digi[i] == init[i];
      }
    }
  }

  /**
   * The loop of addDigi over a digi's samples: the running sum of their
   * current-clock ADCs and the running maximum starting from 0.
   */
  method AccumulateAdc(digi: seq<int>) returns (sumAdc: int, maxAdc: int)
    ensures sumAdc == SumAdc(digi) && maxAdc == MaxAdc(digi)
  {
    sumAdc, maxAdc := 0, 0;
    var i := 0;
    while i < |digi|
      invariant 0 <= i <= |digi|
      invariant sumAdc == SumAdc(digi[..i]) && maxAdc == MaxAdc(digi[..i])
    {
      assert digi[..i + 1][..i] == digi[..i];
      sumAdc := sumAdc + AdcT(digi[i]);
      if AdcT(digi[i]) > maxAdc {
        maxAdc := AdcT(digi[i]);
      }
      i := i + 1;
    }
    assert digi[..i] == digi;
  }

  /** Why addDigi refused a digi. */
  datatype DigiError = SizeMismatch(given: nat, expected: nat) | OutOfRange(index: nat)

  /** The vectors of a collection, in the order the class declares them. */
  datatype DigiColumns = DigiColumns(
    channelIDs: seq<int>, samples: seq<int>, adctsamples: seq<int>, sumEdep: seq<real>,
    sumPE: seq<int>, sumadc: seq<int>, maxadc: seq<int>, maxpe: seq<int>,
    strip: seq<int>, layer: seq<int>, adc0: seq<int>)

  /**
   * addDigi on the vectors c of a collection with n samples per digi. A digi of
   * the wrong size is refused with nothing changed. With n == 0 the channel id
   * is pushed before the first sample is read, which throws, so only the channel
   * id list grows. Otherwise the samples and their current-clock ADCs are
   * appended and every per-digi vector gets one entry.
   */
  function AddDigiSpec(c: DigiColumns, n: nat, id: int, digi: seq<int>, edep: real, pe: int,
                       peMax: int, stripNo: int, layerNo: int): (DigiColumns, Outcome<DigiError>)
  {
    if |digi| != n then (c, Fail(SizeMismatch(|digi|, n)))
    else if |digi| == 0 then (c.(channelIDs := c.channelIDs + [id]), Fail(OutOfRange(0)))
    else
      (DigiColumns(c.channelIDs + [id], c.samples + digi, c.adctsamples + AdcTs(digi),
                   c.sumEdep + [edep], c.sumPE + [pe], c.sumadc + [SumAdc(digi)],
                   c.maxadc + [MaxAdc(digi)], c.maxpe + [peMax], c.strip + [stripNo],
                   c.layer + [layerNo], c.adc0 + [AdcT(digi[0])]),
       Pass)
  }

  /** The samples vector holds exactly n samples for each channel id. */
  predicate Shaped(c: DigiColumns, n: nat)
  {
    |c.samples| == n * |c.channelIDs|
  }

  /** The n samples of digi i lie within the samples of k digis when i < k. */
  lemma DigiSlice(i: nat, n: nat, k: nat)
    requires i < k
    ensures i * n + n <= n * k
  {
    var m := k - i - 1;
    assert n * k == n * i + n * m + n;
    assert n * m >= 0;
  }

  /**
   * addDigi keeps n samples per channel id, also when n is 0 and the id is
   * pushed before the failing `at(0)`.
   */
  lemma AddDigiKeepsShape(c: DigiColumns, n: nat, id: int, digi: seq<int>, edep: real, pe: int,
                          peMax: int, stripNo: int, layerNo: int)
    requires Shaped(c, n)
    ensures Shaped(AddDigiSpec(c, n, id, digi, edep, pe, peMax, stripNo, layerNo).0, n)
  {
    assert n * (|c.channelIDs| + 1) == n * |c.channelIDs| + n;
  }

  /** The per-digi vectors: one entry for each digi. */
  function PerDigi(c: DigiColumns): seq<seq<int>>
  {
    [c.sumPE, c.sumadc, c.maxadc, c.maxpe, c.strip, c.layer, c.adc0]
  }

  /** A digi whose size differs from the samples-per-digi setting changes nothing. */
  lemma AddDigiSizeMismatch(c: DigiColumns, n: nat, id: int, digi: seq<int>, edep: real, pe: int,
                            peMax: int, stripNo: int, layerNo: int)
    requires |digi| != n
    ensures AddDigiSpec(c, n, id, digi, edep, pe, peMax, stripNo, layerNo) == (c, Fail(SizeMismatch(|digi|, n)))
  {}

  /**
   * A successful addDigi appends one channel id and exactly n samples, and
   * grows every per-digi vector by exactly one: the sum of the samples'
   * current-clock ADCs, their maximum with 0, the first sample's ADC, and the
   * given sums, strip and layer.
   */
  lemma AddDigiAppends(c: DigiColumns, n: nat, id: int, digi: seq<int>, edep: real, pe: int,
                       peMax: int, stripNo: int, layerNo: int)
    requires |digi| == n > 0
    ensures var (c', r) := AddDigiSpec(c, n, id, digi, edep, pe, peMax, stripNo, layerNo);
      && r == Pass
      && c'.channelIDs == c.channelIDs + [id]
      && |c'.samples| == |c.samples| + n && c'.samples[|c.samples|..] == digi
      && |c'.sumEdep| == |c.sumEdep| + 1
      && (forall k :: 0 <= k < |PerDigi(c)| ==> |PerDigi(c')[k]| == |PerDigi(c)[k]| + 1)
      && c'.sumadc[|c.sumadc|] == SumAdc(digi)
      && c'.maxadc[|c.maxadc|] == MaxAdc(digi)
      && c'.adc0[|c.adc0|] == AdcT(digi[0])
      && (forall i :: 0 <= i < n ==> AdcT(digi[i]) <= c'.maxadc[|c.maxadc|])
      && 0 <= c'.maxadc[|c.maxadc|]
  {
    MaxAdcIsMaximum(digi);
    var (c', r) := AddDigiSpec(c, n, id, digi, edep, pe, peMax, stripNo, layerNo);
    assert c'.samples == c.samples + digi;
  }

  /** A digi as getDigi hands it out: its channel id and its samples. */
  datatype HgcrocDigi = HgcrocDigi(id: int, samples: seq<int>)

  class HgcrocDigiCollection {
    var channelIDs: seq<int>
    var samples: seq<int>
    var adctsamples: seq<int>
    var sumEdep: seq<real>
    var sumPE: seq<int>
    var sumadc: seq<int>
    var maxadc: seq<int>
    var maxpe: seq<int>
    var strip: seq<int>
    var layer: seq<int>
    var adc0: seq<int>
    const numSamplesPerDigi: nat
    const sampleOfInterest: nat

    /** A collection with no digis and the given settings (1 and 0 by default). */
    constructor (numSamplesPerDigi: nat, sampleOfInterest: nat)
      ensures Empty() && Valid()
      ensures this.numSamplesPerDigi == numSamplesPerDigi && this.sampleOfInterest == sampleOfInterest
    {
      this.numSamplesPerDigi, this.sampleOfInterest := numSamplesPerDigi, sampleOfInterest;
      channelIDs, samples, adctsamples := [], [], [];
      sumEdep, sumPE, sumadc, maxadc, maxpe, strip, layer, adc0 := [], [], [], [], [], [], [], [];
    }

    /** Every channel id owns numSamplesPerDigi consecutive samples. */
    ghost predicate Valid()
      reads this
    {
      Shaped(Columns(), numSamplesPerDigi)
    }

    ghost predicate Empty()
      reads this
    {
      channelIDs == [] && samples == [] && adctsamples == [] && sumEdep == [] && sumPE == []
      && sumadc == [] && maxadc == [] && maxpe == [] && strip == [] && layer == [] && adc0 == []
    }

    /** Empties every vector; the two settings are constants of the object. */
    method Clear()
      modifies this
      ensures Empty() && Valid()
    {
      channelIDs, samples, adctsamples := [], [], [];
      sumEdep, sumPE, sumadc, maxadc, maxpe, strip, layer, adc0 := [], [], [], [], [], [], [], [];
    }

    /**
     * The digi at digiIndex: its channel id and the numSamplesPerDigi samples
     * starting at digiIndex * numSamplesPerDigi; an index past the last digi
     * is out of range.
     */
    function GetDigi(digiIndex: nat): (r: Result<HgcrocDigi, DigiError>)
      reads this
      requires Valid()
      ensures r.Ok? <==> digiIndex < |channelIDs|
      ensures r.Ok? ==> r.value.id == channelIDs[digiIndex] && |r.value.samples| == numSamplesPerDigi
      ensures r.Ok? ==> digiIndex * numSamplesPerDigi + numSamplesPerDigi <= |samples|
      ensures r.Ok? ==> forall k :: 0 <= k < numSamplesPerDigi ==>
                digiIndex * numSamplesPerDigi + k < |samples|
                && r.value.samples[k] == samples[digiIndex * numSamplesPerDigi + k]
    {
      if digiIndex < |channelIDs| then
        var start := digiIndex * numSamplesPerDigi;
        DigiSlice(digiIndex, numSamplesPerDigi, |channelIDs|);
        Ok(HgcrocDigi(channelIDs[digiIndex], samples[start..start + numSamplesPerDigi]))
      else Err(OutOfRange(digiIndex))
    }

    /** The stored vectors, as one value. */
    function Columns(): DigiColumns
      reads this
    {
      DigiColumns(channelIDs, samples, adctsamples, sumEdep, sumPE, sumadc, maxadc, maxpe, strip, layer, adc0)
    }

    /** The pushes of a successful addDigi after the channel id. */
    method PushDigi(digi: seq<int>, edep: real, pe: int, peMax: int, stripNo: int, layerNo: int)
      requires |digi| > 0
      modifies this
      ensures Columns() == old(Columns()).(
        samples := old(samples) + digi, adctsamples := old(adctsamples) + AdcTs(digi),
        sumEdep := old(sumEdep) + [edep], sumPE := old(sumPE) + [pe],
        sumadc := old(sumadc) + [SumAdc(digi)], maxadc := old(maxadc) + [MaxAdc(digi)],
        maxpe := old(maxpe) + [peMax], strip := old(strip) + [stripNo],
        layer := old(layer) + [layerNo], adc0 := old(adc0) + [AdcT(digi[0])])
    {
      var adcFirst := AdcT(digi[0]);
      samples, adctsamples := samples + digi, adctsamples + AdcTs(digi);
      var sumAdc, maxAdc := AccumulateAdc(digi);
      sumEdep, sumPE := sumEdep + [edep], sumPE + [pe];
      sumadc, maxadc := sumadc + [sumAdc], maxadc + [maxAdc];
      maxpe, strip, layer := maxpe + [peMax], strip + [stripNo], layer + [layerNo];
      adc0 := adc0 + [adcFirst];
    }

    /** Appends one digi, as AddDigiSpec describes. */
    method AddDigi(id: int, digi: seq<int>, edep: real, pe: int, peMax: int, stripNo: int, layerNo: int)
      returns (r: Outcome<DigiError>)
      requires Valid()
      modifies this
      ensures (Columns(), r) == AddDigiSpec(old(Columns()), numSamplesPerDigi, id, digi, edep, pe, peMax, stripNo, layerNo)
      ensures Valid()
    {
      AddDigiKeepsShape(Columns(), numSamplesPerDigi, id, digi, edep, pe, peMax, stripNo, layerNo);
      if |digi| != numSamplesPerDigi {
        return Fail(SizeMismatch(|digi|, numSamplesPerDigi));
      }
      channelIDs := channelIDs + [id];
      if |digi| == 0 {
        return Fail(OutOfRange(0));
      }
      PushDigi(digi, edep, pe, peMax, stripNo, layerNo);
      r := Pass;
    }

    /**
     * Adding a digi of the configured size and reading back the last digi
     * gives the id and samples that were added, and keeps the collection valid.
     */
    method AddThenGet(id: int, digi: seq<int>, edep: real, pe: int, peMax: int, stripNo: int, layerNo: int)
      returns (r: Result<HgcrocDigi, DigiError>)
      requires Valid() && |digi| == numSamplesPerDigi > 0
      modifies this
      ensures Valid()
      ensures r == Ok(HgcrocDigi(id, digi))
    {
      var added := AddDigi(id, digi, edep, pe, peMax, stripNo, layerNo);
      var digiIndex := |channelIDs| - 1;
      assert digiIndex * numSamplesPerDigi == |old(samples)|;
      r := GetDigi(digiIndex);
      assert r.value.samples == digi;
    }
  }
}
