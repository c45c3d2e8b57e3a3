/**
 * The trigger-scintillator digi samples and their collection
 * (Event/include/Event/TrigScintDigiCollection.h, Event/src/TrigScintDigiCollection.cxx).
 *
 * A sample is really two time samples, front and back. Each half is 16 bits:
 * an 8-bit ADC at bit 0, a 6-bit TDC at bit 8 and a 2-bit capacitor id at bit 14.
 * The back half is the low 16 bits of the 32-bit word, the front half the high 16.
 */
module TrigScintDigi {
  import opened Wrappers
  import opened BitFields

  const AdcNumBits := 8
  /** (1 << ADC_NUM_BITS) - 1 */
  const AdcBitMask := 255
  const AdcBitShift := 0
  const TdcNumBits := 6
  /** (1 << TDC_NUM_BITS) - 1 */
  const TdcBitMask := 63
  /** ADC_NUM_BITS */
  const TdcBitShift := 8
  const CidNumBits := 2
  /** (1 << CID_NUM_BITS) - 1 */
  const CidBitMask := 3
  /** ADC_NUM_BITS + TDC_NUM_BITS */
  const CidBitShift := 14

  /** 1 << shift for each field of the back half and, with 16 added, of the front half. */
  const AdcBackScale := 0x1
  const TdcBackScale := 0x100
  const CidBackScale := 0x4000
  const AdcFrontScale := 0x1_0000
  const TdcFrontScale := 0x100_0000
  const CidFrontScale := 0x4000_0000

  /** One sample of a trigger-scintillator channel. */
  datatype TrigScintDigiSample = TrigScintDigiSample(
    rawID: int, adcFront: int, adcBack: int, tdcFront: int, tdcBack: int,
    capIdFront: int, capIdBack: int)

  /** The struct's field initialisers. */
  const DefaultSample := TrigScintDigiSample(-1, 0, 0, 63, 63, 0, 0)

  /** The overflow check of addDigi: a value above the mask becomes the mask. */
  function Clamp(x: int, mask: int): (r: int)
    ensures r <= mask && r <= x
    ensures r == x || r == mask
  {
    if x > mask then mask else x
  }

  /** Every field of a sample clamped to its mask; the channel id is kept. */
  function ClampSample(s: TrigScintDigiSample): TrigScintDigiSample
  {
    s.(adcFront := Clamp(s.adcFront, AdcBitMask), adcBack := Clamp(s.adcBack, AdcBitMask),
       tdcFront := Clamp(s.tdcFront, TdcBitMask), tdcBack := Clamp(s.tdcBack, TdcBitMask),
       capIdFront := Clamp(s.capIdFront, CidBitMask), capIdBack := Clamp(s.capIdBack, CidBitMask))
  }

  /** Every field of the sample lies in [0, mask]. */
  predicate InRange(s: TrigScintDigiSample)
  {
    0 <= s.adcFront <= AdcBitMask && 0 <= s.adcBack <= AdcBitMask
    && 0 <= s.tdcFront <= TdcBitMask && 0 <= s.tdcBack <= TdcBitMask
    && 0 <= s.capIdFront <= CidBitMask && 0 <= s.capIdBack <= CidBitMask
  }

  /** No field of the sample is negative. */
  predicate NonNegative(s: TrigScintDigiSample)
  {
    0 <= s.adcFront && 0 <= s.adcBack && 0 <= s.tdcFront && 0 <= s.tdcBack
    && 0 <= s.capIdFront && 0 <= s.capIdBack
  }

  /** The unshifted 32-bit sum of the six clamped fields at their positions. */
  function PackedSum(s: TrigScintDigiSample): int
  {
    var c := ClampSample(s);
    c.capIdFront * CidFrontScale + c.tdcFront * TdcFrontScale + c.adcFront * AdcFrontScale
      + c.capIdBack * CidBackScale + c.tdcBack * TdcBackScale + c.adcBack * AdcBackScale
  }

  /**
   * The word addDigi stores for a sample, as an `int32_t`: the clamped fields
   * shifted into place and added, the sum taken modulo 2^32.
   */
  function PackWord(s: TrigScintDigiSample): (word: int)
    ensures -0x8000_0000 <= word < 0x8000_0000
    ensures (word - PackedSum(s)) % 0x1_0000_0000 == 0
  {
    Wrap32(PackedSum(s))
  }

  /** getSample's translation of a word: each field is `mask & (word >> shift)`. */
  function UnpackSample(rawID: int, word: int): (s: TrigScintDigiSample)
    ensures 0 <= s.adcFront <= AdcBitMask && 0 <= s.adcBack <= AdcBitMask
    ensures 0 <= s.tdcFront <= TdcBitMask && 0 <= s.tdcBack <= TdcBitMask
    ensures 0 <= s.capIdFront <= CidBitMask && 0 <= s.capIdBack <= CidBitMask
  {
    TrigScintDigiSample(rawID,
      FieldAt(word, AdcFrontScale, AdcBitMask + 1), FieldAt(word, AdcBackScale, AdcBitMask + 1),
      FieldAt(word, TdcFrontScale, TdcBitMask + 1), FieldAt(word, TdcBackScale, TdcBitMask + 1),
      FieldAt(word, CidFrontScale, CidBitMask + 1), FieldAt(word, CidBackScale, CidBitMask + 1))
  }

  /**
   * The three fields of a half are disjoint and together fill exactly 16 bits,
   * so the front half shifted by 16 fits beside the back half in 32 bits.
   */
  lemma HalfLayout()
    ensures AdcBitShift + AdcNumBits == TdcBitShift && TdcBitShift + TdcNumBits == CidBitShift
    ensures CidBitShift + CidNumBits == 16
    ensures AdcBitMask * AdcBackScale + TdcBitMask * TdcBackScale + CidBitMask * CidBackScale == 0xFFFF
    ensures AdcFrontScale == 0x1_0000 * AdcBackScale && TdcFrontScale == 0x1_0000 * TdcBackScale
    ensures CidFrontScale == 0x1_0000 * CidBackScale
  {}

  /**
   * Unpacking a packed sample gives every field clamped to its mask, with the
   * given channel id, as long as no field is negative.
   */
  lemma {:induction false} UnpackPackWord(rawID: int, s: TrigScintDigiSample)
    requires NonNegative(s)
    ensures UnpackSample(rawID, PackWord(s)) == ClampSample(s).(rawID := rawID)
  {
    var c := ClampSample(s);
    var cf, tf, af, cb, tb, ab := c.capIdFront, c.tdcFront, c.adcFront, c.capIdBack, c.tdcBack, c.adcBack;
    var sum := PackedSum(s);
    WrapOf(sum);
    var j := if sum < 0x8000_0000 then 0 else 1;
    var w := sum - j * 0x1_0000_0000;
    assert PackWord(s) == w;
    var back := cb * 0x4000 + tb * 0x100 + ab;
    Field(-j, cf, tf * 0x100_0000 + af * 0x1_0000 + back, CidFrontScale, 4);
    Field(cf - j * 4, tf, af * 0x1_0000 + back, TdcFrontScale, 64);
    Field(cf * 64 + tf - j * 256, af, back, AdcFrontScale, 256);
    Field(cf * 0x4000 + tf * 0x100 + af - j * 0x1_0000, cb, tb * 0x100 + ab, CidBackScale, 4);
    Field(cf * 0x1_0000 + tf * 0x400 + af * 4 + cb - j * 0x4_0000, tb, ab, TdcBackScale, 64);
    Field(cf * 0x40_0000 + tf * 0x1_0000 + af * 0x100 + cb * 0x40 + tb - j * 0x100_0000, ab, 0, AdcBackScale, 256);
  }

  /** The round trip: a sample whose fields lie in [0, mask] comes back unchanged but for its channel id. */
  lemma RoundTrip(rawID: int, s: TrigScintDigiSample)
    requires InRange(s)
    ensures UnpackSample(rawID, PackWord(s)) == s.(rawID := rawID)
  {
    UnpackPackWord(rawID, s);
  }

  /** An over-range field saturates at its mask rather than spilling into its neighbour. */
  lemma Saturates(rawID: int, s: TrigScintDigiSample)
    requires NonNegative(s)
    ensures s.adcFront > AdcBitMask ==> UnpackSample(rawID, PackWord(s)).adcFront == AdcBitMask
    ensures s.tdcFront > TdcBitMask ==> UnpackSample(rawID, PackWord(s)).tdcFront == TdcBitMask
    ensures s.capIdFront > CidBitMask ==> UnpackSample(rawID, PackWord(s)).capIdFront == CidBitMask
    ensures s.adcBack > AdcBitMask ==> UnpackSample(rawID, PackWord(s)).adcBack == AdcBitMask
    ensures s.tdcBack > TdcBitMask ==> UnpackSample(rawID, PackWord(s)).tdcBack == TdcBitMask
    ensures s.capIdBack > CidBitMask ==> UnpackSample(rawID, PackWord(s)).capIdBack == CidBitMask
  {
    UnpackPackWord(rawID, s);
  }

  /** The default sample survives packing, as the collection stores unset samples. */
  lemma DefaultRoundTrip(rawID: int)
    ensures UnpackSample(rawID, PackWord(DefaultSample)) == DefaultSample.(rawID := rawID)
  {
    RoundTrip(rawID, DefaultSample);
  }

  /** The loop of addDigi: one packed word per sample, in sample order. */
  method PackWords(newSamples: seq<TrigScintDigiSample>) returns (words: seq<int>)
    ensures |words| == |newSamples|
    ensures forall i :: 0 <= i < |newSamples| ==> words[i] == PackWord(newSamples[i])
  {
    words := [];
    var i := 0;
    while i < |newSamples|
      invariant 0 <= i <= |newSamples| && |words| == i
      invariant forall k :: 0 <= k < i ==> words[k] == PackWord(newSamples[k])
    {
      words := words + [PackWord(newSamples[i])];
      i := i + 1;
    }
  }

  /** Why a digi or a sample could not be read or added. */
  datatype DigiError = OutOfRange(index: nat)

  /**
   * A trigger-scintillator digi collection. The storage it inherits from its
   * digi-collection base is modelled as flat lists of channel ids and sample
   * words, with numSamplesPerDigi words per digi.
   */
  class TrigScintDigiCollection {
    var channelIDs: seq<int>
    var samples: seq<int>
    var numSamplesPerDigi: nat

    constructor (numSamplesPerDigi: nat)
      ensures channelIDs == [] && samples == [] && this.numSamplesPerDigi == numSamplesPerDigi
    {
      channelIDs, samples, this.numSamplesPerDigi := [], [], numSamplesPerDigi;
    }

    /** Every stored digi has its numSamplesPerDigi words. */
    predicate Valid()
      reads this
    {
      |samples| == |channelIDs| * numSamplesPerDigi
    }

    /**
     * getSample: the sample at sampleIndex of the digi at digiIndex, carrying
     * the digi's channel id; out of range when either lookup misses.
     */
    function GetSample(digiIndex: nat, sampleIndex: nat): (r: Result<TrigScintDigiSample, DigiError>)
      reads this
      ensures r.Ok? <==> digiIndex < |channelIDs| && digiIndex * numSamplesPerDigi + sampleIndex < |samples|
      ensures r.Ok? ==> r.value.rawID == channelIDs[digiIndex]
      ensures r.Ok? ==> r.value == UnpackSample(channelIDs[digiIndex], samples[digiIndex * numSamplesPerDigi + sampleIndex])
    {
      if digiIndex >= |channelIDs| then Err(OutOfRange(digiIndex))
      else if digiIndex * numSamplesPerDigi + sampleIndex >= |samples| then
        Err(OutOfRange(digiIndex * numSamplesPerDigi + sampleIndex))
      else Ok(UnpackSample(channelIDs[digiIndex], samples[digiIndex * numSamplesPerDigi + sampleIndex]))
    }

    /**
     * getDigi: the numSamplesPerDigi samples of a digi in sample-index order;
     * it fails with the first sample that cannot be read.
     */
    method GetDigi(digiIndex: nat) returns (r: Result<seq<TrigScintDigiSample>, DigiError>)
      ensures r.Ok? <==> forall k :: 0 <= k < numSamplesPerDigi ==> GetSample(digiIndex, k).Ok?
      ensures r.Ok? ==> |r.value| == numSamplesPerDigi
      ensures r.Ok? ==> forall k :: 0 <= k < numSamplesPerDigi ==> GetSample(digiIndex, k) == Ok(r.value[k])
      ensures r.Ok? ==> forall k :: 0 <= k < numSamplesPerDigi ==> r.value[k].rawID == channelIDs[digiIndex]
    {
      var digi := [];
      var sampleIndex := 0;
      while sampleIndex < numSamplesPerDigi
        invariant 0 <= sampleIndex <= numSamplesPerDigi && |digi| == sampleIndex
        invariant forall k :: 0 <= k < sampleIndex ==> GetSample(digiIndex, k) == Ok(digi[k])
      {
        var sample := GetSample(digiIndex, sampleIndex);
        if sample.Err? {
          return Err(sample.error);
        }
        digi := digi + [sample.value];
        sampleIndex := sampleIndex + 1;
      }
      return Ok(digi);
    }

    /**
     * addDigi: reads the channel id of the first sample (an empty list throws
     * before anything is stored), then appends the id and one packed word per
     * sample.
     */
    method AddDigi(newSamples: seq<TrigScintDigiSample>) returns (r: Outcome<DigiError>)
      modifies this`channelIDs, this`samples
      ensures r.Fail? <==> newSamples == []
      ensures r.Fail? ==> channelIDs == old(channelIDs) && samples == old(samples)
      ensures r.Pass? ==> channelIDs == old(channelIDs) + [newSamples[0].rawID]
      ensures r.Pass? ==> |samples| == |old(samples)| + |newSamples|
      ensures r.Pass? ==> samples[..|old(samples)|] == old(samples)
      ensures r.Pass? ==> forall i :: 0 <= i < |newSamples| ==> samples[|old(samples)| + i] == PackWord(newSamples[i])
    {
      if newSamples == [] {
        return Fail(OutOfRange(0));
      }
      var channelID := newSamples[0].rawID;
      var words := PackWords(newSamples);
      channelIDs := channelIDs + [channelID];
      samples := samples + words;
      r := Pass;
    }

    /**
     * In a valid collection, adding a digi of numSamplesPerDigi in-range
     * samples keeps it valid, and reading the new digi back gives the samples
     * as they were given, every one carrying the first sample's channel id.
     */
    method AddThenGet(newSamples: seq<TrigScintDigiSample>) returns (r: Result<seq<TrigScintDigiSample>, DigiError>)
      requires Valid() && |newSamples| == numSamplesPerDigi > 0
      requires forall i :: 0 <= i < |newSamples| ==> InRange(newSamples[i])
      modifies this`channelIDs, this`samples
      ensures Valid()
      ensures r.Ok? && |r.value| == |newSamples|
      ensures forall i :: 0 <= i < |newSamples| ==> r.value[i] == newSamples[i].(rawID := newSamples[0].rawID)
    {
      var added := AddDigi(newSamples);
      var digiIndex := |channelIDs| - 1;
      forall k | 0 <= k < numSamplesPerDigi
        ensures GetSample(digiIndex, k) == Ok(newSamples[k].(rawID := newSamples[0].rawID))
      {
        assert digiIndex * numSamplesPerDigi + k == |old(samples)| + k;
        RoundTrip(newSamples[0].rawID, newSamples[k]);
      }
      r := GetDigi(digiIndex);
      var expected := seq(|newSamples|, i requires 0 <= i < |newSamples| => newSamples[i].(rawID := newSamples[0].rawID));
      assert r.value == expected;
    }
  }
}
