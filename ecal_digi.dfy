/**
 * The ECal digi sample word and the ECal digi collection's settings
 * (Event/include/Event/EcalDigiCollection.h).
 *
 * A sample is one 32-bit word: the TOT-in-progress flag at bit 31, the
 * TOT-complete flag at bit 30, then three 10-bit measurements at bits 20, 10
 * and 0. Which quantities the first two measurements hold depends on the flags;
 * the third is always the time of arrival.
 */
module EcalDigi {
  import opened BitFields

  /** Mask for the lowest order bit. */
  const OneBitMask := 1
  /** Mask for the lowest order ten bits, (1 << 10) - 1. */
  const TenBitMask := 1023
  /** Bit positions of the two flags and the first two measurements. */
  const FirstFlagPos := 31
  const SeconFlagPos := 30
  const FirstMeasPos := 20
  const SeconMeasPos := 10
  /** The same positions as multipliers: 1 << pos. */
  const FirstFlagScale := 0x8000_0000
  const SeconFlagScale := 0x4000_0000
  const FirstMeasScale := 0x10_0000
  const SeconMeasScale := 0x400

  /** One clock of an ECal channel; a field not carried by the word keeps its default. */
  datatype EcalDigiSample = EcalDigiSample(
    rawID: int, adcT: int, adcTm1: int, tot: int, toa: int,
    totProgress: bool, totComplete: bool)

  /** The field initialisers of the struct: every number -1 and both flags false. */
  const DefaultSample := EcalDigiSample(-1, -1, -1, -1, -1, false, false)

  /** The three measurements a word carries and its two flags. */
  function FirstMeas(word: int): int { FieldAt(word, FirstMeasScale, TenBitMask + 1) }
  function SeconMeas(word: int): int { FieldAt(word, SeconMeasScale, TenBitMask + 1) }
  function ThirdMeas(word: int): int { FieldAt(word, 1, TenBitMask + 1) }
  predicate TotInProgress(word: int) { FieldAt(word, FirstFlagScale, OneBitMask + 1) == 1 }
  predicate TotComplete(word: int) { FieldAt(word, SeconFlagScale, OneBitMask + 1) == 1 }

  /**
   * The word-to-measurements translation of getDigi, as its documentation states
   * it: the TOA is the third measurement; while the TOT is not complete the first
   * two are the previous and the current ADC; once complete but no longer in
   * progress they are the previous ADC and the TOT; with both flags set they are
   * the current ADC and the TOT.
   */
  function DecodeSample(rawID: int, word: int): (s: EcalDigiSample)
    ensures s.rawID == rawID && s.toa == ThirdMeas(word)
    ensures s.totProgress == TotInProgress(word) && s.totComplete == TotComplete(word)
    ensures !s.totComplete ==> s.adcTm1 == FirstMeas(word) && s.adcT == SeconMeas(word) && s.tot == -1
    ensures !s.totProgress && s.totComplete ==> s.adcTm1 == FirstMeas(word) && s.tot == SeconMeas(word) && s.adcT == -1
    ensures s.totProgress && s.totComplete ==> s.adcT == FirstMeas(word) && s.tot == SeconMeas(word) && s.adcTm1 == -1
    ensures 0 <= s.toa <= TenBitMask
    ensures -1 <= s.adcT <= TenBitMask && -1 <= s.adcTm1 <= TenBitMask && -1 <= s.tot <= TenBitMask
  {
    var base := DefaultSample.(rawID := rawID, toa := ThirdMeas(word),
                               totProgress := TotInProgress(word), totComplete := TotComplete(word));
    if !TotComplete(word) then base.(adcTm1 := FirstMeas(word), adcT := SeconMeas(word))
    else if !TotInProgress(word) then base.(adcTm1 := FirstMeas(word), tot := SeconMeas(word))
    else base.(adcT := FirstMeas(word), tot := SeconMeas(word))
  }

  /**
   * The collection's stored state: one channel id per digi and a flat list of
   * sample words, numSamplesPerDigi of them per digi.
   */
  class EcalDigiCollection {
    var channelIDs: seq<int>
    var samples: seq<int>
    var numSamplesPerDigi: nat
    var sampleOfInterest: nat

    constructor ()
      ensures channelIDs == [] && samples == []
      ensures numSamplesPerDigi == 1 && sampleOfInterest == 0
    {
      channelIDs, samples := [], [];
      numSamplesPerDigi, sampleOfInterest := 1, 0;
    }

    /** The number of digis is the number of stored channel ids. */
    function GetNumDigis(): (n: nat)
      reads this
      ensures n == |channelIDs|
    {
      |channelIDs|
    }

    function GetNumSamplesPerDigi(): nat
      reads this
    {
      numSamplesPerDigi
    }

    function GetSampleOfInterestIndex(): nat
      reads this
    {
      sampleOfInterest
    }

    method SetNumSamplesPerDigi(n: nat)
      modifies this`numSamplesPerDigi
      ensures GetNumSamplesPerDigi() == n
    {
      numSamplesPerDigi := n;
    }

    method SetSampleOfInterestIndex(n: nat)
      modifies this`sampleOfInterest
      ensures GetSampleOfInterestIndex() == n
    {
      sampleOfInterest := n;
    }

    /** Clears channel ids and samples; the two settings are kept. */
    method Clear()
      modifies this`channelIDs, this`samples
      ensures channelIDs == [] && samples == [] && GetNumDigis() == 0
    {
      channelIDs, samples := [], [];
    }
  }
}
