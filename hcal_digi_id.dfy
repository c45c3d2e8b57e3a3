/**
 * The HCal digi detector id (DetDescr/include/DetDescr/HcalDigiID.h): a 32-bit
 * raw value holding the strip in bits 0-7, the layer in bits 10-17, the section
 * in bits 18-20 and the side in bit 24, below the subdetector field of the
 * detector-id base.
 */
module HcalDigiId {

  const SideMask: bv32 := 0x1
  const SideShift: bv32 := 24
  const SectionMask: bv32 := 0x7
  const SectionShift: bv32 := 18
  const LayerMask: bv32 := 0xFF
  const LayerShift: bv32 := 10
  const StripMask: bv32 := 0xFF
  const StripShift: bv32 := 0

  /** The bits the four fields may occupy: everything below the subdetector field. */
  const FieldBits: bv32 := 0x1FF_FFFF

  /** The HCal sections encoded in the section field. */
  datatype HcalSection = Back | Top | Bottom | Left | Right

  function SectionCode(s: HcalSection): (code: bv32)
    ensures code <= SectionMask
  {
    match s
    case Back => 0
    case Top => 1
    case Bottom => 2
    case Right => 3
    case Left => 4
  }

  /** An HCal digi id: the raw value of the detector id. */
  datatype HcalDigiID = HcalDigiID(id: bv32) {

    function GetSection(): int { ((id >> SectionShift) & SectionMask) as int }
    function Section(): int { ((id >> SectionShift) & SectionMask) as int }
    function Layer(): int { ((id >> LayerShift) & LayerMask) as int }
    function GetLayerID(): int { ((id >> LayerShift) & LayerMask) as int }
    function GetStrip(): int { ((id >> StripShift) & StripMask) as int }
    function Strip(): int { ((id >> StripShift) & StripMask) as int }
    function GetSide(): int { ((id >> SideShift) & SideMask) as int }
    function Side(): int { ((id >> SideShift) & SideMask) as int }
  }

  /**
   * The piecewise constructor: starting from the empty HCal id `base` (the
   * subdetector set, every field zero), each argument is masked to its field's
   * width and OR-ed in at its shift.
   */
  function FromPieces(base: bv32, section: bv32, layer: bv32, strip: bv32, side: bv32): (d: HcalDigiID)
    ensures d.id & !FieldBits == base & !FieldBits
  {
    HcalDigiID(base
      | ((section & SectionMask) << SectionShift)
      | ((layer & LayerMask) << LayerShift)
      | ((strip & StripMask) << StripShift)
      | ((side & SideMask) << SideShift))
  }

  /**
   * Each extractor reads back exactly its masked argument, whatever the other
   * arguments are, when the base id has no field bits set.
   */
  lemma Extracts(base: bv32, section: bv32, layer: bv32, strip: bv32, side: bv32)
    requires base & FieldBits == 0
    ensures FromPieces(base, section, layer, strip, side).Section() == (section & SectionMask) as int
    ensures FromPieces(base, section, layer, strip, side).Layer() == (layer & LayerMask) as int
    ensures FromPieces(base, section, layer, strip, side).Strip() == (strip & StripMask) as int
    ensures FromPieces(base, section, layer, strip, side).Side() == (side & SideMask) as int
  {}

  /** In-range arguments round-trip: section below 8, layer and strip below 256, side below 2. */
  lemma RoundTrip(base: bv32, section: bv32, layer: bv32, strip: bv32, side: bv32)
    requires base & FieldBits == 0
    requires section < 8 && layer < 256 && strip < 256 && side < 2
    ensures FromPieces(base, section, layer, strip, side).Section() == section as int
    ensures FromPieces(base, section, layer, strip, side).Layer() == layer as int
    ensures FromPieces(base, section, layer, strip, side).Strip() == strip as int
    ensures FromPieces(base, section, layer, strip, side).Side() == side as int
  {
    Extracts(base, section, layer, strip, side);
  }

  /** A named section round-trips through its code. */
  lemma SectionRoundTrip(base: bv32, s: HcalSection, layer: bv32, strip: bv32, side: bv32)
    requires base & FieldBits == 0
    ensures FromPieces(base, SectionCode(s), layer, strip, side).Section() == SectionCode(s) as int
  {
    Extracts(base, SectionCode(s), layer, strip, side);
  }

  /**
   * The fields are disjoint: two ids built from the same base that differ in
   * one argument agree on the other three extractors.
   */
  lemma Independent(base: bv32, section: bv32, layer: bv32, strip: bv32, side: bv32,
                    section': bv32, layer': bv32, strip': bv32, side': bv32)
    requires base & FieldBits == 0
    ensures FromPieces(base, section', layer, strip, side).Layer() == FromPieces(base, section, layer, strip, side).Layer()
    ensures FromPieces(base, section', layer, strip, side).Strip() == FromPieces(base, section, layer, strip, side).Strip()
    ensures FromPieces(base, section', layer, strip, side).Side() == FromPieces(base, section, layer, strip, side).Side()
    ensures FromPieces(base, section, layer', strip, side).Section() == FromPieces(base, section, layer, strip, side).Section()
    ensures FromPieces(base, section, layer', strip, side).Strip() == FromPieces(base, section, layer, strip, side).Strip()
    ensures FromPieces(base, section, layer', strip, side).Side() == FromPieces(base, section, layer, strip, side).Side()
    ensures FromPieces(base, section, layer, strip', side).Section() == FromPieces(base, section, layer, strip, side).Section()
    ensures FromPieces(base, section, layer, strip', side).Layer() == FromPieces(base, section, layer, strip, side).Layer()
    ensures FromPieces(base, section, layer, strip', side).Side() == FromPieces(base, section, layer, strip, side).Side()
    ensures FromPieces(base, section, layer, strip, side').Section() == FromPieces(base, section, layer, strip, side).Section()
    ensures FromPieces(base, section, layer, strip, side').Layer() == FromPieces(base, section, layer, strip, side).Layer()
    ensures FromPieces(base, section, layer, strip, side').Strip() == FromPieces(base, section, layer, strip, side).Strip()
  {
    Extracts(base, section, layer, strip, side);
    Extracts(base, section', layer, strip, side);
    Extracts(base, section, layer', strip, side);
    Extracts(base, section, layer, strip', side);
    Extracts(base, section, layer, strip, side');
  }

  /** Each long-form accessor returns the same value as its short form. */
  lemma Aliases(d: HcalDigiID)
    ensures d.GetSection() == d.Section() && d.GetLayerID() == d.Layer()
    ensures d.GetStrip() == d.Strip() && d.GetSide() == d.Side()
  {}
}
