/**
 * The LCIO event-merging tool (SimApplication/include/SimApplication/LcioMergeTool.h):
 * merge filters, the per-cell combination of calorimeter hits, and the
 * selection of the collections of a source event that are merged into a
 * target event.
 *
 * An LCIO collection is modelled as its type name and a sequence of
 * calorimeter-hit records; an LCIO event as its event number, its ECal energy
 * sum, its collection names in order and a map from name to collection.
 */
module LcioMerge {
  import opened Wrappers
  import opened BitFields

  /** The pair of 32-bit ids that identifies a calorimeter cell. */
  type CellID = (int, int)

  datatype Position = Position(x: real, y: real, z: real)

  /** One Monte-Carlo contribution to a hit: particle, energy, time and PDG code. */
  datatype Contribution = Contribution(particle: int, energy: real, time: real, pdg: int)

  /** A simulated calorimeter hit. */
  datatype Hit = Hit(cellID0: int, cellID1: int, position: Position, contributions: seq<Contribution>)

  function IdOf(h: Hit): CellID
  {
    (h.cellID0, h.cellID1)
  }

  /** A collection: its LCIO type name and its elements. */
  datatype Coll = Coll(typeName: string, elements: seq<Hit>)

  const SimCalorimeterHitType := "SimCalorimeterHit"

  /**
   * An LCIO event. `ecalEnergy` is the sum of the energies of its "EcalHits"
   * collection in Geant4 units, which the energy filter compares with its cut.
   */
  datatype LcEvent = LcEvent(eventNumber: int, ecalEnergy: real, names: seq<string>, colls: map<string, Coll>)

  /** Every name the event lists has a collection. */
  predicate WellFormed(e: LcEvent)
  {
    forall n :: n in e.names ==> n in e.colls
  }

  datatype MergeError =
    | EmptyHitVector
    | DataNotAvailable(name: string)

  // ---------------------------------------------------------------- filters

  /**
   * The merge filters: the base filter, the ECal energy filter (with its cut)
   * and the event-modulus filter (with its modulus).
   */
  datatype MergeFilter =
    | BaseFilter
    | EcalEnergyFilter(energyCut: real)
    | EventModulusFilter(modulus: int)

  /** The energy filter's default cut, 50 MeV in Geant4 units. */
  const DefaultEcalEnergyFilter := EcalEnergyFilter(50.0)

  /** The modulus filter's default modulus. */
  const DefaultEventModulusFilter := EventModulusFilter(1)

  /** A modulus filter with modulus zero would divide by zero. */
  predicate ValidFilter(f: MergeFilter)
  {
    f.EventModulusFilter? ==> f.modulus != 0
  }

  function Abs(m: int): nat
  {
    if m < 0 then -m else m
  }

  /**
   * C++'s `%` on int: the remainder of division truncated toward zero, which
   * has the sign of the dividend; it is zero exactly when m divides a.
   */
  function CRem(a: int, m: int): (r: int)
    requires m != 0
    ensures Abs(r) < Abs(m)
    ensures a >= 0 ==> r >= 0
    ensures a < 0 ==> r <= 0
    ensures r == 0 <==> a % m == 0
  {
    ModAbs(a, m);
    if a >= 0 then a % Abs(m)
    else
      NegDivisible(a, Abs(m));
      -((-a) % Abs(m))
  }

  /** Dafny's `%` does not depend on the sign of the divisor. */
  lemma ModAbs(a: int, m: int)
    requires m != 0
    ensures a % Abs(m) == a % m
  {
    if m < 0 {
      var q, r := a / m, a % m;
      assert a == (-q) * Abs(m) + r;
      DivMod(-q, Abs(m), r);
    }
  }

  lemma NegDivisible(x: int, d: int)
    requires d > 0
    ensures x % d == 0 <==> (-x) % d == 0
  {
    if x % d == 0 {
      assert -x == (-(x / d)) * d + 0;
      DivMod(-(x / d), d, 0);
    }
    if (-x) % d == 0 {
      assert x == (-((-x) / d)) * d + 0;
      DivMod(-((-x) / d), d, 0);
    }
  }

  /** Whether a filter accepts a source event: only the energy filter can reject. */
  predicate Accept(f: MergeFilter, e: LcEvent)
  {
    match f
    case BaseFilter => true
    case EcalEnergyFilter(cut) => e.ecalEnergy >= cut
    case EventModulusFilter(_) => true
  }

  /**
   * Whether a filter skips a target event: the modulus filter skips the events
   * whose number its modulus does not divide; the others skip none.
   */
  function Skip(f: MergeFilter, e: LcEvent): (b: bool)
    requires ValidFilter(f)
    ensures b <==> f.EventModulusFilter? && e.eventNumber % f.modulus != 0
    ensures f == DefaultEventModulusFilter ==> !b
  {
    match f
    case BaseFilter => false
    case EcalEnergyFilter(_) => false
    case EventModulusFilter(m) => CRem(e.eventNumber, m) != 0
  }

  /** The base filter accepts every source event and skips no target event. */
  lemma BaseFilterNeutral(e: LcEvent)
    ensures Accept(BaseFilter, e) && !Skip(BaseFilter, e)
    ensures Accept(DefaultEventModulusFilter, e) && !Skip(DefaultEventModulusFilter, e)
  {}

  /** A source event is accepted when every filter accepts it. */
  method AcceptAll(e: LcEvent, filters: seq<MergeFilter>) returns (b: bool)
    ensures b <==> forall i :: 0 <= i < |filters| ==> Accept(filters[i], e)
    ensures filters == [] ==> b
  {
    var i := 0;
    while i < |filters|
      invariant 0 <= i <= |filters|
      invariant forall k :: 0 <= k < i ==> Accept(filters[k], e)
    {
      if !Accept(filters[i], e) {
        return false;
      }
      i := i + 1;
    }
    return true;
  }

  /** A target event is skipped when some filter skips it. */
  method SkipAny(e: LcEvent, filters: seq<MergeFilter>) returns (b: bool)
    requires forall i :: 0 <= i < |filters| ==> ValidFilter(filters[i])
    ensures b <==> exists i :: 0 <= i < |filters| && Skip(filters[i], e)
    ensures filters == [] ==> !b
  {
    var i := 0;
    while i < |filters|
      invariant 0 <= i <= |filters|
      invariant forall k :: 0 <= k < i ==> !Skip(filters[k], e)
    {
      if Skip(filters[i], e) {
        return true;
      }
      i := i + 1;
    }
    return false;
  }

  // ---------------------------------------------------------------- find

  /** The hits of `coll` with cell id `id`, in collection order. */
  function Matching(id: CellID, coll: seq<Hit>): (r: seq<Hit>)
    ensures |r| <= |coll|
    ensures forall k :: 0 <= k < |r| ==> IdOf(r[k]) == id
  {
    if coll == [] then []
    else
      var last := coll[|coll| - 1];
      Matching(id, coll[..|coll| - 1]) + (if IdOf(last) == id then [last] else [])
  }

  /** Matching keeps collection order: it distributes over concatenation. */
  lemma {:induction false} MatchingConcat(id: CellID, a: seq<Hit>, b: seq<Hit>)
    ensures Matching(id, a + b) == Matching(id, a) + Matching(id, b)
    decreases |b|
  {
    if b != [] {
      var b' := b[..|b| - 1];
      assert (a + b)[..|a + b| - 1] == a + b';
      MatchingConcat(id, a, b');
    } else {
      assert a + b == a;
    }
  }

  /** Every hit with the cell id is found. */
  lemma {:induction false} MatchingComplete(id: CellID, coll: seq<Hit>, i: int)
    requires 0 <= i < |coll| && IdOf(coll[i]) == id
    ensures coll[i] in Matching(id, coll)
    decreases |coll|
  {
    if i < |coll| - 1 {
      MatchingComplete(id, coll[..|coll| - 1], i);
    }
  }

  /** find: the hits of the collection that share the search hit's cell ids. */
  method Find(searchHit: Hit, coll: seq<Hit>) returns (found: seq<Hit>)
    ensures found == Matching(IdOf(searchHit), coll)
  {
    found := [];
    var i := 0;
    while i < |coll|
      invariant 0 <= i <= |coll|
      invariant found == Matching(IdOf(searchHit), coll[..i])
    {
      assert coll[..i + 1][..i] == coll[..i];
      if searchHit.cellID0 == coll[i].cellID0 && searchHit.cellID1 == coll[i].cellID1 {
        found := found + [coll[i]];
      }
      i := i + 1;
    }
    assert coll[..i] == coll;
  }

  // ---------------------------------------------------------------- createSingleHit

  /** The contributions of a list of hits, concatenated in list order. */
  function AllContributions(hits: seq<Hit>): seq<Contribution>
  {
    if hits == [] then []
    else AllContributions(hits[..|hits| - 1]) + hits[|hits| - 1].contributions
  }

  lemma {:induction false} ContributionsConcat(a: seq<Hit>, b: seq<Hit>)
    ensures AllContributions(a + b) == AllContributions(a) + AllContributions(b)
    decreases |b|
  {
    if b != [] {
      var b' := b[..|b| - 1];
      assert (a + b)[..|a + b| - 1] == a + b';
      ContributionsConcat(a, b');
    } else {
      assert a + b == a;
    }
  }

  /** One hit alone contributes exactly its own contributions. */
  lemma ContributionsSingle(h: Hit)
    ensures AllContributions([h]) == h.contributions
  {
    assert [h][..0] == [];
  }

  /** The hit that stands for a non-empty list of hits of one cell. */
  function MergedHit(hits: seq<Hit>): Hit
    requires |hits| > 0
  {
    Hit(hits[0].cellID0, hits[0].cellID1, hits[0].position, AllContributions(hits))
  }

  /**
   * createSingleHit: an empty list is a fatal error; otherwise the cell ids and
   * position of the first hit, with every contribution of every hit in order.
   */
  method CreateSingleHit(hits: seq<Hit>) returns (r: Result<Hit, MergeError>)
    ensures |hits| == 0 ==> r == Err(EmptyHitVector)
    ensures |hits| > 0 ==> r == Ok(MergedHit(hits))
  {
    if |hits| == 0 {
      return Err(EmptyHitVector);
    }
    var contributions: seq<Contribution> := [];
    var i := 0;
    while i < |hits|
      invariant 0 <= i <= |hits|
      invariant contributions == AllContributions(hits[..i])
    {
      assert hits[..i + 1][..i] == hits[..i];
      var nContrib := |hits[i].contributions|;
      var iContrib := 0;
      while iContrib < nContrib
        invariant 0 <= iContrib <= nContrib
        invariant contributions == AllContributions(hits[..i]) + hits[i].contributions[..iContrib]
      {
        contributions := contributions + [hits[i].contributions[iContrib]];
        iContrib := iContrib + 1;
      }
      assert hits[i].contributions[..nContrib] == hits[i].contributions;
      i := i + 1;
    }
    assert hits[..i] == hits;
    r := Ok(Hit(hits[0].cellID0, hits[0].cellID1, hits[0].position, contributions));
  }

  // ---------------------------------------------------------------- combine

  /** The cell ids of the first n hits: combine's processed set after n steps. */
  function Seen(hits: seq<Hit>, n: int): set<CellID>
    requires 0 <= n <= |hits|
  {
    set t | 0 <= t < n :: IdOf(hits[t])
  }

  /** The cell of each of the first n hits is among their cells. */
  lemma SeenHas(hits: seq<Hit>, n: int, t: int)
    requires 0 <= t < n <= |hits|
    ensures IdOf(hits[t]) in Seen(hits, n)
  {
  }

  /** Each of the cells of the first n hits is the cell of one of them. */
  lemma SeenWitness(hits: seq<Hit>, n: int, x: CellID) returns (t: int)
    requires 0 <= n <= |hits| && x in Seen(hits, n)
    ensures 0 <= t < n && IdOf(hits[t]) == x
  {
    t :| 0 <= t < n && IdOf(hits[t]) == x;
  }

  /** A cell that none of the first n hits has is not among their cells. */
  lemma SeenOnly(hits: seq<Hit>, n: int, x: CellID)
    requires 0 <= n <= |hits|
    requires forall t :: 0 <= t < n ==> IdOf(hits[t]) != x
    ensures x !in Seen(hits, n)
  {
  }

  /** The cells of the first i hits are among the cells of the first i + 1. */
  lemma SeenGrows(hits: seq<Hit>, i: int, x: CellID)
    requires 0 <= i < |hits| && x in Seen(hits, i)
    ensures x in Seen(hits, i + 1)
  {
    var t := SeenWitness(hits, i, x);
    SeenHas(hits, i + 1, t);
  }

  /** One more step of the scan adds the cell of the hit it meets. */
  lemma SeenStep(hits: seq<Hit>, i: int)
    requires 0 <= i < |hits|
    ensures Seen(hits, i + 1) == Seen(hits, i) + {IdOf(hits[i])}
  {
    forall x | x in Seen(hits, i + 1)
      ensures x in Seen(hits, i) + {IdOf(hits[i])}
    {
      var t := SeenWitness(hits, i + 1, x);
      if t < i {
        SeenHas(hits, i, t);
      }
    }
    forall x | x in Seen(hits, i)
      ensures x in Seen(hits, i + 1)
    {
      SeenGrows(hits, i, x);
    }
    SeenHas(hits, i + 1, i);
  }

  /**
   * A cell first met at step i - 1 occurs nowhere before it, so every cell met
   * before step i - 1 has occurred before any hit of that new cell.
   */
  lemma SeenBeforeNewCell(all: seq<Hit>, i: int, j: int, x: CellID)
    requires 0 < i <= |all| && 0 <= j < |all|
    requires IdOf(all[i - 1]) !in Seen(all, i - 1)
    requires IdOf(all[j]) == IdOf(all[i - 1])
    requires x in Seen(all, i - 1)
    ensures x in Seen(all, j)
  {
    var t := SeenWitness(all, i - 1, x);
    forall t' | 0 <= t' < i - 1
      ensures IdOf(all[t']) != IdOf(all[i - 1])
    {
      SeenHas(all, i - 1, t');
    }
    assert j >= i - 1;
    SeenHas(all, j, t);
  }

  /**
   * The cells combine has processed after looking at the first i hits, in the
   * order it met them: a hit adds its cell unless that cell was processed.
   */
  function Cells(all: seq<Hit>, i: int): seq<CellID>
    requires 0 <= i <= |all|
  {
    if i == 0 then []
    else if IdOf(all[i - 1]) in Seen(all, i - 1) then Cells(all, i - 1)
    else Cells(all, i - 1) + [IdOf(all[i - 1])]
  }

  /** Each processed cell is the cell of one of the first i hits. */
  lemma {:induction false} CellsSeen(all: seq<Hit>, i: int, k: int)
    requires 0 <= i <= |all| && 0 <= k < |Cells(all, i)|
    ensures Cells(all, i)[k] in Seen(all, i)
    decreases i
  {
    var c := Cells(all, i - 1);
    if IdOf(all[i - 1]) in Seen(all, i - 1) {
      CellsSeen(all, i - 1, k);
      SeenGrows(all, i - 1, c[k]);
    } else if k < |c| {
      CellsSeen(all, i - 1, k);
      SeenGrows(all, i - 1, c[k]);
    } else {
      SeenHas(all, i, i - 1);
    }
  }

  /** The cell of each of the first i hits has been processed. */
  lemma {:induction false} CellsCover(all: seq<Hit>, i: int, t: int) returns (k: int)
    requires 0 <= t < i <= |all|
    ensures 0 <= k < |Cells(all, i)| && Cells(all, i)[k] == IdOf(all[t])
    decreases i
  {
    var id := IdOf(all[i - 1]);
    var c := Cells(all, i - 1);
    if id in Seen(all, i - 1) {
      var t' := t;
      if t == i - 1 {
        t' := SeenWitness(all, i - 1, id);
      }
      k := CellsCover(all, i - 1, t');
    } else if t == i - 1 {
      k := |c|;
    } else {
      k := CellsCover(all, i - 1, t);
    }
  }

  /** No cell is processed twice. */
  lemma {:induction false} CellsDistinct(all: seq<Hit>, i: int, k1: int, k2: int)
    requires 0 <= i <= |all| && 0 <= k1 < k2 < |Cells(all, i)|
    ensures Cells(all, i)[k1] != Cells(all, i)[k2]
    decreases i
  {
    var c := Cells(all, i - 1);
    if IdOf(all[i - 1]) in Seen(all, i - 1) {
      CellsDistinct(all, i - 1, k1, k2);
    } else if k2 < |c| {
      CellsDistinct(all, i - 1, k1, k2);
    } else {
      CellsSeen(all, i - 1, k1);
    }
  }

  /**
   * Cells are processed in order of first occurrence: a cell processed before
   * another has occurred before any hit of the later one.
   */
  lemma {:induction false} CellsOrder(all: seq<Hit>, i: int, k1: int, k2: int, j: int)
    requires 0 <= i <= |all| && 0 <= k1 < k2 < |Cells(all, i)|
    requires 0 <= j < |all| && IdOf(all[j]) == Cells(all, i)[k2]
    ensures Cells(all, i)[k1] in Seen(all, j)
    decreases i
  {
    var c := Cells(all, i - 1);
    if IdOf(all[i - 1]) in Seen(all, i - 1) {
      CellsOrder(all, i - 1, k1, k2, j);
    } else if k2 < |c| {
      CellsOrder(all, i - 1, k1, k2, j);
    } else {
      CellsSeen(all, i - 1, k1);
      SeenBeforeNewCell(all, i, j, c[k1]);
    }
  }

  /** When the hits have distinct cells, every hit's cell is processed. */
  lemma {:induction false} CellsOfDistinct(all: seq<Hit>, i: int)
    requires 0 <= i <= |all|
    requires forall a, b :: 0 <= a < b < |all| ==> IdOf(all[a]) != IdOf(all[b])
    ensures |Cells(all, i)| == i
  {
    if i > 0 {
      CellsOfDistinct(all, i - 1);
      SeenOnly(all, i - 1, IdOf(all[i - 1]));
    }
  }

  /** Some hit of a collection has the cell of each of its hits. */
  lemma MatchingNonEmpty(hits: seq<Hit>, i: int)
    requires 0 <= i < |hits|
    ensures |Matching(IdOf(hits[i]), hits)| > 0
  {
    MatchingComplete(IdOf(hits[i]), hits, i);
  }

  /** Every processed cell has hits to merge. */
  lemma CellsFound(all: seq<Hit>, i: int)
    requires 0 <= i <= |all|
    ensures forall k :: 0 <= k < |Cells(all, i)| ==> |Matching(Cells(all, i)[k], all)| > 0
  {
    forall k | 0 <= k < |Cells(all, i)|
      ensures |Matching(Cells(all, i)[k], all)| > 0
    {
      CellsSeen(all, i, k);
      var t := SeenWitness(all, i, Cells(all, i)[k]);
      MatchingNonEmpty(all, t);
    }
  }

  /** One merged hit per cell, in the order of the cells. */
  function MergeCells(cells: seq<CellID>, all: seq<Hit>): seq<Hit>
    requires forall k :: 0 <= k < |cells| ==> |Matching(cells[k], all)| > 0
  {
    seq(|cells|, k requires 0 <= k < |cells| => MergedHit(Matching(cells[k], all)))
  }

  /**
   * The combined hits after combine has looked at the first i hits: one merged
   * hit for each cell processed so far.
   */
  function CombineUpTo(all: seq<Hit>, i: int): seq<Hit>
    requires 0 <= i <= |all|
  {
    CellsFound(all, i);
    MergeCells(Cells(all, i), all)
  }

  /** What combine leaves in a collection. */
  function Combined(all: seq<Hit>): seq<Hit>
  {
    CombineUpTo(all, |all|)
  }

  /** A step that meets a new cell appends the merged hit of all that cell's hits. */
  lemma CombineUpToNew(all: seq<Hit>, i: int)
    requires 0 < i <= |all| && IdOf(all[i - 1]) !in Seen(all, i - 1)
    ensures |Matching(IdOf(all[i - 1]), all)| > 0
    ensures CombineUpTo(all, i) == CombineUpTo(all, i - 1) + [MergedHit(Matching(IdOf(all[i - 1]), all))]
  {
    MatchingNonEmpty(all, i - 1);
    CellsFound(all, i);
    CellsFound(all, i - 1);
    var r := CombineUpTo(all, i);
    var r' := CombineUpTo(all, i - 1);
    assert |r| == |r'| + 1;
    forall k | 0 <= k < |r|
      ensures r[k] == (r' + [MergedHit(Matching(IdOf(all[i - 1]), all))])[k]
    {
      if k < |r'| {
        assert Cells(all, i)[k] == Cells(all, i - 1)[k];
      }
    }
  }

  /** A step that meets a cell already processed leaves the combined hits as they are. */
  lemma CombineUpToOld(all: seq<Hit>, i: int)
    requires 0 < i <= |all| && IdOf(all[i - 1]) in Seen(all, i - 1)
    ensures CombineUpTo(all, i) == CombineUpTo(all, i - 1)
  {
    assert Cells(all, i) == Cells(all, i - 1);
  }

  /** What one step of combine's scan does to the processed cells and the combined hits. */
  /** One pass of the combine loop: a new cell appends its merged hit, a seen one changes nothing. */
  lemma CombineStep(all: seq<Hit>, i: int)
    requires 0 <= i < |all|
    ensures Seen(all, i + 1) == Seen(all, i) + {IdOf(all[i])}
    ensures IdOf(all[i]) in Seen(all, i) ==> CombineUpTo(all, i + 1) == CombineUpTo(all, i)
    ensures IdOf(all[i]) !in Seen(all, i) ==>
      |Matching(IdOf(all[i]), all)| > 0
      && CombineUpTo(all, i + 1) == CombineUpTo(all, i) + [MergedHit(Matching(IdOf(all[i]), all))]
  {
    SeenStep(all, i);
    if IdOf(all[i]) in Seen(all, i) {
      CombineUpToOld(all, i + 1);
    } else {
      CombineUpToNew(all, i + 1);
    }
  }

  /** The merged hit of a cell's hits has that cell's ids. */
  lemma MergedHitId(id: CellID, all: seq<Hit>)
    requires |Matching(id, all)| > 0
    ensures IdOf(MergedHit(Matching(id, all))) == id
  {
    assert IdOf(Matching(id, all)[0]) == id;
  }

  /** The k-th combined hit is the merged hit of the k-th processed cell. */
  lemma CombineUpToAt(all: seq<Hit>, i: int, k: int)
    requires 0 <= i <= |all| && 0 <= k < |CombineUpTo(all, i)|
    ensures k < |Cells(all, i)| && |Matching(Cells(all, i)[k], all)| > 0
    ensures CombineUpTo(all, i)[k] == MergedHit(Matching(Cells(all, i)[k], all))
    ensures IdOf(CombineUpTo(all, i)[k]) == Cells(all, i)[k]
  {
    CellsFound(all, i);
    MergedHitId(Cells(all, i)[k], all);
  }

  /** A hit is the merged hit of all the hits of its cell. */
  predicate MergesItsCell(h: Hit, all: seq<Hit>)
  {
    |Matching(IdOf(h), all)| > 0 && h == MergedHit(Matching(IdOf(h), all))
  }

  /** After i steps of combine, each combined hit merges all the hits of its cell. */
  lemma CombineUpToMerged(all: seq<Hit>, i: int)
    requires 0 <= i <= |all|
    ensures forall k :: 0 <= k < |CombineUpTo(all, i)| ==> MergesItsCell(CombineUpTo(all, i)[k], all)
  {
    forall k | 0 <= k < |CombineUpTo(all, i)|
      ensures MergesItsCell(CombineUpTo(all, i)[k], all)
    {
      CombineUpToAt(all, i, k);
    }
  }

  /** After i steps of combine, the combined hits cover exactly the cells of the first i hits. */
  lemma CombineUpToCells(all: seq<Hit>, i: int)
    requires 0 <= i <= |all|
    ensures Seen(CombineUpTo(all, i), |CombineUpTo(all, i)|) == Seen(all, i)
  {
    var r := CombineUpTo(all, i);
    forall x | x in Seen(r, |r|)
      ensures x in Seen(all, i)
    {
      var k := SeenWitness(r, |r|, x);
      CombineUpToAt(all, i, k);
      CellsSeen(all, i, k);
    }
    forall x | x in Seen(all, i)
      ensures x in Seen(r, |r|)
    {
      var t := SeenWitness(all, i, x);
      var k := CellsCover(all, i, t);
      CellsFound(all, i);
      CombineUpToAt(all, i, k);
      SeenHas(r, |r|, k);
    }
  }

  /** After i steps of combine, no two combined hits share a cell. */
  lemma CombineUpToDistinct(all: seq<Hit>, i: int)
    requires 0 <= i <= |all|
    ensures var r := CombineUpTo(all, i);
      forall k1, k2 :: 0 <= k1 < k2 < |r| ==> IdOf(r[k1]) != IdOf(r[k2])
  {
    var r := CombineUpTo(all, i);
    forall k1, k2 | 0 <= k1 < k2 < |r|
      ensures IdOf(r[k1]) != IdOf(r[k2])
    {
      CombineUpToAt(all, i, k1);
      CombineUpToAt(all, i, k2);
      CellsDistinct(all, i, k1, k2);
    }
  }

  /**
   * Combined hits in order of first occurrence: the cell of an earlier
   * combined hit has occurred before any hit of a later one's cell.
   */
  predicate FirstOccurrenceOrder(r: seq<Hit>, all: seq<Hit>)
  {
    forall k1, k2, j :: 0 <= k1 < k2 < |r| && 0 <= j < |all| && IdOf(all[j]) == IdOf(r[k2]) ==>
      IdOf(r[k1]) in Seen(all, j)
  }

  /** After i steps of combine, the combined hits come in order of first occurrence. */
  lemma CombineUpToOrder(all: seq<Hit>, i: int)
    requires 0 <= i <= |all|
    ensures FirstOccurrenceOrder(CombineUpTo(all, i), all)
  {
    var r := CombineUpTo(all, i);
    forall k1, k2, j | 0 <= k1 < k2 < |r| && 0 <= j < |all| && IdOf(all[j]) == IdOf(r[k2])
      ensures IdOf(r[k1]) in Seen(all, j)
    {
      CombineUpToAt(all, i, k1);
      CombineUpToAt(all, i, k2);
      CellsOrder(all, i, k1, k2, j);
    }
  }

  /**
   * combine's result: one hit per distinct cell of the input, in order of first
   * occurrence, no two sharing a cell, each carrying every contribution of its
   * cell's hits in collection order.
   */
  lemma CombinedShape(all: seq<Hit>)
    ensures var r := Combined(all);
      && Seen(r, |r|) == Seen(all, |all|)
      && (forall k1, k2 :: 0 <= k1 < k2 < |r| ==> IdOf(r[k1]) != IdOf(r[k2]))
      && (forall k :: 0 <= k < |r| ==> MergesItsCell(r[k], all))
      && (forall k1, k2, j :: 0 <= k1 < k2 < |r| && 0 <= j < |all| && IdOf(all[j]) == IdOf(r[k2]) ==>
            IdOf(r[k1]) in Seen(all, j))
  {
    CombineUpToMerged(all, |all|);
    CombineUpToCells(all, |all|);
    CombineUpToDistinct(all, |all|);
    CombineUpToOrder(all, |all|);
  }

  /** A collection whose hits all have different cells keeps one combined hit per input hit. */
  lemma CombineDistinct(all: seq<Hit>)
    requires forall i, j :: 0 <= i < j < |all| ==> IdOf(all[i]) != IdOf(all[j])
    ensures |Combined(all)| == |all|
  {
    CellsOfDistinct(all, |all|);
  }

  // ---------------------------------------------------------------- collections in place

  /** An LCIO collection of calorimeter hits, updated in place. */
  class LcCollection {
    const typeName: string
    var elements: seq<Hit>

    constructor(typeName: string)
      ensures this.typeName == typeName && elements == []
    {
      this.typeName := typeName;
      elements := [];
    }

    /** clear: removes the elements one at a time from the last to the first. */
    method Clear()
      modifies this`elements
      ensures elements == []
    {
      var iElem := |elements| - 1;
      while iElem >= 0
        invariant -1 <= iElem < |elements| + 0
        invariant |elements| == iElem + 1
        invariant elements == old(elements)[..iElem + 1]
      {
        elements := elements[..iElem] + elements[iElem + 1..];
        iElem := iElem - 1;
      }
    }

    /** addElements: appends every element of another collection, in order. */
    method AddElements(src: LcCollection)
      requires src != this
      modifies this`elements
      ensures elements == old(elements) + src.elements
    {
      var iElem := 0;
      while iElem < |src.elements|
        invariant 0 <= iElem <= |src.elements|
        invariant elements == old(elements) + src.elements[..iElem]
      {
        elements := elements + [src.elements[iElem]];
        iElem := iElem + 1;
      }
      assert src.elements[..iElem] == src.elements;
    }

    /**
     * combine: replaces the hits by one merged hit per cell, built the first
     * time each cell is met; CombinedShape states what the result holds.
     */
    method Combine()
      modifies this`elements
      ensures elements == Combined(old(elements))
    {
      var combined := CombineHits(elements);
      Clear();
      var j := 0;
      while j < |combined|
        invariant 0 <= j <= |combined|
        invariant elements == combined[..j]
      {
        elements := elements + [combined[j]];
        j := j + 1;
      }
      assert combined[..j] == combined;
    }
  }

  /**
   * The scan of combine: for each hit whose cell has not been processed, the
   * hits found with that cell are merged into a single hit.
   */
  method CombineHits(all: seq<Hit>) returns (combined: seq<Hit>)
    ensures combined == Combined(all)
  {
    var processed: set<CellID> := {};
    combined := [];
    var i := 0;
    while i < |all|
      invariant 0 <= i <= |all|
      invariant processed == Seen(all, i)
      invariant combined == CombineUpTo(all, i)
    {
      var hit := all[i];
      var id := (hit.cellID0, hit.cellID1);
      assert id == IdOf(all[i]);
      CombineStep(all, i);
      if id !in processed {
        var found := Find(hit, all);
        assert |found| > 0;
        var single := CreateSingleHit(found);
        combined := combined + [single.value];
        processed := processed + {id};
        assert combined == CombineUpTo(all, i + 1);
      } else {
        assert combined == CombineUpTo(all, i + 1);
      }
      assert processed == Seen(all, i + 1);
      i := i + 1;
    }
  }

  // ---------------------------------------------------------------- mergeEvent

  /** A collection is written when the list of collections to write is empty or names it. */
  predicate Selected(name: string, writeColls: seq<string>)
  {
    |writeColls| == 0 || name in writeColls
  }

  /**
   * Merges one source collection into the target. When `existing` the target's
   * collection of that name is looked up (a missing one is LCIO's
   * data-not-available error), the source elements are appended, and a
   * calorimeter-hit collection whose element count changed is combined;
   * otherwise a new collection holding the source elements is added.
   */
  function MergeCollection(target: LcEvent, name: string, src: Coll, combineCalHits: bool, existing: bool)
    : Result<LcEvent, MergeError>
  {
    if existing then
      if name !in target.colls then Err(DataNotAvailable(name))
      else
        var t := target.colls[name];
        var merged := t.elements + src.elements;
        var combine := src.typeName == SimCalorimeterHitType && combineCalHits && |src.elements| != |merged|;
        Ok(target.(colls := target.colls[name := t.(elements := if combine then Combined(merged) else merged)]))
    else
      Ok(target.(names := target.names + [name], colls := target.colls[name := src]))
  }

  /**
   * mergeEvent over the remaining source names. With `asWritten` a collection
   * counts as existing in the target when the SOURCE lists its name, as the
   * code does; otherwise when the target holds it.
   */
  function MergeFrom(src: LcEvent, target: LcEvent, names: seq<string>, writeColls: seq<string>,
                     combineCalHits: bool, asWritten: bool): Result<LcEvent, MergeError>
    requires forall n :: n in names ==> n in src.colls
    decreases |names|
  {
    if names == [] then Ok(target)
    else if !Selected(names[0], writeColls) then
      MergeFrom(src, target, names[1..], writeColls, combineCalHits, asWritten)
    else
      var existing := if asWritten then names[0] in src.names else names[0] in target.colls;
      match MergeCollection(target, names[0], src.colls[names[0]], combineCalHits, existing)
      case Err(e) => Err(e)
      case Ok(t) => MergeFrom(src, t, names[1..], writeColls, combineCalHits, asWritten)
  }

  /** mergeEvent as written: the target lookup consults the source's names. */
  function MergeEventAsWritten(src: LcEvent, target: LcEvent, writeColls: seq<string>, combineCalHits: bool)
    : Result<LcEvent, MergeError>
    requires WellFormed(src)
  {
    MergeFrom(src, target, src.names, writeColls, combineCalHits, true)
  }

  /**
   * As written, every selected source collection is taken to exist in the
   * target: a target that lacks it is an error, and no collection is ever
   * created.
   */
  lemma {:induction false} AsWrittenNeverCreates(src: LcEvent, target: LcEvent, names: seq<string>,
                                                 writeColls: seq<string>, combineCalHits: bool)
    requires WellFormed(src)
    requires forall n :: n in names ==> n in src.names
    ensures var r := MergeFrom(src, target, names, writeColls, combineCalHits, true);
      r.Ok? ==> r.value.colls.Keys == target.colls.Keys && r.value.names == target.names
    decreases |names|
  {
    if names != [] {
      if Selected(names[0], writeColls) {
        var m := MergeCollection(target, names[0], src.colls[names[0]], combineCalHits, true);
        if m.Ok? {
          AsWrittenNeverCreates(src, m.value, names[1..], writeColls, combineCalHits);
        }
      } else {
        AsWrittenNeverCreates(src, target, names[1..], writeColls, combineCalHits);
      }
    }
  }

  /** The input that shows it: a source "EcalHits" collection merged into an empty target. */
  lemma AsWrittenFailsOnNewCollection(h: Hit)
    ensures var src := LcEvent(1, 0.0, ["EcalHits"], map["EcalHits" := Coll(SimCalorimeterHitType, [h])]);
      var target := LcEvent(1, 0.0, [], map[]);
      && MergeEventAsWritten(src, target, [], true) == Err(DataNotAvailable("EcalHits"))
      && MergeFrom(src, target, src.names, [], true, false)
         == Ok(LcEvent(1, 0.0, ["EcalHits"], map["EcalHits" := Coll(SimCalorimeterHitType, [h])]))
  {
    var c := Coll(SimCalorimeterHitType, [h]);
    var src := LcEvent(1, 0.0, ["EcalHits"], map["EcalHits" := c]);
    var target := LcEvent(1, 0.0, [], map[]);
    assert src.names[1..] == [];
    var t := LcEvent(1, 0.0, ["EcalHits"], map["EcalHits" := c]);
    assert target.names + ["EcalHits"] == ["EcalHits"];
    assert target.colls["EcalHits" := c] == map["EcalHits" := c];
    assert MergeCollection(target, "EcalHits", c, true, false) == Ok(t);
    assert MergeFrom(src, t, [], [], true, false) == Ok(t);
  }

  /**
   * mergeEvent (with the target lookup consulting the target): never fails; it
   * adds exactly the selected source collections the target lacked, and leaves
   * every target collection that is not selected unchanged.
   */
  lemma {:induction false} MergeSelection(src: LcEvent, target: LcEvent, names: seq<string>,
                                          writeColls: seq<string>, combineCalHits: bool)
    requires forall n :: n in names ==> n in src.colls
    ensures var r := MergeFrom(src, target, names, writeColls, combineCalHits, false);
      && r.Ok?
      && r.value.colls.Keys == target.colls.Keys + (set n | n in names && Selected(n, writeColls))
      && (forall n :: n in target.colls && !(n in names && Selected(n, writeColls)) ==>
            r.value.colls[n] == target.colls[n])
    decreases |names|
  {
    if names != [] {
      var rest := names[1..];
      assert forall n :: n in names <==> n == names[0] || n in rest;
      if Selected(names[0], writeColls) {
        var m := MergeCollection(target, names[0], src.colls[names[0]], combineCalHits, names[0] in target.colls);
        MergeSelection(src, m.value, rest, writeColls, combineCalHits);
      } else {
        MergeSelection(src, target, rest, writeColls, combineCalHits);
      }
    }
  }

  /** No name is listed twice, as in an LCIO event, whose collections are keyed by name. */
  predicate DistinctNames(names: seq<string>)
  {
    forall i, j :: 0 <= i < j < |names| ==> names[i] != names[j]
  }

  /**
   * What mergeEvent leaves in one selected collection: the source's collection
   * when the target lacked it; otherwise the target's collection with the
   * source elements appended, combined when both are calorimeter hits with
   * combining on and the target collection already had elements.
   */
  lemma {:induction false} MergeContentsAt(src: LcEvent, target: LcEvent, names: seq<string>,
                                           writeColls: seq<string>, combineCalHits: bool, n: string)
    requires forall m :: m in names ==> m in src.colls
    requires DistinctNames(names) && n in names && Selected(n, writeColls)
    ensures var r := MergeFrom(src, target, names, writeColls, combineCalHits, false);
      var c := src.colls[n];
      && r.Ok? && n in r.value.colls
      && (n !in target.colls ==> r.value.colls[n] == c)
      && (n in target.colls ==>
            var t := target.colls[n];
            var merged := t.elements + c.elements;
            && r.value.colls[n].typeName == t.typeName
            && r.value.colls[n].elements
               == if c.typeName == SimCalorimeterHitType && combineCalHits && |t.elements| > 0
                  then Combined(merged) else merged)
    decreases |names|
  {
    var rest := names[1..];
    var c0 := src.colls[names[0]];
    var m := MergeCollection(target, names[0], c0, combineCalHits, names[0] in target.colls);
    if names[0] == n {
      assert n !in rest by {
        forall k | 0 <= k < |rest|
          ensures rest[k] != n
        {
          assert rest[k] == names[k + 1];
        }
      }
      MergeSelection(src, m.value, rest, writeColls, combineCalHits);
    } else {
      assert n in rest;
      assert DistinctNames(rest) by {
        forall i, j | 0 <= i < j < |rest|
          ensures rest[i] != rest[j]
        {
          assert rest[i] == names[i + 1] && rest[j] == names[j + 1];
        }
      }
      if Selected(names[0], writeColls) {
        MergeContentsAt(src, m.value, rest, writeColls, combineCalHits, n);
      } else {
        MergeContentsAt(src, target, rest, writeColls, combineCalHits, n);
      }
    }
  }

  /**
   * mergeEvent on an event with distinct collection names: it never fails,
   * adds exactly the selected collections the target lacked, leaves the other
   * target collections unchanged, and merges each selected collection as
   * MergeContentsAt says.
   */
  lemma MergeEventContents(src: LcEvent, target: LcEvent, writeColls: seq<string>, combineCalHits: bool)
    requires WellFormed(src) && DistinctNames(src.names)
    ensures var r := MergeFrom(src, target, src.names, writeColls, combineCalHits, false);
      && r.Ok?
      && r.value.colls.Keys == target.colls.Keys + (set n | n in src.names && Selected(n, writeColls))
      && (forall n :: n in target.colls && !(n in src.names && Selected(n, writeColls)) ==>
            r.value.colls[n] == target.colls[n])
      && (forall n :: n in src.names && Selected(n, writeColls) && n !in target.colls ==>
            r.value.colls[n] == src.colls[n])
      && (forall n :: n in src.names && Selected(n, writeColls) && n in target.colls ==>
            var t := target.colls[n];
            var merged := t.elements + src.colls[n].elements;
            && r.value.colls[n].typeName == t.typeName
            && r.value.colls[n].elements
               == if src.colls[n].typeName == SimCalorimeterHitType && combineCalHits && |t.elements| > 0
                  then Combined(merged) else merged)
  {
    MergeSelection(src, target, src.names, writeColls, combineCalHits);
    forall n | n in src.names && Selected(n, writeColls)
      ensures n in target.colls ==>
            var t := target.colls[n];
            var merged := t.elements + src.colls[n].elements;
            var r := MergeFrom(src, target, src.names, writeColls, combineCalHits, false);
            && r.value.colls[n].typeName == t.typeName
            && r.value.colls[n].elements
               == if src.colls[n].typeName == SimCalorimeterHitType && combineCalHits && |t.elements| > 0
                  then Combined(merged) else merged
      ensures n !in target.colls ==>
            MergeFrom(src, target, src.names, writeColls, combineCalHits, false).value.colls[n] == src.colls[n]
    {
      MergeContentsAt(src, target, src.names, writeColls, combineCalHits, n);
    }
  }

  /**
   * The element-count test before combining holds exactly when the target
   * collection already had elements: a collection the target held empty takes
   * the source hits as they are, and a non-empty one is combined.
   */
  lemma MergeCombinesNonEmpty(target: LcEvent, name: string, src: Coll)
    requires name in target.colls && src.typeName == SimCalorimeterHitType
    ensures var r := MergeCollection(target, name, src, true, true);
      && r.Ok?
      && (|target.colls[name].elements| == 0 ==> r.value.colls[name].elements == src.elements)
      && (|target.colls[name].elements| > 0 ==>
            r.value.colls[name].elements == Combined(target.colls[name].elements + src.elements))
  {
    assert [] + src.elements == src.elements;
  }

  /**
   * mergeEvent: each source collection selected by `writeColls` is merged into
   * the target, in the source's order, with the target lookup consulting the
   * target.
   */
  method MergeEvent(src: LcEvent, target: LcEvent, writeColls: seq<string>, combineCalHits: bool)
    returns (r: Result<LcEvent, MergeError>)
    requires WellFormed(src)
    ensures r == MergeFrom(src, target, src.names, writeColls, combineCalHits, false)
  {
    var t := target;
    var i := 0;
    while i < |src.names|
      invariant 0 <= i <= |src.names|
      invariant MergeFrom(src, t, src.names[i..], writeColls, combineCalHits, false)
             == MergeFrom(src, target, src.names, writeColls, combineCalHits, false)
    {
      var collName := src.names[i];
      assert src.names[i..][1..] == src.names[i + 1..];
      if |writeColls| == 0 || collName in writeColls {
        var m := MergeCollection(t, collName, src.colls[collName], combineCalHits, collName in t.colls);
        if m.Err? {
          return Err(m.error);
        }
        t := m.value;
      }
      i := i + 1;
    }
    return Ok(t);
  }
}
