/**
 * The passengers of the event bus and the three visitors that act on them
 * (Framework/include/Framework/Event.h, clearPassenger, sortPassenger and
 * printPassenger).
 *
 * A passenger is a tagged union: one event object, a vector of event objects,
 * or a map from keys to event objects. The event-object classes themselves are
 * not part of this model: an object is a sort key (what its operator< compares)
 * and opaque content, and its own Clear and Print are passed in as functions.
 */
module Passengers {

  /** An event object: its operator< compares `key`; `content` stands for the rest. */
  datatype EventObject = EventObject(key: int, content: seq<int>)

  datatype Shape = ObjectShape | VectorShape | MapShape

  /** The variant alternative a passenger holds: its shape and its object class. */
  datatype Alternative = Alternative(shape: Shape, cls: string)

  /** Entries with strictly increasing keys: a std::map, in its iteration order. */
  predicate IncreasingKeys(entries: seq<(int, EventObject)>)
  {
    forall i, j :: 0 <= i < j < |entries| ==> entries[i].0 < entries[j].0
  }

  type OrderedMap = entries: seq<(int, EventObject)> | IncreasingKeys(entries) witness []

  /** An event-bus passenger. */
  datatype Passenger =
    | Single(cls: string, obj: EventObject)
    | Vector(cls: string, items: seq<EventObject>)
    | Mapping(cls: string, entries: OrderedMap)

  /** The variant's `which()`: two passengers have the same C++ type iff they agree here. */
  function Which(p: Passenger): Alternative
  {
    match p
    case Single(c, _) => Alternative(ObjectShape, c)
    case Vector(c, _) => Alternative(VectorShape, c)
    case Mapping(c, _) => Alternative(MapShape, c)
  }

  /** The compiler-level type name of a passenger's alternative. */
  function TypeName(a: Alternative): string
  {
    match a.shape
    case ObjectShape => a.cls
    case VectorShape => "std::vector<" + a.cls + ">"
    case MapShape => "std::map<int," + a.cls + ">"
  }

  /**
   * clearPassenger: vectors and maps are emptied, a single object is replaced
   * by what its own Clear leaves; the alternative never changes.
   */
  function ClearPassenger(p: Passenger, clearObject: EventObject -> EventObject): (q: Passenger)
    ensures Which(q) == Which(p)
    ensures q.Vector? ==> q.items == []
    ensures q.Mapping? ==> q.entries == []
    ensures q.Single? ==> q.obj == clearObject(p.obj)
  {
    match p
    case Single(c, o) => Single(c, clearObject(o))
    case Vector(c, _) => Vector(c, [])
    case Mapping(c, _) => Mapping(c, [])
  }

  /** Clearing twice is clearing once, when the objects' own Clear is idempotent. */
  lemma ClearIdempotent(p: Passenger, clearObject: EventObject -> EventObject)
    requires forall o :: clearObject(clearObject(o)) == clearObject(o)
    ensures ClearPassenger(ClearPassenger(p, clearObject), clearObject) == ClearPassenger(p, clearObject)
  {}

  /** Objects in non-decreasing operator< order. */
  predicate Sorted(s: seq<EventObject>)
  {
    forall i, j :: 0 <= i < j < |s| ==> s[i].key <= s[j].key
  }

  /** Inserts x before the first element whose key is not less than its own. */
  function Insert(x: EventObject, s: seq<EventObject>): (r: seq<EventObject>)
    ensures |r| == |s| + 1 && (r[0] == x || (|s| > 0 && r[0] == s[0]))
  {
    if s == [] || x.key <= s[0].key then [x] + s
    else [s[0]] + Insert(x, s[1..])
  }

  /** A sorted sequence stays sorted behind an element whose key is at most all of its keys. */
  lemma SortedCons(y: EventObject, s: seq<EventObject>)
    requires Sorted(s) && forall k :: 0 <= k < |s| ==> y.key <= s[k].key
    ensures Sorted([y] + s)
  {
    var r := [y] + s;
    forall i, j | 0 <= i < j < |r|
      ensures r[i].key <= r[j].key
    {
      assert r[j] == s[j - 1];
      if i > 0 {
        assert r[i] == s[i - 1];
      }
    }
  }

  /** A lower bound of the keys of t and of x bounds the keys of any permutation of t and x. */
  lemma PermLowerBound(r: seq<EventObject>, t: seq<EventObject>, x: EventObject, b: int)
    requires multiset(r) == multiset(t) + multiset{x}
    requires b <= x.key && forall m :: 0 <= m < |t| ==> b <= t[m].key
    ensures forall k :: 0 <= k < |r| ==> b <= r[k].key
  {
    forall k | 0 <= k < |r|
      ensures b <= r[k].key
    {
      assert r[k] in multiset(r);
      if r[k] != x {
        assert r[k] in multiset(t);
        var m :| 0 <= m < |t| && t[m] == r[k];
      }
    }
  }

  /** Inserting adds exactly one copy of x. */
  lemma {:induction false} InsertPerm(x: EventObject, s: seq<EventObject>)
    ensures multiset(Insert(x, s)) == multiset(s) + multiset{x}
  {
    if s != [] && x.key > s[0].key {
      assert s == [s[0]] + s[1..];
      InsertPerm(x, s[1..]);
      assert Insert(x, s) == [s[0]] + Insert(x, s[1..]);
    }
  }

  /** Inserting into a sorted sequence keeps it sorted and adds exactly one copy of x. */
  lemma {:induction false} InsertSorted(x: EventObject, s: seq<EventObject>)
    requires Sorted(s)
    ensures Sorted(Insert(x, s)) && multiset(Insert(x, s)) == multiset(s) + multiset{x}
  {
    InsertPerm(x, s);
    if s == [] || x.key <= s[0].key {
      assert Insert(x, s) == [x] + s;
      SortedCons(x, s);
    } else {
      var t := s[1..];
      assert Sorted(t);
      InsertSorted(x, t);
      var r' := Insert(x, t);
      forall m | 0 <= m < |t|
        ensures s[0].key <= t[m].key
      {
        assert t[m] == s[m + 1];
      }
      PermLowerBound(r', t, x, s[0].key);
      SortedCons(s[0], r');
      assert Insert(x, s) == [s[0]] + r';
    }
  }

  /**
   * std::sort on a vector of objects: the result is sorted by operator< and is
   * a permutation of the input.
   */
  method SortObjects(s: seq<EventObject>) returns (r: seq<EventObject>)
    ensures Sorted(r) && multiset(r) == multiset(s)
  {
    r := [];
    var i := 0;
    while i < |s|
      invariant 0 <= i <= |s|
      invariant Sorted(r) && multiset(r) == multiset(s[..i])
    {
      assert s[..i + 1] == s[..i] + [s[i]];
      InsertSorted(s[i], r);
      r := Insert(s[i], r);
      i := i + 1;
    }
    assert s[..i] == s;
  }

  /** sortPassenger: vectors are sorted in place; objects and maps are left alone. */
  method SortPassenger(p: Passenger) returns (q: Passenger)
    ensures Which(q) == Which(p)
    ensures p.Vector? ==> Sorted(q.items) && multiset(q.items) == multiset(p.items)
    ensures !p.Vector? ==> q == p
  {
    if p.Vector? {
      var items := SortObjects(p.items);
      q := p.(items := items);
    } else {
      q := p;
    }
  }

  /** The decimal digits of a natural number. */
  function NatToString(n: nat): (s: string)
    ensures |s| >= 1
    decreases n
  {
    var d := ['0', '1', '2', '3', '4', '5', '6', '7', '8', '9'][n % 10];
    if n < 10 then [d] else NatToString(n / 10) + [d]
  }

  /** The value of a decimal digit character. */
  function DigitValue(c: char): nat
  {
    if '0' <= c <= '9' then (c as int - '0' as int) else 0
  }

  /** The number a string of decimal digits denotes, most significant first. */
  function DecimalValue(s: string): nat
  {
    if s == [] then 0 else DecimalValue(s[..|s| - 1]) * 10 + DigitValue(s[|s| - 1])
  }

  /**
   * The decimal form of n: only digits, no leading zero unless n is 0, and
   * denoting n.
   */
  lemma {:induction false} NatToStringDecimal(n: nat)
    ensures forall i :: 0 <= i < |NatToString(n)| ==> '0' <= NatToString(n)[i] <= '9'
    ensures NatToString(n)[0] != '0' || n == 0
    ensures DecimalValue(NatToString(n)) == n
    decreases n
  {
    var d := ['0', '1', '2', '3', '4', '5', '6', '7', '8', '9'][n % 10];
    assert DigitValue(d) == n % 10;
    if n >= 10 {
      NatToStringDecimal(n / 10);
      var t := NatToString(n / 10);
      assert NatToString(n) == t + [d];
      assert (t + [d])[..|t|] == t;
    }
  }

  /** An integer as the stream operator writes it. */
  function IntToString(n: int): string
  {
    if n < 0 then "-" + NatToString(-n) else NatToString(n)
  }

  /**
   * printPassenger's output as lines. Nothing is written at verbosity 0; above
   * 0 a vector or map writes its size and a single object prints itself; above
   * 1 a vector or map also writes "Contents:", one indented line per element
   * (map entries in ascending key order, as key -> object), and an empty line.
   */
  function PrintPassenger(p: Passenger, verbosity: int, show: EventObject -> string): seq<string>
  {
    match p
    case Single(_, o) => if verbosity > 0 then [show(o)] else []
    case Vector(_, items) => Listing(|items|, ItemLines(items, show), verbosity)
    case Mapping(_, entries) => Listing(|entries|, EntryLines(entries, show), verbosity)
  }

  /** One indented line per vector element. */
  function ItemLines(items: seq<EventObject>, show: EventObject -> string): (r: seq<string>)
    ensures |r| == |items| && forall i :: 0 <= i < |items| ==> r[i] == "    " + show(items[i])
  {
    seq(|items|, i requires 0 <= i < |items| => "    " + show(items[i]))
  }

  /** One indented line per map entry, as key -> object. */
  function EntryLines(entries: seq<(int, EventObject)>, show: EventObject -> string): (r: seq<string>)
    ensures |r| == |entries|
    ensures forall i :: 0 <= i < |entries| ==> r[i] == "    " + IntToString(entries[i].0) + " -> " + show(entries[i].1)
  {
    seq(|entries|, i requires 0 <= i < |entries| => "    " + IntToString(entries[i].0) + " -> " + show(entries[i].1))
  }

  /** The layout shared by vectors and maps: the size, then above 1 a header, the element lines and an empty line. */
  function Listing(size: nat, lines: seq<string>, verbosity: int): seq<string>
  {
    (if verbosity > 0 then ["Size: " + NatToString(size)] else [])
    + (if verbosity > 1 then ["Contents:"] + lines + [""] else [])
  }

  /** Above verbosity 1, line k + 2 of a listing is its k-th element line, and the last line is empty. */
  lemma ListingLines(size: nat, lines: seq<string>, verbosity: int)
    requires verbosity > 1
    ensures var out := Listing(size, lines, verbosity);
      && |out| == |lines| + 3 && out[0] == "Size: " + NatToString(size) && out[1] == "Contents:"
      && out[|lines| + 2] == ""
      && forall k :: 0 <= k < |lines| ==> out[k + 2] == lines[k]
  {
    var out := Listing(size, lines, verbosity);
    assert out == ["Size: " + NatToString(size), "Contents:"] + lines + [""];
  }

  /** The number of elements a vector or map passenger holds. */
  function Size(p: Passenger): nat
  {
    match p
    case Single(_, _) => 1
    case Vector(_, items) => |items|
    case Mapping(_, entries) => |entries|
  }

  /**
   * The verbosity levels of printPassenger: nothing at 0 or below; a vector or
   * map writes just its size at 1, and its size, a header, one line per element
   * and a closing line above 1; a single object prints one line at any level above 0.
   */
  lemma PrintVerbosity(p: Passenger, verbosity: int, show: EventObject -> string)
    ensures verbosity <= 0 ==> PrintPassenger(p, verbosity, show) == []
    ensures !p.Single? && verbosity == 1 ==> PrintPassenger(p, verbosity, show) == ["Size: " + NatToString(Size(p))]
    ensures !p.Single? && verbosity > 1 ==>
      |PrintPassenger(p, verbosity, show)| == Size(p) + 3
      && PrintPassenger(p, verbosity, show)[0] == "Size: " + NatToString(Size(p))
      && PrintPassenger(p, verbosity, show)[1] == "Contents:"
    ensures p.Single? && verbosity > 0 ==> PrintPassenger(p, verbosity, show) == [show(p.obj)]
  {}

  /**
   * Above verbosity 1, the lines after the header: one indented line per
   * vector element, or per map entry as key -> object, then an empty line.
   */
  lemma PrintContents(p: Passenger, verbosity: int, show: EventObject -> string)
    requires !p.Single? && verbosity > 1
    ensures |PrintPassenger(p, verbosity, show)| == Size(p) + 3
    ensures PrintPassenger(p, verbosity, show)[Size(p) + 2] == ""
    ensures p.Vector? ==>
      forall i :: 0 <= i < |p.items| ==> PrintPassenger(p, verbosity, show)[i + 2] == "    " + show(p.items[i])
    ensures p.Mapping? ==>
      forall i :: 0 <= i < |p.entries| ==>
        PrintPassenger(p, verbosity, show)[i + 2] == "    " + IntToString(p.entries[i].0) + " -> " + show(p.entries[i].1)
  {
    match p
    case Vector(_, items) => ListingLines(|items|, ItemLines(items, show), verbosity);
    case Mapping(_, entries) => ListingLines(|entries|, EntryLines(entries, show), verbosity);
  }
}
