/**
 * The per-event data bus (Framework/include/Framework/Event.h, class Event).
 *
 * Producers add named passengers; a passenger lives under the branch id
 * `name_pass` (the event header keeps its bare name). Consumers get a passenger
 * by name and pass, or by name alone, in which case the known branch names are
 * scanned for the prefix `name_` and a unique match is cached.
 *
 * The ROOT trees are abstract: the input tree is a map from branch id to a
 * column of entries, and the output tree is only a flag saying whether one is
 * attached. The state the operations change is captured by BusState; AddSpec
 * and GetSpec say what add and getImpl do to it, and the Event class carries
 * the source's fields and implements both against those functions.
 */
module EventBus {
  import opened Wrappers
  import opened Passengers

  /** The name of the event header product, which has no pass in its branch id. */
  const EventHeaderName: string := "EventHeader"

  /** A data product: its name, the pass that made it, and its type name. */
  datatype ProductTag = ProductTag(name: string, passName: string, typeName: string)

  /** The exceptions add and getImpl raise. */
  datatype BusError =
    | IllegalName(name: string)
    | ProductExists(name: string)
    | TypeMismatch(given: string, stored: string)
    | ProductNotFound(name: string)
    | ProductAmbiguous(name: string, matches: seq<string>)
    | BadGet(requested: string, held: string)

  /** makeBranchName: the collection name, an underscore, and the pass name. */
  function MakeBranchName(collectionName: string, passName: string): string
  {
    collectionName + "_" + passName
  }

  /** The branch id add and getImpl use: the bare name for the event header. */
  function BranchIdOf(collectionName: string, passName: string): string
  {
    if collectionName == EventHeaderName then collectionName else MakeBranchName(collectionName, passName)
  }

  /** The part of a branch id before its first underscore (all of it when there is none). */
  function NameOf(branch: string): (n: string)
    ensures |n| <= |branch| && branch[..|n|] == n && '_' !in n
  {
    if branch == [] || branch[0] == '_' then [] else [branch[0]] + NameOf(branch[1..])
  }

  /** The part of a branch id after its first underscore. */
  function PassOf(branch: string): string
  {
    var n := NameOf(branch);
    if |n| < |branch| then branch[|n| + 1..] else []
  }

  /** A name without underscores is the whole name part of its branch id. */
  lemma {:induction false} NameOfBranch(collectionName: string, passName: string)
    requires '_' !in collectionName
    ensures NameOf(MakeBranchName(collectionName, passName)) == collectionName
  {
    if collectionName != [] {
      assert MakeBranchName(collectionName, passName)[1..] == MakeBranchName(collectionName[1..], passName);
      NameOfBranch(collectionName[1..], passName);
    }
  }

  /** makeBranchName can be undone: the first underscore separates name and pass. */
  lemma BranchNameRoundTrip(collectionName: string, passName: string)
    requires '_' !in collectionName
    ensures NameOf(MakeBranchName(collectionName, passName)) == collectionName
    ensures PassOf(MakeBranchName(collectionName, passName)) == passName
  {
    NameOfBranch(collectionName, passName);
  }

  /** s starts with p (`!s.compare(0, |p|, p)`). */
  predicate IsPrefix(p: string, s: string)
  {
    |p| <= |s| && s[..|p|] == p
  }

  /**
   * For names without underscores, the branch id of (n', pass) starts with
   * `n_` exactly when n' is n, whatever the pass.
   */
  lemma PrefixNamesBranch(n: string, n': string, passName: string)
    requires '_' !in n && '_' !in n'
    ensures IsPrefix(n + "_", MakeBranchName(n', passName)) <==> n == n'
  {
    var b := MakeBranchName(n', passName);
    NameOfBranch(n', passName);
    if IsPrefix(n + "_", b) {
      assert b == MakeBranchName(n, b[|n| + 1..]);
      NameOfBranch(n, b[|n| + 1..]);
    }
  }

  /** The branch names with the given prefix, in the order they are listed. */
  function PrefixMatches(names: seq<string>, prefix: string): (r: seq<string>)
    ensures |r| <= |names|
  {
    if names == [] then []
    else
      PrefixMatches(names[..|names| - 1], prefix)
      + (if IsPrefix(prefix, names[|names| - 1]) then [names[|names| - 1]] else [])
  }

  /** A name is among the matches exactly when it is listed and has the prefix. */
  lemma {:induction false} PrefixMatchesMembers(names: seq<string>, prefix: string, x: string)
    ensures x in PrefixMatches(names, prefix) <==> x in names && IsPrefix(prefix, x)
  {
    if names != [] {
      var init := names[..|names| - 1];
      PrefixMatchesMembers(init, prefix, x);
      assert names == init + [names[|names| - 1]];
    }
  }

  /**
   * The input tree's column for one branch: the object ROOT holds before any
   * entry is read, and the entries.
   */
  datatype Column = Column(blank: Passenger, entries: seq<Passenger>)

  /** GetEntry(e): the entry at e, or what was held before when there is none. */
  function ReadEntry(col: Column, entry: int, current: Passenger): Passenger
  {
    if 0 <= entry < |col.entries| then col.entries[entry] else current
  }

  /** What an event is given from outside: its pass name, input tree, current entry and output tree. */
  datatype BusConfig = BusConfig(
    passName: string, input: Option<map<string, Column>>, ientry: int, hasOutputTree: bool)

  /** The fields of an event that add and getImpl change. */
  datatype BusState = BusState(
    branches: set<string>,
    passengers: map<string, Passenger>,
    newBranches: seq<string>,
    branchNames: seq<string>,
    filled: set<string>,
    knownLookups: map<string, string>,
    products: seq<ProductTag>)

  const EmptyBus := BusState({}, map[], [], [], {}, map[], [])

  /** The first add of a branch: a passenger, an output branch, a product tag, a branch name, and no cached lookups. */
  function RegisterSpec(cfg: BusConfig, s: BusState, collectionName: string, branch: string, obj: Passenger): BusState
  {
    s.(passengers := s.passengers[branch := obj],
       newBranches := if cfg.hasOutputTree then s.newBranches + [branch] else s.newBranches,
       products := s.products + [ProductTag(collectionName, cfg.passName, TypeName(Which(obj)))],
       branchNames := s.branchNames + [branch],
       knownLookups := map[])
  }

  /**
   * add, step by step: an underscore in the name is illegal; a branch already
   * filled this event is refused; otherwise the branch is marked filled,
   * registered if it has no passenger yet, and the passenger replaced by obj
   * unless their alternatives differ.
   */
  function AddSpec(cfg: BusConfig, s: BusState, collectionName: string, obj: Passenger): (BusState, Outcome<BusError>)
  {
    if '_' in collectionName then (s, Fail(IllegalName(collectionName)))
    else
      var branch := BranchIdOf(collectionName, cfg.passName);
      if branch in s.filled then (s, Fail(ProductExists(collectionName)))
      else
        var s1 := s.(filled := s.filled + {branch});
        var s2 := if branch in s1.passengers then s1 else RegisterSpec(cfg, s1, collectionName, branch, obj);
        if Which(obj) == Which(s2.passengers[branch]) then
          (s2.(passengers := s2.passengers[branch := obj]), Pass)
        else
          (s2, Fail(TypeMismatch(TypeName(Which(obj)), TypeName(Which(s2.passengers[branch])))))
  }

  /** boost::get<T>: the passenger when it holds the requested alternative. */
  function GetAs(s: BusState, branch: string, want: Alternative): (BusState, Result<Passenger, BusError>)
    requires branch in s.passengers
  {
    if Which(s.passengers[branch]) == want then (s, Ok(s.passengers[branch]))
    else (s, Err(BadGet(TypeName(want), TypeName(Which(s.passengers[branch])))))
  }

  /**
   * The second half of getImpl, once the branch id is known: a passenger that
   * is present is returned, re-read first from its input branch when that
   * branch is loaded; otherwise the branch is loaded from the input tree at the
   * current entry (entry 0 before the first event).
   */
  function LoadSpec(cfg: BusConfig, s: BusState, collectionName: string, branch: string, want: Alternative)
    : (BusState, Result<Passenger, BusError>)
  {
    if branch in s.passengers then
      if branch in s.branches && cfg.input.Some? && branch in cfg.input.value then
        var p := ReadEntry(cfg.input.value[branch], cfg.ientry, s.passengers[branch]);
        GetAs(s.(passengers := s.passengers[branch := p]), branch, want)
      else GetAs(s, branch, want)
    else if cfg.input.None? || branch in s.branches || branch !in cfg.input.value then
      (s, Err(ProductNotFound(collectionName)))
    else
      var col := cfg.input.value[branch];
      var p := ReadEntry(col, if cfg.ientry < 0 then 0 else cfg.ientry, col.blank);
      GetAs(s.(passengers := s.passengers[branch := p], branches := s.branches + {branch}), branch, want)
  }

  /**
   * getImpl's first load of a branch as written: the passenger is copied from
   * the branch's object before GetEntry reads the current entry into it, so
   * what is stored and returned is the object the branch held before the read.
   * Every other case is LoadSpec's.
   */
  function LoadSpecAsWritten(cfg: BusConfig, s: BusState, collectionName: string, branch: string, want: Alternative)
    : (r: (BusState, Result<Passenger, BusError>))
    ensures branch !in s.passengers && cfg.input.Some? && branch !in s.branches && branch in cfg.input.value ==>
      branch in r.0.passengers && r.0.passengers[branch] == cfg.input.value[branch].blank && branch in r.0.branches
  {
    if branch !in s.passengers && cfg.input.Some? && branch !in s.branches && branch in cfg.input.value then
      var col := cfg.input.value[branch];
      GetAs(s.(passengers := s.passengers[branch := col.blank], branches := s.branches + {branch}), branch, want)
    else LoadSpec(cfg, s, collectionName, branch, want)
  }

  /**
   * The input that shows it: at entry 0, a vector branch whose object holds no
   * hits before the read and one hit in entry 0. As written the first get
   * returns the empty vector; reading before copying returns the hit.
   */
  lemma AsWrittenFirstLoadStale(o: EventObject)
    ensures var before := Vector("SimHit", []);
      var entry := Vector("SimHit", [o]);
      var cfg := BusConfig("sim", Some(map["Hits_sim" := Column(before, [entry])]), 0, false);
      && LoadSpecAsWritten(cfg, EmptyBus, "Hits", "Hits_sim", Which(entry)).1 == Ok(before)
      && LoadSpec(cfg, EmptyBus, "Hits", "Hits_sim", Which(entry)).1 == Ok(entry)
  {}

  /**
   * The first load of an input branch stores and returns the entry at the
   * current index (entry 0 before the first event), or what the branch held
   * when the tree has no such entry; the branch is loaded afterwards.
   */
  lemma FirstLoadReadsEntry(cfg: BusConfig, s: BusState, collectionName: string, branch: string, want: Alternative)
    requires branch !in s.passengers && branch !in s.branches
    requires cfg.input.Some? && branch in cfg.input.value
    ensures var col := cfg.input.value[branch];
      var e := if cfg.ientry < 0 then 0 else cfg.ientry;
      var p := if e < |col.entries| then col.entries[e] else col.blank;
      var r := LoadSpec(cfg, s, collectionName, branch, want);
      && r.0.passengers == s.passengers[branch := p]
      && r.0.branches == s.branches + {branch}
      && (r.1.Ok? <==> Which(p) == want)
      && (r.1.Ok? ==> r.1.value == p)
  {}

  /**
   * getImpl: with a pass (or for the event header) the branch id is
   * name_pass; without one, a cached lookup is used, or else the branch names
   * with prefix `name_` are scanned: none is not found, several are ambiguous,
   * and a single one is cached and used.
   */
  function GetSpec(cfg: BusConfig, s: BusState, collectionName: string, passName: string, want: Alternative)
    : (BusState, Result<Passenger, BusError>)
  {
    if passName == "" && collectionName != EventHeaderName then
      if collectionName in s.knownLookups then
        LoadSpec(cfg, s, collectionName, s.knownLookups[collectionName], want)
      else
        var matches := PrefixMatches(s.branchNames, collectionName + "_");
        if |matches| == 0 then (s, Err(ProductNotFound(collectionName)))
        else if |matches| > 1 then (s, Err(ProductAmbiguous(collectionName, matches)))
        else
          LoadSpec(cfg, s.(knownLookups := s.knownLookups[collectionName := matches[0]]),
                   collectionName, matches[0], want)
    else LoadSpec(cfg, s, collectionName, BranchIdOf(collectionName, passName), want)
  }

  /** A name with an underscore is refused before anything is created. */
  lemma AddIllegalName(cfg: BusConfig, s: BusState, collectionName: string, obj: Passenger)
    requires '_' in collectionName
    ensures AddSpec(cfg, s, collectionName, obj) == (s, Fail(IllegalName(collectionName)))
  {}

  /** The branch id: the bare name for the event header, name_pass otherwise. */
  lemma BranchIds(collectionName: string, passName: string)
    ensures collectionName == EventHeaderName ==> BranchIdOf(collectionName, passName) == EventHeaderName
    ensures collectionName != EventHeaderName ==> BranchIdOf(collectionName, passName) == collectionName + "_" + passName
  {}

  /**
   * Once an add has got past the name check, a second add of the same name in
   * the same event is refused with ProductExists and changes nothing.
   */
  lemma AddTwice(cfg: BusConfig, s: BusState, collectionName: string, obj: Passenger, obj': Passenger)
    requires '_' !in collectionName
    ensures var s1 := AddSpec(cfg, s, collectionName, obj).0;
      AddSpec(cfg, s1, collectionName, obj') == (s1, Fail(ProductExists(collectionName)))
  {}

  /**
   * The first add of a branch registers it: one product tag and one branch
   * name are appended, the lookup cache is emptied, the passenger is obj, and
   * the branch is filled; an output branch is recorded when there is an output tree.
   */
  lemma AddRegisters(cfg: BusConfig, s: BusState, collectionName: string, obj: Passenger)
    requires '_' !in collectionName
    requires BranchIdOf(collectionName, cfg.passName) !in s.filled
    requires BranchIdOf(collectionName, cfg.passName) !in s.passengers
    ensures var b := BranchIdOf(collectionName, cfg.passName);
      var (s', r) := AddSpec(cfg, s, collectionName, obj);
      && r == Pass
      && s'.products == s.products + [ProductTag(collectionName, cfg.passName, TypeName(Which(obj)))]
      && s'.branchNames == s.branchNames + [b]
      && s'.knownLookups == map[]
      && s'.passengers == s.passengers[b := obj]
      && s'.filled == s.filled + {b}
      && s'.newBranches == (if cfg.hasOutputTree then s.newBranches + [b] else s.newBranches)
      && s'.branches == s.branches
  {}

  /**
   * An add to a branch that already has a passenger registers nothing: the
   * product tags, branch names and cache stay as they were; the branch is
   * marked filled either way, and the passenger is replaced exactly when the
   * alternatives agree, the add failing with TypeMismatch otherwise.
   */
  lemma AddExisting(cfg: BusConfig, s: BusState, collectionName: string, obj: Passenger)
    requires '_' !in collectionName
    requires BranchIdOf(collectionName, cfg.passName) !in s.filled
    requires BranchIdOf(collectionName, cfg.passName) in s.passengers
    ensures var b := BranchIdOf(collectionName, cfg.passName);
      var (s', r) := AddSpec(cfg, s, collectionName, obj);
      && s'.products == s.products && s'.branchNames == s.branchNames
      && s'.knownLookups == s.knownLookups && s'.newBranches == s.newBranches
      && s'.filled == s.filled + {b}
      && (r == Pass <==> Which(obj) == Which(s.passengers[b]))
      && (r == Pass ==> s'.passengers == s.passengers[b := obj])
      && (r != Pass ==>
            s'.passengers == s.passengers
            && r == Fail(TypeMismatch(TypeName(Which(obj)), TypeName(Which(s.passengers[b])))))
  {}

  /**
   * Reading back what was just added: with a non-empty pass, getting the name
   * with that pass and the added alternative returns the added passenger, as
   * long as the branch is not one loaded from the input tree.
   */
  lemma AddThenGet(cfg: BusConfig, s: BusState, collectionName: string, obj: Passenger)
    requires cfg.passName != ""
    requires AddSpec(cfg, s, collectionName, obj).1 == Pass
    requires BranchIdOf(collectionName, cfg.passName) !in s.branches
    ensures var s1 := AddSpec(cfg, s, collectionName, obj).0;
      GetSpec(cfg, s1, collectionName, cfg.passName, Which(obj)) == (s1, Ok(obj))
  {}

  /**
   * Getting by name alone with no cached lookup: no branch name with prefix
   * `name_` is not found, several are ambiguous and listed, and both leave the
   * state unchanged; a single one is cached.
   */
  lemma GetByNameScan(cfg: BusConfig, s: BusState, collectionName: string, want: Alternative)
    requires collectionName != EventHeaderName && collectionName !in s.knownLookups
    ensures var matches := PrefixMatches(s.branchNames, collectionName + "_");
      var (s', r) := GetSpec(cfg, s, collectionName, "", want);
      && (|matches| == 0 ==> s' == s && r == Err(ProductNotFound(collectionName)))
      && (|matches| > 1 ==> s' == s && r == Err(ProductAmbiguous(collectionName, matches)))
      && (|matches| == 1 ==> s'.knownLookups == s.knownLookups[collectionName := matches[0]])
  {
    var matches := PrefixMatches(s.branchNames, collectionName + "_");
    if |matches| == 1 {
      var s1 := s.(knownLookups := s.knownLookups[collectionName := matches[0]]);
      LoadKeepsLookups(cfg, s1, collectionName, matches[0], want);
    }
  }

  /** The loading half of getImpl never touches the cache, the names, the tags or the filled set. */
  lemma LoadKeepsLookups(cfg: BusConfig, s: BusState, collectionName: string, branch: string, want: Alternative)
    ensures var s' := LoadSpec(cfg, s, collectionName, branch, want).0;
      s'.knownLookups == s.knownLookups && s'.branchNames == s.branchNames
      && s'.products == s.products && s'.filled == s.filled && s'.newBranches == s.newBranches
  {}

  /** Every cached lookup is the one branch name with prefix `name_`. */
  ghost predicate CacheConsistent(s: BusState)
  {
    forall n :: n in s.knownLookups ==> PrefixMatches(s.branchNames, n + "_") == [s.knownLookups[n]]
  }

  /** add keeps the cache consistent: it either leaves the names and cache alone or empties the cache. */
  lemma AddKeepsCache(cfg: BusConfig, s: BusState, collectionName: string, obj: Passenger)
    requires CacheConsistent(s)
    ensures CacheConsistent(AddSpec(cfg, s, collectionName, obj).0)
  {}

  /** getImpl keeps the cache consistent: it caches only a unique match. */
  lemma GetKeepsCache(cfg: BusConfig, s: BusState, collectionName: string, passName: string, want: Alternative)
    requires CacheConsistent(s)
    ensures CacheConsistent(GetSpec(cfg, s, collectionName, passName, want).0)
  {
    var s' := GetSpec(cfg, s, collectionName, passName, want).0;
    if passName == "" && collectionName != EventHeaderName {
      if collectionName in s.knownLookups {
        LoadKeepsLookups(cfg, s, collectionName, s.knownLookups[collectionName], want);
      } else {
        var matches := PrefixMatches(s.branchNames, collectionName + "_");
        if |matches| == 1 {
          var s1 := s.(knownLookups := s.knownLookups[collectionName := matches[0]]);
          LoadKeepsLookups(cfg, s1, collectionName, matches[0], want);
        }
      }
    } else {
      LoadKeepsLookups(cfg, s, collectionName, BranchIdOf(collectionName, passName), want);
    }
  }

  /**
   * The cache is only an optimisation: on a consistent state, getting by name
   * alone returns what a fresh scan with an empty cache would return.
   */
  lemma CacheTransparent(cfg: BusConfig, s: BusState, collectionName: string, want: Alternative)
    requires CacheConsistent(s)
    ensures GetSpec(cfg, s, collectionName, "", want).1
         == GetSpec(cfg, s.(knownLookups := map[]), collectionName, "", want).1
  {
    if collectionName != EventHeaderName && collectionName in s.knownLookups {
      var b := s.knownLookups[collectionName];
      var s0 := s.(knownLookups := map[]);
      var s1 := s0.(knownLookups := s0.knownLookups[collectionName := b]);
      assert LoadSpec(cfg, s, collectionName, b, want).1 == LoadSpec(cfg, s1, collectionName, b, want).1 by {
        LoadIgnoresLookups(cfg, s, s1, collectionName, b, want);
      }
    } else if collectionName != EventHeaderName {
      var matches := PrefixMatches(s.branchNames, collectionName + "_");
      if |matches| == 1 {
        var s1 := s.(knownLookups := s.knownLookups[collectionName := matches[0]]);
        var s0 := s.(knownLookups := map[]);
        var s2 := s0.(knownLookups := s0.knownLookups[collectionName := matches[0]]);
        LoadIgnoresLookups(cfg, s1, s2, collectionName, matches[0], want);
      }
    } else {
      LoadIgnoresLookups(cfg, s, s.(knownLookups := map[]), collectionName, EventHeaderName, want);
    }
  }

  /** What a load returns does not depend on the cache. */
  lemma LoadIgnoresLookups(cfg: BusConfig, s: BusState, t: BusState, collectionName: string, branch: string, want: Alternative)
    requires s.passengers == t.passengers && s.branches == t.branches
    ensures LoadSpec(cfg, s, collectionName, branch, want).1 == LoadSpec(cfg, t, collectionName, branch, want).1
  {}

  /**
   * Without names containing underscores, two passes of the same name make
   * getting it by name alone ambiguous, when nothing is cached.
   */
  lemma TwoPassesAmbiguous(cfg: BusConfig, s: BusState, collectionName: string, pass1: string, pass2: string, want: Alternative)
    requires '_' !in collectionName && collectionName != EventHeaderName && collectionName !in s.knownLookups
    requires pass1 != pass2
    requires MakeBranchName(collectionName, pass1) in s.branchNames && MakeBranchName(collectionName, pass2) in s.branchNames
    ensures GetSpec(cfg, s, collectionName, "", want).1.Err?
    ensures GetSpec(cfg, s, collectionName, "", want).1.error.ProductAmbiguous?
  {
    var p := collectionName + "_";
    var b1, b2 := MakeBranchName(collectionName, pass1), MakeBranchName(collectionName, pass2);
    PrefixMatchesMembers(s.branchNames, p, b1);
    PrefixMatchesMembers(s.branchNames, p, b2);
    PrefixNamesBranch(collectionName, collectionName, pass1);
    PrefixNamesBranch(collectionName, collectionName, pass2);
    var matches := PrefixMatches(s.branchNames, p);
    assert b1 != b2 by {
      BranchNameRoundTrip(collectionName, pass1);
      BranchNameRoundTrip(collectionName, pass2);
    }
  }

  /** searchProducts: the product tags the (regular-expression) matcher accepts, in order. */
  function SearchProducts(products: seq<ProductTag>, matches: ProductTag -> bool): (r: seq<ProductTag>)
    ensures |r| <= |products|
    ensures forall t :: t in r <==> t in products && matches(t)
  {
    if products == [] then []
    else
      SearchProducts(products[..|products| - 1], matches)
      + (if matches(products[|products| - 1]) then [products[|products| - 1]] else [])
  }

  /** The search keeps the products' order: it distributes over concatenation. */
  lemma {:induction false} SearchConcat(a: seq<ProductTag>, b: seq<ProductTag>, matches: ProductTag -> bool)
    ensures SearchProducts(a + b, matches) == SearchProducts(a, matches) + SearchProducts(b, matches)
    decreases |b|
  {
    if b != [] {
      var b' := b[..|b| - 1];
      assert (a + b)[..|a + b| - 1] == a + b';
      assert (a + b)[|a + b| - 1] == b[|b| - 1];
      SearchConcat(a, b', matches);
    } else {
      assert a + b == a;
    }
  }

  /** Exactly one product is accepted, at index i. */
  ghost predicate UniqueMatchAt(products: seq<ProductTag>, matches: ProductTag -> bool, i: int)
  {
    0 <= i < |products| && matches(products[i])
    && forall j :: 0 <= j < |products| && matches(products[j]) ==> j == i
  }

  /** Some index holds the only accepted product tag. */
  ghost predicate HasUniqueMatch(products: seq<ProductTag>, matches: ProductTag -> bool)
  {
    exists i :: UniqueMatchAt(products, matches, i)
  }

  /** One search result exactly when exactly one product tag is accepted. */
  lemma {:induction false} SearchOne(products: seq<ProductTag>, matches: ProductTag -> bool)
    ensures |SearchProducts(products, matches)| == 1 <==> HasUniqueMatch(products, matches)
    ensures |SearchProducts(products, matches)| == 0 <==> forall j :: 0 <= j < |products| ==> !matches(products[j])
  {
    if products != [] {
      var init := products[..|products| - 1];
      var last := products[|products| - 1];
      SearchOne(init, matches);
      assert forall j :: 0 <= j < |init| ==> init[j] == products[j];
      if |SearchProducts(products, matches)| == 1 {
        if matches(last) {
          assert UniqueMatchAt(products, matches, |products| - 1);
        } else {
          var i :| UniqueMatchAt(init, matches, i);
          assert UniqueMatchAt(products, matches, i);
        }
      }
      if exists i :: UniqueMatchAt(products, matches, i) {
        var i :| UniqueMatchAt(products, matches, i);
        if i == |products| - 1 {
          assert forall j :: 0 <= j < |init| ==> !matches(init[j]);
        } else {
          assert UniqueMatchAt(init, matches, i);
        }
      }
    }
  }

  /**
   * exists(name, pass): searchProducts(name, pass, "") finds exactly one tag.
   * The regular-expression matching of searchProducts is not part of this
   * model; `matches(tag, name, pass, type)` stands for it.
   */
  function ProductExistsIn(products: seq<ProductTag>, matches: (ProductTag, string, string, string) -> bool,
                           collectionName: string, passName: string): (b: bool)
    ensures b <==> HasUniqueMatch(products, tag => matches(tag, collectionName, passName, ""))
  {
    SearchOne(products, tag => matches(tag, collectionName, passName, ""));
    |SearchProducts(products, tag => matches(tag, collectionName, passName, ""))| == 1
  }

  /** The event: the state fields of the bus and the settings it was given. */
  class Event {
    const passName: string
    const input: Option<map<string, Column>>
    const ientry: int
    const hasOutputTree: bool

    var branches: set<string>
    var passengers: map<string, Passenger>
    var newBranches: seq<string>
    var branchNames: seq<string>
    var branchesFilled: set<string>
    var knownLookups: map<string, string>
    var products: seq<ProductTag>

    /** An event with an empty bus. */
    constructor (passName: string, input: Option<map<string, Column>>, ientry: int, hasOutputTree: bool)
      ensures State() == EmptyBus
      ensures Config() == BusConfig(passName, input, ientry, hasOutputTree)
    {
      this.passName, this.input, this.ientry, this.hasOutputTree := passName, input, ientry, hasOutputTree;
      branches, passengers, newBranches, branchNames := {}, map[], [], [];
      branchesFilled, knownLookups, products := {}, map[], [];
    }

    function Config(): BusConfig
    {
      BusConfig(passName, input, ientry, hasOutputTree)
    }

    function State(): BusState
      reads this
    {
      BusState(branches, passengers, newBranches, branchNames, branchesFilled, knownLookups, products)
    }

    /** exists(name, pass): exactly one product tag matches. */
    function Exists(matches: (ProductTag, string, string, string) -> bool, collectionName: string, passName: string): (b: bool)
      reads this
      ensures b <==> HasUniqueMatch(products, tag => matches(tag, collectionName, passName, ""))
    {
      ProductExistsIn(products, matches, collectionName, passName)
    }

    /** exists(name): exists with an empty pass. */
    function ExistsAnyPass(matches: (ProductTag, string, string, string) -> bool, collectionName: string): (b: bool)
      reads this
      ensures b == Exists(matches, collectionName, "")
    {
      Exists(matches, collectionName, "")
    }

    /** The registration step of add for a branch with no passenger yet. */
    method Register(collectionName: string, branch: string, obj: Passenger)
      modifies this`passengers, this`newBranches, this`products, this`branchNames, this`knownLookups
      ensures State() == RegisterSpec(Config(), old(State()), collectionName, branch, obj)
    {
      passengers := passengers[branch := obj];
      if hasOutputTree {
        newBranches := newBranches + [branch];
      }
      products := products + [ProductTag(collectionName, passName, TypeName(Which(obj)))];
      branchNames := branchNames + [branch];
      knownLookups := map[];
    }

    /** add(name, obj). */
    method Add(collectionName: string, obj: Passenger) returns (r: Outcome<BusError>)
      modifies this
      ensures (State(), r) == AddSpec(Config(), old(State()), collectionName, obj)
    {
      if '_' in collectionName {
        return Fail(IllegalName(collectionName));
      }
      var branch := if collectionName == EventHeaderName then collectionName else MakeBranchName(collectionName, passName);
      if branch in branchesFilled {
        return Fail(ProductExists(collectionName));
      }
      branchesFilled := branchesFilled + {branch};
      if branch !in passengers {
        Register(collectionName, branch, obj);
      }
      if Which(obj) == Which(passengers[branch]) {
        passengers := passengers[branch := obj];
        r := Pass;
      } else {
        r := Fail(TypeMismatch(TypeName(Which(obj)), TypeName(Which(passengers[branch]))));
      }
    }

    /** The prefix scan of getImpl over the known branch names. */
    static method ScanBranchNames(names: seq<string>, prefix: string) returns (matches: seq<string>)
      ensures matches == PrefixMatches(names, prefix)
    {
      matches := [];
      var i := 0;
      while i < |names|
        invariant 0 <= i <= |names|
        invariant matches == PrefixMatches(names[..i], prefix)
      {
        assert names[..i + 1][..i] == names[..i];
        if IsPrefix(prefix, names[i]) {
          matches := matches + [names[i]];
        }
        i := i + 1;
      }
      assert names[..i] == names;
    }

    /** The loading half of getImpl. */
    method Load(collectionName: string, branch: string, want: Alternative) returns (r: Result<Passenger, BusError>)
      modifies this`passengers, this`branches
      ensures (State(), r) == LoadSpec(Config(), old(State()), collectionName, branch, want)
    {
      if branch in passengers {
        if branch in branches && input.Some? && branch in input.value {
          passengers := passengers[branch := ReadEntry(input.value[branch], ientry, passengers[branch])];
        }
      } else if input.None? || branch in branches || branch !in input.value {
        return Err(ProductNotFound(collectionName));
      } else {
        var col := input.value[branch];
        passengers := passengers[branch := ReadEntry(col, if ientry < 0 then 0 else ientry, col.blank)];
        branches := branches + {branch};
      }
      if Which(passengers[branch]) == want {
        r := Ok(passengers[branch]);
      } else {
        r := Err(BadGet(TypeName(want), TypeName(Which(passengers[branch]))));
      }
    }

    /** getImpl<T>(name, pass), T being the alternative `want`. */
    method GetImpl(collectionName: string, passName: string, want: Alternative) returns (r: Result<Passenger, BusError>)
      modifies this`passengers, this`branches, this`knownLookups
      ensures (State(), r) == GetSpec(Config(), old(State()), collectionName, passName, want)
    {
      var branch := BranchIdOf(collectionName, passName);
      if passName == "" && collectionName != EventHeaderName {
        if collectionName in knownLookups {
          branch := knownLookups[collectionName];
        } else {
          var matches := ScanBranchNames(branchNames, collectionName + "_");
          if |matches| == 0 {
            return Err(ProductNotFound(collectionName));
          } else if |matches| > 1 {
            return Err(ProductAmbiguous(collectionName, matches));
          }
          branch := matches[0];
          knownLookups := knownLookups[collectionName := branch];
        }
      }
      r := Load(collectionName, branch, want);
    }
  }
}
