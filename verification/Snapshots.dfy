/** lib/snapshots.ts: which snapshots a header's modules need, and the one a refused session widens to.
    frontend/src/self-widen.ts boots the widened session with the base and the target. */
module Snapshots {
  import opened Wrappers

  datatype Entry = Entry(name: string, bytes: nat, roots: Option<seq<string>>)

  const LEGACY_UMBRELLA_ROOTS: seq<string> := ["Mathlib", "Batteries", "MIL", "QED64"]

  function EntryRoots(e: Entry): seq<string> {
    if e.roots.Some? then e.roots.value else if e.name == "mathlib" then LEGACY_UMBRELLA_ROOTS else []
  }

  predicate CoversModule(roots: seq<string>, m: string) {
    exists r :: r in roots && Under(r, m)
  }

  /** The root itself or a module below it. */
  predicate Under(r: string, m: string) {
    m == r || r + "." <= m
  }

  predicate IsInit(m: string) {
    Under("Init", m)
  }

  /** `flatMap` of the roots of the named entries. */
  function RootsOf(index: seq<Entry>, names: seq<string>): seq<string> {
    if index == [] then []
    else (if index[0].name in names then EntryRoots(index[0]) else []) + RootsOf(index[1..], names)
  }

  lemma {:induction false} RootsOfCover(index: seq<Entry>, names: seq<string>, m: string)
    ensures CoversModule(RootsOf(index, names), m)
       <==> exists e :: e in index && e.name in names && CoversModule(EntryRoots(e), m)
  {
    hide Under, EntryRoots;
    if index != [] {
      RootsOfCover(index[1..], names, m);
      var a, b := if index[0].name in names then EntryRoots(index[0]) else [], RootsOf(index[1..], names);
      CoverConcat(a, b, m);
      assert forall e :: e in index <==> e == index[0] || e in index[1..];
    }
  }

  lemma CoverConcat(a: seq<string>, b: seq<string>, m: string)
    ensures CoversModule(a + b, m) <==> CoversModule(a, m) || CoversModule(b, m)
  {
    hide Under;
    if CoversModule(a, m) {
      var r :| r in a && Under(r, m);
      assert r in a + b;
    }
    if CoversModule(b, m) {
      var r :| r in b && Under(r, m);
      assert r in a + b;
    }
  }

  // ---------------------------------------------------------------------------
  // chooseSnapshots

  /** The modules the base does not serve. */
  function Required(index: seq<Entry>, modules: seq<string>, base: seq<string>): set<string> {
    set m | m in modules && !IsInit(m) && !CoversModule(RootsOf(index, base), m)
  }

  function Covered(required: set<string>, e: Entry): set<string> {
    set m | m in required && CoversModule(EntryRoots(e), m)
  }

  predicate Better(required: set<string>, a: Entry, b: Entry) {
    |Covered(required, a)| > |Covered(required, b)|
    || (|Covered(required, a)| == |Covered(required, b)| && a.bytes < b.bytes)
  }

  predicate Candidate(required: set<string>, base: seq<string>, e: Entry) {
    e.name !in base && Covered(required, e) != {}
  }

  /** A candidate no other beats, the first of its equals. */
  ghost predicate IsBest(index: seq<Entry>, base: seq<string>, required: set<string>, i: nat) {
    && i < |index| && Candidate(required, base, index[i])
    && (forall j :: 0 <= j < |index| && Candidate(required, base, index[j]) ==> !Better(required, index[j], index[i]))
    && (forall j :: 0 <= j < i && Candidate(required, base, index[j]) ==> Better(required, index[i], index[j]))
  }

  /** There is one best entry at most. */
  lemma BestIsOne(index: seq<Entry>, base: seq<string>, required: set<string>, i: nat, j: nat)
    requires IsBest(index, base, required, i) && IsBest(index, base, required, j)
    ensures i == j
  {
  }

  method ChooseSnapshots(index: seq<Entry>, modules: seq<string>, base: seq<string>) returns (names: seq<string>)
    ensures var required := Required(index, modules, base);
      || (names == base && forall e :: e in index ==> !Candidate(required, base, e))
      || (exists i: nat :: IsBest(index, base, required, i) && names == base + [index[i].name])
  {
    var required := Required(index, modules, base);
    hide CoversModule, RootsOf, EntryRoots;
    if required == {} { return base; }
    ghost var at := 0;
    var best := None;
    for i := 0 to |index|
      invariant best.None? ==> forall j :: 0 <= j < i ==> !Candidate(required, base, index[j])
      invariant best.Some? ==> at < i && best.value == index[at] && IsBest(index[..i], base, required, at)
    {
      var e := index[i];
      assert index[..i + 1] == index[..i] + [e];
      if e.name in base { continue; }
      var covered := |Covered(required, e)|;
      if covered == 0 { continue; }
      if best.None? || covered > |Covered(required, best.value)|
         || (covered == |Covered(required, best.value)| && e.bytes < best.value.bytes) {
        best := Some(e);
        at := i;
      }
    }
    assert index[..|index|] == index;
    return if best.Some? then base + [best.value.name] else base;
  }

  lemma WholeSubset<T>(a: set<T>, b: set<T>)
    requires a <= b && |a| >= |b|
    ensures a == b
  {
    assert |b| == |a| + |b - a|;
  }

  /** The choice: when an entry outside the base covers every module the base does not, the chosen one does too and
      is the smallest that does. */
  lemma SmallestCover(index: seq<Entry>, base: seq<string>, required: set<string>, i: nat, e: Entry)
    requires IsBest(index, base, required, i) && required != {}
    requires e in index && e.name !in base && Covered(required, e) == required
    ensures Covered(required, index[i]) == required && index[i].bytes <= e.bytes
  {
    hide CoversModule, EntryRoots;
    assert Candidate(required, base, e) && !Better(required, e, index[i]);
    assert Covered(required, index[i]) <= required;
    WholeSubset(Covered(required, index[i]), required);
  }

  // ---------------------------------------------------------------------------
  // widenTarget

  /** The kernel has refuted every claim on these: no snapshot would change the verdict. */
  predicate Refuted(index: seq<Entry>, missing: seq<string>, loaded: seq<string>, base: seq<string>) {
    forall m :: m in missing ==> IsInit(m) || CoversModule(RootsOf(index, base + loaded), m)
  }

  predicate Claimed(index: seq<Entry>, m: string) {
    exists e :: e in index && CoversModule(EntryRoots(e), m)
  }

  /** A module of the header some entry claims and the base does not serve. */
  predicate HeaderNeeds(index: seq<Entry>, base: seq<string>, m: string) {
    !IsInit(m) && !CoversModule(RootsOf(index, base), m) && Claimed(index, m)
  }

  /** Not loaded, and covering all that is missing and all the header needs. */
  predicate Serves(index: seq<Entry>, missing: seq<string>, loaded: seq<string>, header: seq<string>,
                   base: seq<string>, e: Entry) {
    && e.name !in loaded
    && (forall m :: m in missing ==> CoversModule(EntryRoots(e), m))
    && (forall m :: m in header && HeaderNeeds(index, base, m) ==> CoversModule(EntryRoots(e), m))
  }

  /** The first smallest of the entries that serve. */
  function SmallestServing(entries: seq<Entry>, index: seq<Entry>, missing: seq<string>, loaded: seq<string>,
                           header: seq<string>, base: seq<string>): Option<Entry> {
    if entries == [] then None
    else
      var e, best := entries[|entries| - 1],
          SmallestServing(entries[..|entries| - 1], index, missing, loaded, header, base);
      if Serves(index, missing, loaded, header, base, e) && (best.None? || e.bytes < best.value.bytes) then Some(e)
        else best
  }

  /** `widenTarget`. */
  function Widen(index: seq<Entry>, missing: seq<string>, loaded: seq<string>, header: seq<string>,
                 base: seq<string>): Option<Entry> {
    if Refuted(index, missing, loaded, base) then None else SmallestServing(index, index, missing, loaded, header, base)
  }

  lemma {:induction false} SmallestIs(entries: seq<Entry>, index: seq<Entry>, missing: seq<string>, loaded: seq<string>,
                                      header: seq<string>, base: seq<string>)
    ensures var t := SmallestServing(entries, index, missing, loaded, header, base);
      && (t.None? ==> forall e :: e in entries ==> !Serves(index, missing, loaded, header, base, e))
      && (t.Some? ==> t.value in entries && Serves(index, missing, loaded, header, base, t.value))
      && (t.Some? ==> forall e :: e in entries && Serves(index, missing, loaded, header, base, e) ==>
         t.value.bytes <= e.bytes)
  {
    hide Serves;
    if entries != [] {
      var init, last := entries[..|entries| - 1], entries[|entries| - 1];
      SmallestIs(init, index, missing, loaded, header, base);
      assert forall e :: e in entries <==> e in init || e == last;
    }
  }

  method WidenTarget(index: seq<Entry>, missing: seq<string>, loaded: seq<string>, header: seq<string>,
                     base: seq<string>)
    returns (best: Option<Entry>)
    ensures best == Widen(index, missing, loaded, header, base)
  {
    hide Refuted, HeaderNeeds, CoversModule;
    if Refuted(index, missing, loaded, base) { return None; }
    best := None;
    for i := 0 to |index|
      invariant best == SmallestServing(index[..i], index, missing, loaded, header, base)
    {
      var e := index[i];
      assert index[..i + 1][..i] == index[..i];
      if e.name in loaded { continue; }
      if Serves(index, missing, loaded, header, base, e) && (best.None? || e.bytes < best.value.bytes) {
        best := Some(e);
      }
    }
    assert index[..|index|] == index;
  }

  /** The target is a smallest entry not loaded that covers all that is missing and all the header needs; there is
      none exactly when no entry does or the loaded ones claim everything missing. */
  lemma TargetIsSmallest(index: seq<Entry>, missing: seq<string>, loaded: seq<string>, header: seq<string>,
                         base: seq<string>)
    ensures var t := Widen(index, missing, loaded, header, base);
      && (t.None? <==> Refuted(index, missing, loaded, base) || forall e :: e in index ==>
         !Serves(index, missing, loaded, header, base, e))
      && (t.Some? ==> t.value in index && Serves(index, missing, loaded, header, base, t.value))
      && (t.Some? ==> forall e :: e in index && Serves(index, missing, loaded, header, base, e) ==>
         t.value.bytes <= e.bytes)
  {
    hide Serves, Refuted;
    SmallestIs(index, index, missing, loaded, header, base);
  }

  /** A module the header names is Init, served by what is loaded with t, or claimed by nobody. */
  lemma HeaderModule(index: seq<Entry>, missing: seq<string>, loaded: seq<string>, header: seq<string>,
                     base: seq<string>, t: Entry,
                     now: seq<string>, m: string)
    requires t in index && Serves(index, missing, loaded, header, base, t) && t.name in now && m in header
    ensures IsInit(m) || CoversModule(RootsOf(index, base + now), m) || !Claimed(index, m)
  {
    hide CoversModule, EntryRoots, IsInit, RootsOf;
    RootsOfCover(index, base + now, m);
    RootsOfCover(index, base, m);
    if CoversModule(RootsOf(index, base), m) {
      var e :| e in index && e.name in base && CoversModule(EntryRoots(e), m);
      assert e.name in base + now;
    } else if !IsInit(m) && Claimed(index, m) {
      assert HeaderNeeds(index, base, m);
      assert t.name in base + now;
    }
  }

  /** Widening cannot loop: once t served a header, no later refusal of that header widens a session that has t
      loaded. */
  lemma WidenedOnce(index: seq<Entry>, missing: seq<string>, loaded: seq<string>, header: seq<string>,
                    base: seq<string>,
                    later: seq<string>, now: seq<string>)
    requires var t := Widen(index, missing, loaded, header, base); t.Some? && t.value.name in now
    requires forall m :: m in later ==> m in header
    ensures Widen(index, later, now, header, base) == None
  {
    hide CoversModule, EntryRoots, IsInit, HeaderNeeds, RootsOf, Widen;
    var t := Widen(index, missing, loaded, header, base);
    TargetIsSmallest(index, missing, loaded, header, base);
    TargetIsSmallest(index, later, now, header, base);
    if !Refuted(index, later, now, base) {
      var m :| m in later && !IsInit(m) && !CoversModule(RootsOf(index, base + now), m);
      HeaderModule(index, missing, loaded, header, base, t.value, now, m);
      forall e | e in index ensures !Serves(index, later, now, header, base, e) {
        assert !CoversModule(EntryRoots(e), m);
      }
    }
  }

  /** A page whose header stays the same and is refused again and again: what its session has loaded, and how often it
      widened. */
  datatype Page = Page(loaded: seq<string>, widens: nat)

  function Refusals(index: seq<Entry>, header: seq<string>, base: seq<string>, start: seq<string>,
                    missing: seq<seq<string>>): Page {
    if missing == [] then Page(start, 0)
    else
      var p := Refusals(index, header, base, start, missing[..|missing| - 1]);
      var t := Widen(index, missing[|missing| - 1], p.loaded, header, base);
      if t.Some? then Page(base + [t.value.name], p.widens + 1) else p
  }

  predicate OfHeader(header: seq<string>, missing: seq<seq<string>>) {
    forall i, m :: 0 <= i < |missing| && m in missing[i] ==> m in header
  }

  /** The widening that happened, if one did. */
  ghost predicate Happened(index: seq<Entry>, header: seq<string>, base: seq<string>, missing: seq<string>,
                           loaded: seq<string>, p: Page) {
    var t := Widen(index, missing, loaded, header, base);
    t.Some? && p.loaded == base + [t.value.name]
  }

  /** A fixed header widens a session at most once, whatever of it is refused and in whatever order. */
  lemma {:induction false} FixedHeaderWidensOnce(index: seq<Entry>, header: seq<string>, base: seq<string>,
                                                 start: seq<string>,
                                                 missing: seq<seq<string>>)
    requires OfHeader(header, missing)
    ensures var p := Refusals(index, header, base, start, missing);
      && p.widens <= 1
      && (p.widens == 0 ==> p.loaded == start)
      && (p.widens == 1 ==> exists m, before :: Happened(index, header, base, m, before, p))
  {
    hide Widen;
    if missing != [] {
      var init, last := missing[..|missing| - 1], missing[|missing| - 1];
      FixedHeaderWidensOnce(index, header, base, start, init);
      var p := Refusals(index, header, base, start, init);
      if p.widens == 1 {
        var m, before :| Happened(index, header, base, m, before, p);
        WidenedOnce(index, m, before, header, base, last, p.loaded);
      } else if Widen(index, last, p.loaded, header, base).Some? {
        assert Happened(index, header, base, last, p.loaded, Refusals(index, header, base, start, missing));
      }
    }
  }
}
