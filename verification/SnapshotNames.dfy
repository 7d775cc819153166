/** What the choices of `Snapshots` mean by the dotted components of the modules' names. */
module SnapshotNames {
  import opened Wrappers
  import opened Snapshots

  function Dot(s: string): (i: nat)
    ensures i <= |s| && (i < |s| ==> s[i] == '.') && forall j :: 0 <= j < i ==> s[j] != '.'
  {
    if s == "" || s[0] == '.' then 0 else 1 + Dot(s[1..])
  }

  /** The parts of a name between its dots. */
  function Components(s: string): (parts: seq<string>)
    ensures parts != []
    decreases |s|
  {
    var i := Dot(s);
    [s[..i]] + (if i < |s| then Components(s[i + 1..]) else [])
  }

  function Dotted(parts: seq<string>): string {
    if parts == [] then "" else if |parts| == 1 then parts[0] else parts[0] + "." + Dotted(parts[1..])
  }

  lemma Split(s: string, i: nat)
    requires i < |s| && s[i] == '.' && forall j :: 0 <= j < i ==> s[j] != '.'
    ensures Components(s) == [s[..i]] + Components(s[i + 1..])
  {
    assert !(Dot(s) < i);
  }

  lemma NoDots(s: string)
    requires forall i :: 0 <= i < |s| ==> s[i] != '.'
    ensures Components(s) == [s]
  {
    assert Dot(s) == |s|;
    assert s[..|s|] == s;
  }

  lemma {:induction false} DottedBack(s: string)
    ensures Dotted(Components(s)) == s
    decreases |s|
  {
    hide Components;
    var i := Dot(s);
    if i < |s| {
      Split(s, i);
      DottedBack(s[i + 1..]);
      DottedCons(s[..i], Components(s[i + 1..]));
      assert s[..i] + "." + s[i + 1..] == s;
    } else {
      NoDots(s);
    }
  }

  lemma DottedCons(part: string, parts: seq<string>)
    requires parts != []
    ensures Dotted([part] + parts) == part + "." + Dotted(parts)
  {
    assert ([part] + parts)[1..] == parts;
  }

  lemma {:induction false} ComponentsJoin(r: string, x: string)
    ensures Components(r + "." + x) == Components(r) + Components(x)
    decreases |r|
  {
    hide Components;
    var i, s := Dot(r), r + "." + x;
    Split(s, i);
    assert s[..i] == r[..i];
    if i < |r| {
      Split(r, i);
      ComponentsJoin(r[i + 1..], x);
      assert s[i + 1..] == r[i + 1..] + "." + x;
      assert Components(s) == [r[..i]] + (Components(r[i + 1..]) + Components(x));
    } else {
      NoDots(r);
      assert r[..i] == r && s[i + 1..] == x;
    }
  }

  lemma {:induction false} DottedJoin(a: seq<string>, b: seq<string>)
    requires a != [] && b != []
    ensures Dotted(a + b) == Dotted(a) + "." + Dotted(b)
  {
    if |a| > 1 {
      DottedJoin(a[1..], b);
      assert (a + b)[1..] == a[1..] + b;
      assert Dotted(a) + "." + Dotted(b) == a[0] + "." + (Dotted(a[1..]) + "." + Dotted(b));
    } else {
      assert (a + b)[1..] == b;
    }
  }

  /** A root serves the modules whose names begin with its components, itself among them. */
  lemma UnderIs(r: string, m: string)
    ensures Under(r, m) <==> Components(r) <= Components(m)
  {
    hide Components, Dotted;
    if r + "." <= m {
      var x := m[|r| + 1..];
      assert m == r + "." + x;
      ComponentsJoin(r, x);
    }
    if Components(r) <= Components(m) { PrefixIsUnder(r, m); }
  }

  lemma PrefixIsUnder(r: string, m: string)
    requires Components(r) <= Components(m)
    ensures Under(r, m)
  {
    hide Components, Dotted;
    var rest := Components(m)[|Components(r)|..];
    assert Components(m) == Components(r) + rest;
    DottedBack(r);
    DottedBack(m);
    if rest == [] {
      assert Components(m) == Components(r);
    } else {
      DottedJoin(Components(r), rest);
      var x := Dotted(rest);
      assert m == r + "." + x;
      assert m[..|r + "."|] == r + ".";
    }
  }

  predicate RootOf(r: string, m: string) {
    Components(r) <= Components(m)
  }

  predicate IsUmbrellas(first: string) {
    first == "Mathlib" || first == "Batteries" || first == "MIL" || first == "QED64"
  }

  /** A root of one part. */
  lemma OnePart(r: string, m: string)
    requires forall i :: 0 <= i < |r| ==> r[i] != '.'
    ensures Under(r, m) <==> Components(m)[0] == r
  {
    hide Under, Components;
    UnderIs(r, m);
    NoDots(r);
  }

  /** The entry's declared roots, or those the umbrella snapshot is known for, name the module. */
  ghost predicate Claims(e: Entry, m: string) {
    if e.roots.Some? then exists r :: r in e.roots.value && RootOf(r, m)
    else e.name == "mathlib" && IsUmbrellas(Components(m)[0])
  }

  lemma ClaimsIs(e: Entry, m: string)
    ensures CoversModule(EntryRoots(e), m) <==> Claims(e, m)
  {
    hide Under, RootOf, Components;
    forall r ensures Under(r, m) <==> RootOf(r, m) { UnderRoot(r, m); }
    if e.roots.None? && e.name == "mathlib" { UmbrellaRoots(m); }
  }

  lemma UnderRoot(r: string, m: string)
    ensures Under(r, m) <==> RootOf(r, m)
  {
    UnderIs(r, m);
  }

  lemma UmbrellaRoots(m: string)
    ensures CoversModule(LEGACY_UMBRELLA_ROOTS, m) <==> IsUmbrellas(Components(m)[0])
  {
    hide Under, Components;
    var roots := LEGACY_UMBRELLA_ROOTS;
    assert roots[0] == "Mathlib" && roots[1] == "Batteries" && roots[2] == "MIL" && roots[3] == "QED64" && |roots| == 4;
    forall k | 0 <= k < 4 ensures Under(roots[k], m) <==> Components(m)[0] == roots[k] { OnePart(roots[k], m); }
  }

  lemma InitIs(m: string)
    ensures IsInit(m) <==> Components(m)[0] == "Init"
  {
    OnePart("Init", m);
  }

  /** Some entry of these names claims the module. */
  ghost predicate ClaimedBy(index: seq<Entry>, names: seq<string>, m: string) {
    exists e :: e in index && e.name in names && Claims(e, m)
  }

  lemma RootsOfClaim(index: seq<Entry>, names: seq<string>, m: string)
    ensures CoversModule(RootsOf(index, names), m) <==> ClaimedBy(index, names, m)
  {
    hide CoversModule, RootsOf, EntryRoots, Claims;
    RootsOfCover(index, names, m);
    forall e ensures CoversModule(EntryRoots(e), m) <==> Claims(e, m) { ClaimsIs(e, m); }
  }

  ghost predicate Needed(index: seq<Entry>, base: seq<string>, m: string) {
    Components(m)[0] != "Init" && !ClaimedBy(index, base, m)
  }

  /** What a header needs beyond the base: its modules outside Init that no entry of the base claims. */
  lemma RequiredIs(index: seq<Entry>, modules: seq<string>, base: seq<string>, m: string)
    ensures m in Required(index, modules, base) <==> m in modules && Needed(index, base, m)
  {
    hide CoversModule, RootsOf, IsInit, ClaimedBy;
    InitIs(m);
    RootsOfClaim(index, base, m);
  }

  /** What can be chosen beside the base: an entry outside it that claims a module the header needs. */
  lemma CandidateIs(index: seq<Entry>, modules: seq<string>, base: seq<string>, e: Entry)
    ensures Candidate(Required(index, modules, base), base, e) <==>
      e.name !in base && exists m :: m in modules && Claims(e, m) && Needed(index, base, m)
  {
    hide CoversModule, EntryRoots, Claims, Needed, Required;
    var required := Required(index, modules, base);
    forall m ensures CoversModule(EntryRoots(e), m) <==> Claims(e, m) { ClaimsIs(e, m); }
    forall m ensures m in required <==> m in modules && Needed(index, base, m) { RequiredIs(index, modules, base, m); }
    if Covered(required, e) != {} {
      var m :| m in Covered(required, e);
      assert m in required && Claims(e, m);
    }
    if m :| m in modules && Claims(e, m) && Needed(index, base, m) { assert m in Covered(required, e); }
  }

  /** The kernel's refusal stands when every missing module is Init's or claimed by an entry the session has. */
  lemma RefutedIs(index: seq<Entry>, missing: seq<string>, loaded: seq<string>, base: seq<string>)
    ensures Refuted(index, missing, loaded, base) <==>
      forall m :: m in missing ==> Components(m)[0] == "Init" || ClaimedBy(index, base + loaded, m)
  {
    hide CoversModule, RootsOf, IsInit, ClaimedBy;
    forall m ensures IsInit(m) <==> Components(m)[0] == "Init" { InitIs(m); }
    forall m ensures CoversModule(RootsOf(index, base + loaded), m) <==> ClaimedBy(index, base + loaded, m) {
      RootsOfClaim(index, base + loaded, m);
    }
  }

  /** The header's modules a widened session must serve too: outside Init, not the base's, and some entry's. */
  ghost predicate MustServe(index: seq<Entry>, base: seq<string>, m: string) {
    Needed(index, base, m) && exists e :: e in index && Claims(e, m)
  }

  lemma NeedsIs(index: seq<Entry>, base: seq<string>, m: string)
    ensures HeaderNeeds(index, base, m) <==> MustServe(index, base, m)
  {
    hide CoversModule, RootsOf, IsInit, EntryRoots, Claims, ClaimedBy;
    InitIs(m);
    RootsOfClaim(index, base, m);
    forall e ensures CoversModule(EntryRoots(e), m) <==> Claims(e, m) { ClaimsIs(e, m); }
  }

  /** An entry serves a refused header when it is not loaded and claims all that is missing and all that must be
      served. */
  lemma ServesIs(index: seq<Entry>, missing: seq<string>, loaded: seq<string>, header: seq<string>, base: seq<string>,
                 e: Entry)
    ensures Serves(index, missing, loaded, header, base, e) <==>
      && e.name !in loaded
      && (forall m :: m in missing ==> Claims(e, m))
      && (forall m :: m in header && MustServe(index, base, m) ==> Claims(e, m))
  {
    hide CoversModule, EntryRoots, HeaderNeeds, MustServe, Claims;
    forall m ensures CoversModule(EntryRoots(e), m) <==> Claims(e, m) { ClaimsIs(e, m); }
    forall m ensures HeaderNeeds(index, base, m) <==> MustServe(index, base, m) { NeedsIs(index, base, m); }
  }
}
