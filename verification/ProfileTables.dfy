/** What `Profiles` accepts and serves, by the files of the table themselves: their names and ranges, and their bytes in
    the profile pack. */
module ProfileTables {
  import opened Wrappers
  import opened Profiles

  /** An absolute name without two dots in a row. */
  ghost predicate Absolute(name: string) {
    "/" <= name && forall a: string, b: string :: name != a + ".." + b
  }

  lemma NameIs(name: string)
    ensures GoodName(name) <==> Absolute(name)
  {
    if a: string, b: string :| name == a + ".." + b {
      assert name[|a|] == '.' && name[|a| + 1] == '.';
    }
    if i :| 0 <= i < |name| - 1 && name[i] == '.' && name[i + 1] == '.' {
      assert name == name[..i] + ".." + name[i + 2..];
    }
  }

  /** The one of two files that starts first, the earlier in the table if both start together, ends before the other
      starts. */
  predicate Clear(earlier: File, later: File) {
    if earlier.start <= later.start then earlier.end <= later.start else later.end <= earlier.start
  }

  ghost predicate Apart(files: seq<File>) {
    forall i, j :: 0 <= i < j < |files| ==> Clear(files[i], files[j])
  }

  lemma PushDisjoint(x: File, s: seq<File>)
    ensures Disjoint([x] + s) <==> Disjoint(s) && forall g :: g in s ==> x.end <= g.start
  {
    var t := [x] + s;
    if Disjoint(t) {
      forall i, j | 0 <= i < j < |s| ensures s[i].end <= s[j].start { assert t[i + 1].end <= t[j + 1].start; }
      forall g | g in s ensures x.end <= g.start {
        var k :| 0 <= k < |s| && s[k] == g;
        assert t[0].end <= t[k + 1].start;
      }
    }
    if Disjoint(s) && forall g :: g in s ==> x.end <= g.start {
      forall i, j | 0 <= i < j < |t| ensures t[i].end <= t[j].start {
        if i == 0 { assert t[j] in s; } else { assert s[i - 1].end <= s[j - 1].start; }
      }
    }
  }

  lemma InsertMembers(x: File, s: seq<File>)
    ensures forall g :: g in Insert(x, s) <==> g == x || g in s
  {
    InsertMultiset(x, s);
    forall g ensures g in Insert(x, s) <==> g == x || g in s {
      assert g in Insert(x, s) <==> g in multiset(Insert(x, s));
    }
  }

  lemma AscendingRest(s: seq<File>)
    requires Ascending(s) && s != []
    ensures Ascending(s[1..]) && forall g :: g in s ==> s[0].start <= g.start
  {
  }

  /** Inserting keeps a table apart exactly when the new file is clear of all the others. */
  lemma {:induction false} InsertDisjoint(x: File, s: seq<File>)
    requires Ascending(s)
    ensures Disjoint(Insert(x, s)) <==> Disjoint(s) && forall g :: g in s ==> Clear(x, g)
  {
    hide Disjoint, Ascending;
    if s == [] {
      PushDisjoint(x, s);
    } else {
      AscendingRest(s);
      if x.start <= s[0].start {
        PushDisjoint(x, s);
      } else {
        var rest := s[1..];
        assert s == [s[0]] + rest;
        InsertDisjoint(x, rest);
        PushDisjoint(s[0], Insert(x, rest));
        PushDisjoint(s[0], rest);
        InsertMembers(x, rest);
        assert forall g :: g in s <==> g == s[0] || g in rest;
      }
    }
  }

  lemma ApartPush(x: File, rest: seq<File>)
    ensures Apart([x] + rest) <==> Apart(rest) && forall g :: g in rest ==> Clear(x, g)
  {
    hide Clear;
    var t := [x] + rest;
    if Apart(t) {
      forall i, j | 0 <= i < j < |rest| ensures Clear(rest[i], rest[j]) { assert Clear(t[i + 1], t[j + 1]); }
      forall g | g in rest ensures Clear(x, g) {
        var k :| 0 <= k < |rest| && rest[k] == g;
        assert Clear(t[0], t[k + 1]);
      }
    }
    if Apart(rest) && forall g :: g in rest ==> Clear(x, g) {
      forall i, j | 0 <= i < j < |t| ensures Clear(t[i], t[j]) {
        if i == 0 { assert t[j] in rest; } else { assert Clear(rest[i - 1], rest[j - 1]); }
      }
    }
  }

  /** The sorted table is without overlap exactly when the files are apart as they stand. */
  lemma {:induction false} SortedApart(files: seq<File>)
    ensures Disjoint(Sorted(files)) <==> Apart(files)
  {
    hide Apart, Disjoint, Clear, Insert, Ascending, At;
    if files == [] {
      NoneApart();
    } else {
      var x, rest := files[0], files[1..];
      assert files == [x] + rest;
      SortedApart(rest);
      SortedIs(rest, 0);
      InsertDisjoint(x, Sorted(rest));
      ApartPush(x, rest);
      SameFiles(rest);
    }
  }

  lemma NoneApart()
    ensures Apart([]) && Disjoint([])
  {
  }

  /** A table is accepted exactly when it has files, each with an absolute name and a range within the profile pack, and
      they are apart; empty files and files that touch are. */
  lemma AcceptsIs(files: seq<File>, packLength: int)
    ensures Accepts(files, packLength) <==>
      && files != [] && Apart(files)
      && forall f :: f in files ==> Absolute(f.filename) && 0 <= f.start && f.start <= f.end && f.end <= packLength
  {
    hide Apart, Disjoint, Sorted, Absolute, GoodName;
    SortedApart(files);
    forall f: File ensures GoodName(f.filename) <==> Absolute(f.filename) { NameIs(f.filename); }
  }

  /** What is wrong with a place of the ordered table: its name, else its range, else an overlap with the one before. */
  lemma FaultIs(s: seq<File>, i: nat, packLength: int)
    requires i < |s|
    ensures var f, fault := s[i], FaultAt(s, i, packLength);
      var inPack := 0 <= f.start && f.start <= f.end && f.end <= packLength;
      && (fault == Some(BadName(f)) <==> !Absolute(f.filename))
      && (fault == Some(BadRange(f)) <==> Absolute(f.filename) && !inPack)
      && (fault == Some(Overlap(f)) <==> Absolute(f.filename) && inPack && i > 0 && f.start < s[i - 1].end)
      && (fault.None? <==> Absolute(f.filename) && inPack && (i > 0 ==> s[i - 1].end <= f.start))
  {
    hide GoodName, Absolute;
    NameIs(s[i].filename);
  }

  /** Every file of an accepted table stands in a segment under its name, and its bytes there are its bytes in the
      profile pack. */
  lemma EveryFile(files: seq<File>, maxBytes: int, plans: seq<Plan>, data: seq<Byte>, segments: seq<Segment>, i: nat)
    returns (p: nat, j: nat)
    requires Accepts(files, |data|) && PlansOf(files, maxBytes, plans)
    requires SegmentsOf(data, plans, segments) && i < |files|
    ensures 0 <= files[i].start <= files[i].end <= |data|
    ensures p < |segments| && j < |segments[p].files|
    ensures var f, s := segments[p].files[j], segments[p];
      && f.filename == files[i].filename
      && 0 <= f.start <= f.end <= |s.bytes| && s.bytes[f.start..f.end] == data[files[i].start..files[i].end]
  {
    hide Sorted, Disjoint, Flat, GoodName, InPack, Slice, SegmentsOf, Number;
    var sorted := Sorted(files);
    SameFiles(files);
    assert files[i] in files && files[i] in sorted;
    var k: nat :| k < |sorted| && sorted[k] == files[i];
    PlansForward(plans, sorted, |data|);
    p, j := InOnePlan(files, maxBytes, plans, k);
    assert plans[p] in plans;
    PlaceServed(data, plans, segments, p, j, files[i]);
  }

  lemma PlaceServed(data: seq<Byte>, plans: seq<Plan>, segments: seq<Segment>, p: nat, j: nat, file: File)
    requires SegmentsOf(data, plans, segments) && p < |plans| && j < |plans[p].files|
    requires 0 <= plans[p].startByte <= plans[p].endByte <= |data| && InPack(plans[p])[j] == file
    requires 0 <= plans[p].files[j].start <= plans[p].files[j].end <= plans[p].endByte - plans[p].startByte
    ensures 0 <= file.start <= file.end <= |data| && p < |segments| && j < |segments[p].files|
    ensures var f, s := segments[p].files[j], segments[p];
      && f.filename == file.filename
      && 0 <= f.start <= f.end <= |s.bytes| && s.bytes[f.start..f.end] == data[file.start..file.end]
  {
    var q := plans[p];
    assert segments[p] == Segment(data[q.startByte..q.endByte], q.files);
    SliceOfSlice(data, q.startByte, q.endByte, q.files[j].start, q.files[j].end);
  }

  lemma SameFiles(files: seq<File>)
    ensures |Sorted(files)| == |files| && forall f :: f in Sorted(files) <==> f in files
  {
    hide Sorted;
    SortedIs(files, 0);
    SameLength(Sorted(files), files);
    forall f ensures f in Sorted(files) <==> f in files {
      assert f in Sorted(files) <==> f in multiset(Sorted(files));
    }
  }
}
