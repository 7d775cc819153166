/** lib/profiles.ts: the file table of a pack manifest, its partition into segments, and the segments' reassembly
    from the pieces of a byte stream. */
module Profiles {
  import opened Wrappers

  newtype Byte = x: int | 0 <= x < 256

  datatype File = File(filename: string, start: int, end: int)

  datatype Plan = Plan(startByte: int, endByte: int, files: seq<File>)

  datatype Segment = Segment(bytes: seq<Byte>, files: seq<File>)

  // ---------------------------------------------------------------------------
  // The order of a file table: a stable sort by start

  function Insert(x: File, s: seq<File>): seq<File> {
    if s == [] || x.start <= s[0].start then [x] + s else [s[0]] + Insert(x, s[1..])
  }

  function Sorted(files: seq<File>): seq<File> {
    if files == [] then [] else Insert(files[0], Sorted(files[1..]))
  }

  ghost predicate Ascending(s: seq<File>) {
    forall i, j :: 0 <= i < j < |s| ==> s[i].start <= s[j].start
  }

  /** The files that start at `v`, in order. */
  function At(files: seq<File>, v: int): seq<File> {
    if files == [] then [] else (if files[0].start == v then [files[0]] else []) + At(files[1..], v)
  }

  lemma {:induction false} InsertMultiset(x: File, s: seq<File>)
    ensures multiset(Insert(x, s)) == multiset{x} + multiset(s)
  {
    if s != [] && x.start > s[0].start {
      InsertMultiset(x, s[1..]);
      assert s == [s[0]] + s[1..];
    }
  }

  lemma {:induction false} InsertAscending(x: File, s: seq<File>)
    requires Ascending(s)
    ensures Ascending(Insert(x, s))
    ensures s != [] && s[0].start < x.start ==> Insert(x, s)[0] == s[0]
  {
    if s != [] && x.start > s[0].start {
      var rest := s[1..];
      InsertAscending(x, rest);
      assert Insert(x, rest)[0].start >= s[0].start;
    }
  }

  lemma {:induction false} InsertAt(x: File, s: seq<File>, v: int)
    ensures At(Insert(x, s), v) == (if x.start == v then [x] else []) + At(s, v)
  {
    if s != [] && x.start > s[0].start {
      InsertAt(x, s[1..], v);
      AtPush(s[0], Insert(x, s[1..]), v);
      AtPush(s[0], s[1..], v);
      assert s == [s[0]] + s[1..];
    } else {
      AtPush(x, s, v);
    }
  }

  lemma AtPush(x: File, s: seq<File>, v: int)
    ensures At([x] + s, v) == (if x.start == v then [x] else []) + At(s, v)
  {
    assert ([x] + s)[1..] == s;
  }

  lemma NoFiles()
    ensures Ascending([])
  {
  }

  /** `sort`: an ascending permutation that keeps the order of files with one start; nothing else is. */
  lemma {:induction false} SortedIs(files: seq<File>, v: int)
    ensures Ascending(Sorted(files)) && multiset(Sorted(files)) == multiset(files)
      && At(Sorted(files), v) == At(files, v)
  {
    hide Insert, At, Ascending;
    if files == [] {
      assert Ascending([]) by { NoFiles(); }
    } else {
      var x, rest := files[0], files[1..];
      SortedIs(rest, v);
      InsertAscending(x, Sorted(rest));
      InsertMultiset(x, Sorted(rest));
      InsertAt(x, Sorted(rest), v);
      AtPush(x, rest, v);
      assert files == [x] + rest;
    }
  }

  // ---------------------------------------------------------------------------
  // validateManifest: the file table

  datatype Fault = NoTable | BadName(file: File) | BadRange(file: File) | Overlap(file: File)

  predicate GoodName(name: string) {
    && name != "" && name[0] == '/'
    && forall i :: 0 <= i < |name| - 1 ==> !(name[i] == '.' && name[i + 1] == '.')
  }

  predicate GoodRange(f: File, packLength: int) {
    0 <= f.start <= f.end <= packLength
  }

  /** What the loop finds at place i of the ordered table. */
  function FaultAt(s: seq<File>, i: nat, packLength: int): Option<Fault>
    requires i < |s|
  {
    if !GoodName(s[i].filename) then Some(BadName(s[i]))
    else if !GoodRange(s[i], packLength) then Some(BadRange(s[i]))
    else if s[i].start < (if i == 0 then -1 else s[i - 1].end) then Some(Overlap(s[i]))
    else None
  }

  /** Named, within the profile pack, and no file begins before another that starts earlier has ended. */
  ghost predicate Accepts(files: seq<File>, packLength: int) {
    && files != []
    && (forall f :: f in files ==> GoodName(f.filename) && GoodRange(f, packLength))
    && Disjoint(Sorted(files))
  }

  ghost predicate Disjoint(s: seq<File>) {
    forall i, j :: 0 <= i < j < |s| ==> s[i].end <= s[j].start
  }

  /** The loop looks only at neighbours. */
  lemma {:induction false} NeighboursSuffice(s: seq<File>, packLength: int, n: nat)
    requires n <= |s| && forall i :: 0 <= i < n ==> FaultAt(s, i, packLength).None?
    ensures Disjoint(s[..n]) && forall i :: 0 <= i < n ==> GoodName(s[i].filename) && GoodRange(s[i], packLength)
  {
    if n > 0 {
      NeighboursSuffice(s, packLength, n - 1);
      assert FaultAt(s, n - 1, packLength).None?;
      forall i, j | 0 <= i < j < n ensures s[..n][i].end <= s[..n][j].start {
        if j < n - 1 {
          assert s[..n - 1][i].end <= s[..n - 1][j].start;
        } else if i < n - 2 {
          assert s[..n - 1][i].end <= s[..n - 1][n - 2].start;
        }
      }
    }
  }

  lemma FaultRefuses(files: seq<File>, packLength: int, i: nat)
    requires i < |Sorted(files)| && FaultAt(Sorted(files), i, packLength).Some?
    ensures !Accepts(files, packLength)
  {
    var s := Sorted(files);
    SortedIs(files, 0);
    assert s[i] in multiset(s);
    if i > 0 && s[i].start < s[i - 1].end { assert !Disjoint(s); }
  }

  method ValidateFiles(files: seq<File>, packLength: int) returns (r: Result<(), Fault>)
    ensures r.Ok? <==> Accepts(files, packLength)
    ensures files == [] ==> r == Err(NoTable)
    ensures files != [] && r.Err? ==>
      exists i :: 0 <= i < |Sorted(files)| && FaultAt(Sorted(files), i, packLength) == Some(r.error)
                  && forall j :: 0 <= j < i ==> FaultAt(Sorted(files), j, packLength).None?
  {
    hide Sorted, GoodName, GoodRange;
    if files == [] { return Err(NoTable); }
    SortedIs(files, 0);
    var previousEnd := -1;
    var sorted := Sorted(files);
    for i := 0 to |sorted|
      invariant previousEnd == if i == 0 then -1 else sorted[i - 1].end
      invariant forall j :: 0 <= j < i ==> FaultAt(sorted, j, packLength).None?
    {
      var file := sorted[i];
      var fault := None;
      if !GoodName(file.filename) {
        fault := Some(BadName(file));
      } else if !GoodRange(file, packLength) {
        fault := Some(BadRange(file));
      } else if file.start < previousEnd {
        fault := Some(Overlap(file));
      }
      assert fault == FaultAt(sorted, i, packLength);
      if fault.Some? {
        FaultRefuses(files, packLength, i);
        return Err(fault.value);
      }
      previousEnd := file.end;
    }
    NeighboursSuffice(sorted, packLength, |sorted|);
    assert sorted[..|sorted|] == sorted;
    assert forall f :: f in files ==> f in multiset(sorted);
    return Ok(());
  }

  // ---------------------------------------------------------------------------
  // planSegments

  /** A plan's files where they lie in the profile pack. */
  function InPack(p: Plan): (s: seq<File>)
    ensures |s| == |p.files|
  {
    seq(|p.files|, i requires 0 <= i < |p.files| =>
      File(p.files[i].filename, p.files[i].start + p.startByte, p.files[i].end + p.startByte))
  }

  function Flat(plans: seq<Plan>): seq<File> {
    if plans == [] then [] else Flat(plans[..|plans| - 1]) + InPack(plans[|plans| - 1])
  }

  lemma FlatPush(plans: seq<Plan>, p: Plan)
    ensures Flat(plans + [p]) == Flat(plans) + InPack(p)
  {
    assert (plans + [p])[..|plans|] == plans;
  }

  /** At most `maxBytes`, or one oversized file. */
  predicate Fits(p: Plan, maxBytes: int) {
    p.endByte - p.startByte <= maxBytes || (|p.files| == 1 && p.files[0].end - p.files[0].start > maxBytes)
  }

  /** A plan starts where its first file does and ends where its last one does. */
  predicate Tight(p: Plan) {
    && p.files != []
    && InPack(p)[0].start == p.startByte
    && InPack(p)[|p.files| - 1].end == p.endByte
  }

  /** No plan could have taken the first file of the next one. */
  predicate Greedy(plans: seq<Plan>, maxBytes: int) {
    forall i :: 0 < i < |plans| && plans[i].files != [] ==> InPack(plans[i])[0].end - plans[i - 1].startByte > maxBytes
  }

  ghost predicate PlansOf(files: seq<File>, maxBytes: int, plans: seq<Plan>) {
    && Flat(plans) == Sorted(files)
    && forall p :: p in plans ==> Fits(p, maxBytes) && Tight(p)
  }

  ghost predicate InOrder(s: seq<File>) {
    Disjoint(s) && forall f :: f in s ==> f.start <= f.end
  }

  /** The plans of the files done so far; `open` when the last one may grow. */
  ghost predicate Planned(plans: seq<Plan>, open: bool, done: seq<File>, maxBytes: int) {
    && Flat(plans) == done
    && (forall p :: p in plans ==> Fits(p, maxBytes) && Tight(p))
    && (plans == [] ==> !open)
    && (plans != [] ==>
          && done != [] && plans[|plans| - 1].endByte == done[|done| - 1].end
          && (open <==> plans[|plans| - 1].endByte - plans[|plans| - 1].startByte <= maxBytes))
    && (InOrder(done) ==> Greedy(plans, maxBytes))
  }

  lemma InOrderPush(done: seq<File>, file: File)
    requires InOrder(done + [file])
    ensures InOrder(done) && (done != [] ==> done[|done| - 1].end <= file.start <= file.end)
  {
    var all := done + [file];
    assert all[|done|] == file && file in all;
    assert forall i :: 0 <= i < |done| ==> all[i] == done[i];
    if done != [] { assert all[|done| - 1].end <= all[|done|].start; }
  }

  /** A file opens a plan. */
  lemma PlanOpened(plans: seq<Plan>, open: bool, done: seq<File>, file: File, maxBytes: int)
    requires Planned(plans, open, done, maxBytes)
    requires open ==> file.end - plans[|plans| - 1].startByte > maxBytes
    ensures var p := Plan(file.start, file.end, [File(file.filename, 0, file.end - file.start)]);
      Planned(plans + [p], file.end - file.start <= maxBytes, done + [file], maxBytes)
  {
    hide Flat, Disjoint;
    var p := Plan(file.start, file.end, [File(file.filename, 0, file.end - file.start)]);
    assert InPack(p) == [file];
    FlatPush(plans, p);
    if InOrder(done + [file]) { InOrderPush(done, file); }
  }

  function Grown(p: Plan, file: File): Plan {
    Plan(p.startByte, file.end, p.files + [File(file.filename, file.start - p.startByte, file.end - p.startByte)])
  }

  lemma GrownIs(p: Plan, file: File)
    requires Tight(p)
    ensures InPack(Grown(p, file)) == InPack(p) + [file] && Tight(Grown(p, file))
    ensures InPack(Grown(p, file))[0] == InPack(p)[0] && p.files != []
  {
    assert InPack(Grown(p, file)) == InPack(p) + [file];
  }

  /** A file joins the last plan. */
  lemma PlanExtended(plans: seq<Plan>, done: seq<File>, file: File, maxBytes: int)
    requires Planned(plans, true, done, maxBytes) && file.end - plans[|plans| - 1].startByte <= maxBytes
    ensures Planned(plans[..|plans| - 1] + [Grown(plans[|plans| - 1], file)], true, done + [file], maxBytes)
  {
    hide Flat, Disjoint, Tight, InPack, InOrder, Greedy;
    var init, p := plans[..|plans| - 1], plans[|plans| - 1];
    var q := Grown(p, file);
    GrownIs(p, file);
    assert plans == init + [p];
    FlatPush(init, p);
    FlatPush(init, q);
    assert Flat(init) + (InPack(p) + [file]) == done + [file];
    if InOrder(done + [file]) {
      InOrderPush(done, file);
      GreedyGrown(init, p, q, maxBytes);
    }
  }

  lemma GreedyGrown(init: seq<Plan>, p: Plan, q: Plan, maxBytes: int)
    requires Greedy(init + [p], maxBytes) && p.files != [] && q.files != [] && InPack(q)[0] == InPack(p)[0]
    ensures Greedy(init + [q], maxBytes)
  {
    var a, b := init + [p], init + [q];
    forall i | 0 < i < |b| && b[i].files != [] ensures InPack(b[i])[0].end - b[i - 1].startByte > maxBytes {
      assert a[i].files != [] && a[i - 1] == b[i - 1];
    }
  }

  method PlanSegments(files: seq<File>, maxBytes: int) returns (plans: seq<Plan>)
    ensures PlansOf(files, maxBytes, plans)
    ensures InOrder(Sorted(files)) ==> Greedy(plans, maxBytes)
  {
    hide Sorted, Planned, PlansOf, Greedy, InOrder;
    var ordered := Sorted(files);
    plans := [];
    var open := false; // `current` is the last plan
    assert Planned([], false, [], maxBytes) by { NoPlans(maxBytes); }
    for i := 0 to |ordered|
      invariant Planned(plans, open, ordered[..i], maxBytes) && (open ==> plans != [])
    {
      var file := ordered[i];
      var size := file.end - file.start;
      assert ordered[..i + 1] == ordered[..i] + [file];
      if !open || file.end - plans[|plans| - 1].startByte > maxBytes {
        PlanOpened(plans, open, ordered[..i], file, maxBytes);
        if size > maxBytes {
          plans := plans + [Plan(file.start, file.end, [File(file.filename, 0, size)])];
          open := false;
          continue;
        }
        plans := plans + [Plan(file.start, file.end,
          [File(file.filename, file.start - file.start, file.end - file.start)])];
        open := true;
      } else {
        PlanExtended(plans, ordered[..i], file, maxBytes);
        var current := plans[|plans| - 1];
        plans := plans[..|plans| - 1] + [Grown(current, file)];
      }
    }
    assert ordered[..|ordered|] == ordered;
    AllPlanned(files, plans, open, maxBytes);
  }

  lemma AllPlanned(files: seq<File>, plans: seq<Plan>, open: bool, maxBytes: int)
    requires Planned(plans, open, Sorted(files), maxBytes)
    ensures PlansOf(files, maxBytes, plans) && (InOrder(Sorted(files)) ==> Greedy(plans, maxBytes))
  {
  }

  lemma NoPlans(maxBytes: int)
    ensures Planned([], false, [], maxBytes)
  {
  }

  // ---------------------------------------------------------------------------
  // buildSegments

  function Concat(pieces: seq<seq<Byte>>): seq<Byte> {
    if pieces == [] then [] else Concat(pieces[..|pieces| - 1]) + pieces[|pieces| - 1]
  }

  lemma ConcatPush(pieces: seq<seq<Byte>>, piece: seq<Byte>)
    ensures Concat(pieces + [piece]) == Concat(pieces) + piece
  {
    assert (pieces + [piece])[..|pieces|] == pieces;
  }

  /** Where the pieces before i end in the stream, and what lies there. */
  lemma {:induction false} PieceAt(pieces: seq<seq<Byte>>, i: nat)
    requires i < |pieces|
    ensures |Concat(pieces[..i + 1])| == |Concat(pieces[..i])| + |pieces[i]| <= |Concat(pieces)|
    ensures Concat(pieces)[|Concat(pieces[..i])|..|Concat(pieces[..i])| + |pieces[i]|] == pieces[i]
    decreases |pieces|
  {
    assert pieces[..i + 1] == pieces[..i] + [pieces[i]];
    ConcatPush(pieces[..i], pieces[i]);
    var init := pieces[..|pieces| - 1];
    assert pieces == init + [pieces[|pieces| - 1]];
    ConcatPush(init, pieces[|pieces| - 1]);
    if i < |pieces| - 1 {
      PieceAt(init, i);
      assert init[..i] == pieces[..i] && init[..i + 1] == pieces[..i + 1];
    } else {
      assert pieces[..i] == init;
    }
  }

  /** The plans follow the stream. */
  predicate Forward(plans: seq<Plan>) {
    && (forall p :: p in plans ==> 0 <= p.startByte <= p.endByte)
    && forall i, j :: 0 <= i < j < |plans| ==> plans[i].startByte <= plans[j].startByte
  }

  /** A plan that asks for bytes past the stream's end. */
  predicate Exceeds(p: Plan, length: nat) {
    p.startByte < p.endByte && length < p.endByte
  }

  function Slice(data: seq<Byte>, start: int, end: int): seq<Byte> {
    if 0 <= start <= end <= |data| then data[start..end] else []
  }

  /** The segments of plans in a stream. */
  ghost predicate SegmentsOf(data: seq<Byte>, plans: seq<Plan>, segments: seq<Segment>) {
    && |segments| == |plans|
    && forall i :: 0 <= i < |plans| ==>
         segments[i] == Segment(Slice(data, plans[i].startByte, plans[i].endByte), plans[i].files)
  }

  /** One buffer from the parts. */
  method Assemble(parts: seq<seq<Byte>>, length: nat) returns (bytes: array<Byte>)
    requires |Concat(parts)| == length
    ensures fresh(bytes) && bytes[..] == Concat(parts)
  {
    bytes := new Byte[length];
    var at := 0;
    for i := 0 to |parts|
      invariant at == |Concat(parts[..i])| <= length
      invariant bytes[..at] == Concat(parts[..i])
    {
      PieceAt(parts, i);
      assert parts[..i + 1] == parts[..i] + [parts[i]];
      ConcatPush(parts[..i], parts[i]);
      ghost var before := bytes[..at];
      for j := 0 to |parts[i]|
        invariant bytes[..at] == before
        invariant bytes[at..at + j] == parts[i][..j]
      {
        bytes[at + j] := parts[i][j];
      }
      assert bytes[..at + |parts[i]|] == before + parts[i];
      at := at + |parts[i]|;
    }
    assert parts[..|parts|] == parts;
  }

  /** The part of the stream a plan names, from the piece that holds its start; `None` past the stream's end. */
  method Cut(pieces: seq<seq<Byte>>, plan: Plan, pieceIndex: nat, pieceOffset: nat) returns (segment: Option<Segment>)
    requires 0 <= plan.startByte <= plan.endByte
    requires pieceIndex <= |pieces| && pieceOffset == |Concat(pieces[..pieceIndex])|
    requires pieceIndex < |pieces| ==> pieceOffset <= plan.startByte < pieceOffset + |pieces[pieceIndex]|
    requires pieceIndex == |pieces| ==> |Concat(pieces)| <= plan.startByte
    ensures segment.None? <==> Exceeds(plan, |Concat(pieces)|)
    ensures segment.Some? ==> segment.value == Segment(Slice(Concat(pieces), plan.startByte, plan.endByte), plan.files)
  {
    hide Concat;
    ghost var data := Concat(pieces);
    var parts := [];
    var cursorIndex, cursorOffset, position := pieceIndex, pieceOffset, plan.startByte;
    assert Concat([]) == [] by { NoPieces(); }
    assert pieces[..|pieces|] == pieces;
    if pieceIndex < |pieces| { PieceAt(pieces, pieceIndex); }
    while position < plan.endByte && cursorIndex < |pieces|
      invariant pieceIndex <= cursorIndex <= |pieces| && cursorOffset == |Concat(pieces[..cursorIndex])|
      invariant plan.startByte <= position <= plan.endByte
      invariant cursorIndex < |pieces| ==> cursorOffset <= position <= cursorOffset + |pieces[cursorIndex]|
      invariant cursorIndex == |pieces| && cursorIndex > pieceIndex ==> position == |data|
      invariant plan.startByte < position ==> position <= |data|
      invariant plan.startByte <= |data| && position <= |data| ==> Concat(parts) == data[plan.startByte..position]
      invariant plan.startByte == position ==> Concat(parts) == []
      decreases |pieces| - cursorIndex, plan.endByte - position
    {
      PieceAt(pieces, cursorIndex);
      var piece := pieces[cursorIndex];
      var from := position - cursorOffset;
      var take := if |piece| - from < plan.endByte - position then |piece| - from else plan.endByte - position;
      assert piece[from..from + take] == data[position..position + take] by {
        PieceSlice(data, cursorOffset, piece, from, take);
      }
      ConcatPush(parts, piece[from..from + take]);
      parts := parts + [piece[from..from + take]];
      position := position + take;
      if from + take >= |piece| {
        cursorOffset := cursorOffset + |piece|;
        cursorIndex := cursorIndex + 1;
        assert cursorIndex == |pieces| ==> pieces[..cursorIndex] == pieces;
      }
    }
    if position != plan.endByte { return None; }
    var bytes := Assemble(parts, plan.endByte - plan.startByte);
    return Some(Segment(bytes[..], plan.files));
  }

  lemma NoPieces()
    ensures Concat([]) == []
  {
  }

  lemma PieceSlice(data: seq<Byte>, offset: nat, piece: seq<Byte>, from: nat, take: nat)
    requires offset + |piece| <= |data| && data[offset..offset + |piece|] == piece && from + take <= |piece|
    ensures piece[from..from + take] == data[offset + from..offset + from + take]
  {
    var a, b := piece[from..from + take], data[offset + from..offset + from + take];
    forall k | 0 <= k < take ensures a[k] == b[k] {
      assert piece[from + k] == data[offset..offset + |piece|][from + k];
    }
  }

  method BuildSegments(pieces: seq<seq<Byte>>, plans: seq<Plan>) returns (r: Result<seq<Segment>, Plan>)
    requires Forward(plans)
    ensures r.Ok? <==> forall p :: p in plans ==> !Exceeds(p, |Concat(pieces)|)
    ensures r.Ok? ==> SegmentsOf(Concat(pieces), plans, r.value)
    ensures r.Err? ==> r.error in plans && Exceeds(r.error, |Concat(pieces)|)
  {
    hide Concat, Exceeds;
    var segments := [];
    var pieceIndex, pieceOffset := 0, 0;
    assert Concat(pieces[..0]) == [] by { NoPieces(); }
    for i := 0 to |plans|
      invariant pieceIndex <= |pieces| && pieceOffset == |Concat(pieces[..pieceIndex])|
      invariant forall j :: i <= j < |plans| ==> pieceOffset <= plans[j].startByte
      invariant SegmentsOf(Concat(pieces), plans[..i], segments)
      invariant forall j :: 0 <= j < i ==> !Exceeds(plans[j], |Concat(pieces)|)
    {
      var plan := plans[i];
      while pieceIndex < |pieces| && pieceOffset + |pieces[pieceIndex]| <= plan.startByte
        invariant pieceIndex <= |pieces| && pieceOffset == |Concat(pieces[..pieceIndex])| <= plan.startByte
      {
        PieceAt(pieces, pieceIndex);
        pieceOffset := pieceOffset + |pieces[pieceIndex]|;
        pieceIndex := pieceIndex + 1;
      }
      assert pieceIndex == |pieces| ==> pieces[..pieceIndex] == pieces;
      var segment := Cut(pieces, plan, pieceIndex, pieceOffset);
      if segment.None? { return Err(plan); }
      segments := segments + [segment.value];
    }
    assert plans[..|plans|] == plans;
    return Ok(segments);
  }

  // ---------------------------------------------------------------------------
  // Segment fidelity

  /** Where a file of the table is planned. */
  lemma {:induction false} PlannedOnce(plans: seq<Plan>, i: nat) returns (p: nat, j: nat)
    requires i < |Flat(plans)|
    ensures p < |plans| && j < |plans[p].files| && InPack(plans[p])[j] == Flat(plans)[i]
    ensures i == |Flat(plans[..p])| + j
  {
    var init := plans[..|plans| - 1];
    if i < |Flat(init)| {
      p, j := PlannedOnce(init, i);
      assert init[..p] == plans[..p];
    } else {
      p, j := |plans| - 1, i - |Flat(init)|;
    }
  }

  /** Every planned entry is a file of the table, at its own place. */
  lemma {:induction false} PlannedIs(plans: seq<Plan>, p: nat, j: nat)
    requires p < |plans| && j < |plans[p].files|
    ensures |Flat(plans[..p])| + j < |Flat(plans)|
    ensures Flat(plans)[|Flat(plans[..p])| + j] == InPack(plans[p])[j]
    decreases |plans|
  {
    var init := plans[..|plans| - 1];
    if p < |plans| - 1 {
      PlannedIs(init, p, j);
      assert init[..p] == plans[..p];
    }
  }

  lemma {:induction false} PlansForward(plans: seq<Plan>, s: seq<File>, packLength: int)
    requires Flat(plans) == s && Disjoint(s)
    requires forall f :: f in s ==> GoodRange(f, packLength)
    requires forall p :: p in plans ==> Tight(p)
    ensures Forward(plans) && forall p :: p in plans ==> p.endByte <= packLength
    ensures forall p, j :: 0 <= p < |plans| && 0 <= j < |plans[p].files| ==>
      0 <= plans[p].files[j].start <= plans[p].files[j].end <= plans[p].endByte - plans[p].startByte
  {
    hide Flat, Tight, Disjoint;
    forall p, j | 0 <= p < |plans| && 0 <= j < |plans[p].files|
      ensures 0 <= plans[p].files[j].start <= plans[p].files[j].end <= plans[p].endByte - plans[p].startByte
    {
      PlanWithin(plans, s, packLength, p, j);
    }
    forall p | p in plans ensures 0 <= p.startByte <= p.endByte <= packLength {
      var i :| 0 <= i < |plans| && plans[i] == p;
      PlanFilled(p);
      PlanWithin(plans, s, packLength, i, 0);
    }
    forall p, q | 0 <= p < q < |plans| ensures plans[p].startByte <= plans[q].startByte {
      PlansInOrder(plans, s, packLength, p, q);
    }
  }

  lemma PlanFilled(p: Plan)
    requires Tight(p)
    ensures p.files != []
  {
  }

  lemma PlanWithin(plans: seq<Plan>, s: seq<File>, packLength: int, p: nat, j: nat)
    requires Flat(plans) == s && Disjoint(s) && p < |plans| && j < |plans[p].files| && Tight(plans[p])
    requires forall f :: f in s ==> GoodRange(f, packLength)
    ensures 0 <= plans[p].files[j].start <= plans[p].files[j].end <= plans[p].endByte - plans[p].startByte
    ensures 0 <= plans[p].startByte <= plans[p].endByte <= packLength
  {
    hide Flat;
    var q, at := plans[p], |Flat(plans[..p])|;
    PlannedIs(plans, p, 0);
    PlannedIs(plans, p, j);
    PlannedIs(plans, p, |q.files| - 1);
    assert s[at] in s && s[at + j] in s && s[at + |q.files| - 1] in s;
  }

  lemma PlansInOrder(plans: seq<Plan>, s: seq<File>, packLength: int, p: nat, q: nat)
    requires Flat(plans) == s && Disjoint(s) && p < q < |plans| && forall x :: x in plans ==> Tight(x)
    requires forall f :: f in s ==> GoodRange(f, packLength)
    ensures plans[p].startByte <= plans[q].startByte
  {
    hide Flat;
    assert Tight(plans[p]) && Tight(plans[q]);
    PlannedIs(plans, p, 0);
    PlannedIs(plans, q, 0);
    FlatGrows(plans, p, q);
    assert s[|Flat(plans[..p])|] in s;
  }

  lemma {:induction false} FlatGrows(plans: seq<Plan>, p: nat, q: nat)
    requires p < q < |plans| && forall x :: x in plans ==> Tight(x)
    ensures |Flat(plans[..p])| < |Flat(plans[..q])|
    decreases q
  {
    assert plans[..q][..q - 1] == plans[..q - 1];
    assert Tight(plans[q - 1]);
    if p < q - 1 { FlatGrows(plans, p, q - 1); }
  }

  /** What the page gets of a file: the bytes its entry names in its segment. */
  function FileBytes(s: Segment, j: nat): seq<Byte>
    requires j < |s.files|
  {
    Slice(s.bytes, s.files[j].start, s.files[j].end)
  }

  /** Segment fidelity: when the file table is accepted and the pieces make up the profile pack, however it was split
      into them, each file of the table stands in exactly one segment, which holds at most `maxBytes` or it
      alone, and its bytes there are its bytes in the profile pack. */
  method MemoryInstall(files: seq<File>, packLength: nat, pieces: seq<seq<Byte>>, maxBytes: int)
    returns (segments: seq<Segment>)
    requires Accepts(files, packLength) && |Concat(pieces)| == packLength
    ensures exists plans ::
      && PlansOf(files, maxBytes, plans) && Greedy(plans, maxBytes)
      && SegmentsOf(Concat(pieces), plans, segments)
      && Faithful(Concat(pieces), plans, segments)
  {
    hide Flat, Concat;
    SortedIs(files, 0);
    ghost var s := Sorted(files);
    forall f | f in s ensures GoodRange(f, packLength) { assert f in multiset(s); }
    assert InOrder(s);
    var plans := PlanSegments(files, maxBytes);
    PlansForward(plans, s, packLength);
    var r := BuildSegments(pieces, plans);
    segments := r.value;
    SegmentsFaithful(Concat(pieces), plans, segments);
  }

  /** Every entry of every segment names the bytes its file has in the profile pack. */
  ghost predicate Faithful(data: seq<Byte>, plans: seq<Plan>, segments: seq<Segment>) {
    && |segments| == |plans|
    && forall p, j :: 0 <= p < |plans| && 0 <= j < |plans[p].files| ==>
         && segments[p].files == plans[p].files
         && FileBytes(segments[p], j) == Slice(data, InPack(plans[p])[j].start, InPack(plans[p])[j].end)
         && |FileBytes(segments[p], j)| == plans[p].files[j].end - plans[p].files[j].start
  }

  lemma SegmentsFaithful(data: seq<Byte>, plans: seq<Plan>, segments: seq<Segment>)
    requires SegmentsOf(data, plans, segments)
    requires forall p :: p in plans ==> 0 <= p.startByte <= p.endByte <= |data|
    requires forall p, j :: 0 <= p < |plans| && 0 <= j < |plans[p].files| ==>
      0 <= plans[p].files[j].start <= plans[p].files[j].end <= plans[p].endByte - plans[p].startByte
    ensures Faithful(data, plans, segments)
  {
    forall p, j | 0 <= p < |plans| && 0 <= j < |plans[p].files|
      ensures segments[p].files == plans[p].files
      ensures FileBytes(segments[p], j) == Slice(data, InPack(plans[p])[j].start, InPack(plans[p])[j].end)
      ensures |FileBytes(segments[p], j)| == plans[p].files[j].end - plans[p].files[j].start
    {
      hide FileBytes, Slice, InPack;
      assert plans[p] in plans;
      FileFaithful(data, plans[p], segments[p], j);
    }
  }

  lemma FileFaithful(data: seq<Byte>, p: Plan, segment: Segment, j: nat)
    requires segment == Segment(Slice(data, p.startByte, p.endByte), p.files) && 0 <= p.startByte <= p.endByte <= |data|
    requires j < |p.files| && 0 <= p.files[j].start <= p.files[j].end <= p.endByte - p.startByte
    ensures FileBytes(segment, j) == Slice(data, InPack(p)[j].start, InPack(p)[j].end)
    ensures |FileBytes(segment, j)| == p.files[j].end - p.files[j].start
  {
    SliceOfSlice(data, p.startByte, p.endByte, p.files[j].start, p.files[j].end);
  }

  lemma SliceOfSlice(data: seq<Byte>, b: nat, e: nat, from: nat, to: nat)
    requires b <= e <= |data| && from <= to <= e - b
    ensures data[b..e][from..to] == data[b + from..b + to]
  {
    var x, y := data[b..e][from..to], data[b + from..b + to];
    assert forall i :: 0 <= i < |x| ==> x[i] == y[i];
  }

  /** The number, in the order of the table, of entry j of plan p. */
  function Number(plans: seq<Plan>, p: nat, j: nat): nat
    requires p < |plans|
  {
    |Flat(plans[..p])| + j
  }

  /** The plans hold the files of the table, and file number i (in order) is in one plan and no other. */
  lemma InOnePlan(files: seq<File>, maxBytes: int, plans: seq<Plan>, i: nat) returns (p: nat, j: nat)
    requires PlansOf(files, maxBytes, plans) && i < |files|
    ensures multiset(Flat(plans)) == multiset(files) && |Flat(plans)| == |files|
    ensures p < |plans| && j < |plans[p].files| && InPack(plans[p])[j] == Flat(plans)[i] && Number(plans, p, j) == i
    ensures forall q: nat, l: nat :: q < |plans| && l < |plans[q].files| && Number(plans, q, l) == i ==>
      q == p && l == j
  {
    hide Flat, InPack;
    SortedIs(files, 0);
    SameLength(Flat(plans), files);
    p, j := PlannedOnce(plans, i);
    forall q: nat, l: nat | q < |plans| && l < |plans[q].files| && Number(plans, q, l) == i ensures q == p && l == j {
      if q < p { PlanEnds(plans, q, p); }
      if p < q { PlanEnds(plans, p, q); }
    }
  }

  lemma SameLength(a: seq<File>, b: seq<File>)
    requires multiset(a) == multiset(b)
    ensures |a| == |b|
  {
    assert |multiset(a)| == |a| && |multiset(b)| == |b|;
  }

  lemma {:induction false} PlanEnds(plans: seq<Plan>, p: nat, q: nat)
    requires p < q < |plans|
    ensures |Flat(plans[..p])| + |plans[p].files| <= |Flat(plans[..q])|
    decreases q
  {
    assert plans[..q][..q - 1] == plans[..q - 1];
    if p < q - 1 { PlanEnds(plans, p, q - 1); }
  }
}
