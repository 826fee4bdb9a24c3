// Whole runs of the history log and Dream over it: appends, crashes, compactions
// and turns of two batches, in any order.
module DreamRuns {
  import opened HistoryLog
  import opened Options

  // Between two steps a turn is idle or waits for the end of one of its batches,
  // both taken from the window `w`.
  datatype Phase = Idle | First(w: seq<Row>) | Second(w: seq<Row>, batch: Batch)

  // `log` is every entry whose line was written, `shown` every entry that stood
  // whole in a batch that landed: the history of the run, read by no step.
  datatype World = World(disk: Disk, phase: Phase, log: seq<Row>, shown: set<Row>)

  datatype Step =
    | Append(scope: Scope, diary: bool, untrusted: bool, content: string)
    | AppendThenCrash(scope: Scope, diary: bool, untrusted: bool, content: string)
    | LoseCursorFile
    | Compact(cap: int)
    | CompactPartly(cap: int, moved: set<Row>, crash: bool)
    | BeginTurn
    | FirstEnds(lands: bool)
    | SecondEnds(lands: bool)
    | Crash

  const START := World(Disk([], {}, None, 0), Idle, [], {})

  function NewEntry(d: Disk, scope: Scope, diary: bool, untrusted: bool, content: string): Row {
    Entry(NextCursor(d), scope, diary, untrusted, content)
  }

  // The first batch has landed: build the second on the same window, then write
  // the cursor the first alone can claim.
  function Land(x: World, w: seq<Row>, lim: Limits): World
    requires w != [] && AllEntries(w)
  {
    var b := HeadBatch(w);
    var rest := SecondBatch(x.disk, b, lim);
    x.(disk := x.disk.(dream := b.cursor), shown := x.shown + Elements(b.entries),
       phase := if rest.Some? then Second(w, rest.value) else Idle)
  }

  function After(x: World, s: Step, lim: Limits): World {
    match s
    case Append(scope, diary, untrusted, content) =>
      var r := NewEntry(x.disk, scope, diary, untrusted, content);
      x.(disk := Appended(x.disk, r), log := x.log + [r])
    case AppendThenCrash(scope, diary, untrusted, content) =>
      var r := NewEntry(x.disk, scope, diary, untrusted, content);
      x.(disk := LineAppended(x.disk, r), log := x.log + [r], phase := Idle)
    case LoseCursorFile => x.(disk := x.disk.(cursorFile := None))
    case Compact(cap) => x.(disk := Compacted(x.disk, cap))
    case CompactPartly(cap, moved, crash) =>
      // some months of the archive were written, the file was not
      x.(disk := x.disk.(archive := x.disk.archive + moved * Elements(ToDrop(x.disk, cap))),
         phase := if crash then Idle else x.phase)
    case BeginTurn =>
      var w := Window(Pending(x.disk.live, x.disk.dream), lim);
      if x.phase.Idle? && w != [] then x.(phase := First(w)) else x
    case FirstEnds(lands) =>
      if !x.phase.First? || x.phase.w == [] || !AllEntries(x.phase.w) then x
      else if lands then Land(x, x.phase.w, lim)
      else x.(phase := Idle)
    case SecondEnds(lands) =>
      if !x.phase.Second? then x
      else if lands then
        x.(disk := x.disk.(dream := x.phase.batch.cursor),
           shown := x.shown + Elements(x.phase.batch.entries), phase := Idle)
      else x.(phase := Idle)
    case Crash => x.(phase := Idle)
  }

  function Ran(x: World, steps: seq<Step>, lim: Limits): World {
    if steps == [] then x else After(Ran(x, steps[..|steps| - 1], lim), steps[|steps| - 1], lim)
  }

  // ------------------------------------------------------------- invariant

  function At(r: Row): int {
    if r.Entry? then r.cursor else 0
  }

  // Entries with strictly increasing cursors.
  ghost predicate Increasing(rows: seq<Row>) {
    rows == [] ||
    var n := |rows| - 1;
    && Increasing(rows[..n]) && rows[n].Entry?
    && forall r :: r in rows[..n] ==> At(r) < At(rows[n])
  }

  lemma {:induction false} IncreasingEntries(rows: seq<Row>)
    requires Increasing(rows)
    ensures AllEntries(rows) && forall r :: r in rows ==> r.Entry?
  {
    if rows != [] { IncreasingEntries(rows[..|rows| - 1]); }
  }

  function Newest(rows: seq<Row>): int {
    if rows == [] || !rows[|rows| - 1].Entry? then 0 else rows[|rows| - 1].cursor
  }

  ghost predicate LogInv(x: World) {
    && Increasing(x.disk.live) && Increasing(x.log)
    && (x.log == [] <==> x.disk.live == [])
    && (x.log != [] ==> x.disk.live[|x.disk.live| - 1] == x.log[|x.log| - 1])
    && (x.disk.cursorFile.Some? ==> x.log != [] && x.disk.cursorFile.value <= Newest(x.log))
    && (forall r :: r in x.log ==> r in x.disk.live || r in x.disk.archive)
    && (forall r :: r in x.disk.live ==> r in x.log)
  }

  ghost predicate DreamInv(x: World) {
    && x.disk.dream <= Newest(x.log)
    && (forall r :: r in x.log && Awaits(r, x.disk.dream) ==> r in x.disk.live)
    && (forall r :: r in x.log && Readable(r) && r.cursor <= x.disk.dream ==> r in x.shown)
  }

  ghost predicate PhaseInv(x: World, lim: Limits) {
    var pending := Pending(x.disk.live, x.disk.dream);
    match x.phase
    case Idle => true
    case First(w) => w != [] && w <= pending && Window(w, lim) == w
    case Second(w, b) =>
      && x.disk.dream < b.cursor <= Newest(x.log)
      && forall r :: r in pending && At(r) <= b.cursor ==> r in x.shown || r in b.entries
  }

  ghost predicate Inv(x: World, lim: Limits) {
    LogInv(x) && DreamInv(x) && PhaseInv(x, lim)
  }

  // ----------------------------------------------------- facts about pending

  lemma {:induction false} PendingMembers(rows: seq<Row>, dream: int, r: Row)
    ensures r in Pending(rows, dream) <==> r in rows && Awaits(r, dream)
  {
    if rows != [] {
      PendingMembers(rows[..|rows| - 1], dream, r);
      assert rows == rows[..|rows| - 1] + [rows[|rows| - 1]];
    }
  }

  lemma {:induction false} PendingIncreasing(rows: seq<Row>, dream: int)
    requires Increasing(rows)
    ensures Increasing(Pending(rows, dream))
  {
    if rows != [] {
      var n := |rows| - 1;
      PendingIncreasing(rows[..n], dream);
      var p := Pending(rows[..n], dream);
      assert Pending(rows, dream) == p + if Awaits(rows[n], dream) then [rows[n]] else [];
      if Awaits(rows[n], dream) {
        assert (p + [rows[n]])[..|p|] == p;
        forall r | r in p ensures At(r) < At(rows[n]) { PendingMembers(rows[..n], dream, r); }
      } else {
        assert Pending(rows, dream) == p;
      }
    }
  }

  lemma {:induction false} IncreasingPrefix(rows: seq<Row>, n: nat)
    requires Increasing(rows) && n <= |rows|
    ensures Increasing(rows[..n])
  {
    if n < |rows| {
      IncreasingPrefix(rows[..|rows| - 1], n);
      assert rows[..|rows| - 1][..n] == rows[..n];
    } else {
      assert rows[..n] == rows;
    }
  }

  // In an increasing list, what is not past row `n - 1` is among the first `n`.
  lemma {:induction false} AmongFirst(rows: seq<Row>, n: nat, r: Row)
    requires Increasing(rows) && 0 < n <= |rows| && r in rows
    ensures rows[n - 1].Entry? && r.Entry?
    ensures r.cursor <= rows[n - 1].cursor <==> r in rows[..n]
  {
    IncreasingEntries(rows);
    if n == |rows| {
      assert rows[..n] == rows;
      assert rows == rows[..n - 1] + [rows[n - 1]];
    } else {
      var m := |rows| - 1;
      assert rows == rows[..m] + [rows[m]];
      assert rows[..m][..n] == rows[..n] && rows[..m][n - 1] == rows[n - 1];
      assert rows[n - 1] in rows[..m];
      if r in rows[..m] {
        AmongFirst(rows[..m], n, r);
      } else {
        assert r == rows[m] && r !in rows[..n];
      }
    }
  }

  lemma {:induction false} LastIsLater(rows: seq<Row>, n: nat)
    requires Increasing(rows) && 0 < n < |rows|
    ensures var m := |rows| - 1; rows[n - 1].Entry? && rows[m].Entry? && rows[n - 1].cursor < rows[m].cursor
  {
    var m := |rows| - 1;
    IncreasingEntries(rows);
    assert rows[..m][n - 1] == rows[n - 1];
    assert rows[n - 1] in rows[..m];
  }

  lemma {:induction false} UpToWithoutLast(rows: seq<Row>, until: int)
    requires rows != [] && rows[|rows| - 1].Entry? && rows[|rows| - 1].cursor > until
    ensures UpTo(rows, until) == UpTo(rows[..|rows| - 1], until)
  {
  }

  lemma {:induction false} AllUpToLast(rows: seq<Row>)
    requires Increasing(rows) && rows != []
    ensures rows[|rows| - 1].Entry? && forall r :: r in rows ==> r.Entry? && r.cursor <= rows[|rows| - 1].cursor
  {
    var m := |rows| - 1;
    IncreasingEntries(rows);
    assert rows == rows[..m] + [rows[m]];
  }

  lemma {:induction false} UpToWhole(rows: seq<Row>)
    requires Increasing(rows) && rows != []
    ensures rows[|rows| - 1].Entry? && UpTo(rows, rows[|rows| - 1].cursor) == rows
  {
    AllUpToLast(rows);
    UpToAll(rows, rows[|rows| - 1].cursor);
  }

  lemma {:induction false} UpToIsPrefix(rows: seq<Row>, n: nat)
    requires Increasing(rows) && 0 < n <= |rows|
    ensures rows[n - 1].Entry? && UpTo(rows, rows[n - 1].cursor) == rows[..n]
  {
    var m := |rows| - 1;
    if n == |rows| {
      UpToWhole(rows);
      assert rows[..n] == rows;
    } else {
      LastIsLater(rows, n);
      UpToWithoutLast(rows, rows[n - 1].cursor);
      assert rows[..m][..n] == rows[..n] && rows[..m][n - 1] == rows[n - 1];
      UpToIsPrefix(rows[..m], n);
    }
  }

  lemma {:induction false} UpToAll(rows: seq<Row>, until: int)
    requires forall r :: r in rows ==> r.Entry? && r.cursor <= until
    ensures UpTo(rows, until) == rows
  {
    if rows != [] {
      UpToAll(rows[..|rows| - 1], until);
      assert rows[|rows| - 1] in rows;
    }
  }

  lemma {:induction false} WindowOfWindow(p: seq<Row>, n: nat, m: nat, lim: Limits)
    requires n <= m <= |p| && WindowLen(p, n, lim) == m
    ensures WindowLen(p[..m], n, lim) == m
    decreases m - n
  {
    if n < m {
      assert p[..m][..n + 1] == p[..n + 1];
      WindowOfWindow(p, n + 1, m, lim);
    }
  }

  lemma {:induction false} OfScopeMembers(w: seq<Row>, s: Scope, r: Row)
    ensures r in OfScope(w, s) <==> r in w && r.Entry? && r.scope == s
  {
    if w != [] {
      OfScopeMembers(w[..|w| - 1], s, r);
      assert w == w[..|w| - 1] + [w[|w| - 1]];
    }
  }

  // ---------------------------------------------- facts about compaction

  lemma {:induction false} KeptMembers(rows: seq<Row>, cut: int, dream: int, r: Row)
    ensures r in rows <==> r in Kept(rows, cut, dream) || r in Dropped(rows, cut, dream)
    ensures r in rows && Awaits(r, dream) ==> r in Kept(rows, cut, dream)
    ensures r in Dropped(rows, cut, dream) ==> !Awaits(r, dream)
  {
    if rows != [] {
      var n := |rows| - 1;
      KeptMembers(rows[..n], cut, dream, r);
      assert rows == rows[..n] + [rows[n]];
    }
  }

  lemma {:induction false} KeptIncreasing(rows: seq<Row>, cut: int, dream: int)
    requires Increasing(rows)
    ensures Increasing(Kept(rows, cut, dream))
    ensures rows != [] && cut < |rows| ==>
              var k := Kept(rows, cut, dream); k != [] && k[|k| - 1] == rows[|rows| - 1]
  {
    if rows != [] {
      var n := |rows| - 1;
      KeptIncreasing(rows[..n], cut, dream);
      var k := Kept(rows[..n], cut, dream);
      assert Kept(rows, cut, dream) == k + if n >= cut || Awaits(rows[n], dream) then [rows[n]] else [];
      if n >= cut || Awaits(rows[n], dream) {
        assert (k + [rows[n]])[..|k|] == k;
        forall r | r in k ensures At(r) < At(rows[n]) { KeptMembers(rows[..n], cut, dream, r); }
      } else {
        assert Kept(rows, cut, dream) == k;
      }
    }
  }

  lemma {:induction false} KeptPending(rows: seq<Row>, cut: int, dream: int)
    ensures Pending(Kept(rows, cut, dream), dream) == Pending(rows, dream)
  {
    if rows != [] {
      var n := |rows| - 1;
      KeptPending(rows[..n], cut, dream);
      var k := Kept(rows[..n], cut, dream);
      if n >= cut || Awaits(rows[n], dream) {
        assert (k + [rows[n]])[..|k|] == k;
      } else {
        assert Kept(rows, cut, dream) == k && Pending(rows, dream) == Pending(rows[..n], dream);
      }
    }
  }

  function Old(rows: seq<Row>, cut: int, dream: int): nat {
    if rows == [] then 0 else
      var n := |rows| - 1;
      Old(rows[..n], cut, dream) + if n < cut && Awaits(rows[n], dream) then 1 else 0
  }

  lemma {:induction false} KeptSize(rows: seq<Row>, cut: nat, dream: int)
    ensures |Kept(rows, cut, dream)|
         == Old(rows, cut, dream) + if |rows| > cut then |rows| - cut else 0
    ensures |Kept(rows, cut, dream)| + |Dropped(rows, cut, dream)| == |rows|
  {
    if rows != [] { KeptSize(rows[..|rows| - 1], cut, dream); }
  }

  // After a compaction the file holds exactly the cap, plus the older entries
  // Dream has not read; whatever left the file is in the archive.
  lemma {:induction false} CompactionBound(d: Disk, cap: int)
    requires cap > 0 && |d.live| > cap
    ensures |Compacted(d, cap).live| == cap + Old(d.live, Cut(d, cap), d.dream)
    ensures forall r :: r in d.live ==> r in Compacted(d, cap).live || r in Compacted(d, cap).archive
    ensures Pending(Compacted(d, cap).live, d.dream) == Pending(d.live, d.dream)
  {
    KeptSize(d.live, Cut(d, cap), d.dream);
    KeptPending(d.live, Cut(d, cap), d.dream);
    forall r | r in d.live ensures r in Compacted(d, cap).live || r in Compacted(d, cap).archive {
      KeptMembers(d.live, Cut(d, cap), d.dream, r);
    }
  }

  // -------------------------------------------------------- the two batches

  lemma {:induction false} WindowRecomputed(d: Disk, w: seq<Row>)
    requires Increasing(d.live) && w != [] && w <= Pending(d.live, d.dream)
    ensures AllEntries(w) && UpTo(Pending(d.live, d.dream), w[|w| - 1].cursor) == w
  {
    var pending := Pending(d.live, d.dream);
    PendingIncreasing(d.live, d.dream);
    assert w == pending[..|w|];
    IncreasingPrefix(pending, |w|);
    IncreasingEntries(w);
    UpToIsPrefix(pending, |w|);
  }

  // The second prompt recomputes the first one's window, whatever was appended or
  // compacted in between, and the two batches cover it.
  lemma {:induction false} SecondIsRest(d: Disk, w: seq<Row>, lim: Limits)
    requires Increasing(d.live)
    requires w != [] && w <= Pending(d.live, d.dream) && Window(w, lim) == w
    ensures AllEntries(w)
    ensures SecondBatch(d, HeadBatch(w), lim)
         == if HeadBatch(w).rest.None? then None else RestBatch(w, HeadBatch(w).rest.value)
    ensures HeadBatch(w).rest.None? ==> HeadBatch(w).cursor == HeadBatch(w).windowCursor
    ensures HeadBatch(w).rest.Some? ==> RestBatch(w, HeadBatch(w).rest.value).Some?
    ensures forall r :: r in w ==>
              r in HeadBatch(w).entries
              || (HeadBatch(w).rest.Some? && r in RestBatch(w, HeadBatch(w).rest.value).value.entries)
  {
    WindowRecomputed(d, w);
    var n := HeadRun(w, w[0].scope);
    if n < |w| { OfScopeMembers(w, w[n].scope, w[n]); }
    forall r | r in w ensures r in HeadBatch(w).entries || (n < |w| && r in OfScope(w, w[n].scope)) {
      TwoScopes(d, w, r);
    }
  }

  // A window holds two scopes at most, so every row is in one of the batches.
  lemma {:induction false} TwoScopes(d: Disk, w: seq<Row>, r: Row)
    requires w != [] && w <= Pending(d.live, d.dream) && AllEntries(w) && r in w
    ensures var n := HeadRun(w, w[0].scope);
            r in HeadBatch(w).entries || (n < |w| && r in OfScope(w, w[n].scope))
  {
    var s := w[0].scope;
    var n := HeadRun(w, s);
    var i :| 0 <= i < |w| && w[i] == r;
    OfScopeMembers(w, s, r);
    assert r in Pending(d.live, d.dream) && w[0] in Pending(d.live, d.dream);
    PendingMembers(d.live, d.dream, r);
    PendingMembers(d.live, d.dream, w[0]);
    if n < |w| {
      OfScopeMembers(w, w[n].scope, r);
      assert w[n] in Pending(d.live, d.dream);
      PendingMembers(d.live, d.dream, w[n]);
    }
  }

  // ------------------------------------------------------------ each step

  lemma {:induction false} AppendKeepsLog(x: World, r: Row, file: Option<int>)
    requires LogInv(x) && r.Entry? && r.cursor == NextCursor(x.disk)
    requires file == x.disk.cursorFile || file == Some(r.cursor)
    ensures LogInv(x.(disk := x.disk.(live := x.disk.live + [r], cursorFile := file), log := x.log + [r]))
    ensures r.cursor == Newest(x.log) + 1
  {
    NextIsPastNewest(x);
    AppendIncreases(x.disk.live, r);
    AppendIncreases(x.log, r);
  }

  lemma {:induction false} NextIsPastNewest(x: World)
    requires LogInv(x)
    ensures NextCursor(x.disk) == Newest(x.log) + 1 && Newest(x.disk.live) == Newest(x.log)
  {
    IncreasingEntries(x.log);
    IncreasingEntries(x.disk.live);
  }

  lemma {:induction false} AppendIncreases(rows: seq<Row>, r: Row)
    requires Increasing(rows) && r.Entry? && r.cursor == Newest(rows) + 1
    ensures Increasing(rows + [r])
  {
    assert (rows + [r])[..|rows|] == rows;
    forall e | e in rows ensures At(e) < At(r) { NewestIsLast(rows, e); }
  }

  lemma {:induction false} NewestIsLast(rows: seq<Row>, e: Row)
    requires Increasing(rows) && e in rows
    ensures e.Entry? && e.cursor <= Newest(rows)
  {
    IncreasingEntries(rows);
    var n := |rows| - 1;
    assert rows == rows[..n] + [rows[n]];
  }

  lemma {:induction false} AppendKeepsDream(x: World, r: Row, y: World, lim: Limits)
    requires LogInv(x) && DreamInv(x) && PhaseInv(x, lim) && r.Entry? && r.cursor == Newest(x.log) + 1
    requires y.disk.live == x.disk.live + [r] && y.log == x.log + [r] && y.shown == x.shown
    requires y.disk.dream == x.disk.dream && (y.phase == x.phase || y.phase.Idle?)
    ensures DreamInv(y) && PhaseInv(y, lim)
  {
    var before, after := Pending(x.disk.live, x.disk.dream), Pending(y.disk.live, y.disk.dream);
    assert y.disk.live[..|y.disk.live| - 1] == x.disk.live;
    assert after == before + if Awaits(r, x.disk.dream) then [r] else [];
    assert before <= after;
    assert Newest(y.log) == r.cursor;
  }

  lemma {:induction false} KeptOrDropped(rows: seq<Row>, cut: int, dream: int)
    ensures forall r :: r in rows <==> r in Kept(rows, cut, dream) || r in Dropped(rows, cut, dream)
    ensures forall r :: r in rows && Awaits(r, dream) ==> r in Kept(rows, cut, dream)
  {
    forall r ensures r in rows <==> r in Kept(rows, cut, dream) || r in Dropped(rows, cut, dream) {
      KeptMembers(rows, cut, dream, r);
    }
    forall r | r in rows && Awaits(r, dream) ensures r in Kept(rows, cut, dream) {
      KeptMembers(rows, cut, dream, r);
    }
  }

  lemma {:induction false} CompactKeeps(x: World, cap: int, lim: Limits)
    requires Inv(x, lim)
    ensures Inv(After(x, Compact(cap), lim), lim)
  {
    var d := x.disk;
    if ToDrop(d, cap) != [] {
      var cut := Cut(d, cap);
      KeptIncreasing(d.live, cut, d.dream);
      KeptPending(d.live, cut, d.dream);
      KeptOrDropped(d.live, cut, d.dream);
    }
  }

  lemma {:induction false} BeginKeeps(x: World, lim: Limits)
    requires Inv(x, lim)
    ensures Inv(After(x, BeginTurn, lim), lim)
  {
    var p := Pending(x.disk.live, x.disk.dream);
    WindowOfWindow(p, 0, WindowLen(p, 0, lim), lim);
    var w := Window(p, lim);
    assert w[..|w|] == w;
  }

  // Where the two cursors of a window stand among the unread rows.
  lemma {:induction false} WindowCursors(d: Disk, w: seq<Row>)
    requires Increasing(d.live) && w != [] && w <= Pending(d.live, d.dream)
    ensures AllEntries(w)
    ensures var b := HeadBatch(w);
            && d.dream < b.cursor <= b.windowCursor
            && (b.rest.Some? ==> b.cursor < b.windowCursor)
            && w[|w| - 1] in d.live && w[|w| - 1].cursor == b.windowCursor
  {
    WindowIncreases(d, w);
    var n := HeadRun(w, w[0].scope);
    WindowRow(d, w, n - 1);
    WindowRow(d, w, |w| - 1);
    IncreasingPair(w, n - 1, |w| - 1);
  }

  lemma {:induction false} WindowIncreases(d: Disk, w: seq<Row>)
    requires Increasing(d.live) && w <= Pending(d.live, d.dream)
    ensures Increasing(w) && AllEntries(w)
  {
    var pending := Pending(d.live, d.dream);
    PendingIncreasing(d.live, d.dream);
    assert w == pending[..|w|];
    IncreasingPrefix(pending, |w|);
    IncreasingEntries(w);
  }

  lemma {:induction false} WindowRow(d: Disk, w: seq<Row>, i: nat)
    requires w <= Pending(d.live, d.dream) && i < |w|
    ensures w[i] in d.live && Awaits(w[i], d.dream)
  {
    assert w[i] == Pending(d.live, d.dream)[i];
    PendingMembers(d.live, d.dream, w[i]);
  }

  lemma {:induction false} IncreasingPair(rows: seq<Row>, i: nat, j: nat)
    requires Increasing(rows) && i <= j < |rows|
    ensures At(rows[i]) <= At(rows[j]) && (i < j ==> At(rows[i]) < At(rows[j]))
  {
    if i < j {
      assert rows[i] == rows[..j][i];
      IncreasingPrefix(rows, j + 1);
      assert rows[..j + 1][..j] == rows[..j];
    }
  }

  // What the first cursor passes was in the first batch.
  lemma {:induction false} FirstCovers(d: Disk, w: seq<Row>, r: Row)
    requires Increasing(d.live) && w != [] && w <= Pending(d.live, d.dream) && AllEntries(w)
    requires r in d.live && Awaits(r, d.dream) && r.cursor <= HeadBatch(w).cursor
    ensures r in HeadBatch(w).entries
  {
    var pending := Pending(d.live, d.dream);
    PendingIncreasing(d.live, d.dream);
    PendingMembers(d.live, d.dream, r);
    var s := w[0].scope;
    var n := HeadRun(w, s);
    assert w[..n] == pending[..n];
    AmongFirst(pending, n, r);
    var i :| 0 <= i < n && w[..n][i] == r;
    assert w[i] == r;
    OfScopeMembers(w, s, r);
  }

  // What the window's end passes is in one of the two.
  lemma {:induction false} WindowCovers(d: Disk, w: seq<Row>, r: Row)
    requires Increasing(d.live) && w != [] && w <= Pending(d.live, d.dream) && AllEntries(w)
    requires r in d.live && Awaits(r, d.dream) && r.cursor <= HeadBatch(w).windowCursor
    ensures r in w
  {
    var pending := Pending(d.live, d.dream);
    PendingIncreasing(d.live, d.dream);
    PendingMembers(d.live, d.dream, r);
    assert w == pending[..|w|];
    AmongFirst(pending, |w|, r);
  }

  lemma {:induction false} FirstLandsDream(x: World, lim: Limits)
    requires Inv(x, lim) && x.phase.First? && AllEntries(x.phase.w)
    ensures LogInv(Land(x, x.phase.w, lim)) && DreamInv(Land(x, x.phase.w, lim))
    ensures x.disk.dream < Land(x, x.phase.w, lim).disk.dream
  {
    var w := x.phase.w;
    var b := HeadBatch(w);
    var y := Land(x, w, lim);
    WindowCursors(x.disk, w);
    NewestIsLast(x.log, w[|w| - 1]);
    forall r | r in x.log && Readable(r) && r.cursor <= b.cursor ensures r in y.shown {
      if r.cursor > x.disk.dream {
        FirstCovers(x.disk, w, r);
      }
    }
  }

  lemma {:induction false} FirstLandsPhase(x: World, lim: Limits)
    requires Inv(x, lim) && x.phase.First? && AllEntries(x.phase.w)
    ensures PhaseInv(Land(x, x.phase.w, lim), lim)
  {
    var w := x.phase.w;
    var b := HeadBatch(w);
    var y := Land(x, w, lim);
    SecondIsRest(x.disk, w, lim);
    WindowCursors(x.disk, w);
    NewestIsLast(x.log, w[|w| - 1]);
    if b.rest.Some? {
      forall r | r in Pending(y.disk.live, y.disk.dream) && At(r) <= b.windowCursor
        ensures r in y.shown || r in RestBatch(w, b.rest.value).value.entries
      {
        PendingMembers(y.disk.live, y.disk.dream, r);
        WindowCovers(x.disk, w, r);
      }
    }
  }

  // Landing the first batch: what its cursor passes was in it, and what is left
  // of the window below the window's end is in the second.
  lemma {:induction false} FirstLands(x: World, lim: Limits)
    requires Inv(x, lim) && x.phase.First?
    ensures Inv(After(x, FirstEnds(true), lim), lim)
    ensures x.disk.dream < After(x, FirstEnds(true), lim).disk.dream
  {
    WindowCursors(x.disk, x.phase.w);
    FirstLandsDream(x, lim);
    FirstLandsPhase(x, lim);
  }

  lemma {:induction false} SecondLands(x: World, lim: Limits)
    requires Inv(x, lim) && x.phase.Second?
    ensures Inv(After(x, SecondEnds(true), lim), lim)
  {
    var b := x.phase.batch;
    forall r | r in x.log && Readable(r) && r.cursor <= b.cursor
      ensures r in x.shown + Elements(b.entries)
    {
      PendingMembers(x.disk.live, x.disk.dream, r);
    }
  }

  lemma {:induction false} CursorAdvances(x: World, s: Step, lim: Limits)
    requires Inv(x, lim)
    ensures x.disk.dream <= After(x, s, lim).disk.dream
  {
    if s.FirstEnds? && s.lands && x.phase.First? {
      FirstLands(x, lim);
    }
  }

  lemma {:induction false} StepKeeps(x: World, s: Step, lim: Limits)
    requires Inv(x, lim)
    ensures Inv(After(x, s, lim), lim)
  {
    if s.Append? || s.AppendThenCrash? {
      var r := NewEntry(x.disk, s.scope, s.diary, s.untrusted, s.content);
      AppendKeepsLog(x, r, if s.Append? then Some(r.cursor) else x.disk.cursorFile);
      AppendKeepsDream(x, r, After(x, s, lim), lim);
    } else if s.Compact? {
      CompactKeeps(x, s.cap, lim);
    } else if s.BeginTurn? {
      BeginKeeps(x, lim);
    } else if s.FirstEnds? && s.lands && x.phase.First? {
      FirstLands(x, lim);
    } else if s.SecondEnds? && s.lands && x.phase.Second? {
      SecondLands(x, lim);
    }
  }

  lemma {:induction false} RunKeeps(steps: seq<Step>, lim: Limits)
    ensures Inv(Ran(START, steps, lim), lim)
  {
    if steps != [] {
      RunKeeps(steps[..|steps| - 1], lim);
      StepKeeps(Ran(START, steps[..|steps| - 1], lim), steps[|steps| - 1], lim);
    }
  }

  // ----------------------------------------------------- what runs promise

  // Dream loses nothing: at every moment each entry it should read is either
  // still ahead of its cursor and in the live file, or behind it and was shown
  // whole in a batch that landed.
  lemma {:induction false} DreamLosesNothing(steps: seq<Step>, lim: Limits, r: Row)
    requires r in Ran(START, steps, lim).log && Readable(r)
    ensures var x := Ran(START, steps, lim);
            if r.cursor > x.disk.dream then r in x.disk.live else r in x.shown
  {
    RunKeeps(steps, lim);
  }

  // No cursor is handed out twice, in whatever order crashes, lost cursor files
  // and compactions come; and no entry leaves the disk.
  lemma {:induction false} CursorsIncreaseAndNothingIsLost(steps: seq<Step>, lim: Limits)
    ensures var x := Ran(START, steps, lim);
            && Increasing(x.log)
            && NextCursor(x.disk) == Newest(x.log) + 1
            && forall r :: r in x.log ==> r in x.disk.live || r in x.disk.archive
  {
    RunKeeps(steps, lim);
    var x := Ran(START, steps, lim);
    AppendKeepsLog(x, Entry(NextCursor(x.disk), Personal, false, false, ""), x.disk.cursorFile);
  }

  // Dream's cursor never goes back.
  lemma {:induction false} DreamCursorMonotone(steps: seq<Step>, more: seq<Step>, lim: Limits)
    ensures Ran(START, steps, lim).disk.dream <= Ran(START, steps + more, lim).disk.dream
  {
    if more == [] {
      assert steps + more == steps;
    } else {
      var n := |more| - 1;
      DreamCursorMonotone(steps, more[..n], lim);
      assert (steps + more)[..|steps + more| - 1] == steps + more[..n];
      RunKeeps(steps + more[..n], lim);
      CursorAdvances(Ran(START, steps + more[..n], lim), more[n], lim);
    }
  }

  // One turn of the store, without interleaving: it shows every entry its cursor
  // passes, and when its first batch lands fewer entries stay unread.
  lemma {:induction false} TurnCovers(d: Disk, lim: Limits, firstLands: bool, secondLands: bool, r: Row)
    requires Increasing(d.live) && r in d.live && Awaits(r, d.dream)
    ensures r.cursor <= DreamAfter(d, lim, firstLands, secondLands) ==>
              r in ShownBy(d, lim, firstLands, secondLands)
  {
    var p := Pending(d.live, d.dream);
    var w := Window(p, lim);
    if w != [] && firstLands {
      WindowOfWindow(p, 0, WindowLen(p, 0, lim), lim);
      assert w[..|w|] == w;
      SecondIsRest(d, w, lim);
      var b := HeadBatch(w);
      assert BuildBatch(d, None, None, lim) == Some(b);
      if r.cursor <= b.cursor {
        FirstCovers(d, w, r);
      } else if r.cursor <= b.windowCursor {
        WindowCovers(d, w, r);
      }
    }
  }

  lemma {:induction false} TurnAdvances(d: Disk, lim: Limits, secondLands: bool)
    requires Increasing(d.live) && Pending(d.live, d.dream) != [] && lim.entries > 0
    ensures d.dream < DreamAfter(d, lim, true, secondLands)
  {
    var p := Pending(d.live, d.dream);
    var w := Window(p, lim);
    WindowOfWindow(p, 0, WindowLen(p, 0, lim), lim);
    assert w[..|w|] == w;
    WindowCursors(d, w);
    SecondIsRest(d, w, lim);
    assert BuildBatch(d, None, None, lim) == Some(HeadBatch(w));
  }
}
