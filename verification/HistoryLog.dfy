// The append-only history file, its cursors, and the compaction that moves old
// entries into an archive instead of deleting them.
module HistoryLog {
  import opened Options
  import opened Selections

  datatype Scope = Personal | Project | Internal

  // A line of the file. `Malformed` rows are what an external writer may leave:
  // they may still carry a usable cursor.
  datatype Row =
    | Entry(cursor: int, scope: Scope, diary: bool, untrusted: bool, content: string)
    | Malformed(at: Option<int>)

  function CursorOf(r: Row): Option<int> {
    if r.Entry? then Some(r.cursor) else r.at
  }

  // What Dream consolidates at all: conversation, not diary rows, not untrusted.
  predicate Readable(r: Row) {
    r.Entry? && r.scope != Internal && !r.diary && !r.untrusted
  }

  predicate Awaits(r: Row, dream: int) {
    Readable(r) && r.cursor > dream
  }

  datatype Disk = Disk(live: seq<Row>, archive: set<Row>, cursorFile: Option<int>, dream: int)

  // ---------------------------------------------------- cursor allocation

  function MaxCursor(rows: seq<Row>): int {
    if rows == [] then 0 else
      var m := MaxCursor(rows[..|rows| - 1]);
      var r := rows[|rows| - 1];
      if r.Entry? && (r.cursor > m || forall k :: 0 <= k < |rows| - 1 ==> !rows[k].Entry?) then r.cursor else m
  }

  lemma {:induction false} MaxCursorIs(rows: seq<Row>)
    ensures forall i :: 0 <= i < |rows| && rows[i].Entry? ==> rows[i].cursor <= MaxCursor(rows)
    ensures (exists i :: 0 <= i < |rows| && rows[i].Entry? && rows[i].cursor == MaxCursor(rows))
            || (MaxCursor(rows) == 0 && forall i :: 0 <= i < |rows| ==> !rows[i].Entry?)
  {
    if rows != [] {
      var front, r := rows[..|rows| - 1], rows[|rows| - 1];
      MaxCursorIs(front);
      assert forall i :: 0 <= i < |front| ==> front[i] == rows[i];
      assert rows[|front|] == r;
    }
  }

  function LastCursor(rows: seq<Row>): Option<int> {
    if rows == [] then None else CursorOf(rows[|rows| - 1])
  }

  // The larger of the cursor file and the last line; both unusable, the whole file.
  function NextCursor(d: Disk): int {
    match (d.cursorFile, LastCursor(d.live))
    case (Some(a), Some(b)) => (if a > b then a else b) + 1
    case (Some(a), None) => a + 1
    case (None, Some(b)) => b + 1
    case (None, None) => MaxCursor(d.live) + 1
  }

  // The cursor handed out is above the cursor file and above the last line, and one past one of them; when
  // neither can be used, it is one past the largest cursor in the file, or 1 without any.
  lemma {:induction false} NextCursorIs(d: Disk)
    ensures var c, last := NextCursor(d), LastCursor(d.live);
            && (d.cursorFile.Some? ==> c > d.cursorFile.value)
            && (last.Some? ==> c > last.value)
            && (d.cursorFile.Some? || last.Some? ==> d.cursorFile == Some(c - 1) || last == Some(c - 1))
            && (d.cursorFile.None? && last.None? ==>
                  && (forall i :: 0 <= i < |d.live| && d.live[i].Entry? ==> d.live[i].cursor < c)
                  && (c == 1 || exists i :: 0 <= i < |d.live| && d.live[i].Entry? && d.live[i].cursor == c - 1))
  {
    MaxCursorIs(d.live);
  }

  function LineAppended(d: Disk, r: Row): Disk {
    d.(live := d.live + [r])
  }

  function Appended(d: Disk, r: Row): Disk {
    LineAppended(d, r).(cursorFile := CursorOf(r))
  }

  // ----------------------------------------------------------- compaction

  // Rows at or past `cut` stay, and so does everything Dream still awaits.
  function Kept(rows: seq<Row>, cut: int, dream: int): seq<Row> {
    if rows == [] then [] else
      var n := |rows| - 1;
      Kept(rows[..n], cut, dream) + if n >= cut || Awaits(rows[n], dream) then [rows[n]] else []
  }

  function Dropped(rows: seq<Row>, cut: int, dream: int): seq<Row> {
    if rows == [] then [] else
      var n := |rows| - 1;
      Dropped(rows[..n], cut, dream) + if n >= cut || Awaits(rows[n], dream) then [] else [rows[n]]
  }

  function Elements(rows: seq<Row>): set<Row> {
    set r | r in rows
  }

  function Cut(d: Disk, cap: int): int {
    |d.live| - cap
  }

  function ToDrop(d: Disk, cap: int): seq<Row> {
    if cap <= 0 || |d.live| <= cap then [] else Dropped(d.live, Cut(d, cap), d.dream)
  }

  function Compacted(d: Disk, cap: int): Disk {
    if ToDrop(d, cap) == [] then d
    else d.(live := Kept(d.live, Cut(d, cap), d.dream), archive := d.archive + Elements(ToDrop(d, cap)))
  }

  // ---------------------------------------------------------- Dream batches

  // Unread rows, oldest first.
  function Pending(rows: seq<Row>, dream: int): seq<Row> {
    if rows == [] then [] else
      var r := rows[|rows| - 1];
      Pending(rows[..|rows| - 1], dream) + if Awaits(r, dream) then [r] else []
  }

  function UpTo(rows: seq<Row>, until: int): seq<Row> {
    if rows == [] then [] else
      var r := rows[|rows| - 1];
      UpTo(rows[..|rows| - 1], until) + if r.Entry? && r.cursor <= until then [r] else []
  }

  datatype Limits = Limits(entries: nat, chars: nat)

  function Cost(rows: seq<Row>): nat {
    if rows == [] then 0 else
      Cost(rows[..|rows| - 1]) + if rows[|rows| - 1].Entry? then |rows[|rows| - 1].content| else 0
  }

  // How many of the first rows the window takes, having taken `n`.
  function WindowLen(pending: seq<Row>, n: nat, lim: Limits): (m: nat)
    requires n <= |pending|
    ensures n <= m <= |pending|
    decreases |pending| - n
  {
    if n == |pending| || n >= lim.entries then n
    else if n > 0 && Cost(pending[..n + 1]) > lim.chars then n
    else WindowLen(pending, n + 1, lim)
  }

  function Window(pending: seq<Row>, lim: Limits): seq<Row> {
    pending[..WindowLen(pending, 0, lim)]
  }

  function OfScope(w: seq<Row>, s: Scope): seq<Row> {
    if w == [] then [] else
      var r := w[|w| - 1];
      OfScope(w[..|w| - 1], s) + if r.Entry? && r.scope == s then [r] else []
  }

  // Length of the run of rows of scope `s` at the front.
  function HeadRun(w: seq<Row>, s: Scope): (n: nat)
    ensures n <= |w|
    ensures forall i :: 0 <= i < n ==> w[i].Entry? && w[i].scope == s
    ensures n < |w| ==> !(w[n].Entry? && w[n].scope == s)
  {
    if w == [] || !(w[0].Entry? && w[0].scope == s) then 0 else 1 + HeadRun(w[1..], s)
  }

  datatype Batch = Batch(entries: seq<Row>, cursor: int, scope: Scope, rest: Option<Scope>, windowCursor: int)

  predicate AllEntries(w: seq<Row>) {
    forall i :: 0 <= i < |w| ==> w[i].Entry?
  }

  function HeadBatch(w: seq<Row>): Batch
    requires w != [] && AllEntries(w)
  {
    var s := w[0].scope;
    var n := HeadRun(w, s);
    Batch(OfScope(w, s), w[n - 1].cursor, s, if n < |w| then Some(w[n].scope) else None, w[|w| - 1].cursor)
  }

  function RestBatch(w: seq<Row>, s: Scope): Option<Batch>
    requires AllEntries(w)
  {
    if w == [] || OfScope(w, s) == [] then None
    else Some(Batch(OfScope(w, s), w[|w| - 1].cursor, s, None, w[|w| - 1].cursor))
  }

  lemma {:induction false} PendingAwaits(rows: seq<Row>, dream: int)
    ensures forall i :: 0 <= i < |Pending(rows, dream)| ==>
              Awaits(Pending(rows, dream)[i], dream) && Pending(rows, dream)[i] in rows
  {
    if rows != [] {
      var front := rows[..|rows| - 1];
      PendingAwaits(front, dream);
      assert forall r :: r in front ==> r in rows;
    }
  }

  lemma {:induction false} UpToKeepsEntries(rows: seq<Row>, until: int)
    ensures AllEntries(UpTo(rows, until))
  {
    if rows != [] {
      UpToKeepsEntries(rows[..|rows| - 1], until);
    }
  }

  // `scope` and `until` ask for the second batch of a run.
  function BuildBatch(d: Disk, scope: Option<Scope>, until: Option<int>, lim: Limits): Option<Batch> {
    var pending := Pending(d.live, d.dream);
    var seen := if until.Some? then UpTo(pending, until.value) else pending;
    var w := Window(seen, lim);
    PendingAwaits(d.live, d.dream);
    UpToKeepsEntries(pending, if until.Some? then until.value else 0);
    if w == [] then None
    else if scope.Some? then RestBatch(w, scope.value)
    else Some(HeadBatch(w))
  }

  // ------------------------------------------------- what a batch is made of

  // All texts of some rows, one after the other.
  function Texts(rows: seq<Row>): string {
    if rows == [] then "" else
      Texts(rows[..|rows| - 1]) + if rows[|rows| - 1].Entry? then rows[|rows| - 1].content else ""
  }

  lemma {:induction false} CostIs(rows: seq<Row>)
    ensures Cost(rows) == |Texts(rows)|
  {
    if rows != [] { CostIs(rows[..|rows| - 1]); }
  }

  // The first n of the pending rows may make a window: within both limits, or a single row.
  predicate Fits(pending: seq<Row>, n: nat, lim: Limits)
    requires n <= |pending|
  {
    n == 0 || (n <= lim.entries && (n == 1 || |Texts(pending[..n])| <= lim.chars))
  }

  lemma {:induction false} CostGrows(rows: seq<Row>, i: nat, j: nat)
    requires i <= j <= |rows|
    ensures Cost(rows[..i]) <= Cost(rows[..j])
  {
    if i < j {
      CostGrows(rows, i, j - 1);
      assert rows[..j][..j - 1] == rows[..j - 1];
    }
  }

  lemma {:induction false} WindowFits(pending: seq<Row>, n: nat, lim: Limits)
    requires n <= |pending| && Fits(pending, n, lim)
    ensures Fits(pending, WindowLen(pending, n, lim), lim)
    decreases |pending| - n
  {
    if n == |pending| || n >= lim.entries || (n > 0 && Cost(pending[..n + 1]) > lim.chars) {
    } else {
      CostIs(pending[..n + 1]);
      WindowFits(pending, n + 1, lim);
    }
  }

  lemma {:induction false} WindowIsLongest(pending: seq<Row>, n: nat, lim: Limits, m: nat)
    requires n <= |pending| && m <= |pending| && Fits(pending, m, lim)
    ensures m <= n || m <= WindowLen(pending, n, lim)
    decreases |pending| - n
  {
    if n < m {
      CostGrows(pending, n + 1, m);
      CostIs(pending[..m]);
      WindowIsLongest(pending, n + 1, lim, m);
    }
  }

  // What a call asks for: the rows awaited, up to the end of the window when it is for the second batch.
  function Asked(dream: int, until: Option<int>): Row -> bool {
    (r: Row) => Awaits(r, dream) && (until.Some? ==> r.cursor <= until.value)
  }

  function InScope(s: Scope): Row -> bool {
    (r: Row) => r.Entry? && r.scope == s
  }

  function Seen(rows: seq<Row>, dream: int, until: Option<int>): seq<Row> {
    if until.Some? then UpTo(Pending(rows, dream), until.value) else Pending(rows, dream)
  }

  lemma {:induction false} UpToMore(rows: seq<Row>, r: Row, until: int)
    ensures UpTo(rows + [r], until) == UpTo(rows, until) + if r.Entry? && r.cursor <= until then [r] else []
  {
    assert (rows + [r])[..|rows|] == rows;
  }

  lemma {:induction false} SeenIs(rows: seq<Row>, dream: int, until: Option<int>)
    ensures Seen(rows, dream, until) == Only(rows, Asked(dream, until))
  {
    if rows != [] {
      var front, r := rows[..|rows| - 1], rows[|rows| - 1];
      SeenIs(front, dream, until);
      var pending := Pending(front, dream);
      if Awaits(r, dream) {
        assert Pending(rows, dream) == pending + [r];
        if until.Some? { UpToMore(pending, r, until.value); }
      } else {
        assert Pending(rows, dream) == pending;
      }
    }
  }

  lemma {:induction false} OfScopeIs(w: seq<Row>, s: Scope)
    ensures OfScope(w, s) == Only(w, InScope(s))
  {
    if w != [] { OfScopeIs(w[..|w| - 1], s); }
  }

  // The batch of a window: the rows of the scope asked for, else of its first row's, and the window's end.
  // A first batch alone may move the cursor over the run of its scope at the front, and leaves the other scope.
  ghost predicate IsBatch(w: seq<Row>, asked: Option<Scope>, r: Option<Batch>)
    requires AllEntries(w)
  {
    if w == [] then r.None? else
      var s := if asked.Some? then asked.value else w[0].scope;
      var entries := Only(w, InScope(s));
      && (r.None? <==> entries == [])
      && (r.Some? ==>
            && r.value.entries == entries && r.value.scope == s && r.value.windowCursor == w[|w| - 1].cursor
            && (asked.Some? ==> r.value.cursor == r.value.windowCursor && r.value.rest.None?)
            && (asked.None? ==> HeadCursor(w, r.value)))
  }

  ghost predicate HeadCursor(w: seq<Row>, b: Batch)
    requires AllEntries(w)
  {
    exists n :: HeadEnds(w, b, n)
  }

  predicate HeadEnds(w: seq<Row>, b: Batch, n: nat)
    requires AllEntries(w)
  {
    && 0 < n <= |w| && (forall i :: 0 <= i < n ==> w[i].scope == b.scope) && b.cursor == w[n - 1].cursor
    && if n == |w| then b.rest.None? else b.rest == Some(w[n].scope) && w[n].scope != b.scope
  }

  lemma {:induction false} HeadCursorIs(w: seq<Row>)
    requires w != [] && AllEntries(w)
    ensures HeadCursor(w, HeadBatch(w))
  {
    var n := HeadRun(w, w[0].scope);
    assert HeadEnds(w, HeadBatch(w), n);
  }

  lemma {:induction false} OnlyHas(rows: seq<Row>, keep: Row -> bool)
    requires rows != [] && keep(rows[0])
    ensures Only(rows, keep) != []
  {
    if |rows| > 1 { OnlyHas(rows[..|rows| - 1], keep); }
  }

  lemma {:induction false} HeadIs(w: seq<Row>)
    requires w != [] && AllEntries(w)
    ensures IsBatch(w, None, Some(HeadBatch(w)))
  {
    OfScopeIs(w, w[0].scope);
    OnlyHas(w, InScope(w[0].scope));
    HeadCursorIs(w);
  }

  lemma {:induction false} RestIs(w: seq<Row>, s: Scope)
    requires AllEntries(w)
    ensures IsBatch(w, Some(s), RestBatch(w, s))
  {
    OfScopeIs(w, s);
  }

  // The rows asked for, in the order of the log; the longest run of first ones that fits; of these the batch.
  lemma {:induction false} BatchIs(d: Disk, scope: Option<Scope>, until: Option<int>, lim: Limits) returns (m: nat)
    ensures var seen := Only(d.live, Asked(d.dream, until));
            && AllEntries(seen) && m <= |seen| && Fits(seen, m, lim)
            && (forall n: nat :: n <= |seen| && Fits(seen, n, lim) ==> n <= m)
            && IsBatch(seen[..m], scope, BuildBatch(d, scope, until, lim))
  {
    var seen := Seen(d.live, d.dream, until);
    SeenIs(d.live, d.dream, until);
    PendingAwaits(d.live, d.dream);
    UpToKeepsEntries(Pending(d.live, d.dream), if until.Some? then until.value else 0);
    m := WindowLen(seen, 0, lim);
    WindowFits(seen, 0, lim);
    forall n: nat | n <= |seen| && Fits(seen, n, lim) ensures n <= m {
      WindowIsLongest(seen, 0, lim, n);
    }
    var w := seen[..m];
    if scope.Some? {
      RestIs(w, scope.value);
    } else if w != [] {
      HeadIs(w);
    }
  }

  // ------------------------------------------------------------- the store

  class MemoryStore {
    var live: seq<Row>
    var archive: set<Row>
    var cursorFile: Option<int>
    var dream: int
    const cap: int

    ghost function State(): Disk
      reads this
    {
      Disk(live, archive, cursorFile, dream)
    }

    constructor (cap: int)
      ensures State() == Disk([], {}, None, 0) && this.cap == cap
    {
      live, archive, cursorFile, dream := [], {}, None, 0;
      this.cap := cap;
    }

    // The highest cursor of the file, 0 for a file without entries.
    method ScanCursors() returns (m: int)
      ensures m == MaxCursor(live)
    {
      m := 0;
      var any := false;
      var i := 0;
      while i < |live|
        invariant 0 <= i <= |live|
        invariant m == MaxCursor(live[..i])
        invariant any <==> exists k :: 0 <= k < i && live[k].Entry?
      {
        assert live[..i + 1][..i] == live[..i];
        if live[i].Entry? {
          if !any || live[i].cursor > m {
            m := live[i].cursor;
          }
          any := true;
        }
        i := i + 1;
      }
      assert live[..i] == live;
    }

    method AllocateCursor() returns (c: int)
      ensures c == NextCursor(State())
    {
      var last := LastCursor(live);
      if cursorFile.Some? && last.Some? {
        c := (if cursorFile.value > last.value then cursorFile.value else last.value) + 1;
      } else if cursorFile.Some? {
        c := cursorFile.value + 1;
      } else if last.Some? {
        c := last.value + 1;
      } else {
        c := ScanCursors();
        c := c + 1;
      }
    }

    // Line first, cursor file second: a crash in between loses the second write only.
    method AppendHistory(scope: Scope, diary: bool, untrusted: bool, content: string) returns (c: int)
      modifies this
      ensures c == NextCursor(old(State()))
      ensures State() == Appended(old(State()), Entry(c, scope, diary, untrusted, content))
    {
      c := AllocateCursor();
      live := live + [Entry(c, scope, diary, untrusted, content)];
      cursorFile := Some(c);
    }

    // Archive first, rewrite second. An archive that cannot be written leaves the
    // file as it is.
    method CompactHistory(archiveWritable: bool)
      modifies this
      ensures State() == if archiveWritable then Compacted(old(State()), cap) else old(State())
    {
      if cap <= 0 || |live| <= cap {
        return;
      }
      var cut := |live| - cap;
      var kept: seq<Row> := [];
      var dropped: seq<Row> := [];
      var i := 0;
      while i < |live|
        invariant 0 <= i <= |live|
        invariant kept == Kept(live[..i], cut, dream)
        invariant dropped == Dropped(live[..i], cut, dream)
        invariant State() == old(State())
      {
        assert live[..i + 1][..i] == live[..i];
        if i >= cut || Awaits(live[i], dream) {
          kept := kept + [live[i]];
        } else {
          dropped := dropped + [live[i]];
        }
        i := i + 1;
      }
      assert live[..i] == live;
      if dropped == [] || !archiveWritable {
        return;
      }
      archive := archive + set r | r in dropped;
      live := kept;
    }

    method PendingRows() returns (p: seq<Row>)
      ensures p == Pending(live, dream)
    {
      p := [];
      var i := 0;
      while i < |live|
        invariant 0 <= i <= |live|
        invariant p == Pending(live[..i], dream)
      {
        assert live[..i + 1][..i] == live[..i];
        if Awaits(live[i], dream) {
          p := p + [live[i]];
        }
        i := i + 1;
      }
      assert live[..i] == live;
    }

    static method TakeWindow(pending: seq<Row>, lim: Limits) returns (window: seq<Row>)
      requires AllEntries(pending)
      ensures window == Window(pending, lim)
    {
      window := [];
      var used := 0;
      while |window| < |pending| && |window| < lim.entries
            && !(window != [] && used + |pending[|window|].content| > lim.chars)
        invariant |window| <= |pending| && window == pending[..|window|]
        invariant used == Cost(window)
        invariant WindowLen(pending, |window|, lim) == WindowLen(pending, 0, lim)
      {
        assert pending[..|window| + 1][..|window|] == window;
        used := used + |pending[|window|].content|;
        window := window + [pending[|window|]];
      }
      if |window| < |pending| {
        assert pending[..|window| + 1][..|window|] == window;
      }
    }

    method BuildDreamPrompt(scope: Option<Scope>, until: Option<int>, lim: Limits) returns (r: Option<Batch>)
      ensures r == BuildBatch(State(), scope, until, lim)
    {
      var pending := PendingRows();
      if until.Some? {
        pending := UpTo(pending, until.value);
      }
      PendingAwaits(live, dream);
      UpToKeepsEntries(Pending(live, dream), if until.Some? then until.value else 0);
      var window := TakeWindow(pending, lim);
      if window == [] {
        return None;
      }
      r := if scope.Some? then RestBatch(window, scope.value) else Some(HeadBatch(window));
    }

    method SetLastDreamCursor(c: int)
      modifies this`dream
      ensures State() == old(State()).(dream := c)
    {
      dream := c;
    }

    // One turn, from how its two model calls would end: the second prompt is built
    // before the first cursor is written, and the window's end is reached only
    // when both batches land.
    method RunDreamTurn(lim: Limits, firstLands: bool, secondLands: bool) returns (shown: seq<Row>)
      modifies this`dream
      ensures State() == old(State()).(dream := DreamAfter(old(State()), lim, firstLands, secondLands))
      ensures shown == ShownBy(old(State()), lim, firstLands, secondLands)
    {
      shown := [];
      var first := BuildDreamPrompt(None, None, lim);
      if first.None? || !firstLands {
        return;
      }
      shown := first.value.entries;
      if first.value.rest.None? {
        SetLastDreamCursor(first.value.cursor);
        return;
      }
      var rest := BuildDreamPrompt(first.value.rest, Some(first.value.windowCursor), lim);
      SetLastDreamCursor(first.value.cursor);
      if rest.Some? && secondLands {
        SetLastDreamCursor(rest.value.cursor);
        shown := shown + rest.value.entries;
      }
    }
  }

  function SecondBatch(d: Disk, first: Batch, lim: Limits): Option<Batch> {
    if first.rest.None? then None
    else BuildBatch(d, first.rest, Some(first.windowCursor), lim)
  }

  function DreamAfter(d: Disk, lim: Limits, firstLands: bool, secondLands: bool): int {
    var first := BuildBatch(d, None, None, lim);
    if first.None? || !firstLands then d.dream
    else
      var rest := SecondBatch(d, first.value, lim);
      if rest.Some? && secondLands then rest.value.cursor else first.value.cursor
  }

  // The entries shown whole in batches that landed.
  function ShownBy(d: Disk, lim: Limits, firstLands: bool, secondLands: bool): seq<Row> {
    var first := BuildBatch(d, None, None, lim);
    if first.None? || !firstLands then []
    else
      var rest := SecondBatch(d, first.value, lim);
      first.value.entries + if rest.Some? && secondLands then rest.value.entries else []
  }
}
