// What a gardener pass reads of a project's journal, and what committing it records.
module Journal {
  import opened Bounds
  import opened JournalText
  import opened Options

  // ---------------------------------------------------------- entries

  // The characters `str.strip` removes.
  predicate Space(c: char) {
    var n := c as int;
    9 <= n <= 13 || 28 <= n <= 32 || n == 0x85 || n == 0xA0 || n == 0x1680 || 0x2000 <= n <= 0x200A
    || n == 0x2028 || n == 0x2029 || n == 0x202F || n == 0x205F || n == 0x3000
  }

  function TrimEnd(s: string): string {
    if s != "" && Space(s[|s| - 1]) then TrimEnd(s[..|s| - 1]) else s
  }

  function TrimStart(s: string): string {
    if s != "" && Space(s[0]) then TrimStart(s[1..]) else s
  }

  function Trim(s: string): string {
    TrimEnd(TrimStart(s))
  }

  // Blank lines and headings are not entries.
  predicate Skipped(trimmed: string) {
    trimmed == "" || trimmed[0] == '#'
  }

  predicate Entry(line: string) {
    !Skipped(Trim(line))
  }

  function Entries(lines: seq<string>): seq<string> {
    if lines == [] then [] else
      var n := |lines| - 1;
      Entries(lines[..n]) + if Entry(lines[n]) then [Trim(lines[n])] else []
  }

  lemma {:induction false} EntriesConcat(a: seq<string>, b: seq<string>)
    ensures Entries(a + b) == Entries(a) + Entries(b)
  {
    if b == [] {
      assert a + b == a;
    } else {
      var n := |b| - 1;
      assert (a + b)[..|a + b| - 1] == a + b[..n];
      EntriesConcat(a, b[..n]);
    }
  }

  lemma {:induction false} EntriesSplit(lines: seq<string>, i: nat, j: nat)
    requires i <= j <= |lines|
    ensures Entries(lines[i..]) == Entries(lines[i..j]) + Entries(lines[j..])
  {
    EntriesConcat(lines[i..j], lines[j..]);
    assert lines[i..] == lines[i..j] + lines[j..];
  }

  lemma {:induction false} EntriesStep(lines: seq<string>, i: nat)
    requires i < |lines|
    ensures Entries(lines[i..i + 1]) == if Entry(lines[i]) then [Trim(lines[i])] else []
  {
    assert lines[i..i + 1][..0] == [];
    assert Entries([]) == [];
  }

  // What a ceiling leaves behind.
  function Behind(n: nat, max: nat): nat {
    n - Min(max, n)
  }

  // ---------------------------------------------------------- one page

  // Where a page is read from. A page shorter than its cursor is left alone, so is a finished one
  // without a witness; a prefix that no longer gives its witness sends the reading back to line 0.
  function SeenFrom(lines: seq<string>, cursor: nat, seal: Option<string>): (r: nat)
    ensures r <= |lines|
  {
    if cursor > |lines| then |lines|
    else if cursor == |lines| && seal.None? then cursor
    else if cursor > 0 && seal != Some(Material(lines[..cursor])) then 0
    else cursor
  }

  // A page is read on from its cursor exactly when the witness is that of the lines before it, or there is
  // none and nothing stands behind them; else it is read again. A shorter page is not read.
  lemma {:induction false} StartsWhere(lines: seq<string>, cursor: nat, seal: Option<string>)
    ensures var r := SeenFrom(lines, cursor, seal);
            if cursor > |lines| then r == |lines|
            else if cursor == 0 || seal == Some(Material(lines[..cursor])) || (seal.None? && lines[cursor..] == [])
            then r == cursor
            else r == 0
  {
  }

  // The first entry, from line i on, that the budget cannot pay for.
  function Stop(lines: seq<string>, i: nat, budget: nat): (r: nat)
    requires i <= |lines|
    ensures i <= r <= |lines|
    ensures r < |lines| ==> Entry(lines[r])
    decreases |lines| - i
  {
    if i == |lines| then i
    else if !Entry(lines[i]) then Stop(lines, i + 1, budget)
    else if budget == 0 then i
    else Stop(lines, i + 1, budget - 1)
  }

  function EntryOf(line: string): seq<string> {
    if Entry(line) then [Trim(line)] else []
  }

  lemma {:induction false} TakenStep(lines: seq<string>, i: nat, r: nat)
    requires i < r <= |lines|
    ensures Entries(lines[i..r]) == EntryOf(lines[i]) + Entries(lines[i + 1..r])
  {
    EntriesStep(lines, i);
    EntriesConcat(lines[i..i + 1], lines[i + 1..r]);
    assert lines[i..r] == lines[i..i + 1] + lines[i + 1..r];
  }

  lemma {:induction false} TakenNone(lines: seq<string>, i: nat)
    requires i <= |lines|
    ensures Entries(lines[i..i]) == []
  {
    assert lines[i..i] == [];
  }

  lemma {:induction false} StopNext(lines: seq<string>, i: nat, budget: nat)
    requires i < |lines| && (Entry(lines[i]) ==> budget > 0)
    ensures Stop(lines, i, budget) == Stop(lines, i + 1, budget - |EntryOf(lines[i])|)
  {
  }

  // Entries among lines [i, r).
  function Count(lines: seq<string>, i: nat, r: nat): nat
    requires i <= r <= |lines|
    decreases r - i
  {
    if i == r then 0 else |EntryOf(lines[i])| + Count(lines, i + 1, r)
  }

  lemma {:induction false} CountIs(lines: seq<string>, i: nat, r: nat)
    requires i <= r <= |lines|
    ensures Count(lines, i, r) == |Entries(lines[i..r])|
    decreases r - i
  {
    if i == r {
      TakenNone(lines, i);
    } else {
      CountIs(lines, i + 1, r);
      TakenStep(lines, i, r);
    }
  }

  lemma {:induction false} StopCounts(lines: seq<string>, i: nat, budget: nat)
    requires i <= |lines|
    ensures Count(lines, i, Stop(lines, i, budget)) == Min(budget, Count(lines, i, |lines|))
    decreases |lines| - i
  {
    if i < |lines| && (Entry(lines[i]) ==> budget > 0) {
      StopCounts(lines, i + 1, budget - |EntryOf(lines[i])|);
    }
  }

  // Reading up to the stop takes as many entries as there are, or as the budget allows.
  lemma {:induction false} StopTakes(lines: seq<string>, i: nat, budget: nat)
    requires i <= |lines|
    ensures |Entries(lines[i..Stop(lines, i, budget)])| == Min(budget, |Entries(lines[i..])|)
  {
    StopCounts(lines, i, budget);
    CountIs(lines, i, Stop(lines, i, budget));
    CountIs(lines, i, |lines|);
    assert lines[i..] == lines[i..|lines|];
  }

  datatype Portion = Portion(path: string, lines: seq<string>, cursorAfter: nat, witnessAfter: string)

  // A file of the journal directory; `text` is None when it is hidden or cannot be decoded.
  datatype Page = Page(name: string, text: Option<string>)

  datatype State = State(cursor: map<string, nat>, seals: map<string, string>) {
    function CursorAt(name: string): nat {
      if name in cursor then cursor[name] else 0
    }

    function WitnessAt(name: string): Option<string> {
      if name in seals then Some(seals[name]) else None
    }
  }

  // A page the state does not know is read from its first line, whatever else the state holds.
  lemma {:induction false} UnknownPageFromStart(text: string, st: State, name: string)
    requires name !in st.cursor
    ensures Start(text, st, name) == 0
  {
  }

  function Start(text: string, st: State, name: string): (r: nat)
    ensures r <= |Lines(text)|
  {
    SeenFrom(Lines(text), st.CursorAt(name), st.WitnessAt(name))
  }

  function Unread(page: Page, st: State): seq<string> {
    match page.text
    case None => []
    case Some(text) => Entries(Lines(text)[Start(text, st, page.name)..])
  }

  function PageDelta(page: Page, st: State, budget: nat): (r: seq<Portion>)
    ensures |r| <= 1
    ensures forall i :: 0 <= i < |r| ==> r[i].path == page.name
  {
    match page.text
    case None => []
    case Some(text) =>
      var lines, seen := Lines(text), Start(text, st, page.name);
      var stop := Stop(lines, seen, budget);
      var taken := Entries(lines[seen..stop]);
      if taken == [] then [] else [Portion(page.name, taken, stop, Material(lines[..stop]))]
  }

  function Given(files: seq<Portion>): seq<string> {
    if files == [] then [] else Given(files[..|files| - 1]) + files[|files| - 1].lines
  }

  lemma {:induction false} PageGives(page: Page, st: State, budget: nat)
    ensures Given(PageDelta(page, st, budget)) == Unread(page, st)[..Min(budget, |Unread(page, st)|)]
  {
    if page.text.Some? {
      var text := page.text.value;
      var lines, seen := Lines(text), Start(text, st, page.name);
      var stop := Stop(lines, seen, budget);
      StopTakes(lines, seen, budget);
      EntriesSplit(lines, seen, stop);
      var d := PageDelta(page, st, budget);
      if d != [] {
        assert d[..0] == [];
        assert Given([]) == [];
      }
    }
  }

  // ---------------------------------------------------------- all pages

  function AllUnread(pages: seq<Page>, st: State): seq<string> {
    if pages == [] then [] else
      var n := |pages| - 1;
      AllUnread(pages[..n], st) + Unread(pages[n], st)
  }

  // What earlier pages leave of the budget.
  function Left(pages: seq<Page>, st: State, max: nat): nat {
    max - Min(max, |AllUnread(pages, st)|)
  }

  function DeltaFiles(pages: seq<Page>, st: State, max: nat): seq<Portion> {
    if pages == [] then [] else
      var n := |pages| - 1;
      DeltaFiles(pages[..n], st, max) + PageDelta(pages[n], st, Left(pages[..n], st, max))
  }

  lemma {:induction false} GivenConcat(a: seq<Portion>, b: seq<Portion>)
    requires |b| <= 1
    ensures Given(a + b) == Given(a) + Given(b)
  {
    if b == [] {
      assert a + b == a;
    } else {
      assert (a + b)[..|a|] == a && b[..0] == [];
      assert Given(b[..0]) == [];
    }
  }

  lemma {:induction false} PrefixOfConcat(a: seq<string>, b: seq<string>, max: nat)
    ensures (a + b)[..Min(max, |a + b|)] == a[..Min(max, |a|)] + b[..Min(max - Min(max, |a|), |b|)]
  {
  }

  // One pass takes the first unread entries, in the order of the pages, up to its ceiling.
  lemma {:induction false} DeltaIsFirstUnread(pages: seq<Page>, st: State, max: nat)
    ensures Given(DeltaFiles(pages, st, max)) == AllUnread(pages, st)[..Min(max, |AllUnread(pages, st)|)]
  {
    if pages != [] {
      var n := |pages| - 1;
      var front, b := pages[..n], Left(pages[..n], st, max);
      DeltaIsFirstUnread(front, st, max);
      PageGives(pages[n], st, b);
      GivenConcat(DeltaFiles(front, st, max), PageDelta(pages[n], st, b));
      PrefixOfConcat(AllUnread(front, st), Unread(pages[n], st), max);
    }
  }

  lemma {:induction false} TakenNext(lines: seq<string>, i: nat, r: nat)
    requires i <= r < |lines|
    ensures Entries(lines[i..r + 1]) == Entries(lines[i..r]) + EntryOf(lines[r])
  {
    assert lines[i..r + 1][..r - i] == lines[i..r];
  }

  // Lines [seen, i) read: what they gave, and that the stop is where the rest of the budget leads.
  predicate ReadTo(lines: seq<string>, seen: nat, budget: nat, i: nat, taken: seq<string>, rest: nat) {
    && seen <= i <= |lines|
    && taken == Entries(lines[seen..i]) && |taken| + rest == budget
    && Stop(lines, i, rest) == Stop(lines, seen, budget)
  }

  lemma {:induction false} ReadOneMore(lines: seq<string>, seen: nat, budget: nat, i: nat, taken: seq<string>, rest: nat)
    requires i < |lines| && ReadTo(lines, seen, budget, i, taken, rest) && (Entry(lines[i]) ==> rest > 0)
    ensures var more := EntryOf(lines[i]);
            ReadTo(lines, seen, budget, i + 1, taken + more, rest - |more|)
  {
    TakenNext(lines, seen, i);
    StopNext(lines, i, rest);
  }

  lemma {:induction false} ReadSkipped(lines: seq<string>, seen: nat, budget: nat, i: nat, taken: seq<string>, rest: nat)
    requires i < |lines| && ReadTo(lines, seen, budget, i, taken, rest) && !Entry(lines[i])
    ensures ReadTo(lines, seen, budget, i + 1, taken, rest)
  {
    ReadOneMore(lines, seen, budget, i, taken, rest);
    assert taken + [] == taken;
  }

  lemma {:induction false} ReadEntry(lines: seq<string>, seen: nat, budget: nat, i: nat, taken: seq<string>, rest: nat)
    requires i < |lines| && ReadTo(lines, seen, budget, i, taken, rest) && Entry(lines[i]) && rest > 0
    ensures ReadTo(lines, seen, budget, i + 1, taken + [Trim(lines[i])], rest - 1)
  {
    ReadOneMore(lines, seen, budget, i, taken, rest);
  }

  lemma {:induction false} ReadStops(lines: seq<string>, seen: nat, budget: nat, i: nat, taken: seq<string>, rest: nat)
    requires ReadTo(lines, seen, budget, i, taken, rest) && (i == |lines| || (Entry(lines[i]) && rest == 0))
    ensures i == Stop(lines, seen, budget)
  {
  }

  // The inner loop: lines of one page, within a budget.
  method ReadPage(lines: seq<string>, seen: nat, budget: nat)
    returns (taken: seq<string>, consumed: nat, stop: nat, rest: nat)
    requires seen <= |lines|
    ensures stop == consumed == Stop(lines, seen, budget)
    ensures taken == Entries(lines[seen..stop]) && |taken| + rest == budget
  {
    taken, consumed, stop, rest := [], seen, |lines|, budget;
    var index := seen;
    TakenNone(lines, seen);
    while index < |lines|
      invariant index == consumed
      invariant ReadTo(lines, seen, budget, index, taken, rest)
    {
      var line := Trim(lines[index]);
      if Skipped(line) {
        ReadSkipped(lines, seen, budget, index, taken, rest);
        consumed := index + 1;
      } else {
        if rest == 0 {
          ReadStops(lines, seen, budget, index, taken, rest);
          stop := index;
          return;
        }
        ReadEntry(lines, seen, budget, index, taken, rest);
        taken := taken + [line];
        consumed := index + 1;
        rest := rest - 1;
      }
      index := index + 1;
    }
    ReadStops(lines, seen, budget, index, taken, rest);
  }

  method CountEntries(lines: seq<string>) returns (n: nat)
    ensures n == |Entries(lines)|
  {
    n := 0;
    for i := 0 to |lines|
      invariant n == |Entries(lines[..i])|
    {
      assert lines[..i + 1][..i] == lines[..i];
      if Entry(lines[i]) {
        n := n + 1;
      }
    }
    assert lines[..|lines|] == lines;
  }

  lemma {:induction false} PageCounts(page: Page, st: State, budget: nat)
    requires page.text.Some?
    ensures var lines, seen := Lines(page.text.value), Start(page.text.value, st, page.name);
            var stop := Stop(lines, seen, budget);
            && |Entries(lines[seen..stop])| == Min(budget, |Unread(page, st)|)
            && |Entries(lines[stop..])| == |Unread(page, st)| - Min(budget, |Unread(page, st)|)
  {
    var lines, seen := Lines(page.text.value), Start(page.text.value, st, page.name);
    var stop := Stop(lines, seen, budget);
    StopTakes(lines, seen, budget);
    EntriesSplit(lines, seen, stop);
  }

  // What one page adds to the delta under construction.
  method AddPage(page: Page, st: State, budget: nat) returns (add: seq<Portion>, rest: nat, behind: nat)
    ensures add == PageDelta(page, st, budget)
    ensures rest == budget - Min(budget, |Unread(page, st)|)
    ensures behind == |Unread(page, st)| - Min(budget, |Unread(page, st)|)
  {
    add, rest, behind := [], budget, 0;
    if page.text.None? {
      return;
    }
    var physical, seen := Lines(page.text.value), st.CursorAt(page.name);
    ghost var start := Start(page.text.value, st, page.name);
    assert physical[|physical|..] == [];
    if seen > |physical| {
      assert start == |physical| && physical[start..Stop(physical, start, budget)] == [];
      return;
    }
    var recorded := st.WitnessAt(page.name);
    var finished := seen == |physical|;
    if finished && recorded.None? {
      assert start == |physical| && physical[start..Stop(physical, start, budget)] == [];
      return;
    }
    if seen > 0 && Some(Material(physical[..seen])) != recorded {
      seen := 0;
    } else if finished {
      assert start == |physical| && physical[start..Stop(physical, start, budget)] == [];
      return;
    }
    assert seen == start;
    var taken, consumed, stop, left := ReadPage(physical, seen, budget);
    behind := CountEntries(physical[stop..]);
    PageCounts(page, st, budget);
    rest := left;
    if taken != [] {
      add := [Portion(page.name, taken, consumed, Material(physical[..consumed]))];
    }
  }

  method ReadJournalDelta(pages: seq<Page>, st: State, max: nat) returns (files: seq<Portion>, leftBehind: nat)
    ensures files == DeltaFiles(pages, st, max)
    ensures leftBehind == Behind(|AllUnread(pages, st)|, max)
  {
    files, leftBehind := [], 0;
    var budget := max;
    for k := 0 to |pages|
      invariant files == DeltaFiles(pages[..k], st, max)
      invariant budget == Left(pages[..k], st, max)
      invariant leftBehind == Behind(|AllUnread(pages[..k], st)|, max)
    {
      assert pages[..k + 1][..k] == pages[..k];
      var add, rest, behind := AddPage(pages[k], st, budget);
      files, budget, leftBehind := files + add, rest, leftBehind + behind;
    }
    assert pages[..|pages|] == pages;
  }

  // ---------------------------------------------------------- committing

  function Cursors(files: seq<Portion>): map<string, nat> {
    if files == [] then map[] else
      var f := files[|files| - 1];
      Cursors(files[..|files| - 1])[f.path := f.cursorAfter]
  }

  function Witnesses(files: seq<Portion>): map<string, string> {
    if files == [] then map[] else
      var f := files[|files| - 1];
      Witnesses(files[..|files| - 1])[f.path := f.witnessAfter]
  }

  // The state with a delta consumed: cursors merge, a page that advances loses its old witness first.
  function Advanced(st: State, files: seq<Portion>): State {
    State(st.cursor + Cursors(files), (st.seals - Cursors(files).Keys) + Witnesses(files))
  }

  function Put(st: State, f: Portion): State {
    State(st.cursor[f.path := f.cursorAfter], st.seals[f.path := f.witnessAfter])
  }

  lemma {:induction false} SameKeys(files: seq<Portion>)
    ensures Cursors(files).Keys == Witnesses(files).Keys
  {
    if files != [] { SameKeys(files[..|files| - 1]); }
  }

  lemma {:induction false} CursorOneMore(st: State, files: seq<Portion>, f: Portion)
    ensures st.cursor + Cursors(files + [f]) == (st.cursor + Cursors(files))[f.path := f.cursorAfter]
  {
    assert (files + [f])[..|files|] == files;
  }

  lemma {:induction false} SealOneMore(st: State, files: seq<Portion>, f: Portion)
    ensures (st.seals - Cursors(files + [f]).Keys) + Witnesses(files + [f])
         == ((st.seals - Cursors(files).Keys) + Witnesses(files))[f.path := f.witnessAfter]
  {
    assert (files + [f])[..|files|] == files;
    SameKeys(files);
    MergeOneMore(st.seals, Witnesses(files), f.path, f.witnessAfter);
  }

  lemma {:induction false} MergeOneMore(m: map<string, string>, w: map<string, string>, key: string, value: string)
    ensures (m - (w.Keys + {key})) + w[key := value] == ((m - w.Keys) + w)[key := value]
  {
  }

  lemma {:induction false} AdvancedOneMore(st: State, files: seq<Portion>, f: Portion)
    ensures Advanced(st, files + [f]) == Put(Advanced(st, files), f)
  {
    CursorOneMore(st, files, f);
    SealOneMore(st, files, f);
  }

  lemma {:induction false} AdvancedNone(st: State)
    ensures Advanced(st, []) == st
  {
    assert st.cursor + map[] == st.cursor;
    assert st.seals - {} + map[] == st.seals;
  }

  predicate Distinct(pages: seq<Page>) {
    forall i: nat, j: nat :: i < j < |pages| ==> pages[i].name != pages[j].name
  }

  predicate SameAt(a: State, b: State, name: string) {
    a.CursorAt(name) == b.CursorAt(name) && a.WitnessAt(name) == b.WitnessAt(name)
  }

  lemma {:induction false} AdvancedPage(st: State, files: seq<Portion>, page: Page, st0: State, budget: nat)
    requires SameAt(st0, Advanced(st, files), page.name)
    ensures Recorded(page, st0, budget, Advanced(st, files + PageDelta(page, st0, budget)))
  {
    var d := PageDelta(page, st0, budget);
    if d == [] {
      assert files + d == files;
    } else {
      assert d == [d[0]];
      AdvancedOneMore(st, files, d[0]);
    }
  }

  // `after` holds what the page's share of a delta says.
  predicate Recorded(page: Page, st: State, budget: nat, after: State) {
    var d := PageDelta(page, st, budget);
    if d == [] then SameAt(after, st, page.name)
    else after.CursorAt(page.name) == d[0].cursorAfter && after.WitnessAt(page.name) == Some(d[0].witnessAfter)
  }

  // One page after its commit: what was taken is no longer unread, the rest still is.
  lemma {:induction false} PageAfterCommit(page: Page, st: State, budget: nat, after: State)
    requires Recorded(page, st, budget, after)
    ensures Unread(page, after) == Unread(page, st)[Min(budget, |Unread(page, st)|)..]
  {
    if page.text.Some? {
      var text := page.text.value;
      var lines, seen := Lines(text), Start(text, st, page.name);
      var stop := Stop(lines, seen, budget);
      StopTakes(lines, seen, budget);
      EntriesSplit(lines, seen, stop);
      var d := PageDelta(page, st, budget);
      if d != [] {
        assert d[0].cursorAfter == stop && d[0].witnessAfter == Material(lines[..stop]);
        assert Start(text, after, page.name) == stop;
      }
    }
  }

  lemma {:induction false} UnreadFrame(pages: seq<Page>, a: State, b: State)
    requires forall i: nat :: i < |pages| ==> SameAt(a, b, pages[i].name)
    ensures AllUnread(pages, a) == AllUnread(pages, b)
  {
    if pages != [] {
      var n := |pages| - 1;
      assert forall i: nat :: i < n ==> pages[..n][i] == pages[i];
      UnreadFrame(pages[..n], a, b);
    }
  }

  // Names a delta does not mention keep their cursor and witness.
  lemma {:induction false} DeltaTouchesOnlyPages(pages: seq<Page>, st: State, max: nat, name: string)
    requires forall i: nat :: i < |pages| ==> pages[i].name != name
    ensures SameAt(Advanced(st, DeltaFiles(pages, st, max)), st, name)
  {
    if pages == [] {
      AdvancedNone(st);
    } else {
      var n := |pages| - 1;
      assert forall i: nat :: i < n ==> pages[..n][i] == pages[i];
      DeltaTouchesOnlyPages(pages[..n], st, max, name);
      DeltaGrows(pages, st, max, name);
    }
  }

  lemma {:induction false} DeltaGrows(pages: seq<Page>, st: State, max: nat, name: string)
    requires pages != [] && pages[|pages| - 1].name != name
    ensures SameAt(Advanced(st, DeltaFiles(pages, st, max)), Advanced(st, DeltaFiles(pages[..|pages| - 1], st, max)), name)
  {
    var n := |pages| - 1;
    var files, d := DeltaFiles(pages[..n], st, max), PageDelta(pages[n], st, Left(pages[..n], st, max));
    if d == [] {
      assert files + d == files;
    } else {
      assert d == [d[0]];
      AdvancedOneMore(st, files, d[0]);
    }
  }

  lemma {:induction false} FrontAfterCommit(pages: seq<Page>, st: State, max: nat)
    requires Distinct(pages) && pages != []
    ensures var front := pages[..|pages| - 1];
            AllUnread(front, Advanced(st, DeltaFiles(pages, st, max))) == AllUnread(front, Advanced(st, DeltaFiles(front, st, max)))
  {
    var n := |pages| - 1;
    var before, after := Advanced(st, DeltaFiles(pages[..n], st, max)), Advanced(st, DeltaFiles(pages, st, max));
    forall i: nat | i < n
      ensures SameAt(after, before, pages[..n][i].name)
    {
      DeltaGrows(pages, st, max, pages[i].name);
    }
    UnreadFrame(pages[..n], after, before);
  }

  lemma {:induction false} LastAfterCommit(pages: seq<Page>, st: State, max: nat)
    requires Distinct(pages) && pages != []
    ensures var b, last := Left(pages[..|pages| - 1], st, max), Unread(pages[|pages| - 1], st);
            Unread(pages[|pages| - 1], Advanced(st, DeltaFiles(pages, st, max))) == last[Min(b, |last|)..]
  {
    var n := |pages| - 1;
    var b := Left(pages[..n], st, max);
    DeltaTouchesOnlyPages(pages[..n], st, max, pages[n].name);
    AdvancedPage(st, DeltaFiles(pages[..n], st, max), pages[n], st, b);
    PageAfterCommit(pages[n], st, b, Advanced(st, DeltaFiles(pages, st, max)));
  }

  predicate Past(before: seq<string>, after: seq<string>, max: nat) {
    after == before[Min(max, |before|)..]
  }

  lemma {:induction false} PastJoins(a: seq<string>, b: seq<string>, a': seq<string>, b': seq<string>, max: nat)
    requires Past(a, a', max) && Past(b, b', max - Min(max, |a|))
    ensures Past(a + b, a' + b', max)
  {
    SuffixOfConcat(a, b, max);
  }

  // What is unread before and after, page by page.
  lemma {:induction false} UnreadAssembles(pages: seq<Page>, st: State, after: State, max: nat)
    requires pages != []
    ensures var front, last := pages[..|pages| - 1], pages[|pages| - 1];
            Past(AllUnread(front, st), AllUnread(front, after), max)
            && Past(Unread(last, st), Unread(last, after), Left(front, st, max)) ==>
              Past(AllUnread(pages, st), AllUnread(pages, after), max)
  {
    var front, last := pages[..|pages| - 1], pages[|pages| - 1];
    if Past(AllUnread(front, st), AllUnread(front, after), max)
       && Past(Unread(last, st), Unread(last, after), Left(front, st, max)) {
      PastJoins(AllUnread(front, st), Unread(last, st), AllUnread(front, after), Unread(last, after), max);
    }
  }

  // Committing a pass removes exactly what it delivered from the front of what is unread.
  lemma {:induction false} CommitConsumes(pages: seq<Page>, st: State, max: nat)
    requires Distinct(pages)
    ensures AllUnread(pages, Advanced(st, DeltaFiles(pages, st, max)))
         == AllUnread(pages, st)[Min(max, |AllUnread(pages, st)|)..]
  {
    if pages != [] {
      CommitConsumes(pages[..|pages| - 1], st, max);
      FrontAfterCommit(pages, st, max);
      LastAfterCommit(pages, st, max);
      UnreadAssembles(pages, st, Advanced(st, DeltaFiles(pages, st, max)), max);
    }
  }

  lemma {:induction false} SuffixOfConcat(a: seq<string>, b: seq<string>, max: nat)
    ensures (a + b)[Min(max, |a + b|)..] == a[Min(max, |a|)..] + b[Min(max - Min(max, |a|), |b|)..]
  {
  }

  lemma {:induction false} RecordedFrame(page: Page, st: State, budget: nat, a: State, b: State)
    requires Recorded(page, st, budget, a) && SameAt(a, b, page.name)
    ensures Recorded(page, st, budget, b)
  {
  }

  lemma {:induction false} CommitRecordsLastPage(pages: seq<Page>, st: State, max: nat)
    requires Distinct(pages) && pages != []
    ensures var n := |pages| - 1;
            Recorded(pages[n], st, Left(pages[..n], st, max), Advanced(st, DeltaFiles(pages, st, max)))
  {
    var n := |pages| - 1;
    var front := pages[..n];
    DeltaTouchesOnlyPages(front, st, max, pages[n].name);
    AdvancedPage(st, DeltaFiles(front, st, max), pages[n], st, Left(front, st, max));
  }

  lemma {:induction false} LaterPageKeepsRecord(pages: seq<Page>, st: State, max: nat, page: Page, budget: nat)
    requires pages != [] && pages[|pages| - 1].name != page.name
    ensures var before := Advanced(st, DeltaFiles(pages[..|pages| - 1], st, max));
            Recorded(page, st, budget, before) ==> Recorded(page, st, budget, Advanced(st, DeltaFiles(pages, st, max)))
  {
    DeltaGrows(pages, st, max, page.name);
    var before := Advanced(st, DeltaFiles(pages[..|pages| - 1], st, max));
    if Recorded(page, st, budget, before) {
      RecordedFrame(page, st, budget, before, Advanced(st, DeltaFiles(pages, st, max)));
    }
  }

  lemma {:induction false} SamePageInFront(pages: seq<Page>, k: nat)
    requires Distinct(pages) && k < |pages| - 1
    ensures pages[..|pages| - 1][k] == pages[k] && pages[..|pages| - 1][..k] == pages[..k]
    ensures Distinct(pages[..|pages| - 1]) && pages[|pages| - 1].name != pages[k].name
  {
  }

  // A commit acts on each page by itself, with the budget the earlier pages left it.
  lemma {:induction false} CommitRecordsEachPage(pages: seq<Page>, st: State, max: nat, k: nat)
    requires Distinct(pages) && k < |pages|
    ensures Recorded(pages[k], st, Left(pages[..k], st, max), Advanced(st, DeltaFiles(pages, st, max)))
  {
    if k < |pages| - 1 {
      SamePageInFront(pages, k);
      CommitRecordsEachPage(pages[..|pages| - 1], st, max, k);
      LaterPageKeepsRecord(pages, st, max, pages[k], Left(pages[..k], st, max));
    } else {
      CommitRecordsLastPage(pages, st, max);
    }
  }

  // One committed pass.
  function Pass(pages: seq<Page>, st: State, max: nat): State {
    Advanced(st, DeltaFiles(pages, st, max))
  }

  function PassGives(pages: seq<Page>, st: State, max: nat): seq<string> {
    Given(DeltaFiles(pages, st, max))
  }

  lemma {:induction false} PassSplitsUnread(pages: seq<Page>, st: State, max: nat)
    requires Distinct(pages)
    ensures PassGives(pages, st, max) + AllUnread(pages, Pass(pages, st, max)) == AllUnread(pages, st)
    ensures |AllUnread(pages, Pass(pages, st, max))| == Behind(|AllUnread(pages, st)|, max)
  {
    DeltaIsFirstUnread(pages, st, max);
    CommitConsumes(pages, st, max);
  }

  // Passes over quiet files, and what they hand over.
  function Passes(pages: seq<Page>, st: State, max: nat, n: nat): State
    decreases n
  {
    if n == 0 then st else Passes(pages, Pass(pages, st, max), max, n - 1)
  }

  function Delivered(pages: seq<Page>, st: State, max: nat, n: nat): seq<string>
    decreases n
  {
    if n == 0 then [] else PassGives(pages, st, max) + Delivered(pages, Pass(pages, st, max), max, n - 1)
  }

  lemma {:induction false} Assoc(a: seq<string>, b: seq<string>, c: seq<string>)
    ensures (a + b) + c == a + (b + c)
  {
  }

  // Together they deliver the unread entries once each and in order.
  lemma {:induction false} PassesDeliverInOrder(pages: seq<Page>, st: State, max: nat, n: nat)
    requires Distinct(pages)
    ensures Delivered(pages, st, max, n) + AllUnread(pages, Passes(pages, st, max, n)) == AllUnread(pages, st)
    decreases n
  {
    if n == 0 {
      assert [] + AllUnread(pages, st) == AllUnread(pages, st);
    } else {
      var next := Pass(pages, st, max);
      PassesDeliverInOrder(pages, next, max, n - 1);
      PassSplitsUnread(pages, st, max);
      Assoc(PassGives(pages, st, max), Delivered(pages, next, max, n - 1), AllUnread(pages, Passes(pages, next, max, n - 1)));
    }
  }

  lemma {:induction false} PassShrinks(pages: seq<Page>, st: State, max: nat, n: nat)
    requires Distinct(pages) && max > 0 && n > 0
    ensures n >= |AllUnread(pages, st)| ==> n - 1 >= |AllUnread(pages, Pass(pages, st, max))|
  {
    PassSplitsUnread(pages, st, max);
  }

  lemma {:induction false} PassesLeave(pages: seq<Page>, st: State, max: nat, n: nat)
    requires Distinct(pages) && max > 0
    ensures n >= |AllUnread(pages, st)| ==> |AllUnread(pages, Passes(pages, st, max, n))| == 0
    decreases n
  {
    if n > 0 {
      PassShrinks(pages, st, max, n);
      PassesLeave(pages, Pass(pages, st, max), max, n - 1);
    }
  }

  // With a positive ceiling they end: no more passes than entries, then an empty delta.
  lemma {:induction false} PassesEnd(pages: seq<Page>, st: State, max: nat, n: nat)
    requires Distinct(pages) && max > 0
    ensures n >= |AllUnread(pages, st)| ==> AllUnread(pages, Passes(pages, st, max, n)) == []
    ensures n >= |AllUnread(pages, st)| ==> DeltaFiles(pages, Passes(pages, st, max, n), max) == []
  {
    PassesLeave(pages, st, max, n);
    if n >= |AllUnread(pages, st)| {
      NothingUnreadNoDelta(pages, Passes(pages, st, max, n), max);
    }
  }

  lemma {:induction false} NothingUnreadNoDelta(pages: seq<Page>, st: State, max: nat)
    requires AllUnread(pages, st) == []
    ensures DeltaFiles(pages, st, max) == []
  {
    if pages != [] {
      var n := |pages| - 1;
      NothingUnreadNoDelta(pages[..n], st, max);
      if pages[n].text.Some? {
        PageCounts(pages[n], st, Left(pages[..n], st, max));
      }
    }
  }
}
