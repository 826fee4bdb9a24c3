// Filling a project's prompt block with whole pages under a ceiling, each fenced so that nothing in it
// can close its fence.
module PromptPages {
  import opened JournalText
  import opened Options

  const PAGES_MAX_CHARS: nat := 6000
  const MIN_FENCE_BACKTICKS: nat := 4

  // ---------------------------------------------------------- fences

  // Length of the run of backticks a text ends with, and of the longest run in it.
  function Run(s: string): (r: nat)
    ensures r <= |s|
  {
    if s != "" && s[|s| - 1] == '`' then Run(s[..|s| - 1]) + 1 else 0
  }

  function Longest(s: string): nat {
    if s == "" then 0 else
      var before := Longest(s[..|s| - 1]);
      if Run(s) > before then Run(s) else before
  }

  function Ticks(n: nat): (r: string)
    ensures |r| == n && forall i :: 0 <= i < n ==> r[i] == '`'
  {
    if n == 0 then "" else Ticks(n - 1) + "`"
  }

  function FenceLength(text: string): nat {
    if Longest(text) + 1 > MIN_FENCE_BACKTICKS then Longest(text) + 1 else MIN_FENCE_BACKTICKS
  }

  function FenceFor(text: string): string {
    Ticks(FenceLength(text))
  }

  // A closing fence of at least n backticks: up to three spaces, the backticks, then blanks (CommonMark
  // 0.31.2, section 4.5). Its backticks are line[from..to].
  predicate ClosesAt(line: string, n: nat, from: nat, to: nat) {
    && from <= 3 && from + n <= to <= |line|
    && (forall i :: 0 <= i < from ==> line[i] == ' ')
    && (forall i :: from <= i < to ==> line[i] == '`')
    && (forall i :: to <= i < |line| ==> line[i] == ' ' || line[i] == '\t')
  }

  ghost predicate Closes(line: string, n: nat) {
    exists from: nat, to: nat :: ClosesAt(line, n, from, to)
  }

  lemma {:induction false} RunIs(s: string)
    ensures forall i :: |s| - Run(s) <= i < |s| ==> s[i] == '`'
  {
    if s != "" && s[|s| - 1] == '`' { RunIs(s[..|s| - 1]); }
  }

  predicate RunAt(s: string, i: nat, n: nat) {
    i + n <= |s| && forall j :: i <= j < i + n ==> s[j] == '`'
  }

  lemma {:induction false} LongestIsThere(s: string) returns (i: nat)
    ensures RunAt(s, i, Longest(s))
  {
    if s == "" {
      i := 0;
    } else if Run(s) > Longest(s[..|s| - 1]) {
      RunIs(s);
      i := |s| - Run(s);
    } else {
      var front := s[..|s| - 1];
      i := LongestIsThere(front);
      assert forall j :: i <= j < i + Longest(s) ==> s[j] == front[j];
    }
  }

  // A fence is no longer than it must be: four backticks, or one more than the run of the text at i.
  lemma {:induction false} FenceIsShortest(text: string) returns (i: nat)
    ensures var n := FenceLength(text); n == 4 || (n > 4 && RunAt(text, i, n - 1))
  {
    i := LongestIsThere(text);
  }

  lemma {:induction false} RunReaches(s: string, from: nat)
    requires from <= |s| && forall i :: from <= i < |s| ==> s[i] == '`'
    ensures Run(s) >= |s| - from
  {
    if from < |s| { RunReaches(s[..|s| - 1], from); }
  }

  lemma {:induction false} RunIsInLongest(s: string, to: nat)
    requires to <= |s|
    ensures Run(s[..to]) <= Longest(s)
  {
    if to == |s| {
      assert s[..to] == s;
    } else {
      RunIsInLongest(s[..|s| - 1], to);
      assert s[..|s| - 1][..to] == s[..to];
    }
  }

  // A line whose longest run is shorter than the fence does not close it.
  lemma {:induction false} ShortRunsDoNotClose(line: string, n: nat)
    requires Longest(line) < n
    ensures !Closes(line, n)
  {
    forall from: nat, to: nat | ClosesAt(line, n, from, to)
      ensures false
    {
      RunReaches(line[..to], from);
      RunIsInLongest(line, to);
    }
  }

  lemma {:induction false} LongestSnoc(s: string, c: char)
    ensures Run(s + [c]) == if c == '`' then Run(s) + 1 else 0
    ensures Longest(s + [c]) == if Run(s + [c]) > Longest(s) then Run(s + [c]) else Longest(s)
  {
    assert (s + [c])[..|s + [c]| - 1] == s;
  }

  predicate RunsWithin(lines: seq<string>, n: nat) {
    forall k: nat :: k < |lines| ==> Longest(lines[k]) <= n
  }

  lemma {:induction false} OneMoreLine(lines: seq<string>, n: nat, m: nat)
    requires RunsWithin(lines, n) && n <= m
    ensures RunsWithin(lines + [""], m)
  {
  }

  lemma {:induction false} OneMoreChar(lines: seq<string>, n: nat, m: nat, c: char)
    requires lines != [] && RunsWithin(lines, n) && n <= m
    requires Longest(lines[|lines| - 1] + [c]) <= m
    ensures RunsWithin(Longer(lines, c), m)
  {
    var more := Longer(lines, c);
    forall k: nat | k < |more| ensures Longest(more[k]) <= m {
      if k < |lines| - 1 { assert more[k] == lines[k]; }
    }
  }

  // No line of a text has a longer run than the text.
  lemma {:induction false} LinesHaveShorterRuns(s: string)
    ensures RunsWithin(Split(s), Longest(s)) && Run(Split(s)[|Split(s)| - 1]) == Run(s)
  {
    if s != "" {
      var front, c := s[..|s| - 1], s[|s| - 1];
      var r := Split(front);
      LinesHaveShorterRuns(front);
      assert s == front + [c];
      LongestSnoc(front, c);
      LongestSnoc(r[|r| - 1], c);
      if c == '\n' {
        OneMoreLine(r, Longest(front), Longest(s));
      } else {
        OneMoreChar(r, Longest(front), Longest(s), c);
      }
    }
  }

  // ---------------------------------------------------------- a fenced block reads back

  function Fenced(text: string): string {
    FenceFor(text) + "markdown\n" + text + "\n" + FenceFor(text)
  }

  function LeadingTicks(line: string): (r: nat)
    ensures r <= |line|
  {
    if line != "" && line[0] == '`' then LeadingTicks(line[1..]) + 1 else 0
  }

  // The lines up to the first closing fence; all of them when there is none.
  ghost function UntilClosed(lines: seq<string>, n: nat): seq<string> {
    if lines == [] || Closes(lines[0], n) then [] else [lines[0]] + UntilClosed(lines[1..], n)
  }

  // What a reader takes as the content of the block that opens on the first line.
  ghost function ReadFenced(source: string): string {
    var lines := Split(source);
    Join(UntilClosed(lines[1..], LeadingTicks(lines[0])))
  }

  lemma {:induction false} LeadingTicksOf(n: nat, rest: string)
    requires rest == "" || rest[0] != '`'
    ensures LeadingTicks(Ticks(n) + rest) == n
  {
    if n == 0 {
      assert Ticks(0) + rest == rest;
    } else {
      var line := Ticks(n) + rest;
      TicksFront(n);
      assert line[1..] == Ticks(n - 1) + rest;
      LeadingTicksOf(n - 1, rest);
    }
  }

  lemma {:induction false} TicksFront(n: nat)
    requires n > 0
    ensures Ticks(n)[1..] == Ticks(n - 1)
  {
    SameTicks(Ticks(n)[1..], Ticks(n - 1));
  }

  lemma {:induction false} SameTicks(a: string, b: string)
    requires |a| == |b| && (forall i :: 0 <= i < |a| ==> a[i] == '`') && (forall i :: 0 <= i < |b| ==> b[i] == '`')
    ensures a == b
  {
  }

  lemma {:induction false} UntilClosedStops(lines: seq<string>, closing: string, rest: seq<string>, n: nat)
    requires forall k: nat :: k < |lines| ==> !Closes(lines[k], n)
    requires Closes(closing, n)
    ensures UntilClosed(lines + [closing] + rest, n) == lines
  {
    var all := lines + [closing] + rest;
    if lines == [] {
      assert all[0] == closing;
    } else {
      assert all[1..] == lines[1..] + [closing] + rest;
      UntilClosedStops(lines[1..], closing, rest, n);
    }
  }

  lemma {:induction false} FenceCloses(n: nat)
    ensures Closes(Ticks(n), n)
  {
    assert ClosesAt(Ticks(n), n, 0, n);
  }

  lemma {:induction false} AddLine(source: string, lines: seq<string>, more: string)
    requires Split(source) == lines
    ensures Split(source + "\n" + more) == lines + Split(more)
  {
    SplitAtNewline(source, more);
  }

  lemma {:induction false} LinesOfBlock(opening: string, text: string, f: string, rest: string)
    requires NoNewline(opening) && NoNewline(f)
    ensures Split(opening + "\n" + text + "\n" + f + "\n" + rest) == [opening] + Split(text) + [f] + Split(rest)
  {
    SplitOneLine(f);
    SplitOneLine(opening);
    AddLine(opening, [opening], text);
    AddLine(opening + "\n" + text, [opening] + Split(text), f);
    AddLine(opening + "\n" + text + "\n" + f, [opening] + Split(text) + [f], rest);
  }

  lemma {:induction false} FencedIs(f: string, text: string)
    ensures f + "markdown\n" + text + "\n" + f == f + "markdown" + "\n" + text + "\n" + f
  {
    assert "markdown" + "\n" == "markdown\n";
    assert f + ("markdown" + "\n") == f + "markdown" + "\n";
  }

  lemma {:induction false} FencedLines(text: string, rest: string)
    ensures var f := FenceFor(text);
            Split(Fenced(text) + "\n" + rest) == [f + "markdown"] + Split(text) + [f] + Split(rest)
  {
    var f := FenceFor(text);
    LinesOfBlock(f + "markdown", text, f, rest);
    FencedIs(f, text);
  }

  // Whatever follows, the block reads back as its text: no line of it closes the fence.
  lemma {:induction false} FencedBlockReadsBack(text: string, rest: string)
    ensures ReadFenced(Fenced(text) + "\n" + rest) == text
  {
    var f, n := FenceFor(text), FenceLength(text);
    FencedLines(text, rest);
    var lines := Split(Fenced(text) + "\n" + rest);
    assert lines[1..] == Split(text) + [f] + Split(rest);
    LeadingTicksOf(n, "markdown");
    forall k: nat | k < |Split(text)|
      ensures !Closes(Split(text)[k], n)
    {
      LinesHaveShorterRuns(text);
      ShortRunsDoNotClose(Split(text)[k], n);
    }
    FenceCloses(n);
    UntilClosedStops(Split(text), f, Split(rest), n);
    JoinSplit(text);
  }

  // ---------------------------------------------------------- filling the block

  // A page in map order; `text` is its stripped text, None when it cannot be read.
  datatype Page = Page(rel: string, text: Option<string>)

  function Block(rel: string, text: string): string {
    "`" + rel + "`\n\n" + Fenced(text)
  }

  // How many pages are not here, in words; the ceiling is measured with the same words.
  type Wording = nat -> string

  function SourceNotice(count: nat): string {
    "[" + Decimal(count) + " more page(s) are not here — the map lists them, and `read_file` opens them]"
  }

  // The blocks with a blank line between each two.
  function Joined(blocks: seq<string>): string {
    if blocks == [] then "" else if |blocks| == 1 then blocks[0]
    else Joined(blocks[..|blocks| - 1]) + "\n\n" + blocks[|blocks| - 1]
  }

  lemma {:induction false} JoinedOneMore(blocks: seq<string>, block: string)
    ensures |Joined(blocks + [block])| == |Joined(blocks)| + |block| + if blocks != [] then 2 else 0
  {
    assert (blocks + [block])[..|blocks|] == blocks;
  }

  predicate HasText(p: Page) {
    p.text.Some? && p.text.value != ""
  }

  function BlockOf(p: Page): string {
    if HasText(p) then Block(p.rel, p.text.value) else ""
  }

  // The block of each page, empty for a page without text.
  function Blocks(pages: seq<Page>): (r: seq<string>)
    ensures |r| == |pages|
  {
    seq(|pages|, i requires 0 <= i < |pages| => BlockOf(pages[i]))
  }

  predicate FitsAfter(blocks: seq<string>, b: string) {
    b != "" && |Joined(blocks + [b])| <= PAGES_MAX_CHARS
  }

  function Added(blocks: seq<string>, b: string): seq<string> {
    if FitsAfter(blocks, b) then blocks + [b] else blocks
  }

  // A block is taken whole when what is sent then still fits; otherwise the next one is tried.
  function Filled(bs: seq<string>): seq<string> {
    if bs == [] then [] else
      var b := bs[|bs| - 1];
      var blocks := Filled(bs[..|bs| - 1]);
      Added(blocks, b)
  }

  function WithNotice(blocks: seq<string>, n: nat, notice: Wording): seq<string>
    requires |blocks| <= n
  {
    if |blocks| < n then blocks + [notice(n - |blocks|)] else blocks
  }

  // The last blocks make room for the notice that counts what is left out of n pages.
  function Trimmed(blocks: seq<string>, n: nat, notice: Wording): (r: seq<string>)
    requires |blocks| <= n
    ensures r <= blocks
  {
    if blocks == [] || |blocks| == n || |Joined(WithNotice(blocks, n, notice))| <= PAGES_MAX_CHARS then blocks
    else Trimmed(blocks[..|blocks| - 1], n, notice)
  }

  lemma {:induction false} FilledBounds(bs: seq<string>)
    ensures |Filled(bs)| <= |bs|
    ensures |Joined(Filled(bs))| <= PAGES_MAX_CHARS
  {
    if bs != [] { FilledBounds(bs[..|bs| - 1]); }
  }

  lemma {:induction false} BlockLength(p: Page)
    requires HasText(p)
    ensures |BlockOf(p)| >= |p.rel| + 23
  {
  }

  datatype Result = Result(text: string, here: nat, total: nat)

  function Sent(shown: seq<string>, n: nat, notice: Wording): Result
    requires |shown| <= n
  {
    Result(Joined(WithNotice(shown, n, notice)), |shown|, n)
  }

  function Packed(pages: seq<Page>, notice: Wording): (r: Result) {
    if pages == [] then Result("", 0, 0) else
      FilledBounds(Blocks(pages));
      var blocks := Trimmed(Filled(Blocks(pages)), |pages|, notice);
      Sent(blocks, |pages|, notice)
  }

  // One page against the running total; the first test spares reading a page that cannot fit.
  method AddPage(blocks: seq<string>, total: nat, p: Page) returns (blocks': seq<string>, total': nat)
    requires total == |Joined(blocks)|
    ensures blocks' == Added(blocks, BlockOf(p)) && total' == |Joined(blocks')|
  {
    blocks', total' := blocks, total;
    var separator := if blocks != [] then 2 else 0;
    if HasText(p) {
      BlockLength(p);
      JoinedOneMore(blocks, BlockOf(p));
    }
    if total + |p.rel| + 23 + separator > PAGES_MAX_CHARS || !HasText(p) {
      return;
    }
    var block := Block(p.rel, p.text.value);
    var cost := |block| + separator;
    if total + cost <= PAGES_MAX_CHARS {
      total', blocks' := total + cost, blocks + [block];
    }
  }

  lemma {:induction false} FilledOneMore(bs: seq<string>, i: nat)
    requires i < |bs|
    ensures Filled(bs[..i + 1]) == Added(Filled(bs[..i]), bs[i])
  {
    assert bs[..i + 1][..i] == bs[..i];
  }

  // The first loop.
  method FillBlocks(pages: seq<Page>) returns (blocks: seq<string>, total: nat, leftOut: nat)
    ensures blocks == Filled(Blocks(pages))
    ensures total == |Joined(blocks)| && leftOut + |blocks| == |pages|
  {
    blocks, total, leftOut := [], 0, 0;
    ghost var bs := Blocks(pages);
    for i := 0 to |pages|
      invariant blocks == Filled(bs[..i])
      invariant total == |Joined(blocks)| && leftOut + |blocks| == i
    {
      FilledOneMore(bs, i);
      var before := |blocks|;
      blocks, total := AddPage(blocks, total, pages[i]);
      if |blocks| == before {
        leftOut := leftOut + 1;
      }
    }
    assert bs[..|pages|] == bs;
  }

  // One test of the second loop: the notice fits and it ends, or the last block goes.
  lemma {:induction false} TrimStep(blocks: seq<string>, n: nat, notice: Wording)
    requires blocks != [] && |blocks| < n
    ensures var front, last := blocks[..|blocks| - 1], blocks[|blocks| - 1];
            && |Joined(front)| == |Joined(blocks)| - (|last| + if front != [] then 2 else 0)
            && Trimmed(blocks, n, notice)
            == if |Joined(blocks)| + 2 + |notice(n - |blocks|)| <= PAGES_MAX_CHARS then blocks else Trimmed(front, n, notice)
  {
    var front, last := blocks[..|blocks| - 1], blocks[|blocks| - 1];
    assert blocks == front + [last];
    JoinedOneMore(front, last);
    JoinedOneMore(blocks, notice(n - |blocks|));
  }

  method MakeRoom(blocks0: seq<string>, total0: nat, leftOut0: nat, ghost n: nat, notice: Wording)
    returns (blocks: seq<string>, leftOut: nat)
    requires total0 == |Joined(blocks0)| && leftOut0 + |blocks0| == n
    ensures blocks == Trimmed(blocks0, n, notice) && leftOut + |blocks| == n
  {
    ghost var target := Trimmed(blocks0, n, notice);
    var total := total0;
    blocks, leftOut := blocks0, leftOut0;
    while leftOut > 0 && blocks != []
      invariant leftOut + |blocks| == n
      invariant total == |Joined(blocks)|
      invariant Trimmed(blocks, n, notice) == target
      decreases |blocks|
    {
      TrimStep(blocks, n, notice);
      if total + 2 + |notice(leftOut)| <= PAGES_MAX_CHARS {
        return;
      }
      var dropped := blocks[|blocks| - 1];
      blocks := blocks[..|blocks| - 1];
      total := total - (|dropped| + if blocks != [] then 2 else 0);
      leftOut := leftOut + 1;
    }
  }

  method Send(shown: seq<string>, leftOut: nat, n: nat, notice: Wording) returns (r: Result)
    requires leftOut + |shown| == n
    ensures r == Sent(shown, n, notice)
  {
    var blocks := shown;
    if leftOut > 0 {
      blocks := blocks + [notice(leftOut)];
    }
    r := Result(Joined(blocks), |shown|, n);
  }

  method ReadProjectPages(pages: seq<Page>, notice: Wording) returns (r: Result)
    ensures r == Packed(pages, notice)
  {
    if pages == [] {
      return Result("", 0, 0);
    }
    var filled, total, leftOut := FillBlocks(pages);
    var shown;
    shown, leftOut := MakeRoom(filled, total, leftOut, |pages|, notice);
    r := Send(shown, leftOut, |pages|, notice);
  }

  // ---------------------------------------------------------- what is sent

  lemma {:induction false} TrimmedFits(blocks: seq<string>, n: nat, notice: Wording)
    requires |blocks| <= n && |Joined(blocks)| <= PAGES_MAX_CHARS
    ensures var r := Trimmed(blocks, n, notice);
            |r| <= n && (r != [] ==> |Joined(WithNotice(r, n, notice))| <= PAGES_MAX_CHARS)
  {
    if blocks != [] && |blocks| < n && |Joined(WithNotice(blocks, n, notice))| > PAGES_MAX_CHARS {
      assert blocks == blocks[..|blocks| - 1] + [blocks[|blocks| - 1]];
      JoinedOneMore(blocks[..|blocks| - 1], blocks[|blocks| - 1]);
      TrimmedFits(blocks[..|blocks| - 1], n, notice);
    }
  }

  // What is sent stays within the ceiling, except for a notice that alone is longer.
  lemma {:induction false} PackedWithinCeiling(pages: seq<Page>, notice: Wording)
    ensures var r := Packed(pages, notice);
            && r.here <= r.total == |pages|
            && (|r.text| <= PAGES_MAX_CHARS <==> r.here > 0 || pages == [] || |notice(|pages|)| <= PAGES_MAX_CHARS)
  {
    FilledBounds(Blocks(pages));
    if pages != [] {
      TrimmedFits(Filled(Blocks(pages)), |pages|, notice);
      assert [] + [notice(|pages|)] == [notice(|pages|)];
    }
  }

  function Power(digits: nat): nat {
    if digits == 0 then 1 else 10 * Power(digits - 1)
  }

  // A numeral grows by a digit only when the number reaches the next power of ten.
  lemma {:induction false} IncrementLength(s: string)
    requires Digits(s)
    ensures |Increment(s)| == |s| || (|Increment(s)| == |s| + 1 && Value(s) + 1 == Power(|s|))
  {
    if s != "" && s[|s| - 1] == '9' { IncrementLength(s[..|s| - 1]); }
  }

  lemma {:induction false} IncrementShort(s: string, digits: nat)
    requires Digits(s) && |s| <= digits && Value(s) + 1 < Power(digits)
    ensures |Increment(s)| <= digits
  {
    IncrementLength(s);
  }

  lemma {:induction false} DecimalShort(n: nat, digits: nat)
    requires digits > 0 && n < Power(digits)
    ensures |Decimal(n)| <= digits
  {
    if n > 0 {
      DecimalShort(n - 1, digits);
      DecimalValue(n - 1);
      IncrementShort(Decimal(n - 1), digits);
    }
  }

  // The source's words fit for any count of at most 5900 digits.
  lemma {:induction false} NoticeFits(n: nat, digits: nat)
    requires 0 < digits <= 5900 && n < Power(digits)
    ensures |SourceNotice(n)| <= PAGES_MAX_CHARS
  {
    DecimalShort(n, digits);
  }

  // Block i joins those taken before it.
  predicate Fits(bs: seq<string>, i: nat)
    requires i < |bs|
  {
    FitsAfter(Filled(bs[..i]), bs[i])
  }

  // The blocks taken among the first n, by index.
  function Chosen(bs: seq<string>, n: nat): (r: seq<nat>)
    requires n <= |bs|
    ensures forall k: nat :: k < |r| ==> r[k] < n
  {
    if n == 0 then [] else Chosen(bs, n - 1) + if Fits(bs, n - 1) then [n - 1] else []
  }

  function Picked(bs: seq<string>, at: seq<nat>): (r: seq<string>)
    requires forall k: nat :: k < |at| ==> at[k] < |bs|
    ensures |r| == |at|
  {
    seq(|at|, k requires 0 <= k < |at| => bs[at[k]])
  }

  // In map order.
  lemma {:induction false} ChosenInOrder(bs: seq<string>, n: nat)
    requires n <= |bs|
    ensures forall j: nat, k: nat :: j < k < |Chosen(bs, n)| ==> Chosen(bs, n)[j] < Chosen(bs, n)[k]
  {
    if n > 0 { ChosenInOrder(bs, n - 1); }
  }

  lemma {:induction false} PickedOneMore(bs: seq<string>, at: seq<nat>, i: nat)
    requires (forall k: nat :: k < |at| ==> at[k] < |bs|) && i < |bs|
    ensures Picked(bs, at + [i]) == Picked(bs, at) + [bs[i]]
  {
  }

  lemma {:induction false} AddedPicked(bs: seq<string>, at: seq<nat>, blocks: seq<string>, i: nat)
    requires (forall k: nat :: k < |at| ==> at[k] < |bs|) && i < |bs| && blocks == Picked(bs, at)
    ensures Added(blocks, bs[i]) == Picked(bs, if FitsAfter(blocks, bs[i]) then at + [i] else at)
  {
    PickedOneMore(bs, at, i);
  }

  // What is shown is the whole blocks at those places and nothing else.
  lemma {:induction false} ShownAreWhole(bs: seq<string>, n: nat)
    requires n <= |bs|
    ensures Filled(bs[..n]) == Picked(bs, Chosen(bs, n))
  {
    if n > 0 {
      ShownAreWhole(bs, n - 1);
      FilledOneMore(bs, n - 1);
      AddedPicked(bs, Chosen(bs, n - 1), Filled(bs[..n - 1]), n - 1);
      assert Chosen(bs, n - 1) + [] == Chosen(bs, n - 1);
    }
  }

  // A page is shown exactly when it has text that fits after the pages shown before it.
  lemma {:induction false} ShownIffFits(bs: seq<string>, n: nat, i: nat)
    requires i < n <= |bs|
    ensures i in Chosen(bs, n) <==> bs[i] != "" && |Joined(Picked(bs, Chosen(bs, i)) + [bs[i]])| <= PAGES_MAX_CHARS
  {
    if i < n - 1 {
      ShownIffFits(bs, n - 1, i);
    } else {
      ShownAreWhole(bs, i);
    }
  }

  // Room for the notice costs no more blocks than it must.
  lemma {:induction false} TrimmedIsLongest(blocks: seq<string>, n: nat, notice: Wording, k: nat)
    requires |blocks| <= n && |Trimmed(blocks, n, notice)| < k <= |blocks|
    ensures k < n && |Joined(WithNotice(blocks[..k], n, notice))| > PAGES_MAX_CHARS
  {
    if k < |blocks| {
      TrimmedIsLongest(blocks[..|blocks| - 1], n, notice, k);
      assert blocks[..|blocks| - 1][..k] == blocks[..k];
    } else {
      assert blocks[..k] == blocks;
    }
  }

  // ---------------------------------------------------------- the text as it is laid out

  // Where part k begins when each is followed by a blank line.
  function Offset(parts: seq<string>, k: nat): nat
    requires k <= |parts|
  {
    if k == 0 then 0 else Offset(parts, k - 1) + |parts[k - 1]| + 2
  }

  // The parts one after the other, a blank line between each two and nothing else.
  predicate LaidOut(text: string, parts: seq<string>) {
    && (parts == [] ==> text == "")
    && (forall k: nat :: k < |parts| ==> PartAt(text, parts, k))
  }

  predicate PartAt(text: string, parts: seq<string>, k: nat)
    requires k < |parts|
  {
    var from := Offset(parts, k);
    var to := from + |parts[k]|;
    && to <= |text| && text[from..to] == parts[k]
    && (if k + 1 == |parts| then to == |text| else to + 2 <= |text| && text[to..to + 2] == "\n\n")
  }

  lemma {:induction false} OffsetOfFront(parts: seq<string>, last: string, k: nat)
    requires k <= |parts|
    ensures Offset(parts + [last], k) == Offset(parts, k)
  {
    if k > 0 { OffsetOfFront(parts, last, k - 1); }
  }

  lemma {:induction false} PartStays(text: string, parts: seq<string>, last: string, k: nat)
    requires k < |parts| && PartAt(text, parts, k)
    ensures PartAt(text + "\n\n" + last, parts + [last], k)
  {
    OffsetOfFront(parts, last, k);
    var from := Offset(parts, k);
    var to := from + |parts[k]|;
    var all := text + "\n\n" + last;
    assert all[from..to] == text[from..to];
    if k + 1 < |parts| {
      assert all[to..to + 2] == text[to..to + 2];
    } else {
      assert all[to..to + 2] == "\n\n";
    }
  }

  lemma {:induction false} LastPart(text: string, parts: seq<string>, last: string)
    requires parts != [] && PartAt(text, parts, |parts| - 1)
    ensures PartAt(text + "\n\n" + last, parts + [last], |parts|)
  {
    OffsetOfFront(parts, last, |parts|);
    var all, from := text + "\n\n" + last, |text| + 2;
    assert all[from..from + |last|] == last;
  }

  lemma {:induction false} JoinedLaidOut(parts: seq<string>)
    ensures LaidOut(Joined(parts), parts)
  {
    if |parts| == 1 {
      assert parts[0][0..|parts[0]|] == parts[0];
    } else if parts != [] {
      var front, last := parts[..|parts| - 1], parts[|parts| - 1];
      assert front + [last] == parts;
      JoinedLaidOut(front);
      LastPart(Joined(front), front, last);
      forall k: nat | k < |front| ensures PartAt(Joined(parts), parts, k) {
        PartStays(Joined(front), front, last, k);
      }
    }
  }

  lemma {:induction false} PickedPrefix(bs: seq<string>, all: seq<nat>, m: nat)
    requires (forall k: nat :: k < |all| ==> all[k] < |bs|) && m <= |all|
    ensures Picked(bs, all[..m]) == Picked(bs, all)[..m]
  {
  }

  // Places in the map of pages with text, in its order.
  predicate Places(pages: seq<Page>, at: seq<nat>) {
    && (forall k: nat :: k < |at| ==> at[k] < |pages| && HasText(pages[at[k]]))
    && (forall j: nat, k: nat :: j < k < |at| ==> at[j] < at[k])
  }

  lemma {:induction false} ChosenPlaces(pages: seq<Page>)
    ensures Places(pages, Chosen(Blocks(pages), |pages|))
  {
    var bs := Blocks(pages);
    var at := Chosen(bs, |pages|);
    ChosenInOrder(bs, |pages|);
    forall k: nat | k < |at| ensures HasText(pages[at[k]]) {
      ShownIffFits(bs, |pages|, at[k]);
      assert bs[at[k]] != "";
    }
  }

  lemma {:induction false} FilledPlaces(pages: seq<Page>)
    ensures Filled(Blocks(pages)) == Picked(Blocks(pages), Chosen(Blocks(pages), |pages|))
  {
    var bs := Blocks(pages);
    ShownAreWhole(bs, |bs|);
    assert bs[..|bs|] == bs;
  }

  // The blocks sent are a prefix of those at the places chosen.
  lemma {:induction false} ShownPlaces(pages: seq<Page>, shown: seq<string>) returns (at: seq<nat>)
    requires shown <= Filled(Blocks(pages))
    ensures Places(pages, at) && Picked(Blocks(pages), at) == shown
  {
    var all := Chosen(Blocks(pages), |pages|);
    ChosenPlaces(pages);
    FilledPlaces(pages);
    at := all[..|shown|];
    PickedPrefix(Blocks(pages), all, |shown|);
  }

  lemma {:induction false} PackedShown(pages: seq<Page>, notice: Wording) returns (shown: seq<string>)
    requires pages != []
    ensures shown <= Filled(Blocks(pages)) && |shown| <= |pages| && Packed(pages, notice) == Sent(shown, |pages|, notice)
  {
    FilledBounds(Blocks(pages));
    shown := Trimmed(Filled(Blocks(pages)), |pages|, notice);
  }

  lemma {:induction false} SentLaidOut(shown: seq<string>, n: nat, notice: Wording)
    requires |shown| <= n
    ensures LaidOut(Sent(shown, n, notice).text, shown + if |shown| < n then [notice(n - |shown|)] else [])
  {
    assert shown + [] == shown;
    JoinedLaidOut(WithNotice(shown, n, notice));
  }

  // Whole blocks of pages with text, in map order, a blank line between each two, and behind them, when a page
  // is missing, the notice that counts the missing ones.
  predicate Shows(r: Result, pages: seq<Page>, at: seq<nat>, notice: Wording) {
    && Places(pages, at)
    && r.here == |at| <= r.total == |pages|
    && LaidOut(r.text, Picked(Blocks(pages), at) + if |at| < |pages| then [notice(|pages| - |at|)] else [])
  }

  lemma {:induction false} SentShows(pages: seq<Page>, shown: seq<string>, at: seq<nat>, notice: Wording)
    requires Places(pages, at) && Picked(Blocks(pages), at) == shown && |shown| <= |pages|
    ensures Shows(Sent(shown, |pages|, notice), pages, at, notice)
  {
    SentLaidOut(shown, |pages|, notice);
  }

  lemma {:induction false} PagesAre(pages: seq<Page>, notice: Wording) returns (at: seq<nat>)
    ensures Shows(Packed(pages, notice), pages, at, notice)
  {
    if pages == [] {
      at := [];
    } else {
      var shown := PackedShown(pages, notice);
      at := ShownPlaces(pages, shown);
      SentShows(pages, shown, at, notice);
    }
  }
}
