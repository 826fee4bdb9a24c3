// The running summary of a project conversation: dated pieces under a size cap, pruned line by line
// before any piece is lost.
module SummaryPieces {
  import opened JournalText
  import opened Journal
  import opened TextLines

  const SUMMARY_MAX_CHARS: nat := 6000
  const SKIP: string := "[skip]"
  const EPHEMERAL: string := "[ephemeral]"

  datatype Piece = Piece(at: string, text: string)

  // The stored summary: none, the older single text, or pieces.
  datatype Previous = Nothing | Legacy(at: string, text: string) | Pieces(pieces: seq<Piece>)

  function WithText(pieces: seq<Piece>): seq<Piece> {
    if pieces == [] then [] else
      var n := |pieces| - 1;
      WithText(pieces[..n]) + if pieces[n].text != "" then [pieces[n]] else []
  }

  function Dated(texts: seq<string>, at: string): seq<Piece> {
    if texts == [] then [] else
      var n := |texts| - 1;
      Dated(texts[..n], at) + if Trim(texts[n]) != "" then [Piece(at, Trim(texts[n]))] else []
  }

  function Collected(previous: Previous, texts: seq<string>, at: string): seq<Piece> {
    (match previous
     case Nothing => []
     case Legacy(since, text) => if text != "" then [Piece(since, text)] else []
     case Pieces(pieces) => WithText(pieces))
    + Dated(texts, at)
  }

  function Size(pieces: seq<Piece>): nat {
    if pieces == [] then 0 else Size(pieces[..|pieces| - 1]) + |pieces[|pieces| - 1].text| + 40
  }

  // ---------------------------------------------------------- pruning a piece

  function Unbulleted(line: string): string {
    if line != "" && (line[0] == '-' || line[0] == ' ') then Unbulleted(line[1..]) else line
  }

  predicate Marked(line: string, mark: string) {
    mark <= Unbulleted(line)
  }

  function Unmarked(lines: seq<string>, mark: string): seq<string> {
    if lines == [] then [] else
      var n := |lines| - 1;
      Unmarked(lines[..n], mark) + if Marked(lines[n], mark) then [] else [lines[n]]
  }

  function Pruned(text: string, mark: string): string {
    Trim(Join(Unmarked(SplitLines(text), mark)))
  }

  function WithoutSkip(text: string): string {
    Pruned(text, SKIP)
  }

  function WithoutEphemeral(text: string): string {
    Pruned(text, EPHEMERAL)
  }

  // ---------------------------------------------------------- the three loops

  function PrunedAt(pieces: seq<Piece>, prune: string -> string, i: nat): (r: seq<Piece>)
    requires i + 1 < |pieces|
    ensures |r| == |pieces| && r[|r| - 1] == pieces[|pieces| - 1]
  {
    pieces[i := pieces[i].(text := prune(pieces[i].text))]
  }

  // Older pieces lose their marked lines, oldest first, until the summary fits.
  function PrunedFrom(pieces: seq<Piece>, prune: string -> string, i: nat): (r: seq<Piece>)
    ensures |r| == |pieces|
    decreases |pieces| - i
  {
    if i + 1 >= |pieces| || Size(pieces) <= SUMMARY_MAX_CHARS then pieces
    else PrunedFrom(PrunedAt(pieces, prune, i), prune, i + 1)
  }

  function Shortened(pieces: seq<Piece>): (r: seq<Piece>)
    ensures r != [] ==> pieces != [] && r[|r| - 1] == pieces[|pieces| - 1]
    ensures |r| <= 1 || Size(r) <= SUMMARY_MAX_CHARS
    decreases |pieces|
  {
    if |pieces| > 1 && Size(pieces) > SUMMARY_MAX_CHARS then Shortened(pieces[1..]) else pieces
  }

  // The pieces after the skip lines and after the ephemeral lines were looked at.
  function FirstPruned(pieces: seq<Piece>): seq<Piece> {
    PrunedFrom(pieces, WithoutSkip, 0)
  }

  function SecondPruned(pieces: seq<Piece>): seq<Piece> {
    PrunedFrom(FirstPruned(pieces), WithoutEphemeral, 0)
  }

  function Accumulated(pieces: seq<Piece>): seq<Piece> {
    Shortened(WithText(SecondPruned(pieces)))
  }

  method PruneOlder(pieces0: seq<Piece>, prune: string -> string) returns (pieces: seq<Piece>)
    ensures pieces == PrunedFrom(pieces0, prune, 0)
  {
    pieces := pieces0;
    var i := 0;
    while i + 1 < |pieces|
      invariant |pieces| == |pieces0|
      invariant PrunedFrom(pieces, prune, i) == PrunedFrom(pieces0, prune, 0)
      decreases |pieces| - i
    {
      if Size(pieces) <= SUMMARY_MAX_CHARS {
        break;
      }
      pieces := pieces[i := pieces[i].(text := prune(pieces[i].text))];
      i := i + 1;
    }
  }

  // ---------------------------------------------------------- what is kept

  predicate EndsWith(pieces: seq<Piece>, p: Piece) {
    pieces != [] && pieces[|pieces| - 1] == p
  }

  lemma {:induction false} PrunedKeepsNewest(pieces: seq<Piece>, prune: string -> string, i: nat, p: Piece)
    requires EndsWith(pieces, p)
    ensures EndsWith(PrunedFrom(pieces, prune, i), p)
    decreases |pieces| - i
  {
    if i + 1 < |pieces| && Size(pieces) > SUMMARY_MAX_CHARS {
      PrunedKeepsNewest(PrunedAt(pieces, prune, i), prune, i + 1, p);
    }
  }

  lemma {:induction false} WithTextKeepsNewest(pieces: seq<Piece>, p: Piece)
    requires EndsWith(pieces, p) && p.text != ""
    ensures EndsWith(WithText(pieces), p)
  {
  }

  lemma {:induction false} ShortenedKeepsNewest(pieces: seq<Piece>, p: Piece)
    requires EndsWith(pieces, p)
    ensures EndsWith(Shortened(pieces), p)
    decreases |pieces|
  {
    if |pieces| > 1 { ShortenedKeepsNewest(pieces[1..], p); }
  }

  lemma {:induction false} NewestDated(texts: seq<string>, at: string, i: nat)
    requires i < |texts| && Trim(texts[i]) != ""
    requires forall k :: i < k < |texts| ==> Trim(texts[k]) == ""
    ensures EndsWith(Dated(texts, at), Piece(at, Trim(texts[i])))
  {
    if i + 1 < |texts| {
      var front := texts[..|texts| - 1];
      assert front[i] == texts[i];
      NewestDated(front, at, i);
    }
  }

  lemma {:induction false} NewestEnds(pieces: seq<Piece>, p: Piece)
    requires EndsWith(pieces, p) && p.text != ""
    ensures EndsWith(Accumulated(pieces), p)
  {
    PrunedKeepsNewest(pieces, WithoutSkip, 0, p);
    PrunedKeepsNewest(FirstPruned(pieces), WithoutEphemeral, 0, p);
    WithTextKeepsNewest(SecondPruned(pieces), p);
    ShortenedKeepsNewest(WithText(SecondPruned(pieces)), p);
  }

  lemma {:induction false} CollectedEnds(previous: Previous, texts: seq<string>, at: string, p: Piece)
    requires EndsWith(Dated(texts, at), p)
    ensures EndsWith(Collected(previous, texts, at), p)
  {
  }

  // The last text handed in that is not blank ends the summary word for word, under the date of this call.
  lemma {:induction false} NewestIsKept(previous: Previous, texts: seq<string>, at: string, i: nat)
    requires i < |texts| && Trim(texts[i]) != ""
    requires forall k :: i < k < |texts| ==> Trim(texts[k]) == ""
    ensures EndsWith(Accumulated(Collected(previous, texts, at)), Piece(at, Trim(texts[i])))
  {
    var p := Piece(at, Trim(texts[i]));
    NewestDated(texts, at, i);
    CollectedEnds(previous, texts, at, p);
    NewestEnds(Collected(previous, texts, at), p);
  }

  lemma {:induction false} WithTextAre(pieces: seq<Piece>, p: Piece)
    ensures p in WithText(pieces) <==> p in pieces && p.text != ""
  {
    if pieces != [] {
      WithTextAre(pieces[..|pieces| - 1], p);
    }
  }

  // Every text that is not blank is collected, and besides the pieces stored with text nothing else is.
  lemma {:induction false} CollectedAre(previous: Previous, texts: seq<string>, at: string, p: Piece)
    ensures p in Collected(previous, texts, at) <==>
            || (p.at == at && p.text != "" && exists k :: 0 <= k < |texts| && Trim(texts[k]) == p.text)
            || (p.text != "" && previous.Legacy? && p == Piece(previous.at, previous.text))
            || (p.text != "" && previous.Pieces? && p in previous.pieces)
  {
    DatedAre(texts, at, p);
    if previous.Pieces? { WithTextAre(previous.pieces, p); }
  }

  lemma {:induction false} DatedAre(texts: seq<string>, at: string, p: Piece)
    ensures p in Dated(texts, at) <==>
            p.at == at && p.text != "" && exists k :: 0 <= k < |texts| && Trim(texts[k]) == p.text
  {
    if texts != [] {
      var n := |texts| - 1;
      var front := texts[..n];
      DatedAre(front, at, p);
      assert forall k :: 0 <= k < n ==> texts[k] == front[k];
    }
  }

  // Every piece but the newest without its marked lines.
  function AllPruned(pieces: seq<Piece>, prune: string -> string): (r: seq<Piece>)
    ensures |r| == |pieces|
  {
    seq(|pieces|, k requires 0 <= k < |pieces| =>
      if k + 1 < |pieces| then pieces[k].(text := prune(pieces[k].text)) else pieces[k])
  }

  // `left` is `pieces` with the first n of all but the newest pruned.
  predicate PrunedTo(pieces: seq<Piece>, left: seq<Piece>, prune: string -> string, n: nat) {
    && |left| == |pieces|
    && (forall k: nat :: k < |left| ==>
          left[k] == if k < n && k + 1 < |left| then pieces[k].(text := prune(pieces[k].text)) else pieces[k])
  }

  // The loop prunes the first n of the older pieces: all of them if the summary is still too large at its
  // end, and none if it was not too large before.
  lemma {:induction false} PrunedPrefix(pieces: seq<Piece>, start: seq<Piece>, prune: string -> string, i: nat)
    returns (n: nat)
    requires PrunedTo(start, pieces, prune, i)
    ensures PrunedTo(start, PrunedFrom(pieces, prune, i), prune, n)
    ensures Size(PrunedFrom(pieces, prune, i)) > SUMMARY_MAX_CHARS ==> |pieces| <= n + 1
    ensures Size(pieces) <= SUMMARY_MAX_CHARS ==> n == i
    decreases |pieces| - i
  {
    if i + 1 >= |pieces| || Size(pieces) <= SUMMARY_MAX_CHARS {
      n := i;
    } else {
      n := PrunedPrefix(PrunedAt(pieces, prune, i), start, prune, i + 1);
    }
  }

  lemma {:induction false} StillTooLarge(pieces: seq<Piece>, prune: string -> string)
    requires Size(PrunedFrom(pieces, prune, 0)) > SUMMARY_MAX_CHARS
    ensures PrunedFrom(pieces, prune, 0) == AllPruned(pieces, prune)
  {
    var n := PrunedPrefix(pieces, pieces, prune, 0);
  }

  lemma {:induction false} WithTextSize(pieces: seq<Piece>)
    ensures Size(WithText(pieces)) <= Size(pieces)
  {
    if pieces != [] {
      var n := |pieces| - 1;
      WithTextSize(pieces[..n]);
      if pieces[n].text != "" {
        assert (WithText(pieces[..n]) + [pieces[n]])[..|WithText(pieces[..n])|] == WithText(pieces[..n]);
      } else {
        assert WithText(pieces) == WithText(pieces[..n]);
      }
    }
  }

  // A piece with text is dropped whole only once every piece but the newest has lost first its skip
  // lines, then its ephemeral ones.
  lemma {:induction false} DroppedOnlyWhenAllPruned(pieces: seq<Piece>)
    ensures |Accumulated(pieces)| < |WithText(SecondPruned(pieces))| ==>
              && FirstPruned(pieces) == AllPruned(pieces, WithoutSkip)
              && SecondPruned(pieces) == AllPruned(AllPruned(pieces, WithoutSkip), WithoutEphemeral)
  {
    var first, second := FirstPruned(pieces), SecondPruned(pieces);
    WithTextSize(second);
    if Size(second) > SUMMARY_MAX_CHARS {
      StillTooLarge(first, WithoutEphemeral);
      assert Size(first) > SUMMARY_MAX_CHARS;
      StillTooLarge(pieces, WithoutSkip);
    }
  }

  // And an ephemeral line goes only once every piece but the newest has lost its skip lines.
  lemma {:induction false} EphemeralOnlyAfterSkip(pieces: seq<Piece>)
    ensures SecondPruned(pieces) == FirstPruned(pieces) || FirstPruned(pieces) == AllPruned(pieces, WithoutSkip)
  {
    if Size(FirstPruned(pieces)) > SUMMARY_MAX_CHARS {
      StillTooLarge(pieces, WithoutSkip);
    }
  }

  // ---------------------------------------------------------- what pruning takes

  predicate IsMark(mark: string) {
    mark != "" && mark[0] == '[' && mark[|mark| - 1] == ']'
  }

  predicate Bullets(s: string) {
    forall i :: 0 <= i < |s| ==> s[i] == '-' || s[i] == ' '
  }

  // A line is marked when the mark stands in it with dashes and blanks alone before it.
  lemma {:induction false} MarkedIff(line: string, mark: string)
    requires IsMark(mark)
    ensures Marked(line, mark) <==> exists before: string, rest: string :: Bullets(before) && line == before + mark + rest
  {
    if Marked(line, mark) {
      var u := Unbulleted(line);
      var before := BulletsOf(line);
      assert line == before + mark + u[|mark|..];
    }
    forall before: string, rest: string | Bullets(before) && line == before + mark + rest ensures Marked(line, mark) {
      UnbulletedAfter(before, mark + rest);
      assert before + mark + rest == before + (mark + rest);
    }
  }

  lemma {:induction false} BulletsOf(line: string) returns (before: string)
    ensures Bullets(before) && line == before + Unbulleted(line)
  {
    if line != "" && (line[0] == '-' || line[0] == ' ') {
      before := BulletsOf(line[1..]);
      before := [line[0]] + before;
    } else {
      before := "";
    }
  }

  lemma {:induction false} UnbulletedAfter(before: string, s: string)
    requires Bullets(before) && s != "" && s[0] == '['
    ensures Unbulleted(before + s) == s
  {
    if before == "" {
      assert before + s == s;
    } else {
      UnbulletedAfter(before[1..], s);
      assert (before + s)[1..] == before[1..] + s;
    }
  }

  lemma {:induction false} MarkedAfterSpace(c: char, line: string, mark: string)
    requires Space(c) && IsMark(mark) && Marked([c] + line, mark)
    ensures c == ' ' && Marked(line, mark)
  {
    assert ([c] + line)[1..] == line;
    assert Unbulleted([c] + line)[0] == mark[0];
  }

  lemma {:induction false} UnbulletedMore(line: string, c: char)
    requires Space(c)
    ensures Unbulleted(line + [c]) == Unbulleted(line) + [c] || (Unbulleted(line) == "" && Unbulleted(line + [c]) == "")
  {
    if line == "" {
      assert line + [c] == [c] && [c][1..] == "";
    } else if line[0] == '-' || line[0] == ' ' {
      UnbulletedMore(line[1..], c);
      assert (line + [c])[1..] == line[1..] + [c];
    }
  }

  lemma {:induction false} MarkedBeforeSpace(line: string, c: char, mark: string)
    requires Space(c) && IsMark(mark) && Marked(line + [c], mark)
    ensures Marked(line, mark)
  {
    UnbulletedMore(line, c);
    var u := Unbulleted(line);
    assert mark[|mark| - 1] == Unbulleted(line + [c])[|mark| - 1];
    assert |mark| <= |u|;
    assert mark == (u + [c])[..|mark|] == u[..|mark|];
  }

  lemma {:induction false} MarkedStart(line: string, mark: string)
    requires IsMark(mark) && Marked(line, mark)
    ensures Marked(TrimStart(line), mark)
  {
    if line != "" && Space(line[0]) {
      assert line == [line[0]] + line[1..];
      MarkedAfterSpace(line[0], line[1..], mark);
      MarkedStart(line[1..], mark);
    }
  }

  lemma {:induction false} MarkedEnd(line: string, mark: string)
    requires IsMark(mark) && Marked(line, mark)
    ensures Marked(TrimEnd(line), mark)
  {
    if line != "" && Space(line[|line| - 1]) {
      var front, c := line[..|line| - 1], line[|line| - 1];
      assert line == front + [c];
      MarkedBeforeSpace(front, c, mark);
      MarkedEnd(front, mark);
    }
  }

  lemma {:induction false} MarkedTrim(line: string, mark: string)
    requires IsMark(mark) && Marked(line, mark)
    ensures Marked(Trim(line), mark)
  {
    MarkedStart(line, mark);
    MarkedEnd(TrimStart(line), mark);
  }

  // Which lines are meant: all of them, those with the mark and without it, those without either.
  predicate Any(line: string) {
    true
  }

  function Without(mark: string): string -> bool {
    line => !Marked(line, mark)
  }

  function With(mark: string): string -> bool {
    line => Marked(line, mark)
  }

  predicate Plain(line: string) {
    !Marked(line, SKIP) && !Marked(line, EPHEMERAL)
  }

  // The lines of a text that are not blank, up to blanks at their ends.
  function Body(text: string, keep: string -> bool): seq<string> {
    Chosen(SplitLines(text), keep)
  }

  lemma {:induction false} UnmarkedNoBreaks(lines: seq<string>, mark: string)
    requires NoBreaks(lines)
    ensures NoBreaks(Unmarked(lines, mark))
  {
    if lines != [] { UnmarkedNoBreaks(lines[..|lines| - 1], mark); }
  }

  lemma {:induction false} PrunedBody(text: string, mark: string, keep: string -> bool)
    ensures Body(Pruned(text, mark), keep) == Chosen(Unmarked(SplitLines(text), mark), keep)
  {
    SplitLinesNoBreaks(text);
    UnmarkedNoBreaks(SplitLines(text), mark);
    JoinedReadsBack(Unmarked(SplitLines(text), mark), keep);
  }

  lemma {:induction false} UnmarkedMore(front: seq<string>, line: string, mark: string, keep: string -> bool)
    ensures Chosen(Unmarked(front + [line], mark), keep)
            == Chosen(Unmarked(front, mark), keep) + if Marked(line, mark) then [] else ChosenOf(line, keep)
  {
    assert (front + [line])[..|front|] == front;
    var left := Unmarked(front, mark);
    if Marked(line, mark) {
      assert left + [] == left;
    } else {
      ChosenMore(left, line, keep);
    }
  }

  lemma {:induction false} UnmarkedKeeps(lines: seq<string>, mark: string, keep: string -> bool)
    requires IsMark(mark) && forall line :: Marked(line, mark) ==> !keep(line)
    ensures Chosen(Unmarked(lines, mark), keep) == Chosen(lines, keep)
  {
    if lines != [] {
      var front, line := lines[..|lines| - 1], lines[|lines| - 1];
      assert lines == front + [line];
      UnmarkedKeeps(front, mark, keep);
      UnmarkedMore(front, line, mark, keep);
      ChosenMore(front, line, keep);
      if Marked(line, mark) {
        MarkedTrim(line, mark);
      }
    }
  }

  lemma {:induction false} UnmarkedWithin(lines: seq<string>, mark: string, keep: string -> bool)
    ensures multiset(Chosen(Unmarked(lines, mark), keep)) <= multiset(Chosen(lines, keep))
  {
    if lines != [] {
      var front, line := lines[..|lines| - 1], lines[|lines| - 1];
      assert lines == front + [line];
      UnmarkedWithin(front, mark, keep);
      UnmarkedMore(front, line, mark, keep);
      ChosenMore(front, line, keep);
    }
  }

  // No line has a mark behind a blank that `lstrip("- ")` stops at, a tab say.
  predicate OpenLines(lines: seq<string>, mark: string) {
    forall i :: 0 <= i < |lines| ==> Marked(Trim(lines[i]), mark) ==> Marked(lines[i], mark)
  }

  predicate Open(text: string, mark: string) {
    OpenLines(SplitLines(text), mark)
  }

  lemma {:induction false} UnmarkedBare(lines: seq<string>, mark: string)
    requires IsMark(mark)
    ensures Chosen(Unmarked(lines, mark), With(mark)) == [] <==> OpenLines(lines, mark)
  {
    if lines != [] {
      var front, line := lines[..|lines| - 1], lines[|lines| - 1];
      assert lines == front + [line];
      UnmarkedBare(front, mark);
      UnmarkedMore(front, line, mark, With(mark));
      OpenMore(front, line, mark);
      BlankUnmarked(mark);
    }
  }

  lemma {:induction false} OpenMore(front: seq<string>, line: string, mark: string)
    ensures OpenLines(front + [line], mark) <==> OpenLines(front, mark) && (Marked(Trim(line), mark) ==> Marked(line, mark))
  {
    var lines := front + [line];
    assert lines[|front|] == line;
    assert forall i :: 0 <= i < |front| ==> lines[i] == front[i];
  }

  lemma {:induction false} BlankUnmarked(mark: string)
    requires IsMark(mark)
    ensures !Marked("", mark)
  {
  }

  // Pruning leaves no line with the mark exactly when no line has it behind a blank other than a space.
  lemma {:induction false} PrunedBareIff(text: string, mark: string)
    requires IsMark(mark)
    ensures Body(Pruned(text, mark), With(mark)) == [] <==> Open(text, mark)
  {
    PrunedBody(text, mark, With(mark));
    UnmarkedBare(SplitLines(text), mark);
  }

  lemma {:induction false} UnmarkedPair(first: string, second: string, mark: string)
    requires Marked(first, mark) && !Marked(second, mark)
    ensures Unmarked([first, second], mark) == [second]
  {
    var front := [first, second][..1];
    assert front == [first] && front[..0] == [];
    assert Unmarked(front, mark) == Unmarked(front[..0], mark) + [];
  }

  lemma {:induction false} PairReadsBack(first: string, second: string)
    requires NoBreak(first) && NoBreak(second) && second != ""
    ensures SplitLines(Join([first, second])) == [first, second]
  {
    var lines := [first, second];
    JoinedOnlyNewlines(lines);
    NormalSame(Join(lines));
    NoBreakIsClean(lines);
    SplitJoin(lines);
  }

  const TO_SKIP: string := "[skip] a"
  const BEHIND_TAB: string := "\t[skip] b"

  lemma {:induction false} TrimmedTab()
    ensures Trim(BEHIND_TAB) == "[skip] b"
  {
    assert BEHIND_TAB[1..] == "[skip] b";
  }

  // Two lines to skip, the second behind a tab: it is left, and trimming brings its mark to the front.
  lemma {:induction false} TabHidesMark()
    ensures Pruned(TO_SKIP + "\n" + BEHIND_TAB, SKIP) == "[skip] b"
  {
    assert [TO_SKIP, BEHIND_TAB][..1] == [TO_SKIP];
    assert NoBreak(TO_SKIP) && !Break('\t');
    assert NoBreak(BEHIND_TAB);
    PairReadsBack(TO_SKIP, BEHIND_TAB);
    UnmarkedPair(TO_SKIP, BEHIND_TAB, SKIP);
    TrimmedTab();
  }

  lemma {:induction false} UnmarkedOpen(lines: seq<string>, mark: string, other: string)
    requires OpenLines(lines, other)
    ensures OpenLines(Unmarked(lines, mark), other)
  {
    if lines != [] { UnmarkedOpen(lines[..|lines| - 1], mark, other); }
  }

  lemma {:induction false} OpenAfter(c: char, t: string, mark: string)
    requires Space(c) && IsMark(mark) && OpenLines(Split([c] + t), mark)
    ensures OpenLines(Split(t), mark)
  {
    SplitAfter(c, t);
    var b, all := Split(t), Split([c] + t);
    forall i | 0 <= i < |b| && Marked(Trim(b[i]), mark) ensures Marked(b[i], mark) {
      if c == '\n' {
        assert all[i + 1] == b[i];
      } else if i == 0 {
        TrimAfterSpace(c, b[0]);
        assert all[0] == [c] + b[0];
        MarkedAfterSpace(c, b[0], mark);
      } else {
        assert all[i] == b[i];
      }
    }
  }

  lemma {:induction false} OpenBehind(t: string, c: char, mark: string)
    requires Space(c) && IsMark(mark) && OpenLines(Split(t + [c]), mark)
    ensures OpenLines(Split(t), mark)
  {
    assert (t + [c])[..|t|] == t;
    var b, all := Split(t), Split(t + [c]);
    forall i | 0 <= i < |b| && Marked(Trim(b[i]), mark) ensures Marked(b[i], mark) {
      if c == '\n' || i + 1 < |b| {
        assert all[i] == b[i];
      } else {
        TrimBeforeSpace(b[i], c);
        assert all[i] == b[i] + [c];
        MarkedBeforeSpace(b[i], c, mark);
      }
    }
  }

  lemma {:induction false} OpenTrimStart(t: string, mark: string)
    requires IsMark(mark) && OpenLines(Split(t), mark)
    ensures OpenLines(Split(TrimStart(t)), mark)
  {
    if t != "" && Space(t[0]) {
      assert t == [t[0]] + t[1..];
      OpenAfter(t[0], t[1..], mark);
      OpenTrimStart(t[1..], mark);
    }
  }

  lemma {:induction false} OpenTrimEnd(t: string, mark: string)
    requires IsMark(mark) && OpenLines(Split(t), mark)
    ensures OpenLines(Split(TrimEnd(t)), mark)
  {
    if t != "" && Space(t[|t| - 1]) {
      var front, c := t[..|t| - 1], t[|t| - 1];
      assert front + [c] == t;
      OpenBehind(front, c, mark);
      OpenTrimEnd(front, mark);
      TrimEndMore(front, c);
    }
  }

  lemma {:induction false} OpenJoined(lines: seq<string>, mark: string)
    requires IsMark(mark) && NoBreaks(lines) && OpenLines(lines, mark)
    ensures OpenLines(Split(Trim(Join(lines))), mark)
  {
    if lines != [] {
      NoBreakIsClean(lines);
      SplitJoin(lines);
    }
    OpenTrimStart(Join(lines), mark);
    OpenTrimEnd(TrimStart(Join(lines)), mark);
  }

  lemma {:induction false} TrimmedRows(lines: seq<string>)
    requires NoBreaks(lines)
    ensures SplitLines(Trim(Join(lines))) == Filled(Split(Trim(Join(lines))))
  {
    JoinedOnlyNewlines(lines);
    TrimOnlyNewlines(Join(lines));
    NormalSame(Trim(Join(lines)));
  }

  lemma {:induction false} PrunedOpen(text: string, mark: string, other: string)
    requires IsMark(other) && Open(text, other)
    ensures Open(Pruned(text, mark), other)
  {
    var lines := Unmarked(SplitLines(text), mark);
    SplitLinesNoBreaks(text);
    UnmarkedNoBreaks(SplitLines(text), mark);
    UnmarkedOpen(SplitLines(text), mark, other);
    OpenJoined(lines, other);
    TrimmedRows(lines);
  }

  // ---------------------------------------------------------- what becomes of each piece

  // Date and unmarked lines stay as they were, in order, and no line is added.
  predicate Thinned(before: Piece, after: Piece) {
    && after.at == before.at
    && Body(after.text, Plain) == Body(before.text, Plain)
    && multiset(Body(after.text, Any)) <= multiset(Body(before.text, Any))
  }

  predicate Bare(before: Piece, after: Piece, mark: string) {
    Open(before.text, mark) ==> Body(after.text, With(mark)) == []
  }

  predicate OnlySkipTaken(before: Piece, after: Piece) {
    Body(after.text, Without(SKIP)) == Body(before.text, Without(SKIP))
  }

  lemma {:induction false} SkipTaken(p: Piece)
    ensures var r := p.(text := WithoutSkip(p.text));
            Thinned(p, r) && Bare(p, r, SKIP) && OnlySkipTaken(p, r) && (Open(p.text, EPHEMERAL) ==> Open(r.text, EPHEMERAL))
  {
    var lines := SplitLines(p.text);
    assert IsMark(SKIP);
    PrunedBody(p.text, SKIP, Plain);
    UnmarkedKeeps(lines, SKIP, Plain);
    PrunedBody(p.text, SKIP, Any);
    UnmarkedWithin(lines, SKIP, Any);
    PrunedBody(p.text, SKIP, Without(SKIP));
    UnmarkedKeeps(lines, SKIP, Without(SKIP));
    PrunedBareIff(p.text, SKIP);
    if Open(p.text, EPHEMERAL) { PrunedOpen(p.text, SKIP, EPHEMERAL); }
  }

  lemma {:induction false} EphemeralTaken(p: Piece)
    ensures var r := p.(text := WithoutEphemeral(p.text));
            Thinned(p, r) && Bare(p, r, EPHEMERAL) && (Body(p.text, With(SKIP)) == [] ==> Body(r.text, With(SKIP)) == [])
  {
    var lines := SplitLines(p.text);
    assert IsMark(EPHEMERAL);
    PrunedBody(p.text, EPHEMERAL, Plain);
    UnmarkedKeeps(lines, EPHEMERAL, Plain);
    PrunedBody(p.text, EPHEMERAL, Any);
    UnmarkedWithin(lines, EPHEMERAL, Any);
    PrunedBody(p.text, EPHEMERAL, With(SKIP));
    UnmarkedWithin(lines, EPHEMERAL, With(SKIP));
    NothingWithin(Body(WithoutEphemeral(p.text), With(SKIP)), Body(p.text, With(SKIP)));
    PrunedBareIff(p.text, EPHEMERAL);
  }

  lemma {:induction false} NothingWithin(a: seq<string>, b: seq<string>)
    requires multiset(a) <= multiset(b)
    ensures b == [] ==> a == []
  {
    if a != [] { assert a[0] in multiset(a); }
  }

  // One piece through both loops.
  lemma {:induction false} PieceAfter(p: Piece, f: Piece, q: Piece, one: bool, two: bool)
    requires f == if one then p.(text := WithoutSkip(p.text)) else p
    requires q == if two then f.(text := WithoutEphemeral(f.text)) else f
    ensures Thinned(p, q)
    ensures one ==> Bare(p, q, SKIP)
    ensures one && two ==> Bare(p, q, EPHEMERAL)
    ensures !two ==> OnlySkipTaken(p, q)
  {
    if one { SkipTaken(p); }
    if two { EphemeralTaken(f); }
  }

  // What the loops make of the pieces collected, before any is dropped: the newest stays whole, the others
  // are pruned oldest first, and ephemeral lines go only where every older piece has lost its skip lines.
  predicate Thins(pieces: seq<Piece>, left: seq<Piece>) {
    && |left| == |pieces|
    && (forall k :: 0 <= k < |pieces| ==> Thinned(pieces[k], left[k]))
    && (forall k :: 0 <= k < |pieces| ==> left[k] != pieces[k] ==>
          k + 1 < |pieces| && (forall j :: 0 <= j <= k ==> Bare(pieces[j], left[j], SKIP)))
    && ((forall k :: 0 <= k < |pieces| ==> OnlySkipTaken(pieces[k], left[k])) || AllBare(pieces, left, SKIP))
    && (Size(pieces) <= SUMMARY_MAX_CHARS ==> left == pieces)
  }

  predicate AllBare(pieces: seq<Piece>, left: seq<Piece>, mark: string)
    requires |left| == |pieces|
  {
    forall k :: 0 <= k < |pieces| - 1 ==> Bare(pieces[k], left[k], mark)
  }

  // What the summary holds, and how many of the pieces left with text it lost: as few as its cap asks for.
  ghost predicate Accounts(pieces: seq<Piece>, r: seq<Piece>, dropped: nat) {
    exists left ::
      && Thins(pieces, left)
      && dropped <= |WithText(left)| && r == WithText(left)[dropped..]
      && (Size(r) <= SUMMARY_MAX_CHARS || |r| == 1)
      && (dropped > 0 ==>
            && Size(WithText(left)[dropped - 1..]) > SUMMARY_MAX_CHARS
            && AllBare(pieces, left, SKIP) && AllBare(pieces, left, EPHEMERAL))
  }

  lemma {:induction false} EachPiece(pieces: seq<Piece>, f: seq<Piece>, q: seq<Piece>, n: nat, m: nat)
    requires PrunedTo(pieces, f, WithoutSkip, n) && PrunedTo(f, q, WithoutEphemeral, m)
    ensures forall k :: 0 <= k < |pieces| ==>
              && Thinned(pieces[k], q[k])
              && (k < n && k + 1 < |pieces| ==> Bare(pieces[k], q[k], SKIP))
              && (k < n && k < m && k + 1 < |pieces| ==> Bare(pieces[k], q[k], EPHEMERAL))
              && (k >= m || k + 1 == |pieces| ==> OnlySkipTaken(pieces[k], q[k]))
              && ((k >= n && k >= m) || k + 1 == |pieces| ==> q[k] == pieces[k])
  {
    forall k | 0 <= k < |pieces|
      ensures Thinned(pieces[k], q[k])
      ensures k < n && k + 1 < |pieces| ==> Bare(pieces[k], q[k], SKIP)
      ensures k < n && k < m && k + 1 < |pieces| ==> Bare(pieces[k], q[k], EPHEMERAL)
      ensures k >= m || k + 1 == |pieces| ==> OnlySkipTaken(pieces[k], q[k])
    {
      PieceAfter(pieces[k], f[k], q[k], k < n && k + 1 < |pieces|, k < m && k + 1 < |pieces|);
    }
  }

  lemma {:induction false} PrunedThin(pieces: seq<Piece>, f: seq<Piece>, q: seq<Piece>, n: nat, m: nat)
    requires PrunedTo(pieces, f, WithoutSkip, n) && PrunedTo(f, q, WithoutEphemeral, m)
    requires m > 0 ==> |pieces| <= n + 1
    requires Size(pieces) <= SUMMARY_MAX_CHARS ==> n == 0 && m == 0
    ensures Thins(pieces, q)
    ensures |pieces| <= n + 1 && |pieces| <= m + 1 ==> AllBare(pieces, q, SKIP) && AllBare(pieces, q, EPHEMERAL)
  {
    EachPiece(pieces, f, q, n, m);
  }

  lemma {:induction false} LoopsThin(pieces: seq<Piece>)
    ensures var q := SecondPruned(pieces);
            && Thins(pieces, q)
            && (Size(q) > SUMMARY_MAX_CHARS ==> AllBare(pieces, q, SKIP) && AllBare(pieces, q, EPHEMERAL))
  {
    var f := FirstPruned(pieces);
    var n := PrunedPrefix(pieces, pieces, WithoutSkip, 0);
    var m := PrunedPrefix(f, f, WithoutEphemeral, 0);
    PrunedThin(pieces, f, SecondPruned(pieces), n, m);
  }

  lemma {:induction false} ShortenedBy(pieces: seq<Piece>) returns (dropped: nat)
    ensures dropped <= |pieces| && Shortened(pieces) == pieces[dropped..]
    ensures dropped > 0 ==> Size(pieces[dropped - 1..]) > SUMMARY_MAX_CHARS
    decreases |pieces|
  {
    if |pieces| > 1 && Size(pieces) > SUMMARY_MAX_CHARS {
      var n := ShortenedBy(pieces[1..]);
      dropped := n + 1;
      if n > 0 { assert pieces[1..][n - 1..] == pieces[n..]; }
      assert pieces[1..][n..] == pieces[dropped..];
    } else {
      dropped := 0;
    }
  }

  lemma {:induction false} AccumulatedAccounts(pieces: seq<Piece>, r: seq<Piece>, dropped: nat)
    requires r == Accumulated(pieces) && dropped == |WithText(SecondPruned(pieces))| - |r|
    ensures Accounts(pieces, r, dropped)
  {
    var left := SecondPruned(pieces);
    LoopsThin(pieces);
    var n := ShortenedBy(WithText(left));
    WithTextSize(left);
    assert n == dropped;
    assert dropped > 0 ==> Size(left) > SUMMARY_MAX_CHARS by {
      if dropped > 0 { assert Shortened(WithText(left)) != WithText(left); }
    }
  }

  method AccumulateSummary(previous: Previous, texts: seq<string>, at: string)
    returns (pieces: seq<Piece>, dropped: nat)
    ensures pieces == Accumulated(Collected(previous, texts, at))
    ensures dropped == |WithText(SecondPruned(Collected(previous, texts, at)))| - |pieces|
    ensures Accounts(Collected(previous, texts, at), pieces, dropped)
  {
    pieces := Collected(previous, texts, at);
    ghost var collected := pieces;
    pieces := PruneOlder(pieces, WithoutSkip);
    pieces := PruneOlder(pieces, WithoutEphemeral);
    pieces := WithText(pieces);
    ghost var left := pieces;
    dropped := 0;
    while |pieces| > 1 && Size(pieces) > SUMMARY_MAX_CHARS
      invariant Shortened(pieces) == Shortened(left)
      invariant dropped + |pieces| == |left|
      decreases |pieces|
    {
      pieces := pieces[1..];
      dropped := dropped + 1;
    }
    AccumulatedAccounts(collected, pieces, dropped);
  }
}
