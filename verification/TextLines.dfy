// The lines of a text as Python's `splitlines` cuts them: at newlines, carriage returns (one break for
// both in a row), vertical tabs, form feeds, the three separators and the Unicode line and paragraph ends.
module TextLines {
  import opened JournalText
  import opened Journal

  predicate Break(c: char) {
    var n := c as int;
    10 <= n <= 13 || 28 <= n <= 30 || n == 0x85 || n == 0x2028 || n == 0x2029
  }

  // What a character after t adds: a newline behind a carriage return adds nothing to its break.
  function Piece(t: string, c: char): string {
    if c == '\n' && t != "" && t[|t| - 1] == '\r' then "" else if Break(c) then "\n" else [c]
  }

  // The text with every line break written as one newline.
  function Normal(t: string): string {
    if t == "" then "" else Normal(t[..|t| - 1]) + Piece(t[..|t| - 1], t[|t| - 1])
  }

  function SplitLines(t: string): seq<string> {
    Filled(Split(Normal(t)))
  }

  // Newline is the only break in it.
  predicate OnlyNewlines(t: string) {
    forall i :: 0 <= i < |t| ==> (Break(t[i]) ==> t[i] == '\n')
  }

  predicate NoBreak(t: string) {
    forall i :: 0 <= i < |t| ==> !Break(t[i])
  }

  lemma {:induction false} NormalShape(t: string)
    ensures OnlyNewlines(Normal(t)) && |Normal(t)| <= |t|
  {
    if t != "" { NormalShape(t[..|t| - 1]); }
  }

  lemma {:induction false} NormalSame(t: string)
    requires OnlyNewlines(t)
    ensures Normal(t) == t
  {
    if t != "" {
      var front, c := t[..|t| - 1], t[|t| - 1];
      assert Break('\r');
      NormalSame(front);
      assert t == front + [c];
    }
  }

  lemma {:induction false} NormalChar(t: string, c: char)
    ensures Normal(t + [c]) == Normal(t) + Piece(t, c)
  {
    assert (t + [c])[..|t|] == t;
  }

  // Two texts that do not meet inside a carriage return and its newline.
  predicate Apart(a: string, b: string) {
    a == "" || b == "" || a[|a| - 1] != '\r' || b[0] != '\n'
  }

  lemma {:induction false} SamePiece(a: string, b: string, c: char)
    requires Apart(a, b + [c])
    ensures Piece(a + b, c) == Piece(b, c)
  {
    if b == "" {
      assert a + b == a && (b + [c])[0] == c;
    } else {
      assert (a + b)[|a + b| - 1] == b[|b| - 1];
    }
  }

  lemma {:induction false} Associative(a: string, b: string, c: string)
    ensures a + b + c == a + (b + c)
  {
  }

  lemma {:induction false} ConcatChar(a: string, b: string, c: char)
    requires Apart(a, b + [c]) && Normal(a + b) == Normal(a) + Normal(b)
    ensures Normal(a + (b + [c])) == Normal(a) + Normal(b + [c])
  {
    var p := Piece(b, c);
    assert Normal(b + [c]) == Normal(b) + p by { NormalChar(b, c); }
    assert Normal(a + b + [c]) == Normal(a + b) + p by { SamePiece(a, b, c); NormalChar(a + b, c); }
    Associative(a, b, [c]);
    Associative(Normal(a), Normal(b), p);
  }

  lemma {:induction false} NormalConcat(a: string, b: string)
    requires Apart(a, b)
    ensures Normal(a + b) == Normal(a) + Normal(b)
  {
    if b == "" {
      assert a + b == a;
    } else {
      var front, c := b[..|b| - 1], b[|b| - 1];
      assert b == front + [c];
      NormalConcat(a, front);
      ConcatChar(a, front, c);
    }
  }

  lemma {:induction false} JoinConcat(a: seq<string>, b: seq<string>)
    requires a != [] && b != []
    ensures Join(a + b) == Join(a) + "\n" + Join(b)
  {
    var n := |b| - 1;
    if n == 0 {
      assert (a + b)[..|a|] == a;
    } else {
      JoinConcat(a, b[..n]);
      assert (a + b)[..|a + b| - 1] == a + b[..n];
    }
  }

  predicate NoBreaks(lines: seq<string>) {
    forall i :: 0 <= i < |lines| ==> NoBreak(lines[i])
  }

  lemma {:induction false} NoBreaksConcat(a: seq<string>, b: seq<string>)
    requires NoBreaks(a) && NoBreaks(b)
    ensures NoBreaks(a + b)
  {
  }

  lemma {:induction false} NoBreakIsClean(lines: seq<string>)
    requires NoBreaks(lines)
    ensures Clean(lines)
  {
    assert Break('\n');
  }

  lemma {:induction false} JoinedOnlyNewlines(lines: seq<string>)
    requires NoBreaks(lines)
    ensures OnlyNewlines(Join(lines))
  {
    if |lines| > 1 {
      JoinedOnlyNewlines(lines[..|lines| - 1]);
    }
  }

  lemma {:induction false} PrintedText(head: seq<string>, body: string)
    requires head != []
    ensures Join(head + [body, ""]) == Join(head) + "\n" + (body + "\n")
  {
    assert [body, ""][..1] == [body];
    assert Join([body, ""]) == body + "\n" + "";
    JoinConcat(head, [body, ""]);
  }

  lemma {:induction false} NormalEnd(body: string)
    requires body != "" ==> !Break(body[|body| - 1])
    ensures Normal(body + "\n") == Normal(body) + "\n"
  {
    assert Break('\r') && Break('\n');
    NormalChar(body, '\n');
  }

  // A head of single lines, a text that ends in no break, and a last newline.
  lemma {:induction false} PrintedNormal(head: seq<string>, body: string)
    requires head != [] && NoBreaks(head) && (body != "" ==> !Break(body[|body| - 1]))
    ensures Normal(Join(head + [body, ""])) == Join(head) + "\n" + (Normal(body) + "\n")
  {
    var top := Join(head) + "\n";
    PrintedText(head, body);
    JoinedOnlyNewlines(head);
    NormalSame(top);
    assert top[|top| - 1] == '\n';
    NormalConcat(top, body + "\n");
    NormalEnd(body);
  }

  lemma {:induction false} SplitLastNewline(text: string)
    ensures Split(text + "\n") == Split(text) + [""]
  {
    SplitAtNewline(text, "");
    assert text + "\n" + "" == text + "\n";
  }

  // Read back, the head's lines are as printed and the text is cut at its own breaks.
  lemma {:induction false} PrintedReadsBack(head: seq<string>, body: string)
    requires head != [] && NoBreaks(head) && (body != "" ==> !Break(body[|body| - 1]))
    ensures SplitLines(Join(head + [body, ""])) == head + Split(Normal(body))
  {
    PrintedNormal(head, body);
    NoBreakIsClean(head);
    SplitJoin(head);
    var text := Normal(body);
    SplitAtNewline(Join(head), text + "\n");
    SplitLastNewline(text);
    assert head + (Split(text) + [""]) == head + Split(text) + [""];
    assert (head + Split(text) + [""])[..|head + Split(text)|] == head + Split(text);
  }

  // Lines without breaks are the lines of the text they are joined to.
  lemma {:induction false} LinesReadBack(lines: seq<string>)
    requires lines != [] && NoBreaks(lines)
    ensures SplitLines(Join(lines + [""])) == lines
  {
    var all := lines + [""];
    JoinedOnlyNewlines(all);
    NormalSame(Join(all));
    NoBreakIsClean(all);
    SplitJoin(all);
    assert all[..|lines|] == lines;
  }

  lemma {:induction false} SplitNoBreaks(t: string)
    requires OnlyNewlines(t)
    ensures NoBreaks(Split(t))
  {
    if t != "" {
      SplitNoBreaks(t[..|t| - 1]);
    }
  }

  lemma {:induction false} TrimOnlyNewlines(t: string)
    requires OnlyNewlines(t)
    ensures OnlyNewlines(Trim(t))
  {
    TrimStartOnlyNewlines(t);
    TrimEndOnlyNewlines(TrimStart(t));
  }

  lemma {:induction false} TrimStartOnlyNewlines(t: string)
    requires OnlyNewlines(t)
    ensures OnlyNewlines(TrimStart(t))
  {
    if t != "" { TrimStartOnlyNewlines(t[1..]); }
  }

  lemma {:induction false} TrimEndOnlyNewlines(t: string)
    requires OnlyNewlines(t)
    ensures OnlyNewlines(TrimEnd(t))
  {
    if t != "" { TrimEndOnlyNewlines(t[..|t| - 1]); }
  }

  lemma {:induction false} TrimAfterSpace(c: char, s: string)
    requires Space(c)
    ensures Trim([c] + s) == Trim(s)
  {
    assert ([c] + s)[1..] == s;
  }

  lemma {:induction false} TrimStartBeforeSpace(s: string, c: char)
    requires Space(c)
    ensures TrimStart(s + [c]) == if TrimStart(s) == "" then "" else TrimStart(s) + [c]
  {
    if s == "" {
      assert s + [c] == [c] && [c][1..] == "";
    } else if Space(s[0]) {
      TrimStartBeforeSpace(s[1..], c);
      assert (s + [c])[1..] == s[1..] + [c];
    }
  }

  lemma {:induction false} TrimBeforeSpace(s: string, c: char)
    requires Space(c)
    ensures Trim(s + [c]) == Trim(s)
  {
    TrimStartBeforeSpace(s, c);
    assert (TrimStart(s) + [c])[..|TrimStart(s)|] == TrimStart(s);
  }

  // ---------------------------------------------------------- lines by their text

  // The lines that are not blank, each trimmed, of those `keep` holds for.
  function Chosen(lines: seq<string>, keep: string -> bool): seq<string> {
    if lines == [] then [] else
      var n := |lines| - 1;
      Chosen(lines[..n], keep) + ChosenOf(lines[n], keep)
  }

  function ChosenOf(line: string, keep: string -> bool): seq<string> {
    if Trim(line) != "" && keep(Trim(line)) then [Trim(line)] else []
  }

  lemma {:induction false} ChosenMore(lines: seq<string>, line: string, keep: string -> bool)
    ensures Chosen(lines + [line], keep) == Chosen(lines, keep) + ChosenOf(line, keep)
  {
    assert (lines + [line])[..|lines|] == lines;
  }

  lemma {:induction false} ChosenConcat(a: seq<string>, b: seq<string>, keep: string -> bool)
    ensures Chosen(a + b, keep) == Chosen(a, keep) + Chosen(b, keep)
  {
    if b == [] {
      assert a + b == a;
    } else {
      var front, last := b[..|b| - 1], b[|b| - 1];
      ChosenConcat(a, front, keep);
      ChosenMore(a + front, last, keep);
      AppendedLast(a, b);
      Regrouped(Chosen(a, keep), Chosen(front, keep), ChosenOf(last, keep));
    }
  }

  lemma {:induction false} AppendedLast(a: seq<string>, b: seq<string>)
    requires b != []
    ensures a + b == a + b[..|b| - 1] + [b[|b| - 1]]
  {
  }

  lemma {:induction false} Regrouped(a: seq<string>, b: seq<string>, c: seq<string>)
    ensures a + b + c == a + (b + c)
  {
  }

  lemma {:induction false} ChosenOne(line: string, keep: string -> bool)
    ensures Chosen([line], keep) == ChosenOf(line, keep)
  {
    assert [line][..0] == [];
  }

  lemma {:induction false} ChosenFilled(rows: seq<string>, keep: string -> bool)
    requires rows != []
    ensures Chosen(Filled(rows), keep) == Chosen(rows, keep)
  {
  }

  lemma {:induction false} SplitChar(c: char)
    ensures Split([c]) == if c == '\n' then ["", ""] else [[c]]
  {
    assert [c][..0] == "";
    var r := Split("");
    assert r == [""] && r[..0] == [];
    assert r[0] + [c] == [c];
  }

  lemma {:induction false} WeldFirst(a: string, b: seq<string>)
    requires b != []
    ensures Weld([a], b) == [a + b[0]] + b[1..]
    ensures Weld(["", ""], b) == [""] + b
  {
    assert "" + b[0] == b[0];
    assert [b[0]] + b[1..] == b;
  }

  lemma {:induction false} SplitAfter(c: char, t: string)
    ensures var b := Split(t);
            Split([c] + t) == if c == '\n' then [""] + b else [[c] + b[0]] + b[1..]
  {
    SplitAppend([c], t);
    SplitChar(c);
    WeldFirst([c], Split(t));
  }

  // A blank before a text, or behind it, changes none of its lines but by blanks.
  lemma {:induction false} SpaceBefore(c: char, t: string, keep: string -> bool)
    requires Space(c)
    ensures Chosen(Split([c] + t), keep) == Chosen(Split(t), keep)
  {
    SplitAfter(c, t);
    BlankBefore(c, Split(t), keep);
  }

  lemma {:induction false} BlankBefore(c: char, b: seq<string>, keep: string -> bool)
    requires Space(c) && b != []
    ensures Chosen(if c == '\n' then [""] + b else [[c] + b[0]] + b[1..], keep) == Chosen(b, keep)
  {
    if c == '\n' {
      ChosenConcat([""], b, keep);
      ChosenOne("", keep);
    } else {
      FirstLineSpaced(c, b[0], b[1..], keep);
      assert b == [b[0]] + b[1..];
    }
  }

  lemma {:induction false} FirstLineSpaced(c: char, first: string, rest: seq<string>, keep: string -> bool)
    requires Space(c)
    ensures Chosen([[c] + first] + rest, keep) == Chosen([first] + rest, keep)
  {
    ChosenConcat([[c] + first], rest, keep);
    ChosenConcat([first], rest, keep);
    ChosenOne([c] + first, keep);
    ChosenOne(first, keep);
    TrimAfterSpace(c, first);
  }

  lemma {:induction false} SpaceBehind(t: string, c: char, keep: string -> bool)
    requires Space(c)
    ensures Chosen(Split(t + [c]), keep) == Chosen(Split(t), keep)
  {
    var r := Split(t);
    var n := |r| - 1;
    assert (t + [c])[..|t|] == t;
    if c == '\n' {
      ChosenConcat(r, [""], keep);
      ChosenOne("", keep);
    } else {
      TrimBeforeSpace(r[n], c);
      ChosenConcat(r[..n], [r[n] + [c]], keep);
      ChosenOne(r[n] + [c], keep);
    }
  }

  lemma {:induction false} ChosenTrimStart(t: string, keep: string -> bool)
    ensures Chosen(Split(TrimStart(t)), keep) == Chosen(Split(t), keep)
  {
    if t != "" && Space(t[0]) {
      ChosenTrimStart(t[1..], keep);
      assert t == [t[0]] + t[1..];
      SpaceBefore(t[0], t[1..], keep);
    }
  }

  lemma {:induction false} TrimEndMore(front: string, c: char)
    requires Space(c)
    ensures TrimEnd(front + [c]) == TrimEnd(front)
  {
    assert (front + [c])[..|front|] == front;
  }

  lemma {:induction false} ChosenTrimEnd(t: string, keep: string -> bool)
    ensures Chosen(Split(TrimEnd(t)), keep) == Chosen(Split(t), keep)
  {
    if t != "" && Space(t[|t| - 1]) {
      var front, c := t[..|t| - 1], t[|t| - 1];
      assert front + [c] == t;
      TrimEndMore(front, c);
      SpaceBehind(front, c, keep);
      ChosenTrimEnd(front, keep);
    }
  }

  lemma {:induction false} SplitLinesNoBreaks(t: string)
    ensures NoBreaks(SplitLines(t))
  {
    NormalShape(t);
    SplitNoBreaks(Normal(t));
  }

  // Lines without breaks, joined and trimmed, are cut into the same lines up to blanks.
  lemma {:induction false} JoinedReadsBack(lines: seq<string>, keep: string -> bool)
    requires NoBreaks(lines)
    ensures Chosen(SplitLines(Trim(Join(lines))), keep) == Chosen(lines, keep)
  {
    var t := Join(lines);
    JoinedOnlyNewlines(lines);
    TrimOnlyNewlines(t);
    NormalSame(Trim(t));
    ChosenFilled(Split(Trim(t)), keep);
    ChosenTrimEnd(TrimStart(t), keep);
    ChosenTrimStart(t, keep);
    if lines == [] {
      ChosenOne("", keep);
    } else {
      NoBreakIsClean(lines);
      SplitJoin(lines);
    }
  }
}
