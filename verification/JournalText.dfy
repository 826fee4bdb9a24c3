// Lines of a journal file, and the string whose digest witnesses a prefix of them.
module JournalText {

  // Pieces between newlines; never empty.
  function Split(s: string): (r: seq<string>)
    ensures r != []
  {
    if s == [] then [""] else
      var r := Split(s[..|s| - 1]);
      var c := s[|s| - 1];
      if c == '\n' then r + [""] else r[..|r| - 1] + [r[|r| - 1] + [c]]
  }

  function StripCr(line: string): string {
    if line != "" && line[|line| - 1] == '\r' then line[..|line| - 1] else line
  }

  function StripAll(lines: seq<string>): (r: seq<string>)
    ensures |r| == |lines|
  {
    seq(|lines|, i requires 0 <= i < |lines| => StripCr(lines[i]))
  }

  // The empty piece after a final newline is not a line.
  function Filled(r: seq<string>): seq<string>
    requires r != []
  {
    if r[|r| - 1] == "" then r[..|r| - 1] else r
  }

  // Physical lines.
  function Lines(text: string): seq<string> {
    StripAll(Filled(Split(text)))
  }

  predicate NoNewline(s: string) {
    forall i :: 0 <= i < |s| ==> s[i] != '\n'
  }

  predicate Clean(lines: seq<string>) {
    forall i :: 0 <= i < |lines| ==> NoNewline(lines[i])
  }

  lemma {:induction false} SplitClean(s: string)
    ensures Clean(Split(s))
  {
    if s != [] { SplitClean(s[..|s| - 1]); }
  }

  lemma {:induction false} LinesClean(text: string)
    ensures Clean(Lines(text))
  {
    SplitClean(text);
  }

  predicate Terminated(text: string) {
    text == "" || text[|text| - 1] == '\n'
  }

  // What a split becomes when the piece at the seam is the join of two.
  function Weld(a: seq<string>, b: seq<string>): seq<string>
    requires a != [] && b != []
  {
    a[..|a| - 1] + [a[|a| - 1] + b[0]] + b[1..]
  }

  lemma {:induction false} WeldNewPiece(a: seq<string>, b: seq<string>)
    requires a != [] && b != []
    ensures Weld(a, b) + [""] == Weld(a, b + [""])
  {
    assert (b + [""])[1..] == b[1..] + [""];
  }

  // Lengthening the last piece.
  function Longer(r: seq<string>, c: char): seq<string>
    requires r != []
  {
    r[..|r| - 1] + [r[|r| - 1] + [c]]
  }

  lemma {:induction false} WeldLongerOne(a: seq<string>, b: string, c: char)
    requires a != []
    ensures Longer(Weld(a, [b]), c) == Weld(a, Longer([b], c))
  {
    var front, last := a[..|a| - 1], a[|a| - 1];
    assert Weld(a, [b]) == front + [last + b];
    assert (front + [last + b])[..|a| - 1] == front;
    assert last + b + [c] == last + (b + [c]);
    assert Longer([b], c) == [b + [c]];
  }

  lemma {:induction false} WeldLonger(a: seq<string>, b: seq<string>, c: char)
    requires a != [] && |b| > 1
    ensures Longer(Weld(a, b), c) == Weld(a, Longer(b, c))
  {
    var head, n := a[..|a| - 1] + [a[|a| - 1] + b[0]], |b| - 1;
    assert (head + b[1..])[..|head + b[1..]| - 1] == head + b[1..n];
    assert Longer(b, c)[1..] == b[1..n] + [b[n] + [c]];
  }

  lemma {:induction false} SplitAppend(a: string, b: string)
    ensures Split(a + b) == Weld(Split(a), Split(b))
  {
    var ra := Split(a);
    if b == "" {
      assert a + b == a;
      assert ra[|ra| - 1] + "" == ra[|ra| - 1];
    } else {
      var n := |b| - 1;
      assert (a + b)[..|a + b| - 1] == a + b[..n];
      SplitAppend(a, b[..n]);
      var rb := Split(b[..n]);
      if b[n] == '\n' {
        WeldNewPiece(ra, rb);
      } else if |rb| == 1 {
        WeldLongerOne(ra, rb[0], b[n]);
      } else {
        WeldLonger(ra, rb, b[n]);
      }
    }
  }

  lemma {:induction false} FilledConcat(front: seq<string>, b: seq<string>)
    requires b != []
    ensures Filled(front + b) == front + Filled(b)
  {
    assert (front + b)[..|front + b| - 1] == front + b[..|b| - 1];
  }

  lemma {:induction false} StripConcat(a: seq<string>, b: seq<string>)
    ensures StripAll(a + b) == StripAll(a) + StripAll(b)
  {
  }

  lemma {:induction false} TerminatedSplit(text: string)
    ensures Terminated(text) <==> Split(text)[|Split(text)| - 1] == ""
  {
  }

  lemma {:induction false} WeldAtLineEnd(a: seq<string>, b: seq<string>)
    requires a != [] && b != [] && a[|a| - 1] == ""
    ensures Weld(a, b) == a[..|a| - 1] + b
  {
    assert "" + b[0] == b[0];
    assert b == [b[0]] + b[1..];
  }

  // Appending to a file that ends with a newline leaves its lines as they are.
  lemma {:induction false} AppendKeepsLines(text: string, more: string)
    requires Terminated(text)
    ensures Lines(text + more) == Lines(text) + Lines(more)
  {
    SplitAppend(text, more);
    TerminatedSplit(text);
    var a, b := Split(text), Split(more);
    WeldAtLineEnd(a, b);
    var front := a[..|a| - 1];
    FilledConcat(front, b);
    StripConcat(front, Filled(b));
  }

  // Without the newline all lines but the last stay; the last one is continued.
  lemma {:induction false} AppendContinuesLastLine(text: string, more: string)
    requires !Terminated(text)
    ensures Lines(text) != [] && |Lines(text)| <= |Lines(text + more)|
    ensures Lines(text + more)[..|Lines(text)| - 1] == Lines(text)[..|Lines(text)| - 1]
  {
    SplitAppend(text, more);
    var a, b := Split(text), Split(more);
    var r := Split(text + more);
    assert r[..|a| - 1] == a[..|a| - 1];
    assert |r| == |a| + |b| - 1;
    assert a[|a| - 1] != "";
  }

  // ---------------------------------------------------------- the witness

  function Digit(c: char): nat {
    if '0' <= c <= '9' then c as int - 48 else 0
  }

  function NextDigit(c: char): char {
    if '0' <= c < '9' then (c as int + 1) as char else '0'
  }

  // One more, written in decimal: a final 9 becomes 0 and carries.
  function Increment(s: string): string {
    if s == "" then "1"
    else if s[|s| - 1] == '9' then Increment(s[..|s| - 1]) + "0"
    else s[..|s| - 1] + [NextDigit(s[|s| - 1])]
  }

  // The decimal numeral of n. Counted up, since division by ten makes the proofs slow.
  function Decimal(n: nat): string {
    if n == 0 then "0" else Increment(Decimal(n - 1))
  }

  predicate Digits(s: string) {
    forall i :: 0 <= i < |s| ==> '0' <= s[i] <= '9'
  }

  function Value(s: string): nat {
    if s == "" then 0 else 10 * Value(s[..|s| - 1]) + Digit(s[|s| - 1])
  }

  function Join(lines: seq<string>): string {
    if lines == [] then ""
    else if |lines| == 1 then lines[0]
    else Join(lines[..|lines| - 1]) + "\n" + lines[|lines| - 1]
  }

  // What is hashed: the number of lines, then the lines.
  function Material(lines: seq<string>): string {
    Decimal(|lines|) + "\n" + Join(lines)
  }

  lemma {:induction false} ValueOneMore(s: string, c: char)
    ensures Value(s + [c]) == 10 * Value(s) + Digit(c)
  {
    assert (s + [c])[..|s|] == s;
  }

  lemma {:induction false} IncrementValue(s: string)
    requires Digits(s)
    ensures Increment(s) != "" && Digits(Increment(s)) && Value(Increment(s)) == Value(s) + 1
  {
    if s == "" {
      assert "" + ['1'] == "1";
      ValueOneMore("", '1');
    } else {
      var front, c := s[..|s| - 1], s[|s| - 1];
      if c == '9' {
        IncrementValue(front);
        ValueOneMore(Increment(front), '0');
      } else {
        ValueOneMore(front, NextDigit(c));
      }
    }
  }

  lemma {:induction false} DecimalValue(n: nat)
    ensures Decimal(n) != "" && Digits(Decimal(n)) && Value(Decimal(n)) == n
  {
    if n == 0 {
      assert "" + ['0'] == "0";
      ValueOneMore("", '0');
    } else {
      DecimalValue(n - 1);
      IncrementValue(Decimal(n - 1));
    }
  }

  lemma {:induction false} DecimalClean(n: nat)
    ensures NoNewline(Decimal(n)) && Decimal(n) != ""
  {
    DecimalValue(n);
  }

  lemma {:induction false} DecimalInjective(m: nat, n: nat)
    requires Decimal(m) == Decimal(n)
    ensures m == n
  {
    DecimalValue(m);
    DecimalValue(n);
  }

  // The first newline of a string sits where its newline-free head ends.
  lemma {:induction false} HeadBound(a: string, s: string, i: nat)
    requires NoNewline(a) && i < |a + "\n" + s| && (a + "\n" + s)[i] == '\n'
    ensures |a| <= i
  {
    assert forall j: nat | j < |a| :: (a + "\n" + s)[j] == a[j];
  }

  lemma {:induction false} TailBound(a: string, s: string, i: nat)
    requires NoNewline(s) && i < |a + "\n" + s| && (a + "\n" + s)[i] == '\n'
    ensures i <= |a|
  {
    var x := a + "\n" + s;
    assert forall j: nat | |a| < j < |x| :: x[j] == s[j - |a| - 1];
  }

  lemma {:induction false} SameSeam(a: string, s: string, b: string, t: string)
    requires |a| == |b| && a + "\n" + s == b + "\n" + t
    ensures a == b && s == t
  {
    var x, y := a + "\n" + s, b + "\n" + t;
    assert x[..|a|] == a && y[..|b|] == b;
    assert x[|a| + 1..] == s && y[|b| + 1..] == t;
  }

  // Two strings around their first newline are equal piece by piece.
  lemma {:induction false} FirstNewline(a: string, s: string, b: string, t: string)
    requires NoNewline(a) && NoNewline(b) && a + "\n" + s == b + "\n" + t
    ensures a == b && s == t
  {
    HeadBound(a, s, |b|);
    HeadBound(b, t, |a|);
    SameSeam(a, s, b, t);
  }

  // And around their last.
  lemma {:induction false} LastNewline(a: string, s: string, b: string, t: string)
    requires NoNewline(s) && NoNewline(t) && a + "\n" + s == b + "\n" + t
    ensures a == b && s == t
  {
    TailBound(a, s, |b|);
    TailBound(b, t, |a|);
    SameSeam(a, s, b, t);
  }

  lemma {:induction false} JoinInjective(a: seq<string>, b: seq<string>)
    requires |a| == |b| && Clean(a) && Clean(b) && Join(a) == Join(b)
    ensures a == b
  {
    if |a| == 1 {
      assert a == [a[0]] && b == [b[0]];
    } else if |a| > 1 {
      var n := |a| - 1;
      LastNewline(Join(a[..n]), a[n], Join(b[..n]), b[n]);
      JoinInjective(a[..n], b[..n]);
      assert a == a[..n] + [a[n]] && b == b[..n] + [b[n]];
    }
  }

  // A prefix is recognised by its witness and by nothing else.
  lemma {:induction false} MaterialInjective(a: seq<string>, b: seq<string>)
    requires Clean(a) && Clean(b) && Material(a) == Material(b)
    ensures a == b
  {
    DecimalClean(|a|);
    DecimalClean(|b|);
    FirstNewline(Decimal(|a|), Join(a), Decimal(|b|), Join(b));
    DecimalInjective(|a|, |b|);
    JoinInjective(a, b);
  }

  // ---------------------------------------------------------- lines and text

  lemma {:induction false} SplitAtNewline(a: string, b: string)
    ensures Split(a + "\n" + b) == Split(a) + Split(b)
  {
    SplitAppend(a, "\n");
    assert "\n"[..0] == "" && Split("\n") == [""] + [""];
    assert Weld(Split(a), ["", ""]) == Split(a) + [""] by {
      var r := Split(a);
      assert r[|r| - 1] + "" == r[|r| - 1];
    }
    SplitAppend(a + "\n", b);
    WeldAtLineEnd(Split(a) + [""], Split(b));
    assert (Split(a) + [""])[..|Split(a)|] == Split(a);
  }

  lemma {:induction false} SplitOneLine(s: string)
    requires NoNewline(s)
    ensures Split(s) == [s]
  {
    if s != "" {
      SplitOneLine(s[..|s| - 1]);
      assert s == s[..|s| - 1] + [s[|s| - 1]];
    }
  }

  lemma {:induction false} JoinSplit(s: string)
    ensures Join(Split(s)) == s
  {
    if s != "" {
      var front, c := s[..|s| - 1], s[|s| - 1];
      JoinSplit(front);
      JoinLonger(Split(front), c);
      assert s == front + [c];
    }
  }

  lemma {:induction false} JoinLonger(r: seq<string>, c: char)
    requires r != []
    ensures Join(r + [""]) == Join(r) + "\n"
    ensures Join(Longer(r, c)) == Join(r) + [c]
  {
    assert (r + [""])[..|r|] == r;
    var longer := Longer(r, c);
    assert longer[..|r| - 1] == r[..|r| - 1];
  }

  // Joining lines and splitting again gives the lines.
  lemma {:induction false} SplitJoin(lines: seq<string>)
    requires lines != [] && Clean(lines)
    ensures Split(Join(lines)) == lines
  {
    var n := |lines| - 1;
    SplitOneLine(lines[n]);
    if n == 0 {
      assert lines == [lines[0]];
    } else {
      SplitJoin(lines[..n]);
      SplitAtNewline(Join(lines[..n]), lines[n]);
      assert lines == lines[..n] + [lines[n]];
    }
  }
}
