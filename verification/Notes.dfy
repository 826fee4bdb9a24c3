// How rows of a conversation are printed: for the notes of a summary call, and for the raw dump written
// to the history when the call fails.
module Notes {
  import opened JournalText

  // A conversation row as the notes print it; `driver` marks the plan driver's own messages.
  datatype Row = Row(timestamp: string, speaker: string, tools: seq<string>, content: string, driver: bool)

  function Cut(s: string, n: nat): string {
    if |s| <= n then s else s[..n]
  }

  function Comma(items: seq<string>): string {
    if items == [] then "" else if |items| == 1 then items[0]
    else Comma(items[..|items| - 1]) + ", " + items[|items| - 1]
  }

  // Rows without content, and the driver's, are not printed.
  predicate Printed(m: Row) {
    m.content != "" && !m.driver
  }

  function Line(m: Row): (r: string)
    ensures r != ""
  {
    "[" + Cut(m.timestamp, 16) + "] " + m.speaker
    + (if m.tools == [] then "" else " [tools: " + Comma(m.tools) + "]") + ": " + m.content
  }

  function Lines(ms: seq<Row>): seq<string> {
    if ms == [] then [] else
      var m := ms[|ms| - 1];
      Lines(ms[..|ms| - 1]) + if Printed(m) then [Line(m)] else []
  }

  function Format(ms: seq<Row>): string {
    Join(Lines(ms))
  }

  lemma {:induction false} JoinNonEmpty(lines: seq<string>)
    requires forall i :: 0 <= i < |lines| ==> lines[i] != ""
    ensures Join(lines) == "" <==> lines == []
  {
  }

  lemma {:induction false} LinesNonEmpty(ms: seq<Row>)
    ensures forall i :: 0 <= i < |Lines(ms)| ==> Lines(ms)[i] != ""
  {
    if ms != [] { LinesNonEmpty(ms[..|ms| - 1]); }
  }

  function Cost(m: Row): nat {
    |Format([m])|
  }

  lemma {:induction false} CostIs(m: Row)
    ensures Cost(m) == if Printed(m) then |Line(m)| else 0
  {
    var one := [m];
    assert one[..|one| - 1] == [];
    assert Lines(one[..|one| - 1]) == [];
    assert Lines(one) == [] + if Printed(m) then [Line(m)] else [];
    var line := Line(m);
    assert Join([line]) == line;
  }

  // One more row costs its own text, and a newline when there is text before it.
  lemma {:induction false} FormatStep(ms: seq<Row>, n: nat)
    requires n < |ms|
    ensures var before := |Format(ms[..n])|; var cost := Cost(ms[n]);
            |Format(ms[..n + 1])| == before + cost + if cost > 0 && before > 0 then 1 else 0
  {
    CostIs(ms[n]);
    var lines := Lines(ms[..n]);
    LinesNonEmpty(ms[..n]);
    JoinNonEmpty(lines);
    assert ms[..n + 1][..n] == ms[..n];
    if Printed(ms[n]) {
      var more := lines + [Line(ms[n])];
      assert more[..|more| - 1] == lines;
      assert Lines(ms[..n + 1]) == more;
      assert lines == [] ==> Join(more) == Line(ms[n]);
    } else {
      assert Lines(ms[..n + 1]) == lines;
    }
  }

  // ---------------------------------------------------------- the raw dump

  const RAW_ARCHIVE_MAX_CHARS: nat := 16000
  const TRUNCATED: string := "\n... (truncated)"

  // What a failed summary call leaves in the history: the rows as printed, cut.
  function Dump(rows: seq<Row>): string {
    var text := Format(rows);
    if |text| <= RAW_ARCHIVE_MAX_CHARS then text else text[..RAW_ARCHIVE_MAX_CHARS] + TRUNCATED
  }

  // The cut spares row i: it prints nothing, or it is printed up to its end before the cut.
  predicate Whole(rows: seq<Row>, i: nat)
    requires i < |rows|
  {
    !Printed(rows[i]) || |Format(rows[..i + 1])| <= RAW_ARCHIVE_MAX_CHARS
  }

  lemma {:induction false} FormatMore(rows: seq<Row>, m: Row)
    ensures var before := Format(rows);
            Format(rows + [m]) ==
            if !Printed(m) then before else (if before == "" then "" else before + "\n") + Line(m)
  {
    var lines := Lines(rows);
    assert (rows + [m])[..|rows|] == rows;
    LinesNonEmpty(rows);
    JoinNonEmpty(lines);
    if Printed(m) {
      assert (lines + [Line(m)])[..|lines|] == lines;
      assert lines == [] ==> Join(lines + [Line(m)]) == Line(m);
    } else {
      assert Lines(rows + [m]) == lines;
    }
  }

  lemma {:induction false} FormatPrefix(rows: seq<Row>, k: nat)
    requires k <= |rows|
    ensures Format(rows[..k]) <= Format(rows)
  {
    if k < |rows| {
      var n := |rows| - 1;
      FormatPrefix(rows[..n], k);
      assert rows[..n][..k] == rows[..k] && rows == rows[..n] + [rows[n]];
      FormatMore(rows[..n], rows[n]);
    } else {
      assert rows[..k] == rows;
    }
  }

  lemma {:induction false} SamePlace(a: string, b: string, from: nat, to: nat)
    requires a <= b && from <= to <= |a|
    ensures a[from..to] == b[from..to]
  {
  }

  lemma {:induction false} LineEnds(rows: seq<Row>, i: nat)
    requires i < |rows| && Printed(rows[i])
    ensures var upTo, line := Format(rows[..i + 1]), Line(rows[i]);
            |line| <= |upTo| && upTo[|upTo| - |line|..] == line
  {
    assert rows[..i + 1] == rows[..i] + [rows[i]];
    FormatMore(rows[..i], rows[i]);
  }

  // A printed row has its place in the text, and it stands there in the dump exactly when the cut spares it.
  lemma {:induction false} DumpKeepsWholeRows(rows: seq<Row>, i: nat)
    requires i < |rows| && Printed(rows[i])
    ensures var text, end, line := Format(rows), |Format(rows[..i + 1])|, Line(rows[i]);
            && |line| <= end <= |text| && text[end - |line|..end] == line
            && (Whole(rows, i) ==> end <= |Dump(rows)| && Dump(rows)[end - |line|..end] == line)
            && (!Whole(rows, i) ==> RAW_ARCHIVE_MAX_CHARS < end && Dump(rows) == text[..RAW_ARCHIVE_MAX_CHARS] + TRUNCATED)
  {
    var text, upTo := Format(rows), Format(rows[..i + 1]);
    var from := |upTo| - |Line(rows[i])|;
    LineEnds(rows, i);
    FormatPrefix(rows, i + 1);
    SamePlace(upTo, text, from, |upTo|);
    if Whole(rows, i) && |text| > RAW_ARCHIVE_MAX_CHARS {
      assert upTo <= Dump(rows);
      SamePlace(upTo, Dump(rows), from, |upTo|);
    }
  }

  // One row alone is whole unless its line is longer than a dump may be.
  lemma {:induction false} OneRowWhole(m: Row)
    ensures Whole([m], 0) <==> !Printed(m) || |Line(m)| <= RAW_ARCHIVE_MAX_CHARS
  {
    CostIs(m);
    var one := [m];
    assert one[..1] == one && one[0] == m;
  }
}
