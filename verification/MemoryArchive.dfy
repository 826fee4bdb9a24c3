// The text form of a fact in cold storage: a header of fields, then the fact. Files are lists of lines.
module MemoryArchive {
  import opened JournalText
  import opened Journal
  import opened TextLines

  const SEPARATOR: string := "---"

  datatype Entry = Entry(
    id: string, text: string, source: string, heading: string, retention: string, demoted: string,
    supersededBy: string, retracted: bool)

  type Fields = map<string, string>

  datatype Parsed = Parsed(fields: Fields, body: string)

  function Get(fields: Fields, key: string): string {
    if key in fields then fields[key] else ""
  }

  // ---------------------------------------------------------- parsing

  function Colon(line: string): (r: nat)
    ensures r <= |line|
    ensures r < |line| ==> line[r] == ':'
  {
    if line == "" || line[0] == ':' then 0 else Colon(line[1..]) + 1
  }

  function WithField(fields: Fields, line: string): Fields {
    var c := Colon(line);
    if c == |line| then fields else fields[Trim(line[..c]) := Trim(line[c + 1..])]
  }

  function FieldsOf(lines: seq<string>, fields: Fields): Fields {
    if lines == [] then fields else WithField(FieldsOf(lines[..|lines| - 1], fields), lines[|lines| - 1])
  }

  predicate IsSeparator(line: string) {
    Trim(line) == SEPARATOR
  }

  // The first separator at or after line i.
  function Close(lines: seq<string>, i: nat): (r: nat)
    requires i <= |lines|
    ensures i <= r <= |lines|
    ensures r < |lines| ==> IsSeparator(lines[r])
    ensures forall k :: i <= k < r ==> !IsSeparator(lines[k])
    decreases |lines| - i
  {
    if i == |lines| || IsSeparator(lines[i]) then i else Close(lines, i + 1)
  }

  predicate HasHeader(lines: seq<string>) {
    lines != [] && IsSeparator(lines[0])
  }

  // A file without a header is all body; one whose header is never closed has none.
  function Parse(lines: seq<string>): Parsed {
    if !HasHeader(lines) then Parsed(map[], Trim(Join(lines))) else
      var c := Close(lines, 1);
      Parsed(FieldsOf(lines[1..c], map[]), if c == |lines| then "" else Trim(Join(lines[c + 1..])))
  }

  method ParseArchived(lines: seq<string>) returns (r: Parsed)
    ensures r == Parse(lines)
  {
    if lines == [] || Trim(lines[0]) != SEPARATOR {
      return Parsed(map[], Trim(Join(lines)));
    }
    var fields: Fields := map[];
    var i := 1;
    while i < |lines|
      invariant 1 <= i <= |lines|
      invariant fields == FieldsOf(lines[1..i], map[])
      invariant Close(lines, 1) == Close(lines, i)
    {
      if Trim(lines[i]) == SEPARATOR {
        return Parsed(fields, Trim(Join(lines[i + 1..])));
      }
      assert lines[1..i + 1][..i - 1] == lines[1..i];
      fields := WithField(fields, lines[i]);
      i := i + 1;
    }
    r := Parsed(fields, "");
  }

  // ---------------------------------------------------------- printing

  function FieldLine(key: string, value: string): string {
    key + ": " + value
  }

  function Line(key: string, value: string): seq<string> {
    if value == "" then [] else [FieldLine(key, value)]
  }

  function Yes(retracted: bool): string {
    if retracted then "yes" else ""
  }

  function Head(e: Entry): seq<string> {
    Line("id", e.id) + Line("source", e.source) + Line("heading", e.heading) + Line("retention", e.retention)
    + Line("demoted", e.demoted) + Line("superseded_by", e.supersededBy) + Line("retracted", Yes(e.retracted))
  }

  function WithHeader(head: seq<string>, body: seq<string>): seq<string> {
    [SEPARATOR] + head + [SEPARATOR, ""] + body
  }

  predicate Bulleted(text: string) {
    |text| > 1 && (text[0] == '-' || text[0] == '*') && (text[1] == ' ' || text[1] == '\t')
  }

  // The fact without its bullet and the blanks around it.
  function Bare(text: string): string {
    if Bulleted(Trim(text)) then Trim(Trim(text)[1..]) else Trim(text)
  }

  // A dash or a star with a blank or a tab behind it, and nothing else, is a bullet.
  lemma {:induction false} BareIs(text: string)
    ensures var t := Trim(text);
            Bare(text) == if "- " <= t || "* " <= t || "-\t" <= t || "*\t" <= t then Trim(t[2..]) else t
  {
    var t := Trim(text);
    assert Bulleted(t) <==> "- " <= t || "* " <= t || "-\t" <= t || "*\t" <= t;
    if Bulleted(t) {
      assert t[1..] == [t[1]] + t[2..];
      TrimAfterSpace(t[1], t[2..]);
    }
  }

  function Rendered(e: Entry): seq<string> {
    WithHeader(Head(e), [Bare(e.text)])
  }

  // ---------------------------------------------------------- trimmed strings

  predicate Tidy(s: string) {
    Trim(s) == s
  }

  predicate EdgesSolid(s: string) {
    s == "" || (!Space(s[0]) && !Space(s[|s| - 1]))
  }

  lemma {:induction false} TidyIff(s: string)
    requires EdgesSolid(s)
    ensures Tidy(s)
  {
  }

  lemma {:induction false} TrimStartSolid(s: string)
    ensures TrimStart(s) == "" || !Space(TrimStart(s)[0])
    ensures TrimStart(s) != "" ==> TrimStart(s)[|TrimStart(s)| - 1] == s[|s| - 1]
    ensures |TrimStart(s)| <= |s|
  {
    if s != "" && Space(s[0]) { TrimStartSolid(s[1..]); }
  }

  lemma {:induction false} TrimEndSolid(s: string)
    ensures TrimEnd(s) == "" || !Space(TrimEnd(s)[|TrimEnd(s)| - 1])
    ensures TrimEnd(s) <= s
  {
    if s != "" && Space(s[|s| - 1]) {
      TrimEndSolid(s[..|s| - 1]);
    }
  }

  lemma {:induction false} TrimIsTidy(s: string)
    ensures EdgesSolid(Trim(s)) && Tidy(Trim(s))
  {
    TrimStartSolid(s);
    TrimEndSolid(TrimStart(s));
    TidyIff(Trim(s));
  }

  lemma {:induction false} TidyEdges(s: string)
    requires Tidy(s)
    ensures EdgesSolid(s)
  {
    TrimIsTidy(s);
  }

  // ---------------------------------------------------------- a field line reads back

  // A key the printer uses: trimmed, not empty, no colon, not starting with a dash.
  predicate Key(key: string) {
    key != "" && EdgesSolid(key) && key[0] != '-' && forall i :: 0 <= i < |key| ==> key[i] != ':'
  }

  lemma {:induction false} ColonAfter(key: string, rest: string)
    requires forall i :: 0 <= i < |key| ==> key[i] != ':'
    ensures Colon(key + ":" + rest) == |key|
  {
    if key == "" {
      assert "" + ":" + rest == ":" + rest;
    } else {
      assert (key + ":" + rest)[1..] == key[1..] + ":" + rest;
      ColonAfter(key[1..], rest);
    }
  }

  lemma {:induction false} FieldLineReadsBack(fields: Fields, key: string, value: string)
    requires Key(key) && Tidy(value)
    ensures WithField(fields, FieldLine(key, value)) == fields[key := value]
  {
    var line := FieldLine(key, value);
    assert line == key + ":" + (" " + value);
    ColonAfter(key, " " + value);
    assert line[..|key|] == key && line[|key| + 1..] == " " + value;
    TidyIff(key);
    TrimAfterSpace(' ', value);
  }

  lemma {:induction false} FieldLineIsNoSeparator(key: string, value: string)
    requires Key(key) && Tidy(value) && value != ""
    ensures !IsSeparator(FieldLine(key, value))
  {
    var line := FieldLine(key, value);
    TidyEdges(value);
    assert line[0] == key[0] && line[|line| - 1] == value[|value| - 1];
    TidyIff(line);
  }

  function Put(fields: Fields, key: string, value: string): Fields {
    if value == "" then fields else fields[key := value]
  }

  // Adding a printed field at the end of a header.
  lemma {:induction false} LineReadsBack(head: seq<string>, fields: Fields, key: string, value: string)
    requires Key(key) && Tidy(value)
    ensures FieldsOf(head + Line(key, value), fields) == Put(FieldsOf(head, fields), key, value)
  {
    if value == "" {
      assert head + Line(key, value) == head;
    } else {
      var more := head + [FieldLine(key, value)];
      assert more[..|more| - 1] == head;
      FieldLineReadsBack(FieldsOf(head, fields), key, value);
    }
  }

  predicate NoSeparator(lines: seq<string>) {
    forall i :: 0 <= i < |lines| ==> !IsSeparator(lines[i])
  }

  lemma {:induction false} LineIsNoSeparator(head: seq<string>, key: string, value: string)
    requires NoSeparator(head) && Key(key) && Tidy(value)
    ensures NoSeparator(head + Line(key, value))
  {
    if value != "" { FieldLineIsNoSeparator(key, value); }
  }

  // ---------------------------------------------------------- a header reads back

  lemma {:induction false} CloseAt(lines: seq<string>, i: nat, c: nat)
    requires i <= c < |lines| && IsSeparator(lines[c])
    requires forall k :: i <= k < c ==> !IsSeparator(lines[k])
    ensures Close(lines, i) == c
    decreases c - i
  {
    if i < c { CloseAt(lines, i + 1, c); }
  }

  lemma {:induction false} SeparatorIsOne()
    ensures IsSeparator(SEPARATOR)
  {
    TidyIff(SEPARATOR);
  }

  lemma {:induction false} HeaderIs(first: string, head: seq<string>, close: string, rest: seq<string>)
    requires IsSeparator(first) && NoSeparator(head) && IsSeparator(close)
    ensures HasHeader([first] + head + [close] + rest)
    ensures Parse([first] + head + [close] + rest) == Parsed(FieldsOf(head, map[]), Trim(Join(rest)))
  {
    var lines := [first] + head + [close] + rest;
    var c := |head| + 1;
    assert forall k :: 1 <= k < c ==> lines[k] == head[k - 1];
    CloseAt(lines, 1, c);
    assert lines[1..c] == head;
    assert lines[c + 1..] == rest;
  }

  lemma {:induction false} WithHeaderIs(head: seq<string>, body: seq<string>)
    ensures WithHeader(head, body) == [SEPARATOR] + head + [SEPARATOR] + ([""] + body)
  {
    assert [SEPARATOR, ""] == [SEPARATOR] + [""];
    assert [SEPARATOR] + head + [SEPARATOR, ""] == [SEPARATOR] + head + [SEPARATOR] + [""];
  }

  lemma {:induction false} HeaderReadsBack(head: seq<string>, body: seq<string>)
    requires NoSeparator(head) && body != [] && Tidy(Join(body))
    ensures HasHeader(WithHeader(head, body))
    ensures Parse(WithHeader(head, body)) == Parsed(FieldsOf(head, map[]), Join(body))
  {
    SeparatorIsOne();
    BodyReadsBack(body);
    HeaderIs(SEPARATOR, head, SEPARATOR, [""] + body);
    WithHeaderIs(head, body);
  }

  lemma {:induction false} BlankLineFirst(body: seq<string>)
    requires body != []
    ensures Join([""] + body) == "\n" + Join(body)
  {
    var all := [""] + body;
    if |body| == 1 {
      assert all[..1] == [""];
    } else {
      assert all[..|all| - 1] == [""] + body[..|body| - 1];
      BlankLineFirst(body[..|body| - 1]);
    }
  }

  lemma {:induction false} BodyReadsBack(body: seq<string>)
    requires body != [] && Tidy(Join(body))
    ensures Trim(Join([""] + body)) == Join(body)
  {
    BlankLineFirst(body);
    TrimAfterSpace('\n', Join(body));
  }

  predicate TidyEntry(e: Entry) {
    Tidy(e.id) && Tidy(e.text) && Tidy(e.source) && Tidy(e.heading) && Tidy(e.retention) && Tidy(e.demoted)
    && Tidy(e.supersededBy)
  }

  lemma {:induction false} KeysAreKeys()
    ensures Key("id") && Key("source") && Key("heading") && Key("retention") && Key("demoted")
    ensures Key("superseded_by") && Key("retracted")
  {
  }

  function HeadFields(e: Entry): Fields {
    Put(Put(Put(Put(Put(Put(Put(map[], "id", e.id), "source", e.source), "heading", e.heading),
      "retention", e.retention), "demoted", e.demoted), "superseded_by", e.supersededBy), "retracted", Yes(e.retracted))
  }

  lemma {:induction false} NextField(head: seq<string>, fields: Fields, key: string, value: string)
    requires NoSeparator(head) && FieldsOf(head, map[]) == fields && Key(key) && Tidy(value)
    ensures NoSeparator(head + Line(key, value)) && FieldsOf(head + Line(key, value), map[]) == Put(fields, key, value)
  {
    LineReadsBack(head, map[], key, value);
    LineIsNoSeparator(head, key, value);
  }

  lemma {:induction false} HeadReadsBack(e: Entry)
    requires TidyEntry(e)
    ensures NoSeparator(Head(e)) && FieldsOf(Head(e), map[]) == HeadFields(e)
  {
    KeysAreKeys();
    TidyIff(Yes(e.retracted));
    var h1 := [] + Line("id", e.id);
    NextField([], map[], "id", e.id);
    var f1 := Put(map[], "id", e.id);
    var h2, f2 := h1 + Line("source", e.source), Put(f1, "source", e.source);
    NextField(h1, f1, "source", e.source);
    var h3, f3 := h2 + Line("heading", e.heading), Put(f2, "heading", e.heading);
    NextField(h2, f2, "heading", e.heading);
    var h4, f4 := h3 + Line("retention", e.retention), Put(f3, "retention", e.retention);
    NextField(h3, f3, "retention", e.retention);
    var h5, f5 := h4 + Line("demoted", e.demoted), Put(f4, "demoted", e.demoted);
    NextField(h4, f4, "demoted", e.demoted);
    var h6, f6 := h5 + Line("superseded_by", e.supersededBy), Put(f5, "superseded_by", e.supersededBy);
    NextField(h5, f5, "superseded_by", e.supersededBy);
    NextField(h6, f6, "retracted", Yes(e.retracted));
    assert [] + Line("id", e.id) == Line("id", e.id);
  }

  lemma {:induction false} KeysDiffer()
    ensures "heading" != "demoted" && "retention" != "retracted"
  {
    assert "heading"[0] != "demoted"[0];
    assert "retention"[3] != "retracted"[3];
  }

  lemma {:induction false} BareIsTidy(text: string)
    ensures Tidy(Bare(text))
    ensures Bare(text) == text <==> Tidy(text) && !Bulleted(text)
  {
    TrimIsTidy(text);
    TrimIsTidy(Trim(text)[if Bulleted(Trim(text)) then 1 else 0..]);
    TrimShrinks(text);
    if Bulleted(Trim(text)) {
      TrimShrinks(Trim(text)[1..]);
    }
  }

  lemma {:induction false} TrimShrinks(s: string)
    ensures |Trim(s)| <= |s|
  {
    TrimStartSolid(s);
    TrimEndSolid(TrimStart(s));
  }

  lemma {:induction false} HeadFieldsHold(e: Entry)
    ensures var f := HeadFields(e);
            && Get(f, "id") == e.id && Get(f, "source") == e.source && Get(f, "heading") == e.heading
            && Get(f, "retention") == e.retention && Get(f, "demoted") == e.demoted
            && Get(f, "superseded_by") == e.supersededBy && Get(f, "retracted") == Yes(e.retracted)
  {
    KeysDiffer();
  }

  // The file's text.
  function Text(e: Entry): string {
    Join(Rendered(e) + [""])
  }

  // Fields are single lines.
  predicate SingleLines(e: Entry) {
    NoBreak(e.id) && NoBreak(e.source) && NoBreak(e.heading) && NoBreak(e.retention) && NoBreak(e.demoted)
    && NoBreak(e.supersededBy)
  }

  lemma {:induction false} LineNoBreak(key: string, value: string)
    requires NoBreak(key) && NoBreak(value)
    ensures NoBreaks(Line(key, value))
  {
  }

  lemma {:induction false} NextNoBreak(head: seq<string>, key: string, value: string)
    requires NoBreaks(head) && NoBreak(key) && NoBreak(value)
    ensures NoBreaks(head + Line(key, value))
  {
    LineNoBreak(key, value);
    NoBreaksConcat(head, Line(key, value));
  }

  lemma {:induction false} HeadNoBreak(e: Entry)
    requires SingleLines(e)
    ensures NoBreaks(Head(e))
  {
    var h := Line("id", e.id);
    LineNoBreak("id", e.id);
    NextNoBreak(h, "source", e.source);
    h := h + Line("source", e.source);
    NextNoBreak(h, "heading", e.heading);
    h := h + Line("heading", e.heading);
    NextNoBreak(h, "retention", e.retention);
    h := h + Line("retention", e.retention);
    NextNoBreak(h, "demoted", e.demoted);
    h := h + Line("demoted", e.demoted);
    NextNoBreak(h, "superseded_by", e.supersededBy);
    h := h + Line("superseded_by", e.supersededBy);
    NextNoBreak(h, "retracted", Yes(e.retracted));
  }

  lemma {:induction false} TopNoBreak(head: seq<string>)
    requires NoBreaks(head)
    ensures NoBreaks([SEPARATOR] + head + [SEPARATOR, ""])
  {
    NoBreaksConcat([SEPARATOR], head);
    NoBreaksConcat([SEPARATOR] + head, [SEPARATOR, ""]);
  }

  // Line breaks are blanks, so a trimmed text ends in none and stays trimmed.
  lemma {:induction false} NormalTidy(t: string)
    requires Tidy(t)
    ensures Tidy(Normal(t)) && (t != "" ==> !Break(t[|t| - 1]))
  {
    TidyEdges(t);
    if t != "" {
      assert t == t[..1] + t[1..];
      assert Break('\r') && !Break(t[0]);
      NormalConcat(t[..1], t[1..]);
      assert t[..1][..0] == "" && Normal(t[..1]) == t[..1];
      TidyIff(Normal(t));
    }
  }

  lemma {:induction false} PrintedHeader(head: seq<string>, body: string)
    requires NoBreaks(head) && Tidy(body)
    ensures SplitLines(Join(WithHeader(head, [body]) + [""])) == WithHeader(head, Split(Normal(body)))
  {
    var top := [SEPARATOR] + head + [SEPARATOR, ""];
    NormalTidy(body);
    TopNoBreak(head);
    PrintedReadsBack(top, body);
    assert top + [body] + [""] == top + [body, ""];
  }

  lemma {:induction false} TextLinesAre(e: Entry)
    requires SingleLines(e)
    ensures SplitLines(Text(e)) == WithHeader(Head(e), Split(Normal(Bare(e.text))))
  {
    BareIsTidy(e.text);
    HeadNoBreak(e);
    PrintedHeader(Head(e), Bare(e.text));
  }

  lemma {:induction false} TextParses(e: Entry)
    requires SingleLines(e) && TidyEntry(e.(text := ""))
    ensures Parse(SplitLines(Text(e))) == Parsed(HeadFields(e), Normal(Bare(e.text)))
  {
    var body := Normal(Bare(e.text));
    TextLinesAre(e);
    HeadReadsBack(e.(text := ""));
    BareIsTidy(e.text);
    NormalTidy(Bare(e.text));
    JoinSplit(body);
    HeaderReadsBack(Head(e), Split(body));
  }

  lemma {:induction false} BareShrinks(text: string)
    requires Tidy(text)
    ensures Bulleted(text) ==> |Bare(text)| < |text|
  {
    if Bulleted(text) { TrimShrinks(text[1..]); }
  }

  lemma {:induction false} BodyIsTextIff(text: string)
    ensures Normal(Bare(text)) == text <==> Tidy(text) && !Bulleted(text) && OnlyNewlines(text)
  {
    BareIsTidy(text);
    NormalTidy(Bare(text));
    NormalShape(Bare(text));
    if Tidy(text) {
      BareShrinks(text);
      if OnlyNewlines(text) { NormalSame(text); }
    }
  }

  // An entry of single-line fields, printed and read back: every field is the one printed, and the text is
  // exactly when it is trimmed, has no bullet, and breaks its lines with newlines only.
  lemma {:induction false} EntryReadsBack(e: Entry)
    requires SingleLines(e) && TidyEntry(e.(text := ""))
    ensures var p := Parse(SplitLines(Text(e)));
            && Get(p.fields, "id") == e.id && Get(p.fields, "source") == e.source
            && Get(p.fields, "heading") == e.heading && Get(p.fields, "retention") == e.retention
            && Get(p.fields, "demoted") == e.demoted && Get(p.fields, "superseded_by") == e.supersededBy
            && Get(p.fields, "retracted") == Yes(e.retracted)
            && (p.body == e.text <==> Tidy(e.text) && !Bulleted(e.text) && OnlyNewlines(e.text))
  {
    TextParses(e);
    HeadFieldsHold(e);
    BodyIsTextIff(e.text);
  }

  // ---------------------------------------------------------- adding lineage

  // The value to add: none when the field is set.
  function Wanted(p: Parsed, key: string, value: string): string {
    if Get(p.fields, key) != "" then "" else value
  }

  function Missing(p: Parsed, supersededBy: string, retracted: bool): seq<string> {
    Line("superseded_by", Wanted(p, "superseded_by", supersededBy)) + Line("retracted", Wanted(p, "retracted", Yes(retracted)))
  }

  function WithLineage(lines: seq<string>, supersededBy: string, retracted: bool): seq<string> {
    var p := Parse(lines);
    var missing := Missing(p, supersededBy, retracted);
    if missing == [] || p.body == "" then lines
    else if HasHeader(lines) then
      var c := Close(lines, 1);
      lines[..c] + missing + lines[c..]
    else WithHeader(missing, Split(p.body))
  }

  method AddLineage(lines: seq<string>, supersededBy: string, retracted: bool) returns (r: seq<string>)
    ensures r == WithLineage(lines, supersededBy, retracted)
  {
    if supersededBy == "" && !retracted {
      return lines;
    }
    var p := ParseArchived(lines);
    var missing: seq<string> := [];
    if supersededBy != "" && Get(p.fields, "superseded_by") == "" {
      missing := missing + [FieldLine("superseded_by", supersededBy)];
    }
    if retracted && Get(p.fields, "retracted") == "" {
      missing := missing + [FieldLine("retracted", "yes")];
    }
    assert missing == Missing(p, supersededBy, retracted);
    if missing == [] || p.body == "" {
      return lines;
    }
    if HasHeader(lines) {
      var c := Close(lines, 1);
      r := lines[..c] + missing + lines[c..];
    } else {
      r := WithHeader(missing, Split(p.body));
    }
  }

  function Linked(p: Parsed, supersededBy: string, retracted: bool): Fields {
    Put(Put(p.fields, "superseded_by", Wanted(p, "superseded_by", supersededBy)),
        "retracted", Wanted(p, "retracted", Yes(retracted)))
  }

  lemma {:induction false} MissingReadsBack(head: seq<string>, p: Parsed, supersededBy: string, retracted: bool)
    requires NoSeparator(head) && FieldsOf(head, map[]) == p.fields && Tidy(supersededBy)
    ensures var more := head + Missing(p, supersededBy, retracted);
            NoSeparator(more) && FieldsOf(more, map[]) == Linked(p, supersededBy, retracted)
  {
    KeysAreKeys();
    TidyIff("");
    TidyIff("yes");
    var a, b := Wanted(p, "superseded_by", supersededBy), Wanted(p, "retracted", Yes(retracted));
    NextField(head, p.fields, "superseded_by", a);
    NextField(head + Line("superseded_by", a), Put(p.fields, "superseded_by", a), "retracted", b);
    assert head + Missing(p, supersededBy, retracted) == head + Line("superseded_by", a) + Line("retracted", b);
  }

  lemma {:induction false} SpliceIs(lines: seq<string>, c: nat, missing: seq<string>)
    requires 0 < c < |lines|
    ensures lines[..c] + missing + lines[c..] == [lines[0]] + (lines[1..c] + missing) + [lines[c]] + lines[c + 1..]
  {
    assert lines[..c] == [lines[0]] + lines[1..c];
    assert lines[c..] == [lines[c]] + lines[c + 1..];
  }

  lemma {:induction false} Spliced(lines: seq<string>, missing: seq<string>)
    requires HasHeader(lines) && Close(lines, 1) < |lines| && NoSeparator(lines[1..Close(lines, 1)] + missing)
    ensures var c := Close(lines, 1); var r := lines[..c] + missing + lines[c..];
            HasHeader(r) && Parse(r) == Parsed(FieldsOf(lines[1..c] + missing, map[]), Parse(lines).body)
  {
    var c := Close(lines, 1);
    HeaderIs(lines[0], lines[1..c] + missing, lines[c], lines[c + 1..]);
    SpliceIs(lines, c, missing);
  }

  lemma {:induction false} NewHeader(body: string, missing: seq<string>)
    requires NoSeparator(missing) && Tidy(body)
    ensures HasHeader(WithHeader(missing, Split(body)))
    ensures Parse(WithHeader(missing, Split(body))) == Parsed(FieldsOf(missing, map[]), body)
  {
    JoinSplit(body);
    HeaderReadsBack(missing, Split(body));
  }

  // On any file, edited by hand or not: the body and every other field stay, a set field is never
  // overwritten, a missing one is added.
  lemma {:induction false} LineageAdds(lines: seq<string>, supersededBy: string, retracted: bool)
    requires Tidy(supersededBy)
    ensures var p, q := Parse(lines), Parse(WithLineage(lines, supersededBy, retracted));
            q == if p.body == "" then p else Parsed(Linked(p, supersededBy, retracted), p.body)
  {
    var p := Parse(lines);
    var missing := Missing(p, supersededBy, retracted);
    if missing != [] && p.body != "" {
      if HasHeader(lines) {
        var c := Close(lines, 1);
        assert NoSeparator(lines[1..c]);
        MissingReadsBack(lines[1..c], p, supersededBy, retracted);
        Spliced(lines, missing);
      } else {
        TrimIsTidy(Join(lines));
        MissingReadsBack([], p, supersededBy, retracted);
        assert [] + missing == missing;
        NewHeader(p.body, missing);
      }
    }
  }

  lemma {:induction false} LinkedFields(p: Parsed, supersededBy: string, retracted: bool, key: string)
    ensures var q := Linked(p, supersededBy, retracted);
            && (key != "superseded_by" && key != "retracted" ==> Get(q, key) == Get(p.fields, key))
            && (Get(p.fields, key) != "" ==> Get(q, key) == Get(p.fields, key))
            && (Get(p.fields, "superseded_by") == "" ==> Get(q, "superseded_by") == supersededBy)
            && (Get(p.fields, "retracted") == "" ==> Get(q, "retracted") == Yes(retracted))
  {
  }

  // Adding the same lineage again changes nothing.
  lemma {:induction false} LineageIsIdempotent(lines: seq<string>, supersededBy: string, retracted: bool)
    requires Tidy(supersededBy)
    ensures var once := WithLineage(lines, supersededBy, retracted);
            WithLineage(once, supersededBy, retracted) == once
  {
    LineageAdds(lines, supersededBy, retracted);
    LinkedFields(Parse(lines), supersededBy, retracted, "superseded_by");
    LinkedFields(Parse(lines), supersededBy, retracted, "retracted");
  }

  lemma {:induction false} MissingNoBreak(p: Parsed, supersededBy: string, retracted: bool)
    requires NoBreak(supersededBy)
    ensures NoBreaks(Missing(p, supersededBy, retracted))
  {
    LineNoBreak("superseded_by", Wanted(p, "superseded_by", supersededBy));
    LineNoBreak("retracted", Wanted(p, "retracted", Yes(retracted)));
  }

  lemma {:induction false} BodyNoBreak(lines: seq<string>)
    requires NoBreaks(lines) && !HasHeader(lines)
    ensures NoBreaks(Split(Parse(lines).body))
  {
    JoinedOnlyNewlines(lines);
    TrimOnlyNewlines(Join(lines));
    SplitNoBreaks(Trim(Join(lines)));
  }

  lemma {:induction false} SplicedNoBreaks(lines: seq<string>, c: nat, missing: seq<string>)
    requires NoBreaks(lines) && NoBreaks(missing) && c <= |lines|
    ensures NoBreaks(lines[..c] + missing + lines[c..])
  {
    NoBreaksConcat(lines[..c], missing);
    NoBreaksConcat(lines[..c] + missing, lines[c..]);
  }

  lemma {:induction false} LineageNoBreaks(lines: seq<string>, supersededBy: string, retracted: bool)
    requires NoBreaks(lines) && NoBreak(supersededBy)
    ensures NoBreaks(WithLineage(lines, supersededBy, retracted))
  {
    var p := Parse(lines);
    var missing := Missing(p, supersededBy, retracted);
    MissingNoBreak(p, supersededBy, retracted);
    if HasHeader(lines) {
      SplicedNoBreaks(lines, Close(lines, 1), missing);
    } else {
      BodyNoBreak(lines);
      TopNoBreak(missing);
      NoBreaksConcat([SEPARATOR] + missing + [SEPARATOR, ""], Split(p.body));
    }
  }

  // Written with a final newline, the lines a file gets are the lines it is read back as.
  lemma {:induction false} LineageReadsBack(lines: seq<string>, supersededBy: string, retracted: bool)
    requires lines != [] && NoBreaks(lines) && NoBreak(supersededBy)
    ensures var updated := WithLineage(lines, supersededBy, retracted);
            SplitLines(Join(updated + [""])) == updated
  {
    LineageNoBreaks(lines, supersededBy, retracted);
    LinesReadBack(WithLineage(lines, supersededBy, retracted));
  }

  // ---------------------------------------------------------- archiving twice

  // The lines of the file: of a new one, or of the one there is with what it misses.
  function Archived(file: seq<string>, e: Entry): seq<string> {
    if file == [] then SplitLines(Text(e)) else WithLineage(file, e.supersededBy, e.retracted)
  }

  // Which of two paths archives an entry first does not decide whether its lineage stays.
  lemma {:induction false} LineageInEitherOrder(e: Entry)
    requires SingleLines(e) && TidyEntry(e.(text := "")) && Bare(e.text) != ""
    ensures var plain := e.(supersededBy := "", retracted := false);
            var a, b := Parse(Archived(Archived([], e), plain)), Parse(Archived(Archived([], plain), e));
            && a.body == b.body == Normal(Bare(e.text))
            && Get(a.fields, "superseded_by") == Get(b.fields, "superseded_by") == e.supersededBy
            && Get(a.fields, "retracted") == Get(b.fields, "retracted") == Yes(e.retracted)
  {
    var plain := e.(supersededBy := "", retracted := false);
    TidyIff("");
    ArchivedFirst(e);
    ArchivedFirst(plain);
    LineageAdds(Archived([], e), "", false);
    LineageAdds(Archived([], plain), e.supersededBy, e.retracted);
    LinkedFields(Parse(Archived([], e)), "", false, "superseded_by");
    LinkedFields(Parse(Archived([], e)), "", false, "retracted");
    LinkedFields(Parse(Archived([], plain)), e.supersededBy, e.retracted, "superseded_by");
  }

  lemma {:induction false} ArchivedFirst(e: Entry)
    requires SingleLines(e) && TidyEntry(e.(text := "")) && Bare(e.text) != ""
    ensures Archived([], e) != [] && Parse(Archived([], e)).body == Normal(Bare(e.text)) != ""
    ensures Get(Parse(Archived([], e)).fields, "superseded_by") == e.supersededBy
    ensures Get(Parse(Archived([], e)).fields, "retracted") == Yes(e.retracted)
  {
    TextLinesAre(e);
    TextParses(e);
    HeadFieldsHold(e);
  }
}
