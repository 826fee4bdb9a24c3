// One journal page over whole runs: edits, passes that read it, commits and abandoned passes.
// What a pass does to a page depends on the other pages only through the budget they leave it
// (`Journal.CommitRecordsEachPage`), so the budget of a read is arbitrary here.
module JournalRuns {
  import opened JournalText
  import opened Journal
  import opened Options

  // The page's file.
  datatype File = Gone | Unreadable | Written(text: string)

  // The page's share of a delta in flight: the lines it consumes, the line it was read from, its entries.
  datatype Share = Share(consumed: seq<string>, from: nat, taken: seq<string>)

  // `cursor` and `seal` are the stored state. The rest is history: `prefix` the physical lines the
  // cursor stands for, `shown` the entries committed since the page was last read from line 0, `all`
  // every entry ever committed, `restarts` how often a commit began again at line 0.
  datatype World = World(
    file: File, cursor: nat, seal: Option<string>, held: Option<Share>,
    prefix: seq<string>, shown: seq<string>, all: seq<string>, restarts: nat)

  datatype Step = Edit(file: File) | Read(budget: nat) | Commit | Abandon(stamped: bool)

  function Taken(w: World, text: string, budget: nat): Option<Share> {
    var lines := Lines(text);
    var from := SeenFrom(lines, w.cursor, w.seal);
    var stop := Stop(lines, from, budget);
    var taken := Entries(lines[from..stop]);
    if taken == [] then None else Some(Share(lines[..stop], from, taken))
  }

  // Saving the state forgets pages whose file is gone.
  function Pruned(w: World): World {
    if w.file.Gone? then w.(cursor := 0, seal := None, prefix := [], shown := []) else w
  }

  function Landed(w: World, h: Share): World {
    w.(cursor := |h.consumed|, seal := Some(Material(h.consumed)), held := None, prefix := h.consumed,
       shown := (if h.from == 0 then [] else w.shown) + h.taken, all := w.all + h.taken,
       restarts := w.restarts + if h.from == 0 && w.cursor > 0 then 1 else 0)
  }

  function After(w: World, step: Step): World {
    match step
    case Edit(file) => w.(file := file)
    case Read(budget) =>
      if w.held.Some? || !w.file.Written? then w else w.(held := Taken(w, w.file.text, budget))
    case Commit =>
      if w.held.Some? then Pruned(Landed(w, w.held.value)) else Pruned(w)
    case Abandon(stamped) =>
      var dropped := w.(held := None);
      if stamped then Pruned(dropped) else dropped
  }

  // The state of a page whose file is gone is forgotten when a pass saves, and only then.
  lemma {:induction false} GonePageIsForgottenIff(w: World, step: Step)
    requires w.file.Gone? && w.cursor > 0 && !step.Edit? && (w.held.Some? ==> w.held.value.consumed != [])
    ensures After(w, step).cursor == 0 <==> step.Commit? || (step.Abandon? && step.stamped)
    ensures After(w, step).cursor == 0 ==> After(w, step).seal.None?
  {
  }

  function Ran(w: World, steps: seq<Step>): World {
    if steps == [] then w else After(Ran(w, steps[..|steps| - 1]), steps[|steps| - 1])
  }

  function Fresh(file: File): World {
    World(file, 0, None, None, [], [], [], 0)
  }

  // ---------------------------------------------------------- invariant

  predicate ShareOk(w: World, h: Share) {
    && h.from < |h.consumed| && Clean(h.consumed)
    && h.taken == Entries(h.consumed[h.from..])
    && (h.from == 0 || (h.from == w.cursor && h.consumed[..h.from] == w.prefix))
  }

  predicate Inv(w: World) {
    && w.cursor == |w.prefix| && Clean(w.prefix)
    && w.seal == (if w.cursor == 0 then None else Some(Material(w.prefix)))
    && w.shown == Entries(w.prefix)
    && (w.held.Some? ==> ShareOk(w, w.held.value))
  }

  // The seal tells whether the page still begins with what was consumed.
  lemma {:induction false} SeenFromIs(w: World, lines: seq<string>)
    requires Inv(w) && Clean(lines)
    ensures SeenFrom(lines, w.cursor, w.seal)
         == if w.cursor > |lines| then |lines|
            else if lines[..w.cursor] == w.prefix then w.cursor
            else 0
  {
    if 0 < w.cursor <= |lines| && Material(lines[..w.cursor]) == Material(w.prefix) {
      MaterialInjective(lines[..w.cursor], w.prefix);
    }
  }

  lemma {:induction false} TakenIsOk(w: World, budget: nat)
    requires Inv(w) && w.file.Written?
    ensures var h := Taken(w, w.file.text, budget); h.Some? ==> ShareOk(w, h.value)
  {
    var lines := Lines(w.file.text);
    LinesClean(w.file.text);
    SeenFromIs(w, lines);
    var from := SeenFrom(lines, w.cursor, w.seal);
    var stop := Stop(lines, from, budget);
    assert lines[from..stop] == lines[..stop][from..];
    assert from == stop ==> lines[from..stop] == [];
    assert from <= stop && lines[..stop][..from] == lines[..from];
  }

  lemma {:induction false} LandedKeeps(w: World, h: Share)
    requires Inv(w) && ShareOk(w, h)
    ensures Inv(Landed(w, h))
  {
    EntriesConcat(h.consumed[..h.from], h.consumed[h.from..]);
    assert h.consumed == h.consumed[..h.from] + h.consumed[h.from..];
    assert h.from == 0 ==> h.consumed[..h.from] == [];
    assert Entries([]) == [];
  }

  lemma {:induction false} StepKeeps(w: World, step: Step)
    requires Inv(w)
    ensures Inv(After(w, step))
  {
    match step
    case Edit(_) =>
    case Read(budget) =>
      if w.held.None? && w.file.Written? {
        TakenIsOk(w, budget);
      }
    case Commit =>
      if w.held.Some? {
        LandedKeeps(w, w.held.value);
      }
    case Abandon(_) =>
  }

  lemma {:induction false} RunKeeps(file: File, steps: seq<Step>)
    ensures Inv(Ran(Fresh(file), steps))
  {
    if steps != [] {
      RunKeeps(file, steps[..|steps| - 1]);
      StepKeeps(Ran(Fresh(file), steps[..|steps| - 1]), steps[|steps| - 1]);
    }
  }

  // ---------------------------------------------------------- no entry slides under the cursor

  function PageLines(w: World): seq<string> {
    if w.file.Written? then Lines(w.file.text) else []
  }

  function UnreadNow(w: World): seq<string> {
    Entries(PageLines(w)[SeenFrom(PageLines(w), w.cursor, w.seal)..])
  }

  // Read from line `from`: what lies below the cursor is what was committed and the rest is to be read,
  // or all of the page is to be read.
  predicate CoveredFrom(lines: seq<string>, cursor: nat, shown: seq<string>, from: nat)
    requires from <= |lines|
  {
    || (cursor <= |lines| && shown == Entries(lines[..cursor]) && Entries(lines[from..]) == Entries(lines[cursor..]))
    || Entries(lines[from..]) == Entries(lines)
  }

  predicate Covered(w: World) {
    CoveredFrom(PageLines(w), w.cursor, w.shown, SeenFrom(PageLines(w), w.cursor, w.seal))
  }

  // The page has become shorter than the cursor and still has entries.
  predicate CutShort(w: World) {
    w.cursor > |PageLines(w)| && Entries(PageLines(w)) != []
  }

  lemma {:induction false} CoveredIff(lines: seq<string>, prefix: seq<string>, from: nat)
    requires from == if |prefix| > |lines| then |lines| else if lines[..|prefix|] == prefix then |prefix| else 0
    ensures CoveredFrom(lines, |prefix|, Entries(prefix), from) <==> |prefix| <= |lines| || Entries(lines) == []
  {
    assert lines[0..] == lines && lines[|lines|..] == [];
    assert Entries([]) == [];
  }

  // After any run, whatever the edits, nothing slides under the cursor unless the page was cut short.
  lemma {:induction false} NothingSlides(file: File, steps: seq<Step>)
    ensures Covered(Ran(Fresh(file), steps)) <==> !CutShort(Ran(Fresh(file), steps))
  {
    var w := Ran(Fresh(file), steps);
    RunKeeps(file, steps);
    if w.file.Written? {
      LinesClean(w.file.text);
    }
    SeenFromIs(w, PageLines(w));
    CoveredIff(PageLines(w), w.prefix, SeenFrom(PageLines(w), w.cursor, w.seal));
  }

  predicate ReadFromStart(w: World) {
    SeenFrom(PageLines(w), w.cursor, w.seal) == 0
  }

  // A page that reaches its cursor is read again from line 0 exactly when its beginning is another.
  lemma {:induction false} RewrittenPageIsReadAgain(w: World)
    requires Inv(w) && 0 < w.cursor <= |PageLines(w)|
    ensures ReadFromStart(w) <==> PageLines(w)[..w.cursor] != w.prefix
  {
    LinesClean(w.file.text);
    SeenFromIs(w, PageLines(w));
  }

  // ---------------------------------------------------------- append-only pages

  // Edits that only add text after a final newline.
  predicate AppendOnly(w: World, steps: seq<Step>)
  {
    steps == [] ||
    (var before := Ran(w, steps[..|steps| - 1]);
     AppendOnly(w, steps[..|steps| - 1]) && (steps[|steps| - 1].Edit? ==> Appends(before.file, steps[|steps| - 1].file)))
  }

  predicate Appends(a: File, b: File) {
    && a.Written? && b.Written? && Terminated(a.text)
    && a.text <= b.text
  }

  predicate InPlace(w: World) {
    && Inv(w) && w.file.Written? && w.restarts == 0 && w.all == w.shown
    && w.prefix <= Lines(w.file.text)
    && (w.held.Some? ==> w.held.value.consumed <= Lines(w.file.text) && w.held.value.from == w.cursor)
  }

  lemma {:induction false} AppendsKeepPrefix(a: string, b: string)
    requires Terminated(a) && a <= b
    ensures Lines(a) <= Lines(b)
  {
    assert b == a + b[|a|..];
    AppendKeepsLines(a, b[|a|..]);
  }

  lemma {:induction false} StaysInPlace(w: World, step: Step)
    requires InPlace(w) && (step.Edit? ==> Appends(w.file, step.file))
    ensures InPlace(After(w, step))
  {
    StepKeeps(w, step);
    match step
    case Edit(file) => AppendsKeepPrefix(w.file.text, file.text);
    case Read(budget) =>
      if w.held.None? {
        LinesClean(w.file.text);
        SeenFromIs(w, Lines(w.file.text));
      }
    case Commit =>
    case Abandon(_) =>
  }

  lemma {:induction false} AppendOnlyStaysInPlace(text: string, steps: seq<Step>)
    requires AppendOnly(Fresh(Written(text)), steps)
    ensures InPlace(Ran(Fresh(Written(text)), steps))
  {
    if steps == [] {
      assert Entries([]) == [];
    } else {
      AppendOnlyStaysInPlace(text, steps[..|steps| - 1]);
      StaysInPlace(Ran(Fresh(Written(text)), steps[..|steps| - 1]), steps[|steps| - 1]);
    }
  }

  // With append-only edits every entry is delivered exactly once: what was ever committed, followed
  // by what is still unread, is the page's entries, each in its place.
  lemma {:induction false} EachEntryOnce(text: string, steps: seq<Step>)
    requires AppendOnly(Fresh(Written(text)), steps)
    ensures var w := Ran(Fresh(Written(text)), steps);
            w.file.Written? && w.all + UnreadNow(w) == Entries(Lines(w.file.text)) && w.restarts == 0
  {
    AppendOnlyStaysInPlace(text, steps);
    var w := Ran(Fresh(Written(text)), steps);
    var lines := Lines(w.file.text);
    LinesClean(w.file.text);
    SeenFromIs(w, lines);
    assert lines[..w.cursor] == w.prefix;
    EntriesConcat(w.prefix, lines[w.cursor..]);
    assert lines == w.prefix + lines[w.cursor..];
  }

  // ---------------------------------------------------------- the two limits

  // A final line without newline that was consumed is completed by the next append: the page is read
  // again from line 0, so its earlier entries are delivered a second time and none is lost.
  lemma {:induction false} GluedLineIsReadAgain(w: World, more: string)
    requires Inv(w) && w.file.Written? && !Terminated(w.file.text) && w.prefix == Lines(w.file.text)
    requires more != "" && more[0] != '\n' && more[0] != '\r'
    ensures ReadFromStart(After(w, Edit(Written(w.file.text + more))))
  {
    var text := w.file.text;
    AppendContinuesLastLine(text, more);
    GluedLineDiffers(text, more);
    RewrittenPageIsReadAgain(After(w, Edit(Written(text + more))));
  }

  lemma {:induction false} FirstPiece(s: string)
    requires s != "" && s[0] != '\n'
    ensures Split(s)[0] != "" && Split(s)[0][0] == s[0]
  {
    if |s| > 1 {
      assert s[..|s| - 1][0] == s[0];
      FirstPiece(s[..|s| - 1]);
    }
  }

  lemma {:induction false} WeldSeam(a: seq<string>, b: seq<string>)
    requires a != [] && b != []
    ensures |Weld(a, b)| == |a| + |b| - 1 && Weld(a, b)[|a| - 1] == a[|a| - 1] + b[0]
  {
  }

  lemma {:induction false} StripLonger(x: string, y: string)
    requires y != "" && y[0] != '\r'
    ensures |StripCr(x + y)| > |StripCr(x)|
  {
  }

  lemma {:induction false} LineOfPiece(r: seq<string>, k: nat)
    requires k < |r| && r[k] != ""
    ensures k < |StripAll(Filled(r))| && StripAll(Filled(r))[k] == StripCr(r[k])
  {
  }

  lemma {:induction false} GluedLineDiffers(text: string, more: string)
    requires !Terminated(text) && more != "" && more[0] != '\n' && more[0] != '\r'
    ensures Lines(text) != [] && |Lines(text)| <= |Lines(text + more)|
    ensures Lines(text + more)[..|Lines(text)|] != Lines(text)
  {
    AppendContinuesLastLine(text, more);
    TerminatedSplit(text);
    SplitAppend(text, more);
    FirstPiece(more);
    var a, b := Split(text), Split(more);
    var n := |a| - 1;
    WeldSeam(a, b);
    LineOfPiece(a, n);
    LineOfPiece(Weld(a, b), n);
    StripLonger(a[n], b[0]);
    assert Lines(text + more)[..|Lines(text)|][n] == StripCr(a[n] + b[0]);
  }

  lemma {:induction false} OneLetter(c: char)
    requires !Space(c) && c != '#'
    ensures Entry([c]) && Trim([c]) == [c]
  {
    assert TrimStart([c]) == [c];
    assert TrimEnd([c]) == [c];
  }

  lemma {:induction false} SplitLetter(c: char)
    requires c != '\n'
    ensures Split([c]) == [[c]]
  {
    var s: string := [c];
    assert s[..0] == "" && Split("") == [""];
    assert Split(s) == [""][..0] + ["" + [c]];
    assert "" + [c] == [c];
  }

  lemma {:induction false} OneLine(c: char)
    requires !Space(c) && c != '#'
    ensures Lines([c]) == [[c]] && Entries([[c]]) == [[c]]
  {
    SplitLetter(c);
    OneLetter(c);
    assert [[c]][..0] == [] && Entries([]) == [];
  }

  lemma {:induction false} SplitBreak()
    ensures Split("\n") == ["", ""]
  {
    assert "\n"[..0] == "" && Split("") == [""];
  }

  lemma {:induction false} TwoPieces()
    ensures Split("a\nb") == ["a", "b"]
  {
    SplitLetter('a');
    SplitLetter('b');
    SplitBreak();
    assert "a" + "\n" == "a\n" && "a\n" + "b" == "a\nb";
    SplitAppend("a", "\n");
    assert Weld(["a"], ["", ""]) == ["a", ""];
    SplitAppend("a\n", "b");
    assert Weld(["a", ""], ["b"]) == ["a", "b"];
  }

  lemma {:induction false} TwoLines()
    ensures Lines("a\nb") == ["a", "b"]
  {
    TwoPieces();
    assert StripCr("a") == "a" && StripCr("b") == "b";
  }

  lemma {:induction false} TwoEntries(a: string, b: string)
    requires Entry(a) && Entry(b) && Trim(a) == a && Trim(b) == b
    ensures Entries([a, b]) == [a, b] && Stop([a, b], 0, 5) == 2
  {
    assert [a, b][..1] == [a] && [a][..0] == [];
    assert Entries([]) == [] && Entries([a]) == [] + [a];
    assert Stop([a, b], 2, 3) == 2 && Stop([a, b], 1, 4) == 2;
  }

  lemma {:induction false} ReadTwo(w: World, text: string, a: string, b: string)
    requires w == Fresh(Written(text)) && Lines(text) == [a, b]
    requires Entry(a) && Entry(b) && Trim(a) == a && Trim(b) == b
    ensures After(w, Read(5)) == w.(held := Some(Share([a, b], 0, [a, b])))
  {
    TwoEntries(a, b);
    assert [a, b][0..2] == [a, b][..2] == [a, b];
  }

  lemma {:induction false} ReadAndCommit(w: World)
    ensures Ran(w, [Read(5), Commit]) == After(After(w, Read(5)), Commit)
  {
    assert [Read(5), Commit][..1] == [Read(5)] && [Read(5)][..0] == [];
    assert Ran(w, [Read(5)]) == After(Ran(w, []), Read(5));
  }

  lemma {:induction false} BeyondTheEnd(w: World, text: string)
    requires w.cursor > |Lines(text)|
    ensures UnreadNow(After(w, Edit(Written(text)))) == []
  {
    assert Lines(text)[|Lines(text)|..] == [] && Entries([]) == [];
  }

  lemma {:induction false} AfterTwo(text: string, a: string, b: string)
    requires Lines(text) == [a, b] && Entry(a) && Entry(b) && Trim(a) == a && Trim(b) == b
    ensures Ran(Fresh(Written(text)), [Read(5), Commit]).cursor == 2
  {
    ReadTwo(Fresh(Written(text)), text, a, b);
    ReadAndCommit(Fresh(Written(text)));
  }

  // A page cut shorter than its cursor is skipped, new entries included.
  lemma {:induction false} ShortenedPageIsSkipped()
    ensures var w := Ran(Fresh(Written("a\nb")), [Read(5), Commit]);
            UnreadNow(After(w, Edit(Written("c")))) == []
    ensures Entries(Lines("c")) == ["c"]
  {
    TwoLines();
    OneLetter('a');
    OneLetter('b');
    AfterTwo("a\nb", ['a'], ['b']);
    OneLine('c');
    BeyondTheEnd(Ran(Fresh(Written("a\nb")), [Read(5), Commit]), "c");
  }
}
