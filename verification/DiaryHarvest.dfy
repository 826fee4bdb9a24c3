// Reading a project conversation into the diary queue, chunk by chunk, while other tasks change the
// session during each model call.
module DiaryHarvest {
  import opened Bounds
  import opened Notes
  import opened Options

  // How many of the first rows go whole into one call; at least one.
  ghost predicate Fits(ms: seq<Row>, limit: nat, n: nat) {
    && n <= |ms| && (ms != [] ==> n > 0)
    && (forall k: nat :: 1 < k <= n ==> |Format(ms[..k])| <= limit)
    && (0 < n < |ms| ==> |Format(ms[..n + 1])| > limit)
  }

  lemma {:induction false} FitsUnique(ms: seq<Row>, limit: nat, a: nat, b: nat)
    requires Fits(ms, limit, a) && Fits(ms, limit, b)
    ensures a == b
  {
  }

  // The count as a function, for the runs below.
  function Fitting(ms: seq<Row>, limit: nat, n: nat): (r: nat)
    requires n <= |ms|
    ensures n <= r <= |ms| && (n < |ms| ==> r > 0)
    decreases |ms| - n
  {
    if n == |ms| || (n > 0 && |Format(ms[..n + 1])| > limit) then n else Fitting(ms, limit, n + 1)
  }

  lemma {:induction false} FittingFits(ms: seq<Row>, limit: nat, n: nat)
    requires n <= |ms|
    requires forall k: nat :: 1 < k <= n ==> |Format(ms[..k])| <= limit
    ensures Fits(ms, limit, Fitting(ms, limit, n))
    decreases |ms| - n
  {
    if n < |ms| && !(n > 0 && |Format(ms[..n + 1])| > limit) {
      FittingFits(ms, limit, n + 1);
    }
  }

  method MessagesFittingBudget(ms: seq<Row>, limit: nat) returns (count: nat)
    ensures Fits(ms, limit, count) && count == Fitting(ms, limit, 0)
  {
    FittingFits(ms, limit, 0);
    var used := 0;
    count := 0;
    while count < |ms|
      invariant count <= |ms|
      invariant used == |Format(ms[..count])|
      invariant forall k: nat :: 1 < k <= count ==> |Format(ms[..k])| <= limit
    {
      FormatStep(ms, count);
      var cost := Cost(ms[count]);
      if cost > 0 {
        cost := cost + if used > 0 then 1 else 0;
      }
      if count > 0 && used + cost > limit {
        FitsUnique(ms, limit, count, Fitting(ms, limit, 0));
        return;
      }
      used := used + cost;
      count := count + 1;
    }
    FitsUnique(ms, limit, count, Fitting(ms, limit, 0));
  }

  // ---------------------------------------------------------- runs

  const MIN_MESSAGES: nat := 2
  const MAX_CHUNKS: nat := 4

  // A row as the session holds it. History: the number it came under, which the code does not have.
  datatype Item = Item(number: nat, row: Row)

  // A harvest in flight: the rows it copied at its start, how far it has come. History: the
  // session still begins with rows [from, upTo) of the copy.
  datatype Task = Task(snapshot: seq<Item>, position: nat, chunks: nat, from: nat, upTo: nat)

  // `upTo` is last_consolidated and `mark` the saved harvest index, if any. History: `covered` the numbers
  // of the rows a consolidation archived, an idle compaction summarised, or a harvest call was given whose
  // index was saved; `told` how many first rows the last summarising idle compaction kept; `ever` every
  // row that came, by number.
  datatype World = World(
    messages: seq<Item>, upTo: nat, mark: Option<nat>, task: Option<Task>, covered: set<nat>, told: nat, ever: seq<Row>)

  datatype Step =
    | Start
    | Answer(ok: bool, limit: nat)
    | Append(row: Row)
    | Clear
    | Keep(from: nat, to: nat)
    | Consolidate(to: nat)
    | Summarise(from: nat)

  function Rows(items: seq<Item>): (rows: seq<Row>)
    ensures |rows| == |items|
  {
    seq(|items|, i requires 0 <= i < |items| => items[i].row)
  }

  function Numbers(items: seq<Item>): set<nat> {
    set i: nat | i < |items| :: items[i].number
  }

  function Chunk(t: Task, limit: nat): seq<Item> {
    if t.position <= |t.snapshot| then
      t.snapshot[t.position..t.position + Fitting(Rows(t.snapshot[t.position..]), limit, 0)]
    else []
  }

  // The position after the chunk.
  function Reached(t: Task, limit: nat): nat {
    t.position + |Chunk(t, limit)|
  }

  // The rows are compared as they read; their numbers are not there to compare.
  predicate Matches(messages: seq<Item>, t: Task, limit: nat) {
    && 0 < Reached(t, limit) <= |messages| && Reached(t, limit) <= |t.snapshot|
    && messages[Reached(t, limit) - 1].row == t.snapshot[Reached(t, limit) - 1].row
  }

  function Index(w: World): nat {
    if w.mark.Some? then w.mark.value else 0
  }

  function Started(w: World): World {
    var start := Min(Max(Index(w), w.upTo), |w.messages|);
    if w.task.Some? || |w.messages| - start < MIN_MESSAGES then w
    else w.(task := Some(Task(w.messages, start, 0, 0, |w.messages|)))
  }

  // A chunk came back: the index is saved only when the session still has that row in that place.
  function Landed(w: World, t: Task, limit: nat): World {
    if !Matches(w.messages, t, limit) then w.(task := None)
    else
      var done := t.chunks + 1 == MAX_CHUNKS || Reached(t, limit) == |t.snapshot|;
      w.(mark := Some(Reached(t, limit)), covered := w.covered + Numbers(Chunk(t, limit)),
         task := if done then None else Some(t.(position := Reached(t, limit), chunks := t.chunks + 1)))
  }

  // Rows [from, to) stay. An idle compaction without a summary keeps them so.
  function Kept(w: World, from: nat, to: nat): World
    requires from <= to <= |w.messages|
  {
    w.(messages := w.messages[from..to], upTo := Below(w.upTo, from, to), told := Below(w.told, from, to),
       mark := if w.mark.None? then None else Some(Below(w.mark.value, from, to)),
       task := match w.task
               case None => None
               case Some(t) =>
                 var n := if t.from <= t.upTo then t.upTo - t.from else 0;
                 Some(t.(from := t.from + Min(from, n), upTo := t.from + Min(to, n))))
  }

  function Consolidated(w: World, to: nat): World
    requires w.upTo <= to <= |w.messages|
  {
    w.(upTo := to, covered := w.covered + Numbers(w.messages[w.upTo..to]))
  }

  // An idle compaction whose summary covers the rows it removes and those it keeps: an index there is
  // goes to the end of the kept rows.
  function Summarised(w: World, from: nat): World
    requires w.upTo < from <= |w.messages|
  {
    var next := Kept(Consolidated(w, |w.messages|), from, |w.messages|);
    var n := |next.messages|;
    next.(upTo := 0, told := n, mark := if w.mark.None? then None else Some(n))
  }

  function After(w: World, step: Step): World {
    match step
    case Start => Started(w)
    case Answer(ok, limit) =>
      if w.task.None? then w else if !ok then w.(task := None) else Landed(w, w.task.value, limit)
    case Append(row) => w.(messages := w.messages + [Item(|w.ever|, row)], ever := w.ever + [row])
    case Clear => Kept(w, 0, 0).(mark := None)
    case Keep(from, to) => if from <= to <= |w.messages| then Kept(w, from, to) else w
    case Consolidate(to) => if w.upTo <= to <= |w.messages| then Consolidated(w, to) else w
    case Summarise(from) => if w.upTo < from <= |w.messages| then Summarised(w, from) else w
  }

  // An answer ends the harvest exactly when the call failed, the row read last does not stand in its place any
  // more, this was the last chunk allowed, or the copy is read. Each one in place saves the index behind it.
  lemma {:induction false} AnswerEndsIff(w: World, ok: bool, limit: nat)
    requires w.task.Some? && w.task.value.position < |w.task.value.snapshot|
    ensures var t, next := w.task.value, After(w, Answer(ok, limit));
            var reached := Reached(t, limit);
            var inPlace := reached <= |w.messages| && w.messages[reached - 1].row == t.snapshot[reached - 1].row;
            && t.position < reached <= |t.snapshot|
            && (next.task.None? <==> !ok || !inPlace || t.chunks + 1 == MAX_CHUNKS || reached == |t.snapshot|)
            && (next.task.Some? ==> next.task.value == t.(position := reached, chunks := t.chunks + 1))
            && next.mark == (if ok && inPlace then Some(reached) else w.mark)
  {
  }

  function Ran(w: World, steps: seq<Step>): World {
    if steps == [] then w else After(Ran(w, steps[..|steps| - 1]), steps[|steps| - 1])
  }

  function Fresh(): World {
    World([], 0, None, None, {}, 0, [])
  }

  // The rows before the index about to be saved are the copy's own first rows, or were consolidated or
  // summarised by an idle compaction.
  predicate InPlace(w: World, t: Task, limit: nat) {
    (t.from == 0 && Reached(t, limit) <= t.upTo) || Reached(t, limit) <= Max(w.upTo, w.told)
  }

  predicate SavesInPlace(w: World, step: Step) {
    step.Answer? && step.ok && w.task.Some? && Matches(w.messages, w.task.value, step.limit) ==>
      InPlace(w, w.task.value, step.limit)
  }

  // Every index the run saved was saved in place.
  predicate SavedInPlace(w: World, steps: seq<Step>) {
    steps == [] ||
    (SavedInPlace(w, steps[..|steps| - 1]) && SavesInPlace(Ran(w, steps[..|steps| - 1]), steps[|steps| - 1]))
  }

  // ---------------------------------------------------------- what every step keeps

  predicate Numbered(items: seq<Item>, ever: seq<Row>) {
    && (forall i: nat :: i < |items| ==> items[i].number < |ever| && items[i].row == ever[items[i].number])
    && (forall i: nat, j: nat :: i < j < |items| ==> items[i].number != items[j].number)
  }

  // How many first rows were read.
  function Read(w: World): nat {
    Max(Max(w.upTo, w.told), Index(w))
  }

  // The rows covered are the first ones.
  ghost predicate SessionOk(w: World) {
    && Numbered(w.messages, w.ever) && Read(w) <= |w.messages|
    && (forall n :: n in w.covered ==> n < |w.ever|)
    && (forall i: nat :: i < |w.messages| ==> (w.messages[i].number in w.covered <==> i < Read(w)))
  }

  // The session is rows [from, upTo) of the copy, then rows the copy does not have.
  predicate Overlaps(messages: seq<Item>, copy: seq<Item>, from: nat, upTo: nat) {
    && from <= upTo <= |copy| && upTo - from <= |messages|
    && (forall i: nat :: i < upTo - from ==> messages[i] == copy[from + i])
    && (forall i: nat, j: nat :: upTo - from <= i < |messages| && j < |copy| ==> messages[i].number != copy[j].number)
  }

  predicate TaskOk(w: World, t: Task) {
    && Numbered(t.snapshot, w.ever) && Index(w) <= Max(t.position, w.told) && t.position < |t.snapshot|
    && (forall i: nat :: i < t.position ==> t.snapshot[i].number in w.covered)
    && Overlaps(w.messages, t.snapshot, t.from, t.upTo)
  }

  ghost predicate Inv(w: World) {
    SessionOk(w) && (w.task.Some? ==> TaskOk(w, w.task.value))
  }

  lemma {:induction false} ChunkIs(w: World, t: Task, limit: nat)
    requires TaskOk(w, t)
    ensures t.position < Reached(t, limit) <= |t.snapshot|
    ensures forall i: nat :: i < |Chunk(t, limit)| ==> Chunk(t, limit)[i] == t.snapshot[t.position + i]
  {
  }

  // A row of the copy is in the chunk exactly when it lies between the two positions.
  lemma {:induction false} InChunk(w: World, t: Task, limit: nat, i: nat)
    requires TaskOk(w, t) && i < |t.snapshot|
    ensures t.snapshot[i].number in Numbers(Chunk(t, limit)) <==> t.position <= i < Reached(t, limit)
  {
    ChunkIs(w, t, limit);
    var chunk := Chunk(t, limit);
    if t.position <= i < Reached(t, limit) {
      assert chunk[i - t.position].number in Numbers(chunk);
    }
    if t.snapshot[i].number in Numbers(chunk) {
      var j: nat :| j < |chunk| && chunk[j].number == t.snapshot[i].number;
      assert t.snapshot[t.position + j].number == t.snapshot[i].number;
    }
  }

  lemma {:induction false} NotInChunk(w: World, t: Task, limit: nat, i: nat)
    requires TaskOk(w, t) && t.upTo - t.from <= i < |w.messages|
    ensures w.messages[i].number !in Numbers(Chunk(t, limit))
  {
    ChunkIs(w, t, limit);
  }

  // Which rows of the session the chunk covers.
  lemma {:induction false} CoveredByChunk(w: World, t: Task, limit: nat, i: nat)
    requires TaskOk(w, t) && i < |w.messages|
    ensures w.messages[i].number in Numbers(Chunk(t, limit)) <==>
            i < t.upTo - t.from && t.position <= t.from + i < Reached(t, limit)
  {
    if i < t.upTo - t.from {
      InChunk(w, t, limit, t.from + i);
    } else {
      NotInChunk(w, t, limit, i);
    }
  }

  ghost predicate CoveredBelow(items: seq<Item>, n: nat, covered: set<nat>) {
    n <= |items| && forall i: nat :: i < n ==> items[i].number in covered
  }

  // An index saved in place covers only rows that were read.
  lemma {:induction false} InPlaceCovers(w: World, t: Task, limit: nat)
    requires Inv(w) && w.task == Some(t) && Matches(w.messages, t, limit) && InPlace(w, t, limit)
    ensures CoveredBelow(w.messages, Reached(t, limit), w.covered + Numbers(Chunk(t, limit)))
  {
    forall i: nat | i < Reached(t, limit) ensures w.messages[i].number in w.covered + Numbers(Chunk(t, limit)) {
      CoveredByChunk(w, t, limit, i);
    }
  }

  // Out of place, the very row the check compared was not read.
  lemma {:induction false} OutOfPlaceSkips(w: World, t: Task, limit: nat)
    requires Inv(w) && w.task == Some(t) && Matches(w.messages, t, limit) && !InPlace(w, t, limit)
    ensures w.messages[Reached(t, limit) - 1].number !in w.covered + Numbers(Chunk(t, limit))
  {
    ChunkIs(w, t, limit);
    CoveredByChunk(w, t, limit, Reached(t, limit) - 1);
  }

  lemma {:induction false} StartKeeps(w: World)
    requires Inv(w)
    ensures Inv(Started(w))
  {
  }

  lemma {:induction false} LandedSession(w: World, t: Task, limit: nat)
    requires Inv(w) && w.task == Some(t) && Matches(w.messages, t, limit) && InPlace(w, t, limit)
    ensures SessionOk(Landed(w, t, limit))
  {
    ChunkIs(w, t, limit);
    InPlaceCovers(w, t, limit);
    var next := Landed(w, t, limit);
    forall i: nat | i < |w.messages|
      ensures w.messages[i].number in next.covered <==> i < Read(next)
    {
      CoveredByChunk(w, t, limit, i);
    }
    forall n | n in Numbers(Chunk(t, limit)) ensures n < |w.ever| {
      var j: nat :| j < |Chunk(t, limit)| && Chunk(t, limit)[j].number == n;
      assert Chunk(t, limit)[j] == t.snapshot[t.position + j];
    }
  }

  lemma {:induction false} LandedTask(w: World, t: Task, limit: nat, covered: set<nat>)
    requires TaskOk(w, t) && Reached(t, limit) < |t.snapshot|
    requires covered == w.covered + Numbers(Chunk(t, limit))
    ensures TaskOk(w.(mark := Some(Reached(t, limit)), covered := covered), t.(position := Reached(t, limit), chunks := t.chunks + 1))
  {
    forall i: nat | i < Reached(t, limit) ensures t.snapshot[i].number in covered {
      InChunk(w, t, limit, i);
    }
  }

  lemma {:induction false} NextTask(w: World, t: Task, limit: nat)
    requires Inv(w) && w.task == Some(t) && Matches(w.messages, t, limit) && Landed(w, t, limit).task.Some?
    ensures TaskOk(Landed(w, t, limit), Landed(w, t, limit).task.value)
  {
    ChunkIs(w, t, limit);
    LandedTask(w, t, limit, w.covered + Numbers(Chunk(t, limit)));
  }

  lemma {:induction false} LandKeeps(w: World, t: Task, limit: nat)
    requires Inv(w) && w.task == Some(t) && (Matches(w.messages, t, limit) ==> InPlace(w, t, limit))
    ensures Inv(Landed(w, t, limit))
  {
    if Matches(w.messages, t, limit) {
      LandedSession(w, t, limit);
      if Landed(w, t, limit).task.Some? {
        NextTask(w, t, limit);
      }
    }
  }

  lemma {:induction false} KeepSession(w: World, from: nat, to: nat)
    requires SessionOk(w) && from <= to <= |w.messages|
    ensures SessionOk(Kept(w, from, to))
  {
    var ms := w.messages[from..to];
    assert forall i: nat :: i < |ms| ==> ms[i] == w.messages[from + i];
  }

  lemma {:induction false} KeepOverlap(ms: seq<Item>, copy: seq<Item>, f: nat, u: nat, from: nat, to: nat)
    requires Overlaps(ms, copy, f, u) && from <= to <= |ms|
    ensures Overlaps(ms[from..to], copy, f + Min(from, u - f), f + Min(to, u - f))
  {
    var kept := ms[from..to];
    assert forall i: nat :: i < |kept| ==> kept[i] == ms[from + i];
  }

  lemma {:induction false} KeepTask(w: World, t: Task, from: nat, to: nat)
    requires TaskOk(w, t) && w.task == Some(t) && from <= to <= |w.messages|
    ensures Kept(w, from, to).task.Some? && TaskOk(Kept(w, from, to), Kept(w, from, to).task.value)
  {
    KeepOverlap(w.messages, t.snapshot, t.from, t.upTo, from, to);
    var next, n := Kept(w, from, to), t.upTo - t.from;
    assert next.told == Below(w.told, from, to) && Index(next) == Below(Index(w), from, to);
    assert next.task == Some(t.(from := t.from + Min(from, n), upTo := t.from + Min(to, n)));
  }

  lemma {:induction false} AppendKeeps(w: World, row: Row)
    requires Inv(w)
    ensures Inv(After(w, Append(row)))
  {
    NumberedMore(w.messages, w.ever, row);
    if w.task.Some? {
      AppendKeepsTask(w, w.task.value, row);
    }
  }

  lemma {:induction false} NumberedMore(items: seq<Item>, ever: seq<Row>, row: Row)
    requires Numbered(items, ever)
    ensures Numbered(items, ever + [row]) && Numbered(items + [Item(|ever|, row)], ever + [row])
  {
  }

  lemma {:induction false} AppendKeepsTask(w: World, t: Task, row: Row)
    requires SessionOk(w) && TaskOk(w, t)
    ensures TaskOk(w.(messages := w.messages + [Item(|w.ever|, row)], ever := w.ever + [row]), t)
  {
    NumberedMore(t.snapshot, w.ever, row);
  }

  // Consolidation covers the rows up to its new end, and no more.
  lemma {:induction false} ConsolidatedRows(w: World, to: nat)
    requires Numbered(w.messages, w.ever) && w.upTo <= to <= |w.messages|
    ensures var read := Numbers(w.messages[w.upTo..to]);
            && (forall i: nat :: i < |w.messages| ==> (w.messages[i].number in read <==> w.upTo <= i < to))
            && (forall n :: n in read ==> n < |w.ever|)
  {
    var chunk := w.messages[w.upTo..to];
    assert forall i: nat :: i < |chunk| ==> chunk[i] == w.messages[w.upTo + i];
    forall i: nat | i < |w.messages| ensures w.messages[i].number in Numbers(chunk) <==> w.upTo <= i < to {
      if w.upTo <= i < to {
        assert chunk[i - w.upTo].number in Numbers(chunk);
      }
    }
  }

  lemma {:induction false} ConsolidateKeeps(w: World, to: nat)
    requires Inv(w) && w.upTo <= to <= |w.messages|
    ensures Inv(After(w, Consolidate(to)))
  {
    ConsolidatedRows(w, to);
  }

  lemma {:induction false} SummariseSession(w: World, from: nat)
    requires SessionOk(w) && w.upTo < from <= |w.messages|
    ensures SessionOk(Summarised(w, from))
  {
    ConsolidatedRows(w, |w.messages|);
    var ms := w.messages[from..];
    assert forall i: nat :: i < |ms| ==> ms[i] == w.messages[from + i];
  }

  lemma {:induction false} SummariseTask(w: World, t: Task, from: nat)
    requires TaskOk(w, t) && w.task == Some(t) && w.upTo < from <= |w.messages|
    ensures Summarised(w, from).task.Some? && TaskOk(Summarised(w, from), Summarised(w, from).task.value)
  {
    KeepOverlap(w.messages, t.snapshot, t.from, t.upTo, from, |w.messages|);
    var next, n := Summarised(w, from), t.upTo - t.from;
    assert Index(next) <= next.told && w.covered <= next.covered;
    assert next.task == Some(t.(from := t.from + Min(from, n), upTo := t.from + Min(|w.messages|, n)));
  }

  lemma {:induction false} StepKeeps(w: World, step: Step)
    requires Inv(w)
    requires SavesInPlace(w, step)
    ensures Inv(After(w, step))
  {
    match step
    case Start => StartKeeps(w);
    case Answer(ok, limit) =>
      if w.task.Some? && ok {
        LandKeeps(w, w.task.value, limit);
      }
    case Append(row) => AppendKeeps(w, row);
    case Clear =>
      KeepSession(w, 0, 0);
      if w.task.Some? { KeepTask(w, w.task.value, 0, 0); }
    case Keep(from, to) =>
      if from <= to <= |w.messages| {
        KeepSession(w, from, to);
        if w.task.Some? { KeepTask(w, w.task.value, from, to); }
      }
    case Consolidate(to) =>
      if w.upTo <= to <= |w.messages| {
        ConsolidateKeeps(w, to);
      }
    case Summarise(from) =>
      if w.upTo < from <= |w.messages| {
        SummariseSession(w, from);
        if w.task.Some? { SummariseTask(w, w.task.value, from); }
      }
  }

  lemma {:induction false} RunKeeps(steps: seq<Step>)
    requires SavedInPlace(Fresh(), steps)
    ensures Inv(Ran(Fresh(), steps))
  {
    if steps != [] {
      RunKeeps(steps[..|steps| - 1]);
      StepKeeps(Ran(Fresh(), steps[..|steps| - 1]), steps[|steps| - 1]);
    }
  }

  // ---------------------------------------------------------- what the index covers

  // Whatever happens to the session during the calls, as long as indices are saved in place: the saved
  // index covers only rows that were consolidated, summarised by an idle compaction, or given to a call
  // that succeeded - whole, or alone when too long, by the limit of the moment.
  lemma {:induction false} IndexCoversOnlyHarvested(steps: seq<Step>, limit: nat)
    requires SavedInPlace(Fresh(), steps)
    ensures var w := Ran(Fresh(), steps);
            && CoveredBelow(w.messages, Index(w), w.covered)
            && (w.task.Some? ==>
                  var c := Rows(Chunk(w.task.value, limit)); |c| == 1 || (c != [] && |Format(c)| <= limit))
  {
    RunKeeps(steps);
    var w := Ran(Fresh(), steps);
    if w.task.Some? {
      ChunkFits(w, w.task.value, limit);
    }
  }

  lemma {:induction false} ChunkFits(w: World, t: Task, limit: nat)
    requires TaskOk(w, t)
    ensures var c := Rows(Chunk(t, limit)); |c| == 1 || (c != [] && |Format(c)| <= limit)
  {
    var rest := Rows(t.snapshot[t.position..]);
    FittingFits(rest, limit, 0);
    assert rest[..Fitting(rest, limit, 0)] == Rows(Chunk(t, limit));
  }

  // The next index is right exactly when it is saved in place: the copy's rows up to it still begin the
  // session, or consolidation or an idle summary has gone as far. Otherwise it skips the row the check
  // compared.
  lemma {:induction false} NextIndexRightIff(steps: seq<Step>, limit: nat)
    requires SavedInPlace(Fresh(), steps)
    ensures var w := Ran(Fresh(), steps);
            w.task.Some? && Matches(w.messages, w.task.value, limit) ==>
              var next := After(w, Answer(true, limit));
              CoveredBelow(next.messages, Index(next), next.covered) <==> InPlace(w, w.task.value, limit)
  {
    RunKeeps(steps);
    var w := Ran(Fresh(), steps);
    if w.task.Some? && Matches(w.messages, w.task.value, limit) {
      if InPlace(w, w.task.value, limit) {
        InPlaceCovers(w, w.task.value, limit);
      } else {
        OutOfPlaceSkips(w, w.task.value, limit);
      }
    }
  }

  predicate AllDiffer(rows: seq<Row>) {
    forall i: nat, j: nat :: i < j < |rows| ==> rows[i] != rows[j]
  }

  lemma {:induction false} DifferentRowsMatchInPlace(w: World, t: Task, limit: nat)
    requires Inv(w) && w.task == Some(t) && Matches(w.messages, t, limit) && AllDiffer(w.ever)
    ensures InPlace(w, t, limit)
  {
    var p := Reached(t, limit) - 1;
    assert w.messages[p].number == t.snapshot[p].number;
    if p < t.upTo - t.from {
      assert t.snapshot[t.from + p].number == t.snapshot[p].number;
    }
  }

  lemma {:induction false} EverGrows(w: World, step: Step)
    requires AllDiffer(After(w, step).ever)
    ensures AllDiffer(w.ever)
  {
    assert forall i: nat :: i < |w.ever| ==> After(w, step).ever[i] == w.ever[i];
  }

  // Rows that differ, as their time stamps make them, keep every index in place.
  lemma {:induction false} DifferentRowsSaveInPlace(steps: seq<Step>)
    requires AllDiffer(Ran(Fresh(), steps).ever)
    ensures SavedInPlace(Fresh(), steps)
  {
    if steps != [] {
      var init, step := steps[..|steps| - 1], steps[|steps| - 1];
      var w := Ran(Fresh(), init);
      EverGrows(w, step);
      DifferentRowsSaveInPlace(init);
      RunKeeps(init);
      if step.Answer? && w.task.Some? && Matches(w.messages, w.task.value, step.limit) {
        DifferentRowsMatchInPlace(w, w.task.value, step.limit);
      }
    }
  }

  // ---------------------------------------------------------- equal rows

  lemma {:induction false} WholeCopyFits(ms: seq<Row>, limit: nat, n: nat)
    requires |ms| == 2 && n <= 2 && |Format(ms)| <= limit
    ensures Fitting(ms, limit, n) == 2
    decreases 2 - n
  {
    assert ms[..2] == ms;
    if n < 2 { WholeCopyFits(ms, limit, n + 1); }
  }

  lemma {:induction false} OneMoreStep(w: World, steps: seq<Step>, step: Step)
    ensures Ran(w, steps + [step]) == After(Ran(w, steps), step)
  {
    assert (steps + [step])[..|steps|] == steps;
  }

  // Two rows a and x copied, then b and another x appended, and the first two cut.
  function CutDuringCall(a: Row, x: Row, b: Row): seq<Step> {
    [Append(a), Append(x), Start, Append(b), Append(x), Keep(2, 4)]
  }

  lemma {:induction false} CopyTaken(a: Row, x: Row)
    ensures var both := [Item(0, a), Item(1, x)];
            Ran(Fresh(), [Append(a), Append(x)] + [Start]) ==
            World(both, 0, None, Some(Task(both, 0, 0, 0, 2)), {}, 0, [a, x])
  {
    var first, second := [Append(a)], [Append(a), Append(x)];
    OneMoreStep(Fresh(), [], Append(a));
    OneMoreStep(Fresh(), first, Append(x));
    assert [] + [Append(a)] == first && first + [Append(x)] == second;
    assert Ran(Fresh(), first) == World([Item(0, a)], 0, None, None, {}, 0, [a]);
    assert [Item(0, a)] + [Item(1, x)] == [Item(0, a), Item(1, x)] && [a] + [x] == [a, x];
    assert Ran(Fresh(), second) == World([Item(0, a), Item(1, x)], 0, None, None, {}, 0, [a, x]);
    OneMoreStep(Fresh(), second, Start);
  }

  lemma {:induction false} RowsCut(a: Row, x: Row, b: Row)
    ensures var both := [Item(0, a), Item(1, x)];
            Ran(Fresh(), CutDuringCall(a, x, b)) ==
            World([Item(2, b), Item(3, x)], 0, None, Some(Task(both, 0, 0, 2, 2)), {}, 0, [a, x, b, x])
  {
    CopyTaken(a, x);
    var started := [Append(a), Append(x), Start];
    assert [Append(a), Append(x)] + [Start] == started;
    OneMoreStep(Fresh(), started, Append(b));
    OneMoreStep(Fresh(), started + [Append(b)], Append(x));
    OneMoreStep(Fresh(), started + [Append(b)] + [Append(x)], Keep(2, 4));
    assert CutDuringCall(a, x, b) == started + [Append(b)] + [Append(x)] + [Keep(2, 4)];
    assert [Item(0, a), Item(1, x), Item(2, b), Item(3, x)][2..4] == [Item(2, b), Item(3, x)];
  }

  // Equal rows defeat the check: [b, x] passes for [a, x] once the first two rows are cut, and b is
  // skipped.
  lemma {:induction false} EqualRowsDefeatTheCheck(a: Row, x: Row, b: Row)
    ensures var w := Ran(Fresh(), CutDuringCall(a, x, b) + [Answer(true, |Format([a, x])|)]);
            Rows(w.messages) == [b, x] && w.mark == Some(2) && w.messages[0].number !in w.covered
  {
    var limit := |Format([a, x])|;
    OneMoreStep(Fresh(), CutDuringCall(a, x, b), Answer(true, limit));
    RowsCut(a, x, b);
    WholeCopyRead(a, x, Ran(Fresh(), CutDuringCall(a, x, b)).task.value, limit);
  }

  lemma {:induction false} WholeCopyRead(a: Row, x: Row, t: Task, limit: nat)
    requires t.snapshot == [Item(0, a), Item(1, x)] && t.position == 0 && limit == |Format([a, x])|
    ensures Chunk(t, limit) == t.snapshot && Numbers(Chunk(t, limit)) == {0, 1}
  {
    assert t.snapshot[0..] == t.snapshot;
    var rows := Rows(t.snapshot);
    assert rows[0] == a && rows[1] == x;
    assert rows == [a, x];
    WholeCopyFits([a, x], limit, 0);
    var chunk := Chunk(t, limit);
    assert chunk == t.snapshot;
    assert chunk[0].number == 0 && chunk[1].number == 1;
    assert chunk[0].number in Numbers(chunk) && chunk[1].number in Numbers(chunk);
    assert forall n :: n in Numbers(chunk) ==> n == chunk[0].number || n == chunk[1].number;
  }
}
