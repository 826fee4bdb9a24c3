// Compaction in the middle of a long turn: the early steps of the turn are
// replaced, in the view the model gets, by a checkpoint on the request.
module InflightCompaction {
  import opened Messages
  import HistoryRepair
  import opened Options
  import opened Selections

  // `text` is the rendered checkpoint, never empty. Rows between `anchor` (the
  // request) and `cut` are the ones it stands for.
  datatype Checkpoint = Checkpoint(anchor: nat, cut: nat, text: string)

  function Merge(left: Content, right: string): Content {
    match left
    case Missing => Blocks([right])
    case Text(t) => Text(if t == "" then right else t + "\n\n" + right)
    case Blocks(bs) => Blocks(bs + [right])
  }

  function ChainStart(anchor: nat, ck: Option<Checkpoint>): nat {
    if ck.Some? then ck.value.cut else anchor + 1
  }

  predicate Applies(ms: seq<Message>, ck: Checkpoint) {
    ck.anchor < ck.cut <= |ms| && ms[ck.anchor].role.User?
  }

  function View(ms: seq<Message>, ck: Option<Checkpoint>): seq<Message> {
    if ck.None? || !Applies(ms, ck.value) then ms else
      var c := ck.value;
      var request := ms[c.anchor].(content := Merge(ms[c.anchor].content, c.text));
      ms[..c.anchor] + [request] + ms[c.cut..]
  }

  // `after` is the request's own content with the checkpoint behind it: its text, a blank line and the
  // checkpoint; its blocks and one more; or the one block alone.
  predicate Carries(before: Content, after: Content, text: string) {
    match before
    case Missing => after.Blocks? && after.blocks == [text]
    case Text(own) =>
      && after.Text? && own <= after.text && |after.text| >= |own| + |text|
      && after.text[|after.text| - |text|..] == text
      && after.text[|own|..|after.text| - |text|] == if own == "" then "" else "\n\n"
    case Blocks(own) =>
      after.Blocks? && |after.blocks| == |own| + 1 && own <= after.blocks && after.blocks[|own|] == text
  }

  // Row `anchor` of `view` is the request of `ms` with the checkpoint behind it; the rows before it are
  // there, and from `cut` on those after it; no other row is.
  predicate Shortened(ms: seq<Message>, view: seq<Message>, anchor: nat, cut: nat, text: string) {
    && anchor < cut <= |ms| && |view| == anchor + 1 + (|ms| - cut)
    && view[..anchor] == ms[..anchor] && view[anchor + 1..] == ms[cut..]
    && view[anchor] == ms[anchor].(content := view[anchor].content)
    && Carries(ms[anchor].content, view[anchor].content, text)
  }

  lemma {:induction false} MergeCarries(before: Content, text: string)
    ensures Carries(before, Merge(before, text), text)
  {
  }

  // The view loses nothing of the request, nor any row but those the checkpoint stands for.
  lemma {:induction false} ViewKeepsRequest(ms: seq<Message>, ck: Checkpoint)
    ensures if ck.anchor < ck.cut <= |ms| && ms[ck.anchor].role.User?
            then Shortened(ms, View(ms, Some(ck)), ck.anchor, ck.cut, ck.text)
            else View(ms, Some(ck)) == ms
    ensures View(ms, None) == ms
  {
    if Applies(ms, ck) {
      var request := ms[ck.anchor].(content := Merge(ms[ck.anchor].content, ck.text));
      MergeCarries(ms[ck.anchor].content, ck.text);
      ViewParts(ms[..ck.anchor], request, ms[ck.cut..]);
    }
  }

  lemma {:induction false} ViewParts(front: seq<Message>, request: Message, tail: seq<Message>)
    ensures var v := front + [request] + tail;
            v[..|front|] == front && v[|front|] == request && v[|front| + 1..] == tail
  {
  }

  // -------------------------------------------------------- where to cut

  predicate Candidate(ms: seq<Message>, start: nat, i: nat) {
    start <= i < |ms| && ms[i].role.Assistant?
  }

  // The least assistant row whose suffix fits the budget, or the last assistant
  // row when no suffix fits.
  ghost predicate BestCut(ms: seq<Message>, start: nat, budget: int, weight: Weight, c: nat) {
    && Candidate(ms, start, c)
    && (Sum(ms, c, weight) <= budget ==>
          forall i: nat :: Candidate(ms, start, i) && i < c ==> Sum(ms, i, weight) > budget)
    && (Sum(ms, c, weight) > budget ==> forall i: nat :: Candidate(ms, start, i) ==> i <= c)
  }

  lemma {:induction false} BestCutUnique(
    ms: seq<Message>, start: nat, budget: int, weight: Weight, c: nat, d: nat)
    requires BestCut(ms, start, budget, weight, c) && BestCut(ms, start, budget, weight, d)
    ensures c == d
  {
    if c < d {
      SumShrinks(ms, c, d, weight);
    } else {
      SumShrinks(ms, d, c, weight);
    }
  }

  method Suffixes(ms: seq<Message>, start: nat, weight: Weight) returns (suffix: array<nat>)
    requires start <= |ms|
    ensures fresh(suffix) && suffix.Length == |ms| + 1
    ensures forall i {:trigger suffix[i]} :: start <= i <= |ms| ==> suffix[i] == Sum(ms, i, weight)
  {
    suffix := new nat[|ms| + 1];
    var i := |ms|;
    suffix[i] := 0;
    while i > start
      invariant start <= i <= |ms|
      invariant forall k {:trigger suffix[k]} :: i <= k <= |ms| ==> suffix[k] == Sum(ms, k, weight)
    {
      i := i - 1;
      var here := weight(ms[i]);
      assert suffix[i + 1] == Sum(ms, i + 1, weight);
      suffix[i] := suffix[i + 1] + here;
    }
  }

  method Candidates(ms: seq<Message>, start: nat) returns (candidates: seq<nat>)
    ensures forall k :: 0 <= k < |candidates| ==> Candidate(ms, start, candidates[k])
    ensures forall j, k :: 0 <= j < k < |candidates| ==> candidates[j] < candidates[k]
    ensures forall c: nat :: Candidate(ms, start, c) ==> c in candidates
  {
    candidates := [];
    var i := start;
    while i < |ms|
      invariant start <= i
      invariant forall k :: 0 <= k < |candidates| ==> Candidate(ms, start, candidates[k]) && candidates[k] < i
      invariant forall j, k :: 0 <= j < k < |candidates| ==> candidates[j] < candidates[k]
      invariant forall c: nat :: Candidate(ms, start, c) && c < i ==> c in candidates
    {
      if ms[i].role.Assistant? {
        candidates := candidates + [i];
      }
      i := i + 1;
    }
  }

  method PlanCut(ms: seq<Message>, start: nat, budget: int, weight: Weight) returns (r: Option<nat>)
    ensures r.Some? ==> start < r.value < |ms| && BestCut(ms, start, budget, weight, r.value)
    ensures r.None? ==> (forall i: nat :: !Candidate(ms, start, i)) || BestCut(ms, start, budget, weight, start)
  {
    var candidates := Candidates(ms, start);
    if candidates == [] {
      return None;
    }
    assert Candidate(ms, start, candidates[0]);
    var suffix := Suffixes(ms, start, weight);
    var k := |candidates|;
    var cut := candidates[k - 1];
    while k > 0 && suffix[candidates[k - 1]] <= budget
      invariant 0 <= k <= |candidates|
      invariant cut == candidates[if k < |candidates| then k else k - 1]
      invariant k < |candidates| ==> Sum(ms, cut, weight) <= budget
    {
      k := k - 1;
      cut := candidates[k];
    }
    forall c: nat | Candidate(ms, start, c) && c < cut && Sum(ms, cut, weight) <= budget
      ensures Sum(ms, c, weight) > budget
    {
      var m :| 0 <= m < |candidates| && candidates[m] == c;
      assert m <= k - 1;
      assert candidates[m] <= candidates[k - 1];
      SumShrinks(ms, c, candidates[k - 1], weight);
    }
    r := if cut > start then Some(cut) else None;
  }

  // ------------------------------------------------- the view stays legal

  // Cutting right before an assistant row, a legal history gives a legal view:
  // no result without its call, no call without its result, nothing to repair.
  lemma {:induction false} ViewIsLegal(ms: seq<Message>, ck: Checkpoint)
    requires BlockLegal(ms) && Applies(ms, ck)
    requires ck.cut < |ms| ==> ms[ck.cut].role.Assistant?
    ensures BlockLegal(View(ms, Some(ck)))
    ensures NoOrphans(View(ms, Some(ck))) && AllAnswered(View(ms, Some(ck)))
    ensures HistoryRepair.Repaired(View(ms, Some(ck))) == View(ms, Some(ck))
  {
    var front, tail := ms[..ck.anchor], ms[ck.cut..];
    var request := ms[ck.anchor].(content := Merge(ms[ck.anchor].content, ck.text));
    assert ms == front + ms[ck.anchor..] == ms[..ck.cut] + tail;
    BlockLegalJoin(front, ms[ck.anchor..]);
    BlockLegalJoin(ms[..ck.cut], tail);
    SingleIsLegal(request);
    BlockLegalJoin(front, [request]);
    BlockLegalJoin(front + [request], tail);
    BlockLegalImplies(View(ms, Some(ck)));
    HistoryRepair.RepairedIsLegal(View(ms, Some(ck)));
  }

  lemma {:induction false} SingleIsLegal(m: Message)
    requires m.role.User?
    ensures BlockLegal([m])
  {
    FlattenOne(Block(m, []));
    ParseFlatten([Block(m, [])]);
    assert Rows(Block(m, [])) == [m];
  }

  // A result behind the cut whose call the checkpoint replaces, and which no other row declares before.
  predicate Stranded(ms: seq<Message>, ck: Checkpoint, j: nat)
    requires Applies(ms, ck)
  {
    && ck.cut <= j < |ms| && ms[j].role.Tool? && ms[j].answers in Declared(ms[ck.anchor + 1..ck.cut])
    && ms[j].answers !in Declared(ms[..ck.anchor]) && ms[j].answers !in Declared(ms[ck.cut..j])
  }

  lemma {:induction false} ViewOrphansInTail(ms: seq<Message>, ck: Checkpoint)
    requires Applies(ms, ck) && NoOrphans(ms)
    ensures NoOrphans(View(ms, Some(ck))) <==> Clean(Declared(ms[..ck.anchor]), ms[ck.cut..])
  {
    var front, tail := ms[..ck.anchor], ms[ck.cut..];
    var request := ms[ck.anchor].(content := Merge(ms[ck.anchor].content, ck.text));
    assert ms == front + ms[ck.anchor..];
    CleanConcat({}, front, ms[ck.anchor..]);
    CleanConcat({}, front, [request]);
    CleanConcat({}, front + [request], tail);
    DeclaredConcat(front, [request]);
    assert [request][..0] == [];
    assert {} + Declared(front + [request]) == Declared(front);
  }

  // What is declared before row j: before the request, by the rows replaced, or behind the cut.
  lemma {:induction false} DeclaredAround(ms: seq<Message>, ck: Checkpoint, j: nat)
    requires Applies(ms, ck) && ck.cut <= j <= |ms|
    ensures Declared(ms[..j]) ==
            Declared(ms[..ck.anchor]) + Declared(ms[ck.anchor + 1..ck.cut]) + Declared(ms[ck.cut..j])
  {
    var front, request, gone, rest := ms[..ck.anchor], [ms[ck.anchor]], ms[ck.anchor + 1..ck.cut], ms[ck.cut..j];
    assert ms[..j] == front + request + gone + rest;
    DeclaredConcat(front + request + gone, rest);
    DeclaredConcat(front + request, gone);
    DeclaredConcat(front, request);
    assert request[..0] == [];
  }

  lemma {:induction false} OrphanIsStranded(ms: seq<Message>, ck: Checkpoint, j: nat)
    requires Applies(ms, ck) && NoOrphans(ms) && ck.cut <= j < |ms|
    ensures Orphan(ms[j], Declared(ms[..ck.anchor]) + Declared(ms[ck.cut..j])) <==> Stranded(ms, ck, j)
  {
    NoOrphansAt(ms, j);
    DeclaredAround(ms, ck, j);
    NoEmptyId(ms[ck.anchor + 1..ck.cut]);
  }

  lemma {:induction false} StrandedIsOrphan(ms: seq<Message>, ck: Checkpoint, j: nat)
    requires Applies(ms, ck) && NoOrphans(ms) && Stranded(ms, ck, j)
    ensures !Clean(Declared(ms[..ck.anchor]), ms[ck.cut..])
  {
    var before, tail := Declared(ms[..ck.anchor]), ms[ck.cut..];
    OrphanIsStranded(ms, ck, j);
    assert tail[..j - ck.cut] == ms[ck.cut..j];
    if Clean(before, tail) {
      CleanAt(before, tail, j - ck.cut);
    }
  }

  lemma {:induction false} SomeStranded(ms: seq<Message>, ck: Checkpoint) returns (j: nat)
    requires Applies(ms, ck) && NoOrphans(ms) && !Clean(Declared(ms[..ck.anchor]), ms[ck.cut..])
    ensures Stranded(ms, ck, j)
  {
    var before, tail := Declared(ms[..ck.anchor]), ms[ck.cut..];
    var i := FirstUnclean(before, tail);
    j := ck.cut + i;
    assert tail[..i] == ms[ck.cut..j];
    OrphanIsStranded(ms, ck, j);
  }

  // For any history without orphans, row by row: the view has one exactly when a result is stranded.
  lemma {:induction false} ViewOrphansIff(ms: seq<Message>, ck: Checkpoint)
    requires Applies(ms, ck) && NoOrphans(ms)
    ensures NoOrphans(View(ms, Some(ck))) <==> forall j: nat :: !Stranded(ms, ck, j)
  {
    ViewOrphansInTail(ms, ck);
    if NoOrphans(View(ms, Some(ck))) {
      forall j: nat ensures !Stranded(ms, ck, j) {
        if Stranded(ms, ck, j) { StrandedIsOrphan(ms, ck, j); }
      }
    } else {
      var j := SomeStranded(ms, ck);
    }
  }

  function Asks(id: string): Message { Message(Assistant, [Call(id, "grep")], "", "", Text("")) }

  function Gives(id: string): Message { Message(Tool, [], id, "grep", Text("found")) }

  lemma {:induction false} OneCall(id: string)
    requires id != ""
    ensures Declared([Asks(id)]) == {id} && Answered([Gives(id)]) == {id}
  {
    var calls := [Call(id, "grep")];
    assert calls[..0] == [] && IdsOf(calls) == {} + {id};
    assert [Asks(id)][..0] == [] && [Gives(id)][..0] == [];
    assert CallIds(Asks(id)) == {id} && AnswerIds(Gives(id)) == {id};
  }

  lemma {:induction false} LooseSets(ask: Message)
    requires ask.role.User?
    ensures var front, tail := [ask] + [Asks("a")] + [Asks("b")], [Gives("a")] + [Gives("b")];
            Declared(front) == {"a", "b"} && Answered(tail) == {"a", "b"}
  {
    OneCall("a");
    OneCall("b");
    assert [ask][..0] == [];
    DeclaredConcat([ask], [Asks("a")]);
    DeclaredConcat([ask] + [Asks("a")], [Asks("b")]);
    AnsweredConcat([Gives("a")], [Gives("b")]);
  }

  lemma {:induction false} ResultsLast(front: seq<Message>, tail: seq<Message>)
    requires forall j :: 0 <= j < |front| ==> !front[j].role.Tool?
    requires forall j :: 0 <= j < |tail| ==> tail[j].role.Tool?
    requires Answered(tail) == Declared(front)
    ensures NoOrphans(front + tail) && AllAnswered(front + tail)
  {
    NoToolsNoOrphans({}, front);
    ToolsClean({} + Declared(front), tail);
    CleanConcat({}, front, tail);
    DeclaredConcat(front, tail);
    AnsweredConcat(front, tail);
    ToolsDeclareNothing(tail);
  }

  // Where results do not follow their own assistant row, which the runner never saves, a cut may strand
  // one: the strict shape is needed.
  lemma {:induction false} LooseHistoryMayBreak(ask: Message)
    requires ask.role.User?
    ensures var ms := [ask, Asks("a"), Asks("b"), Gives("a"), Gives("b")];
            NoOrphans(ms) && AllAnswered(ms) && !NoOrphans(View(ms, Some(Checkpoint(0, 2, "so far"))))
  {
    var ms, ck := [ask, Asks("a"), Asks("b"), Gives("a"), Gives("b")], Checkpoint(0, 2, "so far");
    var front, tail := [ask] + [Asks("a")] + [Asks("b")], [Gives("a")] + [Gives("b")];
    LooseSets(ask);
    ResultsLast(front, tail);
    assert ms == front + tail;
    OneCall("a");
    OneCall("b");
    assert ms[1..2] == [Asks("a")] && ms[2..3] == [Asks("b")] && ms[..0] == [];
    assert Stranded(ms, ck, 3);
    ViewOrphansIff(ms, ck);
  }

  // --------------------------------------- the marks left on the saved rows

  // A saved row: the marks are the two metadata keys, the empty string for none.
  datatype Row = Row(msg: Message, compacted: bool, checkpoint: string)

  function Plain(ms: seq<Message>): (r: seq<Row>)
    ensures |r| == |ms|
  {
    seq(|ms|, i requires 0 <= i < |ms| => Row(ms[i], false, ""))
  }

  function Marked(rows: seq<Row>, ck: Checkpoint): (r: seq<Row>)
    ensures |r| == |rows|
  {
    seq(|rows|, i requires 0 <= i < |rows| =>
      if ck.anchor < i < ck.cut then Row(rows[i].msg, true, "")
      else if i == ck.cut then rows[i].(checkpoint := ck.text)
      else rows[i])
  }

  method MarkCompacted(rows: array<Row>, ck: Checkpoint)
    requires ck.anchor < ck.cut < rows.Length
    modifies rows
    ensures rows[..] == Marked(old(rows[..]), ck)
  {
    var i := ck.anchor + 1;
    while i < ck.cut
      invariant ck.anchor < i <= ck.cut
      invariant forall k :: 0 <= k < rows.Length ==>
        rows[k] == if ck.anchor < k < i then Row(old(rows[k]).msg, true, "") else old(rows[k])
    {
      rows[i] := Row(rows[i].msg, true, "");
      i := i + 1;
    }
    rows[ck.cut] := rows[ck.cut].(checkpoint := ck.text);
  }

  function Attach(out: seq<Message>, text: string): seq<Message> {
    if out != [] && out[|out| - 1].role.User?
    then out[..|out| - 1] + [out[|out| - 1].(content := Merge(out[|out| - 1].content, text))]
    else out + [Message(User, [], "", "", Text(text))]
  }

  function Add(out: seq<Message>, row: Row): seq<Message> {
    (if row.checkpoint != "" then Attach(out, row.checkpoint) else out) + [row.msg]
  }

  // What reading the saved session back gives.
  function Replay(rows: seq<Row>): seq<Message> {
    if rows == [] then [] else
      var out := Replay(rows[..|rows| - 1]);
      var row := rows[|rows| - 1];
      if row.compacted then out else Add(out, row)
  }

  lemma {:induction false} ViewAppend(ms: seq<Message>, ck: Checkpoint, m: Message)
    requires Applies(ms, ck)
    ensures View(ms + [m], Some(ck)) == View(ms, Some(ck)) + [m]
  {
    assert (ms + [m])[ck.cut..] == ms[ck.cut..] + [m];
    assert (ms + [m])[..ck.anchor] == ms[..ck.anchor];
  }

  lemma {:induction false} ReplayStep(rows: seq<Row>, m: nat)
    requires m < |rows|
    ensures Replay(rows[..m + 1])
         == if rows[m].compacted then Replay(rows[..m]) else Add(Replay(rows[..m]), rows[m])
  {
    assert rows[..m + 1][..m] == rows[..m];
  }

  predicate Cuts(ms: seq<Message>, ck: Checkpoint) {
    ck.anchor < ck.cut < |ms| && ms[ck.anchor].role.User? && ck.text != ""
  }

  // The first `n` saved rows, read back: up to the cut, then past it.
  lemma {:induction false} ReplayBeforeCut(ms: seq<Message>, ck: Checkpoint, n: nat)
    requires Cuts(ms, ck) && n <= ck.cut
    ensures Replay(Marked(Plain(ms), ck)[..n]) == ms[..if n <= ck.anchor then n else ck.anchor + 1]
  {
    if n > 0 {
      ReplayBeforeCut(ms, ck, n - 1);
      ReplayStep(Marked(Plain(ms), ck), n - 1);
      if n - 1 <= ck.anchor {
        assert ms[..n] == ms[..n - 1] + [ms[n - 1]];
      }
    }
  }

  lemma {:induction false} ViewAtCut(ms: seq<Message>, ck: Checkpoint)
    requires Cuts(ms, ck)
    ensures View(ms[..ck.cut + 1], Some(ck))
         == ms[..ck.anchor] + [ms[ck.anchor].(content := Merge(ms[ck.anchor].content, ck.text))] + [ms[ck.cut]]
  {
    var upTo := ms[..ck.cut + 1];
    assert upTo[..ck.anchor] == ms[..ck.anchor];
    assert upTo[ck.cut..] == [ms[ck.cut]];
  }

  lemma {:induction false} ReplayAtCut(ms: seq<Message>, ck: Checkpoint)
    requires Cuts(ms, ck)
    ensures Replay(Marked(Plain(ms), ck)[..ck.cut + 1]) == View(ms[..ck.cut + 1], Some(ck))
  {
    var out := ms[..ck.anchor + 1];
    ReplayBeforeCut(ms, ck, ck.cut);
    ReplayMarked(Marked(Plain(ms), ck), ck.cut, ms[ck.cut], ck.text, out);
    AttachToRequest(ms[..ck.anchor], ms[ck.anchor], ck.text);
    assert out == ms[..ck.anchor] + [ms[ck.anchor]];
    ViewAtCut(ms, ck);
  }

  lemma {:induction false} ReplayMarked(rows: seq<Row>, i: nat, m: Message, text: string, out: seq<Message>)
    requires i < |rows| && rows[i] == Row(m, false, text) && text != "" && Replay(rows[..i]) == out
    ensures Replay(rows[..i + 1]) == Attach(out, text) + [m]
  {
    ReplayStep(rows, i);
  }

  lemma {:induction false} AttachToRequest(front: seq<Message>, request: Message, text: string)
    requires request.role.User?
    ensures Attach(front + [request], text) == front + [request.(content := Merge(request.content, text))]
  {
    assert (front + [request])[..|front|] == front;
  }

  lemma {:induction false} ReplayPastCut(ms: seq<Message>, ck: Checkpoint, n: nat)
    requires Cuts(ms, ck) && ck.cut + 1 < n <= |ms|
    ensures Replay(Marked(Plain(ms), ck)[..n]) == Replay(Marked(Plain(ms), ck)[..n - 1]) + [ms[n - 1]]
  {
    MarkedPastCut(ms, ck, n - 1);
    ReplayUnmarked(Marked(Plain(ms), ck), n - 1, ms[n - 1]);
  }

  lemma {:induction false} MarkedPastCut(ms: seq<Message>, ck: Checkpoint, i: nat)
    requires Cuts(ms, ck) && ck.cut < i < |ms|
    ensures Marked(Plain(ms), ck)[i] == Row(ms[i], false, "")
  {
  }

  lemma {:induction false} ReplayUnmarked(rows: seq<Row>, i: nat, m: Message)
    requires i < |rows| && rows[i] == Row(m, false, "")
    ensures Replay(rows[..i + 1]) == Replay(rows[..i]) + [m]
  {
    ReplayStep(rows, i);
  }

  lemma {:induction false} ViewPastCut(ms: seq<Message>, ck: Checkpoint, n: nat)
    requires Cuts(ms, ck) && ck.cut + 1 < n <= |ms|
    ensures View(ms[..n], Some(ck)) == View(ms[..n - 1], Some(ck)) + [ms[n - 1]]
  {
    ViewAppend(ms[..n - 1], ck, ms[n - 1]);
    assert ms[..n] == ms[..n - 1] + [ms[n - 1]];
  }

  predicate Agrees(rows: seq<Row>, ms: seq<Message>, ck: Checkpoint, n: nat)
    requires n <= |ms| == |rows|
  {
    Replay(rows[..n]) == View(ms[..n], Some(ck))
  }

  lemma {:induction false} AgreesNext(ms: seq<Message>, ck: Checkpoint, n: nat)
    requires Cuts(ms, ck) && ck.cut + 1 < n <= |ms| && Agrees(Marked(Plain(ms), ck), ms, ck, n - 1)
    ensures Agrees(Marked(Plain(ms), ck), ms, ck, n)
  {
    ReplayPastCut(ms, ck, n);
    ViewPastCut(ms, ck, n);
  }

  lemma {:induction false} ReplayFromCut(ms: seq<Message>, ck: Checkpoint, n: nat)
    requires Cuts(ms, ck) && ck.cut < n <= |ms|
    ensures Agrees(Marked(Plain(ms), ck), ms, ck, n)
    decreases n
  {
    if n == ck.cut + 1 {
      ReplayAtCut(ms, ck);
    } else {
      ReplayFromCut(ms, ck, n - 1);
      AgreesNext(ms, ck, n);
    }
  }

  // The marks and the live view are the same compaction.
  lemma {:induction false} ReplayIsView(ms: seq<Message>, ck: Checkpoint)
    requires ck.anchor < ck.cut < |ms| && ms[ck.anchor].role.User? && ck.text != ""
    ensures Replay(Marked(Plain(ms), ck)) == View(ms, Some(ck))
  {
    ReplayFromCut(ms, ck, |ms|);
    assert Marked(Plain(ms), ck)[..|ms|] == Marked(Plain(ms), ck) && ms[..|ms|] == ms;
  }

  lemma {:induction false} ReplayPlain(ms: seq<Message>)
    ensures Replay(Plain(ms)) == ms
  {
    if ms != [] {
      ReplayPlain(ms[..|ms| - 1]);
      assert Plain(ms)[..|ms| - 1] == Plain(ms[..|ms| - 1]);
    }
  }

  // ------------------------------------------------------------ whole turns

  // A turn in progress: its rows, the marks on them, and its last checkpoint.
  datatype Turn = Turn(anchor: nat, ms: seq<Message>, rows: seq<Row>, last: Option<Checkpoint>)

  datatype Event = Append(m: Message) | Compact(cut: nat, text: string)

  predicate Allowed(t: Turn, e: Event) {
    match e
    case Append(_) => true
    case Compact(cut, text) =>
      ChainStart(t.anchor, t.last) < cut < |t.ms| && t.ms[cut].role.Assistant? && text != ""
  }

  function After(t: Turn, e: Event): Turn {
    match e
    case Append(m) => t.(ms := t.ms + [m], rows := t.rows + [Row(m, false, "")])
    case Compact(cut, text) =>
      var ck := Checkpoint(t.anchor, cut, text);
      t.(rows := Marked(t.rows, ck), last := Some(ck))
  }

  // The turn after a run of events, and whether each was possible when it came.
  function Ran(start: Turn, events: seq<Event>): Turn {
    if events == [] then start
    else After(Ran(start, events[..|events| - 1]), events[|events| - 1])
  }

  predicate Possible(start: Turn, events: seq<Event>) {
    events == [] ||
    (Possible(start, events[..|events| - 1])
     && Allowed(Ran(start, events[..|events| - 1]), events[|events| - 1]))
  }

  predicate Fresh(t: Turn) {
    t.anchor < |t.ms| && t.ms[t.anchor].role.User? && t.rows == Plain(t.ms) && t.last.None?
  }

  ghost predicate Consistent(t: Turn) {
    && t.anchor < |t.ms| && t.ms[t.anchor].role.User?
    && match t.last
       case None => t.rows == Plain(t.ms)
       case Some(ck) =>
         && ck.anchor == t.anchor && t.anchor < ck.cut < |t.ms|
         && t.ms[ck.cut].role.Assistant? && ck.text != ""
         && t.rows == Marked(Plain(t.ms), ck)
  }

  lemma {:induction false} StepConsistent(t: Turn, e: Event)
    requires Consistent(t) && Allowed(t, e)
    ensures Consistent(After(t, e))
    ensures ChainStart(t.anchor, t.last) <= ChainStart(t.anchor, After(t, e).last)
    ensures e.Compact? ==> ChainStart(t.anchor, t.last) < ChainStart(t.anchor, After(t, e).last)
  {
    match e
    case Append(m) =>
      assert Plain(t.ms + [m]) == Plain(t.ms) + [Row(m, false, "")];
      if t.last.Some? {
        var ck := t.last.value;
        assert Marked(Plain(t.ms + [m]), ck) == Marked(Plain(t.ms), ck) + [Row(m, false, "")];
      }
    case Compact(cut, text) =>
      var ck := Checkpoint(t.anchor, cut, text);
      assert Marked(t.rows, ck) == Marked(Plain(t.ms), ck);
  }

  lemma {:induction false} TurnConsistent(start: Turn, events: seq<Event>)
    requires Fresh(start) && Possible(start, events)
    ensures Consistent(Ran(start, events))
  {
    if events != [] {
      var n := |events| - 1;
      TurnConsistent(start, events[..n]);
      StepConsistent(Ran(start, events[..n]), events[n]);
    }
  }

  function AppendedIn(events: seq<Event>): seq<Message> {
    if events == [] then [] else
      var e := events[|events| - 1];
      AppendedIn(events[..|events| - 1]) + if e.Append? then [e.m] else []
  }

  // The last compaction among these events.
  function LastCompact(events: seq<Event>): Option<Event> {
    if events == [] then None
    else if events[|events| - 1].Compact? then Some(events[|events| - 1])
    else LastCompact(events[..|events| - 1])
  }

  lemma {:induction false} TurnIs(start: Turn, events: seq<Event>)
    requires Fresh(start)
    ensures var t := Ran(start, events); var last := LastCompact(events);
            && t.ms == start.ms + AppendedIn(events) && t.anchor == start.anchor
            && (last.None? <==> t.last.None?)
            && (last.Some? ==> last.value.Compact? && t.last == Some(Checkpoint(start.anchor, last.value.cut, last.value.text)))
  {
    if events == [] {
      assert start.ms + [] == start.ms;
    } else {
      var init, e := events[..|events| - 1], events[|events| - 1];
      TurnIs(start, init);
      if e.Append? {
        assert start.ms + AppendedIn(init) + [e.m] == start.ms + (AppendedIn(init) + [e.m]);
      } else {
        assert AppendedIn(init) + [] == AppendedIn(init);
      }
    }
  }

  // Over a whole turn the request read back is the one the turn began with, with the last checkpoint alone
  // behind it: the rows up to that cut are gone and all others are there.
  lemma {:induction false} TurnKeepsRequest(start: Turn, events: seq<Event>)
    requires Fresh(start) && Possible(start, events)
    ensures var all, read, last := start.ms + AppendedIn(events), Replay(Ran(start, events).rows), LastCompact(events);
            if last.None? then read == all
            else last.value.Compact? && Shortened(all, read, start.anchor, last.value.cut, last.value.text)
  {
    TurnIs(start, events);
    TurnViews(start, events);
    TurnConsistent(start, events);
    var t := Ran(start, events);
    if t.last.Some? { ViewKeepsRequest(t.ms, t.last.value); }
  }

  // Over a whole turn, whatever is appended and however often it is compacted:
  // the saved marks read back as the live view, and a legal turn has a legal view.
  lemma {:induction false} TurnViews(start: Turn, events: seq<Event>)
    requires Fresh(start) && Possible(start, events)
    ensures var t := Ran(start, events);
            && Replay(t.rows) == View(t.ms, t.last)
            && (BlockLegal(t.ms) ==> BlockLegal(View(t.ms, t.last)))
  {
    TurnConsistent(start, events);
    var t := Ran(start, events);
    match t.last {
      case None => ReplayPlain(t.ms);
      case Some(ck) =>
        ReplayIsView(t.ms, ck);
        if BlockLegal(t.ms) { ViewIsLegal(t.ms, ck); }
    }
  }

  function Compactions(events: seq<Event>): nat {
    if events == [] then 0
    else Compactions(events[..|events| - 1]) + if events[|events| - 1].Compact? then 1 else 0
  }

  // Each compaction moves the cut, so a turn is compacted fewer times than it
  // has rows after its request.
  lemma {:induction false} CompactionsBounded(start: Turn, events: seq<Event>)
    requires Fresh(start) && Possible(start, events)
    ensures var t := Ran(start, events);
            t.anchor + 1 + Compactions(events) <= ChainStart(t.anchor, t.last) <= |t.ms|
  {
    if events != [] {
      var n := |events| - 1;
      CompactionsBounded(start, events[..n]);
      TurnConsistent(start, events[..n]);
      StepConsistent(Ran(start, events[..n]), events[n]);
    }
  }

  // -------------------------------------- what the user said along the way

  const VERBATIM_USER_MAX_CHARS := 8_000
  const VERBATIM_USER_EACH_MAX_CHARS := 2_000

  // `words` is the text with runs of white space collapsed; `injected` marks rows
  // the system wrote in the user's place.
  datatype Said = Said(role: Role, injected: bool, words: string)

  predicate Counts(s: Said) {
    s.role.User? && !s.injected && s.words != ""
  }

  function Clipped(s: Said): string {
    if |s.words| > VERBATIM_USER_EACH_MAX_CHARS
    then s.words[..VERBATIM_USER_EACH_MAX_CHARS] + " […]"
    else s.words
  }

  function Texts(rows: seq<Said>): seq<string> {
    if rows == [] then [] else
      var s := rows[|rows| - 1];
      Texts(rows[..|rows| - 1]) + if Counts(s) then [Clipped(s)] else []
  }

  // Written by the user, with words in it.
  function OfUser(): Said -> bool {
    (s: Said) => s.role.User? && !s.injected && s.words != ""
  }

  // The texts are the user's own, in order: whole, or their first two thousand characters and a mark.
  lemma {:induction false} TextsAre(rows: seq<Said>)
    ensures var said, texts := Only(rows, OfUser()), Texts(rows);
            && |texts| == |said|
            && forall k :: 0 <= k < |said| ==>
                 if |said[k].words| <= 2000 then texts[k] == said[k].words
                 else texts[k] == said[k].words[..2000] + " […]"
  {
    if rows != [] {
      TextsAre(rows[..|rows| - 1]);
    }
  }

  function Total(texts: seq<string>): nat {
    if texts == [] then 0 else Total(texts[..|texts| - 1]) + |texts[|texts| - 1]|
  }

  // From the newest, while they fit beside `used` characters already kept.
  function Kept(texts: seq<string>, used: nat, any: bool): seq<string> {
    if texts == [] then [] else
      var t := texts[|texts| - 1];
      if any && used + |t| > VERBATIM_USER_MAX_CHARS then []
      else Kept(texts[..|texts| - 1], used + |t|, true) + [t]
  }

  function Collected(previous: seq<string>, rows: seq<Said>): seq<string> {
    Kept(previous + Texts(rows), 0, false)
  }

  method CollectUserMessages(previous: seq<string>, rows: seq<Said>) returns (r: seq<string>)
    ensures r == Collected(previous, rows)
  {
    var collected := previous;
    var i := 0;
    while i < |rows|
      invariant 0 <= i <= |rows|
      invariant collected == previous + Texts(rows[..i])
    {
      assert rows[..i + 1][..i] == rows[..i];
      if Counts(rows[i]) {
        collected := collected + [Clipped(rows[i])];
      }
      i := i + 1;
    }
    assert rows[..i] == rows;
    r := [];
    var total: nat := 0;
    var k: nat := |collected|;
    assert collected[..k] == collected;
    while k > 0 && !(r != [] && total + |collected[k - 1]| > VERBATIM_USER_MAX_CHARS)
      invariant 0 <= k <= |collected|
      invariant Kept(collected[..k], total, r != []) + r == Kept(collected, 0, false)
    {
      var t := collected[k - 1];
      assert collected[..k][..k - 1] == collected[..k - 1];
      assert Kept(collected[..k - 1], total + |t|, true) + ([t] + r)
          == Kept(collected[..k - 1], total + |t|, true) + [t] + r;
      r := [t] + r;
      total := total + |t|;
      k := k - 1;
    }
  }

  lemma {:induction false} AppendCancels(a: seq<string>, b: seq<string>, t: string)
    ensures a + [t] == b + [t] <==> a == b
  {
    assert (a + [t])[..|a + [t]| - 1] == a && (b + [t])[..|b + [t]| - 1] == b;
  }

  // What is kept of a + b, from what is kept of b (k) and of a after all of b (ka).
  function KeptOfBoth(k: seq<string>, b: seq<string>, ka: seq<string>): seq<string> {
    if k == b then ka + b else k
  }

  lemma {:induction false} Glue(k: seq<string>, b: seq<string>, ka: seq<string>, t: string)
    ensures KeptOfBoth(k, b, ka) + [t] == KeptOfBoth(k + [t], b + [t], ka)
  {
    AppendCancels(k, b, t);
    Reassociate(ka, b, t);
  }

  lemma {:induction false} Reassociate(a: seq<string>, b: seq<string>, t: string)
    ensures a + b + [t] == a + (b + [t])
  {
  }

  lemma {:induction false} KeptStep(a: seq<string>, t: string, used: nat, any: bool)
    ensures Kept(a + [t], used, any)
         == if any && used + |t| > VERBATIM_USER_MAX_CHARS then [] else Kept(a, used + |t|, true) + [t]
    ensures Total(a + [t]) == Total(a) + |t|
  {
    assert (a + [t])[..|a + [t]| - 1] == a;
  }

  lemma {:induction false} KeptConcatFull(a: seq<string>, b: seq<string>, t: string, used: nat)
    requires used + |t| > VERBATIM_USER_MAX_CHARS
    ensures Kept(a + (b + [t]), used, true)
         == KeptOfBoth(Kept(b + [t], used, true), b + [t], Kept(a, used + Total(b + [t]), true))
  {
    Reassociate(a, b, t);
    KeptStep(a + b, t, used, true);
    KeptStep(b, t, used, true);
  }

  lemma {:induction false} KeptConcatStep(a: seq<string>, b: seq<string>, t: string, used: nat, any: bool, ka: seq<string>)
    requires !(any && used + |t| > VERBATIM_USER_MAX_CHARS)
    requires Kept(a + b, used + |t|, true) == KeptOfBoth(Kept(b, used + |t|, true), b, ka)
    ensures Kept(a + (b + [t]), used, any) == KeptOfBoth(Kept(b + [t], used, any), b + [t], ka)
  {
    var r, k := Kept(a + b, used + |t|, true), Kept(b, used + |t|, true);
    Reassociate(a, b, t);
    assert Kept(a + b + [t], used, any) == r + [t] by { KeptStep(a + b, t, used, any); }
    assert Kept(b + [t], used, any) == k + [t] by { KeptStep(b, t, used, any); }
    Glue(k, b, ka, t);
  }

  lemma {:induction false} KeptConcat(a: seq<string>, b: seq<string>, used: nat, any: bool)
    ensures Kept(a + b, used, any) == KeptOfBoth(Kept(b, used, any), b, Kept(a, used + Total(b), any || b != []))
  {
    if b == [] {
      assert a + b == a;
      assert Kept(a, used, any) + b == Kept(a, used, any);
    } else {
      var init, t := b[..|b| - 1], b[|b| - 1];
      assert b == init + [t];
      if any && used + |t| > VERBATIM_USER_MAX_CHARS {
        KeptConcatFull(a, init, t, used);
      } else {
        KeptConcat(a, init, used + |t|, true);
        KeptConcatStep(a, init, t, used, any, Kept(a, used + |t| + Total(init), true));
      }
    }
  }

  lemma {:induction false} KeptOfKeptStep(a: seq<string>, t: string, u: nat, x: bool, used: nat, any: bool)
    requires u <= used && (x ==> any)
    requires Kept(Kept(a, u + |t|, true), used + |t|, true) == Kept(a, used + |t|, true)
    ensures Kept(Kept(a + [t], u, x), used, any) == Kept(a + [t], used, any)
  {
    KeptStep(a, t, u, x);
    KeptStep(a, t, used, any);
    KeptStep(Kept(a, u + |t|, true), t, used, any);
  }

  // Keeping twice, the second time with less room, is keeping once with less room.
  lemma {:induction false} KeptOfKept(a: seq<string>, u: nat, x: bool, used: nat, any: bool)
    requires u <= used && (x ==> any)
    ensures Kept(Kept(a, u, x), used, any) == Kept(a, used, any)
  {
    if a != [] {
      var a', t := a[..|a| - 1], a[|a| - 1];
      assert a == a' + [t];
      KeptOfKept(a', u + |t|, true, used + |t|, true);
      KeptOfKeptStep(a', t, u, x, used, any);
    }
  }

  lemma {:induction false} TextsConcat(a: seq<Said>, b: seq<Said>)
    ensures Texts(a + b) == Texts(a) + Texts(b)
  {
    if b == [] {
      assert a + b == a;
    } else {
      var n := |b| - 1;
      TextsConcat(a, b[..n]);
      assert (a + b)[..|a + b| - 1] == a + b[..n];
      assert Counts(b[n]) ==> Texts(a) + Texts(b[..n]) + [Clipped(b[n])] == Texts(a) + (Texts(b[..n]) + [Clipped(b[n])]);
    }
  }

  // Collecting over two compactions gives what collecting once over all gives.
  lemma {:induction false} CollectTwice(previous: seq<string>, a: seq<Said>, b: seq<Said>)
    ensures Collected(Collected(previous, a), b) == Collected(previous, a + b)
  {
    TextsConcat(a, b);
    var before, later := previous + Texts(a), Texts(b);
    assert previous + Texts(a + b) == before + later;
    KeptBefore(before, later);
  }

  lemma {:induction false} KeptBefore(before: seq<string>, later: seq<string>)
    ensures Kept(Kept(before, 0, false) + later, 0, false) == Kept(before + later, 0, false)
  {
    KeptConcat(Kept(before, 0, false), later, 0, false);
    KeptConcat(before, later, 0, false);
    if Kept(later, 0, false) == later {
      KeptOfKept(before, 0, false, Total(later), later != []);
    }
  }

  // It is a suffix within the limit, the newest text always included...
  lemma {:induction false} KeptIsSuffix(texts: seq<string>, used: nat, any: bool)
    ensures var k := Kept(texts, used, any);
            && |k| <= |texts| && k == texts[|texts| - |k|..]
            && (used + Total(k) <= VERBATIM_USER_MAX_CHARS || |k| <= if any then 0 else 1)
            && (texts != [] && !any ==> k != [])
  {
    if texts != [] {
      var init, t := texts[..|texts| - 1], texts[|texts| - 1];
      KeptIsSuffix(init, used + |t|, true);
      var k' := Kept(init, used + |t|, true);
      assert (k' + [t])[..|k'|] == k';
    }
  }

  // ...and no longer suffix is.
  lemma {:induction false} KeptIsLongest(texts: seq<string>, used: nat, any: bool, n: nat)
    requires |Kept(texts, used, any)| < n <= |texts|
    ensures used + Total(texts[|texts| - n..]) > VERBATIM_USER_MAX_CHARS
  {
    var init, t := texts[..|texts| - 1], texts[|texts| - 1];
    var s := texts[|texts| - n..];
    assert s[..n - 1] == init[|init| - (n - 1)..];
    assert s[n - 1] == t;
    if Kept(texts, used, any) != [] {
      KeptIsLongest(init, used + |t|, true, n - 1);
    }
  }
}
