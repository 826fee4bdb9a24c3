// The rows of a conversation as the provider sees them, and what it means for
// tool calls and tool results to match. Shared by every history transform.
module Messages {

  datatype Role = System | User | Assistant | Tool | OtherRole

  // A call without a usable id carries the empty string.
  datatype Call = Call(id: string, name: string)

  datatype Content = Missing | Text(text: string) | Blocks(blocks: seq<string>)

  // `answers` is the id of the call a tool row answers, empty when it names none.
  datatype Message = Message(
    role: Role, calls: seq<Call>, answers: string, name: string, content: Content)

  function IdsOf(calls: seq<Call>): set<string> {
    if calls == [] then {} else
      var c := calls[|calls| - 1];
      IdsOf(calls[..|calls| - 1]) + if c.id != "" then {c.id} else {}
  }

  function CallIds(m: Message): set<string> {
    if m.role.Assistant? then IdsOf(m.calls) else {}
  }

  function AnswerIds(m: Message): set<string> {
    if m.role.Tool? && m.answers != "" then {m.answers} else {}
  }

  function Declared(ms: seq<Message>): set<string> {
    if ms == [] then {} else Declared(ms[..|ms| - 1]) + CallIds(ms[|ms| - 1])
  }

  function Answered(ms: seq<Message>): set<string> {
    if ms == [] then {} else Answered(ms[..|ms| - 1]) + AnswerIds(ms[|ms| - 1])
  }

  lemma {:induction false} DeclaredConcat(a: seq<Message>, b: seq<Message>)
    ensures Declared(a + b) == Declared(a) + Declared(b)
  {
    if b == [] {
      assert a + b == a;
    } else {
      assert (a + b)[..|a + b| - 1] == a + b[..|b| - 1];
      DeclaredConcat(a, b[..|b| - 1]);
    }
  }

  lemma {:induction false} AnsweredConcat(a: seq<Message>, b: seq<Message>)
    ensures Answered(a + b) == Answered(a) + Answered(b)
  {
    if b == [] {
      assert a + b == a;
    } else {
      assert (a + b)[..|a + b| - 1] == a + b[..|b| - 1];
      AnsweredConcat(a, b[..|b| - 1]);
    }
  }

  lemma {:induction false} DeclaredAt(ms: seq<Message>, i: nat)
    requires i < |ms|
    ensures CallIds(ms[i]) <= Declared(ms)
    ensures Declared(ms[..i]) <= Declared(ms)
  {
    assert ms == ms[..i] + ms[i..];
    DeclaredConcat(ms[..i], ms[i..]);
    assert ms == ms[..i + 1] + ms[i + 1..];
    DeclaredConcat(ms[..i + 1], ms[i + 1..]);
    assert ms[..i + 1][..i] == ms[..i];
  }

  lemma {:induction false} NoEmptyId(ms: seq<Message>)
    ensures "" !in Declared(ms)
  {
    if ms != [] {
      NoEmptyId(ms[..|ms| - 1]);
      NoEmptyCallId(ms[|ms| - 1].calls);
    }
  }

  lemma {:induction false} NoEmptyCallId(calls: seq<Call>)
    ensures "" !in IdsOf(calls)
  {
    if calls != [] {
      NoEmptyCallId(calls[..|calls| - 1]);
    }
  }

  lemma {:induction false} AnsweredWitness(ms: seq<Message>, id: string) returns (i: nat)
    requires id in Answered(ms)
    ensures i < |ms| && ms[i].role.Tool? && ms[i].answers == id && id != ""
  {
    i := |ms| - 1;
    if id !in AnswerIds(ms[i]) {
      i := AnsweredWitness(ms[..|ms| - 1], id);
    }
  }

  predicate Orphan(m: Message, declared: set<string>) {
    m.role.Tool? && m.answers != "" && m.answers !in declared
  }

  // No result stands before the first declaration of the call it answers, given
  // what was declared before the list.
  predicate Clean(before: set<string>, ms: seq<Message>) {
    ms == [] ||
    (Clean(before, ms[..|ms| - 1]) && !Orphan(ms[|ms| - 1], before + Declared(ms[..|ms| - 1])))
  }

  predicate NoOrphans(ms: seq<Message>) {
    Clean({}, ms)
  }

  ghost predicate AllAnswered(ms: seq<Message>) {
    Declared(ms) <= Answered(ms)
  }

  lemma {:induction false} CleanConcat(before: set<string>, a: seq<Message>, b: seq<Message>)
    ensures Clean(before, a + b) <==> Clean(before, a) && Clean(before + Declared(a), b)
  {
    if b == [] {
      assert a + b == a;
    } else {
      var b' := b[..|b| - 1];
      CleanConcat(before, a, b');
      DeclaredConcat(a, b');
      assert (a + b)[..|a + b| - 1] == a + b';
      assert before + Declared(a) + Declared(b') == before + (Declared(a) + Declared(b'));
    }
  }

  lemma {:induction false} CleanWeaken(before: set<string>, more: set<string>, ms: seq<Message>)
    requires Clean(before, ms) && before <= more
    ensures Clean(more, ms)
  {
    if ms != [] {
      CleanWeaken(before, more, ms[..|ms| - 1]);
    }
  }

  lemma {:induction false} CleanAt(before: set<string>, ms: seq<Message>, i: nat)
    requires Clean(before, ms) && i < |ms|
    ensures !Orphan(ms[i], before + Declared(ms[..i]))
  {
    if i < |ms| - 1 {
      CleanAt(before, ms[..|ms| - 1], i);
      assert ms[..|ms| - 1][..i] == ms[..i];
    }
  }

  lemma {:induction false} FirstUnclean(before: set<string>, ms: seq<Message>) returns (i: nat)
    requires !Clean(before, ms)
    ensures i < |ms| && Orphan(ms[i], before + Declared(ms[..i]))
  {
    var n := |ms| - 1;
    i := n;
    if !Clean(before, ms[..n]) {
      i := FirstUnclean(before, ms[..n]);
      assert ms[..n][..i] == ms[..i];
    }
  }

  lemma {:induction false} NoOrphansInit(ms: seq<Message>)
    requires ms != []
    ensures NoOrphans(ms) <==>
            NoOrphans(ms[..|ms| - 1]) && !Orphan(ms[|ms| - 1], Declared(ms[..|ms| - 1]))
  {
    assert {} + Declared(ms[..|ms| - 1]) == Declared(ms[..|ms| - 1]);
  }

  lemma {:induction false} NoOrphansAt(ms: seq<Message>, i: nat)
    requires NoOrphans(ms) && i < |ms|
    ensures !Orphan(ms[i], Declared(ms[..i]))
  {
    CleanAt({}, ms, i);
    assert {} + Declared(ms[..i]) == Declared(ms[..i]);
  }

  lemma {:induction false} FirstOrphan(ms: seq<Message>) returns (i: nat)
    requires !NoOrphans(ms)
    ensures i < |ms| && Orphan(ms[i], Declared(ms[..i]))
  {
    i := FirstUnclean({}, ms);
    assert {} + Declared(ms[..i]) == Declared(ms[..i]);
  }

  // Row by row.
  lemma {:induction false} NoOrphansPointwise(ms: seq<Message>)
    ensures NoOrphans(ms) <==> forall i :: 0 <= i < |ms| ==> !Orphan(ms[i], Declared(ms[..i]))
  {
    if NoOrphans(ms) {
      forall i | 0 <= i < |ms| ensures !Orphan(ms[i], Declared(ms[..i])) { NoOrphansAt(ms, i); }
    } else {
      var i := FirstOrphan(ms);
    }
  }

  // Length of the run of tool rows at the front.
  function ToolRun(ms: seq<Message>): (n: nat)
    ensures n <= |ms|
    ensures forall j :: 0 <= j < n ==> ms[j].role.Tool?
    ensures n < |ms| ==> !ms[n].role.Tool?
  {
    if ms == [] || !ms[0].role.Tool? then 0 else 1 + ToolRun(ms[1..])
  }

  // -------------------------------------------------------------- blocks

  // A row with the run of results right after it. Only the first block of a
  // history may be headed by a result.
  datatype Block = Block(head: Message, run: seq<Message>)

  function Parse(ms: seq<Message>): seq<Block>
    decreases |ms|
  {
    if ms == [] then [] else
      var b := ToolRun(ms[1..]);
      [Block(ms[0], ms[1..][..b])] + Parse(ms[1..][b..])
  }

  function Rows(b: Block): seq<Message> { [b.head] + b.run }

  function Flatten(bs: seq<Block>): seq<Message> {
    if bs == [] then [] else Flatten(bs[..|bs| - 1]) + Rows(bs[|bs| - 1])
  }

  ghost predicate WellFormed(bs: seq<Block>) {
    && (forall i, j :: 0 <= i < |bs| && 0 <= j < |bs[i].run| ==> bs[i].run[j].role.Tool?)
    && (forall i :: 1 <= i < |bs| ==> !bs[i].head.role.Tool?)
  }

  lemma {:induction false} FlattenConcat(a: seq<Block>, b: seq<Block>)
    ensures Flatten(a + b) == Flatten(a) + Flatten(b)
  {
    if b == [] {
      assert a + b == a;
    } else {
      var b', r := b[..|b| - 1], Rows(b[|b| - 1]);
      FlattenConcat(a, b');
      assert (a + b)[..|a + b| - 1] == a + b' && (a + b)[|a + b| - 1] == b[|b| - 1];
      Associative(Flatten(a), Flatten(b'), r);
    }
  }

  lemma {:induction false} Associative<T>(a: seq<T>, b: seq<T>, c: seq<T>)
    ensures a + b + c == a + (b + c)
  {
  }

  lemma {:induction false} FlattenOne(b: Block)
    ensures Flatten([b]) == Rows(b)
  {
    assert [b][..0] == [];
  }

  lemma {:induction false} ToolRunSplit(run: seq<Message>, tail: seq<Message>)
    requires forall j :: 0 <= j < |run| ==> run[j].role.Tool?
    requires tail != [] ==> !tail[0].role.Tool?
    ensures ToolRun(run + tail) == |run|
  {
    if run == [] {
      assert run + tail == tail;
    } else {
      assert (run + tail)[1..] == run[1..] + tail;
      ToolRunSplit(run[1..], tail);
    }
  }

  lemma {:induction false} WellFormedCons(b: Block, bs: seq<Block>)
    requires WellFormed(bs) && (bs != [] ==> !bs[0].head.role.Tool?)
    requires forall j :: 0 <= j < |b.run| ==> b.run[j].role.Tool?
    ensures WellFormed([b] + bs)
  {
    var all := [b] + bs;
    assert forall i :: 1 <= i < |all| ==> all[i] == bs[i - 1];
  }

  lemma {:induction false} ParseShape(ms: seq<Message>)
    ensures WellFormed(Parse(ms)) && Flatten(Parse(ms)) == ms
    ensures ms != [] ==> Parse(ms) != [] && Parse(ms)[0].head == ms[0]
    decreases |ms|
  {
    if ms != [] {
      var b := ToolRun(ms[1..]);
      var first, tail := Block(ms[0], ms[1..][..b]), ms[1..][b..];
      ParseShape(tail);
      WellFormedCons(first, Parse(tail));
      FlattenCons(first, Parse(tail));
      FirstRows(ms, b);
    }
  }

  lemma {:induction false} FirstRows(ms: seq<Message>, b: nat)
    requires ms != [] && b <= |ms[1..]|
    ensures ms == Rows(Block(ms[0], ms[1..][..b])) + ms[1..][b..]
  {
  }

  lemma {:induction false} FlattenCons(b: Block, bs: seq<Block>)
    ensures Flatten([b] + bs) == Rows(b) + Flatten(bs)
  {
    FlattenConcat([b], bs);
    FlattenOne(b);
  }

  lemma {:induction false} ParseCons(b: Block, tail: seq<Message>)
    requires forall j :: 0 <= j < |b.run| ==> b.run[j].role.Tool?
    requires tail != [] ==> !tail[0].role.Tool?
    ensures Parse(Rows(b) + tail) == [b] + Parse(tail)
  {
    var ms := Rows(b) + tail;
    assert ms[1..] == b.run + tail;
    ToolRunSplit(b.run, tail);
    assert (b.run + tail)[..|b.run|] == b.run && (b.run + tail)[|b.run|..] == tail;
  }

  lemma {:induction false} ParseFlatten(bs: seq<Block>)
    requires WellFormed(bs)
    ensures Parse(Flatten(bs)) == bs
    decreases |bs|
  {
    if bs != [] {
      var first, rest := bs[0], bs[1..];
      assert WellFormed(rest) by {
        assert forall i :: 0 <= i < |rest| ==> rest[i] == bs[i + 1];
      }
      ParseFlatten(rest);
      FlattenFirst(rest);
      ParseCons(first, Flatten(rest));
      FlattenCons(first, rest);
      assert bs == [first] + rest;
    }
  }

  lemma {:induction false} FlattenFirst(bs: seq<Block>)
    ensures bs == [] ==> Flatten(bs) == []
    ensures bs != [] ==> Flatten(bs) != [] && Flatten(bs)[0] == bs[0].head
  {
    if bs != [] {
      assert bs == [bs[0]] + bs[1..];
      FlattenConcat([bs[0]], bs[1..]);
      FlattenOne(bs[0]);
    }
  }

  // Cutting before a row that is not a result cuts between blocks.
  lemma {:induction false} ParseJoin(a: seq<Message>, c: seq<Message>)
    requires c != [] ==> !c[0].role.Tool?
    ensures Parse(a + c) == Parse(a) + Parse(c)
  {
    ParseShape(a);
    ParseShape(c);
    FlattenConcat(Parse(a), Parse(c));
    ParseFlatten(Parse(a) + Parse(c));
  }

  // The strict shape: each row is followed by a run of results that answers
  // exactly the calls of that row (none, for a row that is not an assistant).
  ghost predicate Settled(b: Block) {
    AnswerIds(b.head) == {} && Answered(b.run) == CallIds(b.head)
  }

  ghost predicate AllSettled(bs: seq<Block>) {
    forall i :: 0 <= i < |bs| ==> Settled(bs[i])
  }

  ghost predicate BlockLegal(ms: seq<Message>) {
    AllSettled(Parse(ms))
  }

  lemma {:induction false} AllSettledConcat(p: seq<Block>, q: seq<Block>)
    ensures AllSettled(p + q) <==> AllSettled(p) && AllSettled(q)
  {
    assert forall i :: 0 <= i < |p| ==> (p + q)[i] == p[i];
    assert forall i :: 0 <= i < |q| ==> (p + q)[|p| + i] == q[i];
  }

  lemma {:induction false} BlockLegalJoin(a: seq<Message>, c: seq<Message>)
    requires c != [] ==> !c[0].role.Tool?
    ensures BlockLegal(a + c) <==> BlockLegal(a) && BlockLegal(c)
  {
    ParseJoin(a, c);
    AllSettledConcat(Parse(a), Parse(c));
  }

  lemma {:induction false} NoOrphansJoin(a: seq<Message>, c: seq<Message>)
    requires NoOrphans(a) && NoOrphans(c)
    ensures NoOrphans(a + c)
  {
    CleanConcat({}, a, c);
    CleanWeaken({}, {} + Declared(a), c);
  }

  // A row followed only by results to its own calls.
  lemma {:induction false} NoOrphansInBlock(b: Block)
    requires AnswerIds(b.head) == {} && Answered(b.run) <= CallIds(b.head)
    ensures NoOrphans(Rows(b))
  {
    CleanConcat({}, [b.head], b.run);
    assert [b.head][..0] == [];
    ToolsClean({} + Declared([b.head]), b.run);
  }

  lemma {:induction false} ToolsClean(before: set<string>, run: seq<Message>)
    requires Answered(run) <= before
    ensures Clean(before, run)
  {
    if run != [] {
      ToolsClean(before, run[..|run| - 1]);
      assert AnswerIds(run[|run| - 1]) <= Answered(run);
    }
  }

  lemma {:induction false} NoToolsNoOrphans(before: set<string>, ms: seq<Message>)
    requires forall j :: 0 <= j < |ms| ==> !ms[j].role.Tool?
    ensures Clean(before, ms)
  {
    if ms != [] {
      assert !ms[|ms| - 1].role.Tool?;
      NoToolsNoOrphans(before, ms[..|ms| - 1]);
    }
  }

  lemma {:induction false} ToolsDeclareNothing(run: seq<Message>)
    requires forall j :: 0 <= j < |run| ==> run[j].role.Tool?
    ensures Declared(run) == {}
  {
    if run != [] {
      ToolsDeclareNothing(run[..|run| - 1]);
      assert run[|run| - 1].role.Tool?;
    }
  }

  lemma {:induction false} RowsSets(b: Block)
    requires forall j :: 0 <= j < |b.run| ==> b.run[j].role.Tool?
    ensures Declared(Rows(b)) == CallIds(b.head)
    ensures Answered(Rows(b)) == AnswerIds(b.head) + Answered(b.run)
  {
    DeclaredConcat([b.head], b.run);
    AnsweredConcat([b.head], b.run);
    ToolsDeclareNothing(b.run);
    assert [b.head][..0] == [];
  }

  // The strict shape implies both of the loose ones.
  lemma {:induction false} BlockLegalImplies(ms: seq<Message>)
    requires BlockLegal(ms)
    ensures NoOrphans(ms) && AllAnswered(ms)
  {
    ParseShape(ms);
    SettledBlocks(Parse(ms));
  }

  lemma {:induction false} SettledBlocks(bs: seq<Block>)
    requires WellFormed(bs) && AllSettled(bs)
    ensures NoOrphans(Flatten(bs)) && AllAnswered(Flatten(bs))
  {
    if bs != [] {
      var init, b := bs[..|bs| - 1], bs[|bs| - 1];
      SettledBlocks(init);
      assert Settled(b);
      NoOrphansInBlock(b);
      NoOrphansJoin(Flatten(init), Rows(b));
      DeclaredConcat(Flatten(init), Rows(b));
      AnsweredConcat(Flatten(init), Rows(b));
      RowsSets(b);
    }
  }

  // ---------------------------------------------------- legal start of a list

  // The source's find_legal_message_start: one past the last result that answers
  // nothing declared since the previous such result.
  method FindLegalStart(ms: seq<Message>) returns (start: nat)
    ensures start == LegalStart(ms)
  {
    var declared: set<string> := {};
    start := 0;
    var i := 0;
    while i < |ms|
      invariant 0 <= start <= i <= |ms|
      invariant start == LegalStart(ms[..i])
      invariant declared == Declared(ms[start..i])
    {
      LegalStartStep(ms, i);
      if ms[i].role.Assistant? {
        declared := declared + CallIds(ms[i]);
      } else if Orphan(ms[i], declared) {
        start := i + 1;
        declared := {};
      }
      i := i + 1;
    }
    assert ms[..i] == ms;
  }

  lemma {:induction false} LegalStartStep(ms: seq<Message>, i: nat)
    requires i < |ms|
    ensures var s := LegalStart(ms[..i]);
            && LegalStart(ms[..i + 1]) == (if Orphan(ms[i], Declared(ms[s..i])) then i + 1 else s)
            && Declared(ms[s..i + 1]) == Declared(ms[s..i]) + CallIds(ms[i])
  {
    var s := LegalStart(ms[..i]);
    assert ms[..i + 1][..i] == ms[..i];
    assert ms[..i][s..] == ms[s..i] == ms[..i + 1][s..i];
    assert ms[s..i + 1][..i - s] == ms[s..i];
  }

  function LegalStart(ms: seq<Message>): (start: nat)
    ensures start <= |ms|
  {
    if ms == [] then 0 else
      var n := |ms| - 1;
      var s := LegalStart(ms[..n]);
      if Orphan(ms[n], Declared(ms[s..n])) then n + 1 else s
  }

  // The suffix it leaves has no orphan, and 0 is returned exactly for lists
  // that had none to begin with.
  lemma {:induction false} LegalStartLeavesNoOrphans(ms: seq<Message>)
    ensures NoOrphans(ms[LegalStart(ms)..])
    ensures LegalStart(ms) == 0 <==> NoOrphans(ms)
  {
    if ms != [] {
      var n := |ms| - 1;
      var s := LegalStart(ms[..n]);
      LegalStartLeavesNoOrphans(ms[..n]);
      NoOrphansInit(ms);
      if !Orphan(ms[n], Declared(ms[s..n])) {
        var rest := ms[s..];
        assert rest[..|rest| - 1] == ms[s..n] == ms[..n][s..];
        NoOrphansInit(rest);
      }
      if s == 0 {
        assert ms[s..n] == ms[..n];
      }
    }
  }

  // ---------------------------------------------------------- weights and user rows

  // The scaled token estimate of a row.
  type Weight = Message -> nat

  function Sum(ms: seq<Message>, i: nat, weight: Weight): nat
    decreases |ms| - i
  {
    if i >= |ms| then 0 else Sum(ms, i + 1, weight) + weight(ms[i])
  }

  lemma {:induction false} SumShrinks(ms: seq<Message>, i: nat, j: nat, weight: Weight)
    requires i <= j
    ensures Sum(ms, j, weight) <= Sum(ms, i, weight)
    decreases j - i
  {
    if i < j { SumShrinks(ms, i + 1, j, weight); }
  }

  function FirstUser(ms: seq<Message>, i: nat): (u: nat)
    requires i <= |ms|
    ensures i <= u <= |ms| && (u < |ms| ==> ms[u].role.User?)
    ensures forall k :: i <= k < u ==> !ms[k].role.User?
    decreases |ms| - i
  {
    if i == |ms| || ms[i].role.User? then i else FirstUser(ms, i + 1)
  }

  function LastUser(ms: seq<Message>, n: nat): (u: int)
    requires n <= |ms|
    ensures -1 <= u < n && (u >= 0 ==> ms[u].role.User?)
    ensures forall k :: u < k < n ==> !ms[k].role.User?
  {
    if n == 0 then -1 else if ms[n - 1].role.User? then n - 1 else LastUser(ms, n - 1)
  }
}
