// The last resort before a request is sent: the oldest history is left out until
// what remains fits the model's budget.
module ContextGovernor {
  import opened Messages

  function Systems(ms: seq<Message>): seq<Message> {
    if ms == [] then [] else
      Systems(ms[..|ms| - 1]) + if ms[|ms| - 1].role.System? then [ms[|ms| - 1]] else []
  }

  function Others(ms: seq<Message>): seq<Message> {
    if ms == [] then [] else
      Others(ms[..|ms| - 1]) + if ms[|ms| - 1].role.System? then [] else [ms[|ms| - 1]]
  }

  // Where the newest rows that fit begin; the newest one is always in.
  function WindowFrom(rest: seq<Message>, i: nat, remaining: nat, weight: Weight): (w: nat)
    requires i <= |rest|
    ensures w <= i && (rest != [] && i == |rest| ==> w < |rest|)
    decreases i
  {
    if i == 0 then 0
    else if i < |rest| && Sum(rest, i, weight) + weight(rest[i - 1]) > remaining then i
    else WindowFrom(rest, i - 1, remaining, weight)
  }

  function Window(rest: seq<Message>, remaining: nat, weight: Weight): nat {
    WindowFrom(rest, |rest|, remaining, weight)
  }

  // The window moved to a user row: the first inside it, else the nearest before it.
  function AtUser(rest: seq<Message>, w: nat): (s: nat)
    requires w <= |rest|
    ensures s <= |rest| && (w < |rest| ==> s < |rest|)
  {
    if FirstUser(rest, w) < |rest| then FirstUser(rest, w)
    else if LastUser(rest, |rest|) >= 0 then LastUser(rest, |rest|)
    else w
  }

  function Legal(rest: seq<Message>, s: nat): nat
    requires s <= |rest|
  {
    s + LegalStart(rest[s..])
  }

  function SnipStart(rest: seq<Message>, remaining: nat, weight: Weight): (s: nat)
    ensures s <= |rest|
  {
    var s := Legal(rest, AtUser(rest, Window(rest, remaining, weight)));
    if s < |rest| then s else Legal(rest, if |rest| < 4 then 0 else |rest| - 4)
  }

  function Snipped(ms: seq<Message>, remaining: nat, weight: Weight): seq<Message> {
    var rest := Others(ms);
    Systems(ms) + rest[SnipStart(rest, remaining, weight)..]
  }

  method Split(ms: seq<Message>) returns (system: seq<Message>, rest: seq<Message>)
    ensures system == Systems(ms) && rest == Others(ms)
  {
    system, rest := [], [];
    var i := 0;
    while i < |ms|
      invariant 0 <= i <= |ms|
      invariant system == Systems(ms[..i]) && rest == Others(ms[..i])
    {
      assert ms[..i + 1][..i] == ms[..i];
      if ms[i].role.System? {
        system := system + [ms[i]];
      } else {
        rest := rest + [ms[i]];
      }
      i := i + 1;
    }
    assert ms[..i] == ms;
  }

  method KeepNewest(rest: seq<Message>, remaining: nat, weight: Weight) returns (w: nat)
    ensures w == Window(rest, remaining, weight)
  {
    w := |rest|;
    var tokens: nat := 0;
    while w > 0 && !(w < |rest| && tokens + weight(rest[w - 1]) > remaining)
      invariant 0 <= w <= |rest|
      invariant tokens == Sum(rest, w, weight)
      invariant WindowFrom(rest, w, remaining, weight) == Window(rest, remaining, weight)
    {
      tokens := tokens + weight(rest[w - 1]);
      w := w - 1;
    }
  }

  method MoveToUser(rest: seq<Message>, w: nat) returns (s: nat)
    requires w <= |rest|
    ensures s == AtUser(rest, w)
  {
    s := w;
    while s < |rest| && !rest[s].role.User?
      invariant w <= s <= |rest|
      invariant FirstUser(rest, s) == FirstUser(rest, w)
    {
      s := s + 1;
    }
    if s < |rest| {
      return;
    }
    var u := |rest|;
    while u > 0 && !rest[u - 1].role.User?
      invariant 0 <= u <= |rest|
      invariant LastUser(rest, u) == LastUser(rest, |rest|)
    {
      u := u - 1;
    }
    s := if u > 0 then u - 1 else w;
  }

  method MoveToLegal(rest: seq<Message>, s: nat) returns (t: nat)
    requires s <= |rest|
    ensures t == Legal(rest, s) && t <= |rest|
  {
    var start := FindLegalStart(rest[s..]);
    t := s + start;
  }

  method SnipRest(rest: seq<Message>, remaining: nat, weight: Weight) returns (s: nat)
    requires rest != []
    ensures s == SnipStart(rest, remaining, weight)
  {
    var w := KeepNewest(rest, remaining, weight);
    s := MoveToUser(rest, w);
    s := MoveToLegal(rest, s);
    if s == |rest| {
      s := MoveToLegal(rest, if |rest| < 4 then 0 else |rest| - 4);
    }
  }

  // `reserved` is what the system rows and the tool definitions take.
  function Trimmed(ms: seq<Message>, window: nat, budget: int, estimate: nat, reserved: nat, weight: Weight): seq<Message> {
    if ms == [] || window == 0 || budget <= 0 || estimate <= budget || Others(ms) == [] then ms
    else Snipped(ms, if budget < reserved then 0 else budget - reserved, weight)
  }

  // ------------------------------------------------------------ properties

  lemma {:induction false} WindowFits(rest: seq<Message>, i: nat, remaining: nat, weight: Weight)
    requires 0 < i <= |rest| && (i < |rest| - 1 ==> Sum(rest, i, weight) <= remaining)
    ensures var w := WindowFrom(rest, i, remaining, weight);
            && (w < |rest| - 1 ==> Sum(rest, w, weight) <= remaining)
            && (w > 0 ==> Sum(rest, w - 1, weight) > remaining || w == |rest|)
    decreases i
  {
    if !(i < |rest| && Sum(rest, i, weight) + weight(rest[i - 1]) > remaining) && i > 1 {
      WindowFits(rest, i - 1, remaining, weight);
    }
  }

  lemma {:induction false} LegalSuffix(rest: seq<Message>, s: nat)
    requires BlockLegal(rest) && s < |rest| && !rest[s].role.Tool?
    ensures LegalStart(rest[s..]) == 0
  {
    assert rest == rest[..s] + rest[s..];
    BlockLegalJoin(rest[..s], rest[s..]);
    BlockLegalImplies(rest[s..]);
    LegalStartLeavesNoOrphans(rest[s..]);
  }

  lemma {:induction false} UserInReach(rest: seq<Message>, w: nat)
    requires w <= |rest| && exists k :: 0 <= k < |rest| && rest[k].role.User?
    ensures AtUser(rest, w) < |rest| && rest[AtUser(rest, w)].role.User?
  {
  }

  // A user row inside the window fits with all that follows it, or is the newest row.
  lemma {:induction false} UserFits(rest: seq<Message>, remaining: nat, weight: Weight)
    requires rest != []
    ensures var w := Window(rest, remaining, weight); var u := AtUser(rest, w);
            FirstUser(rest, w) < |rest| && u < |rest| - 1 ==> Sum(rest, u, weight) <= remaining
  {
    var w := Window(rest, remaining, weight);
    var u := AtUser(rest, w);
    WindowFits(rest, |rest|, remaining, weight);
    if FirstUser(rest, w) < |rest| && u < |rest| - 1 {
      SumShrinks(rest, w, u, weight);
    }
  }

  // A legal history with a user row keeps a non-empty suffix starting at a user
  // row, without orphans. It is over the remaining budget only when the newest
  // row alone is, or when no user row stands in the part that fits.
  lemma {:induction false} SnipKeepsUserSuffix(rest: seq<Message>, remaining: nat, weight: Weight)
    requires BlockLegal(rest) && exists k :: 0 <= k < |rest| && rest[k].role.User?
    ensures var s := SnipStart(rest, remaining, weight);
            && s < |rest| && rest[s].role.User? && NoOrphans(rest[s..])
            && (Sum(rest, s, weight) > remaining ==>
                  s == |rest| - 1
                  || forall k :: Window(rest, remaining, weight) <= k < |rest| ==> !rest[k].role.User?)
  {
    var w := Window(rest, remaining, weight);
    var u := AtUser(rest, w);
    UserInReach(rest, w);
    LegalSuffix(rest, u);
    LegalStartLeavesNoOrphans(rest[u..]);
    UserFits(rest, remaining, weight);
  }

  lemma {:induction false} StartOneMore(ms: seq<Message>, m: Message)
    ensures var s := LegalStart(ms);
            LegalStart(ms + [m]) == if Orphan(m, Declared(ms[s..])) then |ms| + 1 else s
  {
    var all, s := ms + [m], LegalStart(ms);
    assert all[..|all| - 1] == ms;
    assert all[s..|all| - 1] == ms[s..];
  }

  lemma {:induction false} TailDeclares(a: seq<Message>, b: seq<Message>, s: nat)
    requires s <= |a|
    ensures Declared(b) <= Declared((a + b)[s..])
  {
    assert (a + b)[s..] == a[s..] + b;
    DeclaredConcat(a[s..], b);
  }

  lemma {:induction false} CleanRowKeepsStart(a: seq<Message>, init: seq<Message>, m: Message)
    requires LegalStart(a + init) == LegalStart(a) && !Orphan(m, Declared(init))
    ensures LegalStart(a + (init + [m])) == LegalStart(a)
  {
    TailDeclares(a, init, LegalStart(a));
    StartOneMore(a + init, m);
    assert a + (init + [m]) == a + init + [m];
  }

  // Rows without orphans do not move the legal start of what precedes them.
  lemma {:induction false} CleanTailKeepsStart(a: seq<Message>, b: seq<Message>)
    requires NoOrphans(b)
    ensures LegalStart(a + b) == LegalStart(a)
  {
    if b == [] {
      assert a + b == a;
    } else {
      var init, m := b[..|b| - 1], b[|b| - 1];
      NoOrphansInit(b);
      CleanTailKeepsStart(a, init);
      CleanRowKeepsStart(a, init, m);
      assert b == init + [m];
    }
  }

  predicate ResultsFrom(rest: seq<Message>, s: nat) {
    forall k :: s <= k < |rest| ==> rest[k].role.Tool?
  }

  // A window of results only is dropped whole exactly when its newest row names the call it answers.
  lemma {:induction false} ResultsDropped(run: seq<Message>)
    requires run != [] && forall k :: 0 <= k < |run| ==> run[k].role.Tool?
    ensures LegalStart(run) == |run| <==> run[|run| - 1].answers != ""
  {
    var n := |run| - 1;
    var s := LegalStart(run[..n]);
    ToolsDeclareNothing(run[s..n]);
  }

  // A window with any other row keeps that row, when the history is legal.
  lemma {:induction false} OtherRowKept(rest: seq<Message>, s: nat)
    requires BlockLegal(rest) && s < |rest| && !ResultsFrom(rest, s)
    ensures Legal(rest, s) < |rest|
  {
    var p := FirstOther(rest, s);
    assert rest == rest[..p] + rest[p..] && rest[s..] == rest[s..p] + rest[p..];
    BlockLegalJoin(rest[..p], rest[p..]);
    BlockLegalImplies(rest[p..]);
    CleanTailKeepsStart(rest[s..p], rest[p..]);
  }

  function FirstOther(rest: seq<Message>, s: nat): (p: nat)
    requires s < |rest| && !ResultsFrom(rest, s)
    ensures s <= p < |rest| && !rest[p].role.Tool?
    decreases |rest| - s
  {
    if !rest[s].role.Tool? then s else FirstOther(rest, s + 1)
  }

  lemma {:induction false} WindowDroppedIff(rest: seq<Message>, s: nat)
    requires BlockLegal(rest) && s < |rest|
    ensures Legal(rest, s) == |rest| <==> ResultsFrom(rest, s) && rest[|rest| - 1].answers != ""
  {
    if ResultsFrom(rest, s) {
      ResultsDropped(rest[s..]);
    } else {
      OtherRowKept(rest, s);
    }
  }

  predicate NoUser(rest: seq<Message>) {
    forall k :: 0 <= k < |rest| ==> !rest[k].role.User?
  }

  // Of a legal history nothing is left exactly when it has no user row, its newest row is a result that
  // names its call, and both the part that fits the budget and the newest four rows are results only.
  lemma {:induction false} SnipLeavesNothingIff(rest: seq<Message>, remaining: nat, weight: Weight)
    requires BlockLegal(rest) && rest != []
    ensures SnipStart(rest, remaining, weight) == |rest| <==>
            && NoUser(rest) && rest[|rest| - 1].answers != ""
            && ResultsFrom(rest, Window(rest, remaining, weight))
            && ResultsFrom(rest, if |rest| < 4 then 0 else |rest| - 4)
  {
    var w := Window(rest, remaining, weight);
    var u := AtUser(rest, w);
    WindowDroppedIff(rest, u);
    WindowDroppedIff(rest, if |rest| < 4 then 0 else |rest| - 4);
    if NoUser(rest) {
      assert u == w;
    } else {
      UserInReach(rest, w);
    }
  }

  // One assistant row with at least four results, when no more than its newest row fits.
  lemma {:induction false} LongRunIsDropped(b: Block, weight: Weight)
    requires Settled(b) && b.head.role.Assistant? && |b.run| >= 4 && b.run[|b.run| - 1].answers != ""
    requires forall k :: 0 <= k < |b.run| ==> b.run[k].role.Tool?
    requires weight(b.run[|b.run| - 2]) > 0
    ensures BlockLegal(Rows(b)) && NoOrphans(Rows(b)) && AllAnswered(Rows(b))
    ensures SnipStart(Rows(b), 0, weight) == |Rows(b)|
  {
    var rest := Rows(b);
    var n := |rest| - 1;
    OneBlockIsLegal(b);
    BlockLegalImplies(rest);
    assert forall k :: 1 <= k < |rest| ==> rest[k] == b.run[k - 1];
    assert Sum(rest, n, weight) == weight(rest[n]) + Sum(rest, n + 1, weight);
    assert WindowFrom(rest, n, 0, weight) == n;
    assert Window(rest, 0, weight) == n;
    SnipLeavesNothingIff(rest, 0, weight);
  }

  lemma {:induction false} OneBlockIsLegal(b: Block)
    requires Settled(b) && forall k :: 0 <= k < |b.run| ==> b.run[k].role.Tool?
    ensures BlockLegal(Rows(b))
  {
    ParseCons(b, []);
    assert Rows(b) + [] == Rows(b);
    assert [b] + Parse([]) == [b];
  }

  function Reply(id: string): Message {
    Message(Tool, [], id, "grep", Text("hit"))
  }

  // Such a history: four calls and their results, nothing for the repair to do.
  lemma {:induction false} SnipMayLeaveNothing(weight: Weight)
    requires weight(Reply("c")) > 0
    ensures var ms := [Message(Assistant, [Call("a", "grep"), Call("b", "grep"), Call("c", "grep"), Call("d", "grep")], "", "", Text("")),
                       Reply("a"), Reply("b"), Reply("c"), Reply("d")];
            && BlockLegal(ms) && NoOrphans(ms) && AllAnswered(ms)
            && SnipStart(ms, 0, weight) == |ms|
  {
    var calls := [Call("a", "grep"), Call("b", "grep"), Call("c", "grep"), Call("d", "grep")];
    var b := Block(Message(Assistant, calls, "", "", Text("")), [Reply("a"), Reply("b"), Reply("c"), Reply("d")]);
    FourIds("a", "b", "c", "d");
    FourAnswers("a", "b", "c", "d");
    LongRunIsDropped(b, weight);
    assert Rows(b) == [b.head, Reply("a"), Reply("b"), Reply("c"), Reply("d")];
  }

  lemma {:induction false} FourIds(a: string, b: string, c: string, d: string)
    requires a != "" && b != "" && c != "" && d != ""
    ensures IdsOf([Call(a, "grep"), Call(b, "grep"), Call(c, "grep"), Call(d, "grep")]) == {a, b, c, d}
  {
    var x, y, z, w := Call(a, "grep"), Call(b, "grep"), Call(c, "grep"), Call(d, "grep");
    assert [x, y, z, w][..3] == [x, y, z] && [x, y, z][..2] == [x, y] && [x, y][..1] == [x] && [x][..0] == [];
    assert IdsOf([x]) == IdsOf([]) + {a} == {a};
    assert IdsOf([x, y]) == {a} + {b};
    assert IdsOf([x, y, z]) == {a} + {b} + {c};
  }

  lemma {:induction false} FourAnswers(a: string, b: string, c: string, d: string)
    requires a != "" && b != "" && c != "" && d != ""
    ensures Answered([Reply(a), Reply(b), Reply(c), Reply(d)]) == {a, b, c, d}
  {
    var x, y, z, w := Reply(a), Reply(b), Reply(c), Reply(d);
    assert [x, y, z, w][..3] == [x, y, z] && [x, y, z][..2] == [x, y] && [x, y][..1] == [x] && [x][..0] == [];
    assert Answered([x]) == Answered([]) + {a} == {a};
    assert Answered([x, y]) == {a} + {b};
    assert Answered([x, y, z]) == {a} + {b} + {c};
  }

  // Rows are only taken from the front: what is sent is the system rows and a
  // contiguous suffix of the rest, and the two make up the history.
  lemma {:induction false} SplitLosesNothing(ms: seq<Message>)
    ensures multiset(Systems(ms)) + multiset(Others(ms)) == multiset(ms)
  {
    if ms != [] {
      var init, m := ms[..|ms| - 1], ms[|ms| - 1];
      SplitLosesNothing(init);
      assert ms == init + [m];
    }
  }

  // ---------------------------------------------------------- system rows and the others

  lemma {:induction false} OthersConcat(a: seq<Message>, b: seq<Message>)
    ensures Others(a + b) == Others(a) + Others(b) && Systems(a + b) == Systems(a) + Systems(b)
  {
    if b == [] {
      assert a + b == a;
    } else {
      var n := |b| - 1;
      OthersConcat(a, b[..n]);
      assert (a + b)[..|a + b| - 1] == a + b[..n];
    }
  }

  lemma {:induction false} OthersSame(ms: seq<Message>)
    requires forall i :: 0 <= i < |ms| ==> !ms[i].role.System?
    ensures Others(ms) == ms && Systems(ms) == []
  {
    if ms != [] {
      var init, m := ms[..|ms| - 1], ms[|ms| - 1];
      OthersSame(init);
      assert ms == init + [m] && !m.role.System?;
    }
  }

  lemma {:induction false} SystemsOnly(ms: seq<Message>)
    ensures forall i :: 0 <= i < |Systems(ms)| ==> Systems(ms)[i].role.System?
    ensures forall i :: 0 <= i < |Others(ms)| ==> !Others(ms)[i].role.System?
  {
    if ms != [] { SystemsOnly(ms[..|ms| - 1]); }
  }

  lemma {:induction false} NoOthers(ms: seq<Message>)
    requires forall i :: 0 <= i < |ms| ==> ms[i].role.System?
    ensures Others(ms) == [] && Systems(ms) == ms && BlockLegal(ms)
  {
    if ms != [] {
      var init, m := ms[..|ms| - 1], ms[|ms| - 1];
      assert m.role.System? && ms == init + [m];
      NoOthers(init);
      OneRow(m);
      BlockLegalJoin(init, [m]);
    }
  }

  lemma {:induction false} OneRow(m: Message)
    requires !m.role.Assistant? && AnswerIds(m) == {}
    ensures BlockLegal([m])
  {
    assert [m][1..] == [];
    assert Parse([m]) == [Block(m, [])] + Parse([]);
  }

  // Results that name no call may follow any row.
  lemma {:induction false} NamelessRun(a: seq<Message>, run: seq<Message>)
    requires BlockLegal(a) && Answered(run) == {} && forall j :: 0 <= j < |run| ==> run[j].role.Tool?
    ensures BlockLegal(a + run)
  {
    if a == [] {
      assert a + run == run;
      NamelessAlone(run);
    } else {
      ParseShape(a);
      NamelessLast(Parse(a), run);
    }
  }

  lemma {:induction false} NamelessAlone(run: seq<Message>)
    requires Answered(run) == {} && forall j :: 0 <= j < |run| ==> run[j].role.Tool?
    ensures BlockLegal(run)
  {
    if run != [] {
      var b := Block(run[0], run[1..]);
      assert run == [run[0]] + run[1..];
      AnsweredConcat([run[0]], run[1..]);
      assert [run[0]][..0] == [];
      ParseCons(b, []);
      assert Rows(b) + [] == run && [b] + Parse([]) == [b];
    }
  }

  lemma {:induction false} LongerRun(init: seq<Block>, b: Block, run: seq<Message>)
    ensures Flatten(init + [Block(b.head, b.run + run)]) == Flatten(init + [b]) + run
  {
    var more := Block(b.head, b.run + run);
    FlattenConcat(init, [more]);
    FlattenConcat(init, [b]);
    FlattenOne(more);
    FlattenOne(b);
    assert Rows(more) == Rows(b) + run;
    Associative(Flatten(init), Rows(b), run);
  }

  lemma {:induction false} LongerShape(init: seq<Block>, b: Block, run: seq<Message>)
    requires WellFormed(init + [b]) && AllSettled(init + [b]) && Answered(run) == {}
    requires forall j :: 0 <= j < |run| ==> run[j].role.Tool?
    ensures var all := init + [Block(b.head, b.run + run)]; WellFormed(all) && AllSettled(all)
  {
    var bs, all := init + [b], init + [Block(b.head, b.run + run)];
    AnsweredConcat(b.run, run);
    assert bs[|init|] == b && Settled(b);
    assert forall i :: 0 <= i < |init| ==> all[i] == bs[i];
    forall i, j | 0 <= i < |all| && 0 <= j < |all[i].run| ensures all[i].run[j].role.Tool? {
      if i == |init| && j < |b.run| { assert bs[i].run[j].role.Tool?; }
    }
  }

  lemma {:induction false} NamelessLast(bs: seq<Block>, run: seq<Message>)
    requires bs != [] && WellFormed(bs) && AllSettled(bs)
    requires Answered(run) == {} && forall j :: 0 <= j < |run| ==> run[j].role.Tool?
    ensures BlockLegal(Flatten(bs) + run)
  {
    var init, b := bs[..|bs| - 1], bs[|bs| - 1];
    assert bs == init + [b];
    LongerRun(init, b, run);
    LongerShape(init, b, run);
    ParseFlatten(init + [Block(b.head, b.run + run)]);
  }

  // Without its system rows a legal history stays legal.
  lemma {:induction false} OthersLegal(ms: seq<Message>)
    requires BlockLegal(ms)
    ensures BlockLegal(Others(ms))
  {
    ParseShape(ms);
    OthersOfBlocks(Parse(ms));
  }

  lemma {:induction false} OthersOfRows(b: Block)
    requires forall j :: 0 <= j < |b.run| ==> b.run[j].role.Tool?
    ensures Others(Rows(b)) == if b.head.role.System? then b.run else Rows(b)
  {
    OthersConcat([b.head], b.run);
    OthersSame(b.run);
    assert [b.head][..0] == [];
  }

  // One more block behind a legal list.
  lemma {:induction false} OthersOneMore(before: seq<Message>, b: Block)
    requires BlockLegal(before) && Settled(b) && (before == [] || !b.head.role.Tool?)
    requires forall j :: 0 <= j < |b.run| ==> b.run[j].role.Tool?
    ensures BlockLegal(before + Others(Rows(b)))
  {
    OthersOfRows(b);
    if b.head.role.System? {
      NamelessRun(before, b.run);
    } else {
      OneBlockIsLegal(b);
      if before == [] {
        assert before + Rows(b) == Rows(b);
      } else {
        BlockLegalJoin(before, Rows(b));
      }
    }
  }

  lemma {:induction false} InitOf(bs: seq<Block>)
    requires bs != [] && WellFormed(bs) && AllSettled(bs)
    ensures var n := |bs| - 1;
            && WellFormed(bs[..n]) && AllSettled(bs[..n]) && Settled(bs[n])
            && (n == 0 || !bs[n].head.role.Tool?)
            && forall j :: 0 <= j < |bs[n].run| ==> bs[n].run[j].role.Tool?
  {
    var n := |bs| - 1;
    assert Settled(bs[n]);
    assert forall i :: 0 <= i < n ==> bs[..n][i] == bs[i];
  }

  lemma {:induction false} OthersOfBlocks(bs: seq<Block>)
    requires WellFormed(bs) && AllSettled(bs)
    ensures BlockLegal(Others(Flatten(bs)))
  {
    if bs != [] {
      var init, b := bs[..|bs| - 1], bs[|bs| - 1];
      InitOf(bs);
      OthersOfBlocks(init);
      OthersOneMore(Others(Flatten(init)), b);
      OthersConcat(Flatten(init), Rows(b));
    }
  }

  ghost predicate HasUser(ms: seq<Message>) {
    exists k :: 0 <= k < |ms| && ms[k].role.User?
  }

  // The first row that is not a system row is the user's.
  predicate Opens(ms: seq<Message>) {
    Others(ms) != [] && Others(ms)[0].role.User?
  }

  lemma {:induction false} UserAmongOthers(ms: seq<Message>, k: nat)
    requires k < |ms| && ms[k].role.User?
    ensures HasUser(Others(ms))
  {
    assert ms == ms[..k] + ([ms[k]] + ms[k + 1..]);
    OthersConcat(ms[..k], [ms[k]] + ms[k + 1..]);
    OthersConcat([ms[k]], ms[k + 1..]);
    OthersSame([ms[k]]);
    assert Others(ms)[|Others(ms[..k])|] == ms[k];
  }

  lemma {:induction false} SuffixLegal(rest: seq<Message>, s: nat)
    requires BlockLegal(rest) && s < |rest| && rest[s].role.User?
    ensures BlockLegal(rest[s..])
  {
    assert rest == rest[..s] + rest[s..];
    BlockLegalJoin(rest[..s], rest[s..]);
  }

  // System rows, then others from a user row on.
  lemma {:induction false} JoinedLegal(system: seq<Message>, tail: seq<Message>)
    requires forall i :: 0 <= i < |system| ==> system[i].role.System?
    requires forall i :: 0 <= i < |tail| ==> !tail[i].role.System?
    requires BlockLegal(tail) && tail != [] && tail[0].role.User?
    ensures Others(system + tail) == tail && Systems(system + tail) == system && BlockLegal(system + tail)
  {
    NoOthers(system);
    OthersSame(tail);
    OthersConcat(system, tail);
    BlockLegalJoin(system, tail);
  }

  // Trimming a legal history with a user row leaves the system rows and a legal suffix from a user row.
  lemma {:induction false} SnippedLegal(ms: seq<Message>, remaining: nat, weight: Weight)
    requires BlockLegal(ms) && HasUser(Others(ms))
    ensures var r, s := Snipped(ms, remaining, weight), SnipStart(Others(ms), remaining, weight);
            && s < |Others(ms)| && Others(r) == Others(ms)[s..] && Systems(r) == Systems(ms)
            && Opens(r) && BlockLegal(r)
  {
    var s := SnipStart(Others(ms), remaining, weight);
    OthersLegal(ms);
    SystemsOnly(ms);
    SnipKeepsUserSuffix(Others(ms), remaining, weight);
    SuffixLegal(Others(ms), s);
    JoinedLegal(Systems(ms), Others(ms)[s..]);
  }

  // ---------------------------------------------------------- what trimming keeps

  // Where the kept rows start: the least user row from which all fits, or the last user row when none
  // does.
  ghost predicate BestStart(rest: seq<Message>, remaining: nat, weight: Weight, s: nat) {
    && s < |rest| && rest[s].role.User?
    && (forall k :: 0 <= k < s && rest[k].role.User? ==> Sum(rest, k, weight) > remaining)
    && (Sum(rest, s, weight) > remaining ==> forall k :: 0 <= k < |rest| && rest[k].role.User? ==> k <= s)
  }

  lemma {:induction false} BestStartUnique(rest: seq<Message>, remaining: nat, weight: Weight, s: nat, t: nat)
    requires BestStart(rest, remaining, weight, s) && BestStart(rest, remaining, weight, t)
    ensures s == t
  {
  }

  lemma {:induction false} BeforeWindow(rest: seq<Message>, remaining: nat, weight: Weight, k: nat)
    requires k < Window(rest, remaining, weight) && rest != []
    ensures Sum(rest, k, weight) > remaining
  {
    var w := Window(rest, remaining, weight);
    WindowFits(rest, |rest|, remaining, weight);
    SumShrinks(rest, k, w - 1, weight);
  }

  lemma {:induction false} AtUserIsBest(rest: seq<Message>, remaining: nat, weight: Weight)
    requires HasUser(rest)
    ensures BestStart(rest, remaining, weight, AtUser(rest, Window(rest, remaining, weight)))
  {
    var w := Window(rest, remaining, weight);
    var u := AtUser(rest, w);
    UserInReach(rest, w);
    UserFits(rest, remaining, weight);
    forall k | 0 <= k < u && rest[k].role.User? ensures Sum(rest, k, weight) > remaining {
      if k < w { BeforeWindow(rest, remaining, weight, k); }
    }
  }

  lemma {:induction false} SnipStartIsBest(rest: seq<Message>, remaining: nat, weight: Weight)
    requires BlockLegal(rest) && HasUser(rest)
    ensures BestStart(rest, remaining, weight, SnipStart(rest, remaining, weight))
  {
    var u := AtUser(rest, Window(rest, remaining, weight));
    AtUserIsBest(rest, remaining, weight);
    LegalSuffix(rest, u);
  }

  lemma {:induction false} SumSuffix(rest: seq<Message>, s: nat, k: nat, weight: Weight)
    requires s + k <= |rest|
    ensures Sum(rest[s..], k, weight) == Sum(rest, s + k, weight)
    decreases |rest| - s - k
  {
    if s + k < |rest| { SumSuffix(rest, s, k + 1, weight); }
  }

  // A user row and all behind it fit.
  ghost predicate SomeFit(rest: seq<Message>, remaining: nat, weight: Weight) {
    exists k :: 0 <= k < |rest| && rest[k].role.User? && Sum(rest, k, weight) <= remaining
  }

  // All system rows, and the other rows from the best start on. Their weight is within what remains
  // exactly when some user row and all behind it fit.
  ghost predicate CutTo(ms: seq<Message>, r: seq<Message>, remaining: nat, weight: Weight) {
    && Systems(r) == Systems(ms) && r == Systems(ms) + Others(r)
    && (exists s: nat :: BestStart(Others(ms), remaining, weight, s) && Others(r) == Others(ms)[s..])
    && (Sum(Others(r), 0, weight) <= remaining <==> SomeFit(Others(ms), remaining, weight))
  }

  lemma {:induction false} BestCut(ms: seq<Message>, r: seq<Message>, remaining: nat, weight: Weight, s: nat)
    requires BestStart(Others(ms), remaining, weight, s) && Others(r) == Others(ms)[s..]
    requires Systems(r) == Systems(ms) && r == Systems(ms) + Others(r)
    ensures CutTo(ms, r, remaining, weight)
  {
    SumSuffix(Others(ms), s, 0, weight);
  }

  lemma {:induction false} SnippedCuts(ms: seq<Message>, remaining: nat, weight: Weight)
    requires BlockLegal(ms) && HasUser(Others(ms))
    ensures CutTo(ms, Snipped(ms, remaining, weight), remaining, weight)
  {
    var rest := Others(ms);
    var s := SnipStart(rest, remaining, weight);
    SnippedLegal(ms, remaining, weight);
    OthersLegal(ms);
    SnipStartIsBest(rest, remaining, weight);
    BestCut(ms, Snipped(ms, remaining, weight), remaining, weight, s);
  }

  lemma {:induction false} UserIsOther(ms: seq<Message>)
    requires HasUser(ms)
    ensures HasUser(Others(ms)) && Others(ms) != []
  {
    var k :| 0 <= k < |ms| && ms[k].role.User?;
    UserAmongOthers(ms, k);
  }

  // Within the budget nothing is trimmed; over it, a legal history with a user row is cut to the best
  // start of its other rows.
  ghost predicate FitsBudget(ms: seq<Message>, r: seq<Message>, window: nat, budget: int, estimate: nat, reserved: nat,
                             weight: Weight) {
    && (window == 0 || budget <= 0 || estimate <= budget ==> r == ms)
    && (window > 0 && 0 < budget < estimate && BlockLegal(ms) && HasUser(ms) ==>
          CutTo(ms, r, if budget < reserved then 0 else budget - reserved, weight))
  }

  lemma {:induction false} TrimmedFits(ms: seq<Message>, window: nat, budget: int, estimate: nat, reserved: nat, weight: Weight)
    ensures FitsBudget(ms, Trimmed(ms, window, budget, estimate, reserved, weight), window, budget, estimate, reserved, weight)
  {
    if window > 0 && 0 < budget < estimate && BlockLegal(ms) && HasUser(ms) {
      UserIsOther(ms);
      SnippedCuts(ms, if budget < reserved then 0 else budget - reserved, weight);
    }
  }

  method SnipHistory(ms: seq<Message>, window: nat, budget: int, estimate: nat, reserved: nat, weight: Weight)
    returns (r: seq<Message>)
    ensures r == Trimmed(ms, window, budget, estimate, reserved, weight)
    ensures FitsBudget(ms, r, window, budget, estimate, reserved, weight)
  {
    TrimmedFits(ms, window, budget, estimate, reserved, weight);
    if ms == [] || window == 0 || budget <= 0 || estimate <= budget {
      return ms;
    }
    var system, rest := Split(ms);
    if rest == [] {
      return ms;
    }
    var remaining := if budget < reserved then 0 else budget - reserved;
    var s := SnipRest(rest, remaining, weight);
    r := system + rest[s..];
  }
}
