// Repairing a history before it is sent: results without a call are dropped,
// calls without a result get a synthetic one.
module HistoryRepair {
  import opened Messages

  const BACKFILL_CONTENT := "[Tool result unavailable — call was interrupted or lost]"

  // ---------------------------------------------------------------- drop

  function WithoutOrphans(ms: seq<Message>): seq<Message> {
    if ms == [] then [] else
      var init := ms[..|ms| - 1];
      var rest := WithoutOrphans(init);
      if Orphan(ms[|ms| - 1], Declared(init)) then rest else rest + [ms[|ms| - 1]]
  }

  lemma {:induction false} DropStep(init: seq<Message>, m: Message)
    ensures Declared(init + [m]) == Declared(init) + CallIds(m)
    ensures WithoutOrphans(init + [m]) ==
            if Orphan(m, Declared(init)) then WithoutOrphans(init) else WithoutOrphans(init) + [m]
  {
    assert (init + [m])[..|init|] == init;
  }

  method DropOrphanToolResults(ms: seq<Message>) returns (r: seq<Message>)
    ensures r == WithoutOrphans(ms)
  {
    var declared: set<string> := {};
    var copied := false;      // the source keeps the input list until it drops a row
    var updated: seq<Message> := [];
    var i := 0;
    while i < |ms|
      invariant 0 <= i <= |ms|
      invariant declared == Declared(ms[..i])
      invariant copied ==> updated == WithoutOrphans(ms[..i])
      invariant !copied ==> WithoutOrphans(ms[..i]) == ms[..i]
    {
      DropStep(ms[..i], ms[i]);
      assert ms[..i + 1] == ms[..i] + [ms[i]];
      if ms[i].role.Assistant? {
        declared := declared + CallIds(ms[i]);
      }
      if Orphan(ms[i], declared) {
        if !copied {
          updated := ms[..i];
          copied := true;
        }
      } else if copied {
        updated := updated + [ms[i]];
      }
      i := i + 1;
    }
    assert ms[..i] == ms;
    r := if copied then updated else ms;
  }

  // `s` is `t` with some rows taken out.
  ghost predicate Subsequence(s: seq<Message>, t: seq<Message>)
    decreases |t|
  {
    if s == [] then true
    else if t == [] then false
    else (s[|s| - 1] == t[|t| - 1] && Subsequence(s[..|s| - 1], t[..|t| - 1]))
         || Subsequence(s, t[..|t| - 1])
  }

  lemma {:induction false} SubsequenceDeclares(s: seq<Message>, t: seq<Message>)
    requires Subsequence(s, t)
    ensures Declared(s) <= Declared(t)
    decreases |t|
  {
    if s != [] {
      var t' := t[..|t| - 1];
      if Subsequence(s, t') {
        SubsequenceDeclares(s, t');
      } else {
        SubsequenceDeclares(s[..|s| - 1], t');
      }
    }
  }

  lemma {:induction false} DropKeepsDeclarations(ms: seq<Message>)
    ensures Declared(WithoutOrphans(ms)) == Declared(ms)
  {
    if ms != [] {
      var init := ms[..|ms| - 1];
      DropKeepsDeclarations(init);
      var rest := WithoutOrphans(init);
      assert (rest + [ms[|ms| - 1]])[..|rest|] == rest;
    }
  }

  lemma {:induction false} DropLeavesNoOrphans(ms: seq<Message>)
    ensures NoOrphans(WithoutOrphans(ms))
    ensures Subsequence(WithoutOrphans(ms), ms)
  {
    if ms != [] {
      var init := ms[..|ms| - 1];
      DropLeavesNoOrphans(init);
      DropKeepsDeclarations(init);
      var rest, out := WithoutOrphans(init), WithoutOrphans(ms);
      if out != rest {
        assert out[..|out| - 1] == rest;
        NoOrphansInit(out);
      }
    }
  }

  // It takes out nothing more than it must: any way of removing rows that leaves
  // no orphan can be had by removing rows from its result.
  lemma {:induction false} DropIsGreatest(s: seq<Message>, ms: seq<Message>)
    requires Subsequence(s, ms) && NoOrphans(s)
    ensures Subsequence(s, WithoutOrphans(ms))
    decreases |ms|
  {
    if s != [] {
      var init, last := ms[..|ms| - 1], ms[|ms| - 1];
      var rest, out := WithoutOrphans(init), WithoutOrphans(ms);
      assert out != rest ==> out[..|out| - 1] == rest;
      if Subsequence(s, init) {
        DropIsGreatest(s, init);
      } else {
        var s' := s[..|s| - 1];
        NoOrphansInit(s);
        DropIsGreatest(s', init);
        SubsequenceDeclares(s', init);
      }
    }
  }

  lemma {:induction false} DropIsIdentityIff(ms: seq<Message>)
    ensures WithoutOrphans(ms) == ms <==> NoOrphans(ms)
  {
    DropLeavesNoOrphans(ms);
    if NoOrphans(ms) {
      DropIdentity(ms);
    }
  }

  lemma {:induction false} DropIdentity(ms: seq<Message>)
    requires NoOrphans(ms)
    ensures WithoutOrphans(ms) == ms
  {
    if ms != [] {
      NoOrphansInit(ms);
      DropIdentity(ms[..|ms| - 1]);
    }
  }

  // ------------------------------------------------------------ backfill

  datatype Pending = Pending(at: nat, id: string, name: string)

  function Synthetic(id: string, name: string): Message {
    Message(Tool, [], id, name, Text(BACKFILL_CONTENT))
  }

  function Owe(at: nat, calls: seq<Call>, answered: set<string>): seq<Pending> {
    if calls == [] then [] else
      var c := calls[|calls| - 1];
      Owe(at, calls[..|calls| - 1], answered)
      + if c.id != "" && c.id !in answered then [Pending(at, c.id, c.name)] else []
  }

  // Calls nothing answers anywhere, in the order they were declared.
  function PendingOf(ms: seq<Message>, answered: set<string>): seq<Pending> {
    if ms == [] then [] else
      var n := |ms| - 1;
      PendingOf(ms[..n], answered)
      + if ms[n].role.Assistant? then Owe(n, ms[n].calls, answered) else []
  }

  function Synthetics(pending: seq<Pending>): (r: seq<Message>)
    ensures |r| == |pending|
    ensures forall k :: 0 <= k < |r| ==> r[k].role.Tool?
  {
    seq(|pending|, i requires 0 <= i < |pending| => Synthetic(pending[i].id, pending[i].name))
  }

  // What the repair adds after the run of a row.
  function Owed(m: Message, answered: set<string>): seq<Message> {
    if m.role.Assistant? then Synthetics(Owe(0, m.calls, answered)) else []
  }

  function FilledBlocks(bs: seq<Block>, answered: set<string>): (r: seq<Block>)
    ensures |r| == |bs|
  {
    seq(|bs|, i requires 0 <= i < |bs| => Block(bs[i].head, bs[i].run + Owed(bs[i].head, answered)))
  }

  // The reference: each block with what its head is still owed at its end.
  function Backfilled(ms: seq<Message>): seq<Message> {
    Flatten(FilledBlocks(Parse(ms), Answered(ms)))
  }

  function Start(bs: seq<Block>, j: nat): nat
    requires j <= |bs|
  {
    |Flatten(bs[..j])|
  }

  // The synthetic rows of the pending calls declared at row `at`.
  function Given(pending: seq<Pending>, at: nat): seq<Message> {
    if pending == [] then [] else
      var p := pending[|pending| - 1];
      Given(pending[..|pending| - 1], at) + if p.at == at then [Synthetic(p.id, p.name)] else []
  }

  function Extended(bs: seq<Block>, pending: seq<Pending>): (r: seq<Block>)
    ensures |r| == |bs|
  {
    seq(|bs|, j requires 0 <= j < |bs| => Block(bs[j].head, bs[j].run + Given(pending, Start(bs, j))))
  }

  lemma {:induction false} StartStep(bs: seq<Block>, i: nat, j: nat)
    requires i < j <= |bs|
    ensures Start(bs, i) + 1 + |bs[i].run| == Start(bs, i + 1) <= Start(bs, j)
  {
    assert bs[..i + 1][..i] == bs[..i];
    FlattenConcat(bs[..i + 1], bs[i + 1..j]);
    assert bs[..j] == bs[..i + 1] + bs[i + 1..j];
  }

  // Every row that is not a result heads a block.
  lemma {:induction false} HeadAt(bs: seq<Block>, at: nat) returns (j: nat)
    requires WellFormed(bs) && at < |Flatten(bs)| && !Flatten(bs)[at].role.Tool?
    ensures j < |bs| && Start(bs, j) == at && bs[j].head == Flatten(bs)[at]
  {
    var n := |bs| - 1;
    var init := bs[..n];
    if at < |Flatten(init)| {
      j := HeadAt(init, at);
      assert bs[..j] == init[..j];
    } else {
      j := n;
      var k := at - |Flatten(init)|;
      assert Flatten(bs)[at] == Rows(bs[n])[k];
      var rows := Rows(bs[n]);
      assert forall i :: 1 <= i < |rows| ==> rows[i].role.Tool?;
    }
  }

  lemma {:induction false} ExtendStep(bs: seq<Block>, pending: seq<Pending>, p: Pending, j: nat)
    requires j < |bs| && Start(bs, j) == p.at
    ensures var e := Extended(bs, pending);
            Extended(bs, pending + [p]) == e[j := Block(e[j].head, e[j].run + [Synthetic(p.id, p.name)])]
  {
    assert (pending + [p])[..|pending|] == pending;
    forall i | 0 <= i < |bs| && i != j ensures Start(bs, i) != p.at {
      if i < j { StartStep(bs, i, j); } else { StartStep(bs, j, i); }
    }
    var e, e' := Extended(bs, pending), Extended(bs, pending + [p]);
    forall i | 0 <= i < |bs|
      ensures e'[i] == e[j := Block(e[j].head, e[j].run + [Synthetic(p.id, p.name)])][i]
    {
      assert Given(pending + [p], Start(bs, i)) == Given(pending, Start(bs, i))
        + if p.at == Start(bs, i) then [Synthetic(p.id, p.name)] else [];
    }
  }

  // Where row `j`'s head and the end of its run stand in the flattened list.
  lemma {:induction false} FlattenAround(bs: seq<Block>, j: nat)
    requires j < |bs|
    ensures Flatten(bs) == Flatten(bs[..j]) + Rows(bs[j]) + Flatten(bs[j + 1..])
  {
    assert bs == bs[..j + 1] + bs[j + 1..];
    FlattenConcat(bs[..j + 1], bs[j + 1..]);
    assert bs[..j + 1][..j] == bs[..j];
  }

  lemma {:induction false} FlattenUpdate(bs: seq<Block>, j: nat, r: Message)
    requires j < |bs|
    ensures Flatten(bs[j := Block(bs[j].head, bs[j].run + [r])])
         == Flatten(bs[..j]) + Rows(bs[j]) + [r] + Flatten(bs[j + 1..])
  {
    var bs' := bs[j := Block(bs[j].head, bs[j].run + [r])];
    FlattenAround(bs', j);
    assert bs'[..j] == bs[..j] && bs'[j + 1..] == bs[j + 1..];
  }

  // Progress of the loop: `cur` is the block of the last insertion, everything
  // after it is untouched, and the running offset accounts for what came before.
  ghost predicate Reached(bs: seq<Block>, now: seq<Block>, cur: nat, offset: nat) {
    && |now| == |bs| && cur < |bs|
    && now[cur + 1..] == bs[cur + 1..]
    && |Flatten(now[..cur])| + |now[cur].run| - |bs[cur].run| == Start(bs, cur) + offset
  }

  lemma {:induction false} MoveTo(bs: seq<Block>, now: seq<Block>, cur: nat, offset: nat, j: nat)
    requires Reached(bs, now, cur, offset) && cur <= j < |bs|
    ensures Reached(bs, now, j, offset)
    decreases j - cur
  {
    if cur < j {
      assert now[cur + 1] == now[cur + 1..][0] == bs[cur + 1..][0] == bs[cur + 1];
      assert now[..cur + 1][..cur] == now[..cur];
      StartStep(bs, cur, cur + 1);
      assert now[cur + 2..] == now[cur + 1..][1..] == bs[cur + 2..];
      MoveTo(bs, now, cur + 1, offset, j);
    }
  }

  lemma {:induction false} ExtendedWellFormed(bs: seq<Block>, pending: seq<Pending>)
    requires WellFormed(bs)
    ensures WellFormed(Extended(bs, pending))
  {
    var e := Extended(bs, pending);
    forall i, k | 0 <= i < |e| && 0 <= k < |e[i].run| ensures e[i].run[k].role.Tool? {
      if k >= |bs[i].run| {
        GivenAreTools(pending, Start(bs, i));
        assert e[i].run[k] == Given(pending, Start(bs, i))[k - |bs[i].run|];
      }
    }
  }

  lemma {:induction false} GivenAreTools(pending: seq<Pending>, at: nat)
    ensures forall k :: 0 <= k < |Given(pending, at)| ==> Given(pending, at)[k].role.Tool?
  {
    if pending != [] {
      GivenAreTools(pending[..|pending| - 1], at);
    }
  }

  lemma {:induction false} ReachedNext(bs: seq<Block>, now: seq<Block>, j: nat, offset: nat, r: Message)
    requires Reached(bs, now, j, offset)
    ensures Reached(bs, now[j := Block(now[j].head, now[j].run + [r])], j, offset + 1)
  {
    var next := now[j := Block(now[j].head, now[j].run + [r])];
    assert next[..j] == now[..j] && next[j + 1..] == now[j + 1..];
  }

  // What inserting there gives.
  lemma {:induction false} NextInsert(bs: seq<Block>, done: seq<Pending>, p: Pending, cur: nat, j: nat)
    requires cur <= j < |bs| && Start(bs, j) == p.at
    requires Reached(bs, Extended(bs, done), cur, |done|)
    ensures var now := Extended(bs, done);
            && Reached(bs, now, j, |done|)
            && Reached(bs, Extended(bs, done + [p]), j, |done| + 1)
            && Flatten(Extended(bs, done + [p]))
               == Flatten(now[..j]) + Rows(now[j]) + [Synthetic(p.id, p.name)] + Flatten(now[j + 1..])
  {
    var now := Extended(bs, done);
    MoveTo(bs, now, cur, |done|, j);
    ExtendStep(bs, done, p, j);
    ReachedNext(bs, now, j, |done|, Synthetic(p.id, p.name));
    FlattenUpdate(now, j, Synthetic(p.id, p.name));
  }

  lemma {:induction false} ReachedStart(bs: seq<Block>)
    ensures Extended(bs, []) == bs
    ensures bs != [] ==> Reached(bs, bs, 0, 0)
  {
    forall j | 0 <= j < |bs| ensures Extended(bs, [])[j] == bs[j] {
      assert bs[j].run + [] == bs[j].run;
    }
  }

  // ------------------------------------- what the pending calls amount to

  lemma {:induction false} OweAt(at: nat, calls: seq<Call>, answered: set<string>)
    ensures forall k :: 0 <= k < |Owe(at, calls, answered)| ==> Owe(at, calls, answered)[k].at == at
  {
    if calls != [] { OweAt(at, calls[..|calls| - 1], answered); }
  }

  lemma {:induction false} GivenOneMore(o: seq<Pending>, p: Pending, n: nat)
    ensures Given(o + [p], n) == Given(o, n) + if p.at == n then [Synthetic(p.id, p.name)] else []
  {
    assert (o + [p])[..|o|] == o;
  }

  lemma {:induction false} SyntheticsOneMore(o: seq<Pending>, p: Pending)
    ensures Synthetics(o + [p]) == Synthetics(o) + [Synthetic(p.id, p.name)]
  {
  }

  lemma {:induction false} OweGiven(at: nat, calls: seq<Call>, answered: set<string>, n: nat)
    ensures Given(Owe(at, calls, answered), n) == if n == at then Synthetics(Owe(0, calls, answered)) else []
  {
    if calls != [] {
      var c := calls[|calls| - 1];
      var o, z := Owe(at, calls[..|calls| - 1], answered), Owe(0, calls[..|calls| - 1], answered);
      OweGiven(at, calls[..|calls| - 1], answered, n);
      if c.id != "" && c.id !in answered {
        GivenOneMore(o, Pending(at, c.id, c.name), n);
        SyntheticsOneMore(z, Pending(0, c.id, c.name));
      } else {
        assert Owe(at, calls, answered) == o && Owe(0, calls, answered) == z;
      }
    }
  }

  lemma {:induction false} OweShape(at: nat, calls: seq<Call>, answered: set<string>, n: nat)
    ensures forall k :: 0 <= k < |Owe(at, calls, answered)| ==> Owe(at, calls, answered)[k].at == at
    ensures Given(Owe(at, calls, answered), n) == if n == at then Synthetics(Owe(0, calls, answered)) else []
  {
    OweAt(at, calls, answered);
    OweGiven(at, calls, answered, n);
  }

  lemma {:induction false} GivenConcat(a: seq<Pending>, b: seq<Pending>, n: nat)
    ensures Given(a + b, n) == Given(a, n) + Given(b, n)
  {
    if b == [] {
      assert a + b == a;
    } else {
      GivenConcat(a, b[..|b| - 1], n);
      assert (a + b)[..|a + b| - 1] == a + b[..|b| - 1];
    }
  }

  // Pending results stand at assistant rows and in the order of these.
  ghost predicate Sorted(ms: seq<Message>, pending: seq<Pending>) {
    && (forall k :: 0 <= k < |pending| ==> pending[k].at < |ms| && ms[pending[k].at].role.Assistant?)
    && (forall k, l :: 0 <= k < l < |pending| ==> pending[k].at <= pending[l].at)
  }

  lemma {:induction false} SortedNext(init: seq<Message>, m: Message, a: seq<Pending>, b: seq<Pending>)
    requires Sorted(init, a) && (b != [] ==> m.role.Assistant?)
    requires forall k :: 0 <= k < |b| ==> b[k].at == |init|
    ensures Sorted(init + [m], a + b)
  {
    var all, ab := init + [m], a + b;
    forall k | 0 <= k < |ab| ensures ab[k].at < |all| && all[ab[k].at].role.Assistant? {
      if k < |a| { assert ab[k] == a[k] && a[k].at < |init|; } else { assert ab[k] == b[k - |a|]; }
    }
  }

  lemma {:induction false} PendingSorted(ms: seq<Message>, answered: set<string>)
    ensures Sorted(ms, PendingOf(ms, answered))
  {
    if ms != [] {
      var init, m := ms[..|ms| - 1], ms[|ms| - 1];
      assert ms == init + [m];
      PendingSorted(init, answered);
      if m.role.Assistant? {
        OweShape(|init|, m.calls, answered, 0);
        SortedNext(init, m, PendingOf(init, answered), Owe(|init|, m.calls, answered));
      } else {
        SortedNext(init, m, PendingOf(init, answered), []);
        assert PendingOf(init, answered) + [] == PendingOf(init, answered);
      }
    }
  }

  lemma {:induction false} PendingGives(ms: seq<Message>, answered: set<string>, n: nat)
    ensures Given(PendingOf(ms, answered), n) == if n < |ms| then Owed(ms[n], answered) else []
  {
    if ms != [] {
      var m := |ms| - 1;
      PendingGives(ms[..m], answered, n);
      if ms[m].role.Assistant? {
        OweShape(m, ms[m].calls, answered, n);
        GivenConcat(PendingOf(ms[..m], answered), Owe(m, ms[m].calls, answered), n);
      } else {
        assert PendingOf(ms, answered) == PendingOf(ms[..m], answered);
      }
    }
  }

  // Which block the next pending call belongs to: never an earlier one.
  lemma {:induction false} BlockOfPending(ms: seq<Message>, answered: set<string>, k: nat, cur: nat) returns (j: nat)
    requires k < |PendingOf(ms, answered)| && cur < |Parse(ms)|
    requires if k > 0 then Start(Parse(ms), cur) == PendingOf(ms, answered)[k - 1].at else cur == 0
    ensures cur <= j < |Parse(ms)| && Start(Parse(ms), j) == PendingOf(ms, answered)[k].at
  {
    PendingSorted(ms, answered);
    ParseShape(ms);
    j := HeadAt(Parse(ms), PendingOf(ms, answered)[k].at);
    if j < cur { StartStep(Parse(ms), j, cur); }
  }

  lemma {:induction false} PendingFills(ms: seq<Message>, answered: set<string>)
    ensures Extended(Parse(ms), PendingOf(ms, answered)) == FilledBlocks(Parse(ms), answered)
  {
    var bs, pending := Parse(ms), PendingOf(ms, answered);
    ParseShape(ms);
    forall j | 0 <= j < |bs| ensures Given(pending, Start(bs, j)) == Owed(bs[j].head, answered) {
      PendingGives(ms, answered, Start(bs, j));
      FlattenAround(bs, j);
      assert ms[Start(bs, j)] == bs[j].head;
    }
  }

  lemma {:induction false} ReachedFirst(ms: seq<Message>)
    requires ms != []
    ensures Reached(Parse(ms), Extended(Parse(ms), []), 0, 0)
  {
    ParseShape(ms);
    ReachedStart(Parse(ms));
  }

  // The rows of an extended block after its head are results, and the next
  // block does not start with one.
  lemma {:induction false} ExtendedEdges(ms: seq<Message>, done: seq<Pending>, j: nat)
    requires j < |Parse(ms)|
    ensures var now := Extended(Parse(ms), done);
            && (forall i :: 1 <= i < |Rows(now[j])| ==> Rows(now[j])[i].role.Tool?)
            && (Flatten(now[j + 1..]) != [] ==> !Flatten(now[j + 1..])[0].role.Tool?)
  {
    ParseShape(ms);
    ExtendedWellFormed(Parse(ms), done);
    FlattenFirst(Extended(Parse(ms), done)[j + 1..]);
  }

  lemma {:induction false} ReachedAfter(ms: seq<Message>, answered: set<string>, k: nat) returns (cur: nat)
    requires ms != [] && k <= |PendingOf(ms, answered)|
    ensures Reached(Parse(ms), Extended(Parse(ms), PendingOf(ms, answered)[..k]), cur, k)
    ensures if k > 0 then Start(Parse(ms), cur) == PendingOf(ms, answered)[k - 1].at else cur == 0
  {
    var bs, pending := Parse(ms), PendingOf(ms, answered);
    if k == 0 {
      ReachedFirst(ms);
      assert pending[..0] == [];
      cur := 0;
    } else {
      var done, p := pending[..k - 1], pending[k - 1];
      assert pending[..k] == done + [p] && |done| == k - 1;
      var c := ReachedAfter(ms, answered, k - 1);
      cur := BlockOfPending(ms, answered, k - 1, c);
      NextInsert(bs, done, p, c, cur);
    }
  }

  function Partial(ms: seq<Message>, done: seq<Pending>): seq<Message> {
    Flatten(Extended(Parse(ms), done))
  }

  lemma {:induction false} Cut(ms: seq<Message>, done: seq<Pending>, p: Pending, cur: nat, j: nat)
    returns (front: seq<Message>, body: seq<Message>, tail: seq<Message>)
    requires cur <= j < |Parse(ms)| && Start(Parse(ms), j) == p.at
    requires Reached(Parse(ms), Extended(Parse(ms), done), cur, |done|)
    ensures Partial(ms, done) == front + body + tail
    ensures Partial(ms, done + [p]) == front + body + [Synthetic(p.id, p.name)] + tail
    ensures |front| + 1 <= p.at + 1 + |done| <= |front| + |body|
    ensures forall i :: 1 <= i < |body| ==> body[i].role.Tool?
    ensures tail != [] ==> !tail[0].role.Tool?
  {
    NextInsert(Parse(ms), done, p, cur, j);
    var now := Extended(Parse(ms), done);
    ExtendedEdges(ms, done, j);
    front, body, tail := Flatten(now[..j]), Rows(now[j]), Flatten(now[j + 1..]);
    FlattenAround(now, j);
  }

  // The list the loop holds, cut around the place of the next insertion.
  lemma {:induction false} Plan(ms: seq<Message>, answered: set<string>, k: nat)
    returns (front: seq<Message>, body: seq<Message>, tail: seq<Message>)
    requires ms != [] && k < |PendingOf(ms, answered)|
    ensures var pending := PendingOf(ms, answered);
            && Partial(ms, pending[..k]) == front + body + tail
            && Partial(ms, pending[..k + 1])
               == front + body + [Synthetic(pending[k].id, pending[k].name)] + tail
            && |front| + 1 <= pending[k].at + 1 + k <= |front| + |body|
    ensures forall i :: 1 <= i < |body| ==> body[i].role.Tool?
    ensures tail != [] ==> !tail[0].role.Tool?
  {
    var bs, pending := Parse(ms), PendingOf(ms, answered);
    var done, p := pending[..k], pending[k];
    assert pending[..k + 1] == done + [p] && |done| == k;
    var cur := ReachedAfter(ms, answered, k);
    var j := BlockOfPending(ms, answered, k, cur);
    front, body, tail := Cut(ms, done, p, cur, j);
  }

  // The insertion loop with its running offset.
  method InsertAll(ms: seq<Message>, pending: seq<Pending>, ghost answered: set<string>)
    returns (updated: seq<Message>)
    requires ms != [] && pending == PendingOf(ms, answered)
    ensures updated == Partial(ms, pending)
  {
    ParseShape(ms);
    ReachedStart(Parse(ms));
    updated := ms;
    var offset := 0;
    assert pending[..0] == [];
    while offset < |pending|
      invariant 0 <= offset <= |pending|
      invariant updated == Partial(ms, pending[..offset])
    {
      var p := pending[offset];
      ghost var front, body, tail := Plan(ms, answered, offset);
      updated := InsertAfterRun(updated, p.at + 1 + offset, Synthetic(p.id, p.name), front, body, tail);
      offset := offset + 1;
    }
    assert pending[..offset] == pending;
  }

  // The scan over the results standing after the assistant, and the insertion.
  method InsertAfterRun(updated: seq<Message>, start: nat, row: Message,
                        ghost front: seq<Message>, ghost body: seq<Message>, ghost tail: seq<Message>)
    returns (r: seq<Message>)
    requires updated == front + body + tail
    requires |front| + 1 <= start <= |front| + |body|
    requires forall i :: 1 <= i < |body| ==> body[i].role.Tool?
    requires tail != [] ==> !tail[0].role.Tool?
    ensures r == front + body + [row] + tail
  {
    var at := start;
    while at < |updated| && updated[at].role.Tool?
      invariant start <= at <= |front| + |body|
    {
      at := at + 1;
    }
    r := updated[..at] + [row] + updated[at..];
  }

  // The two passes of the source: collect what is declared and what is answered,
  // keep what nothing answers, insert.
  method BackfillMissingToolResults(ms: seq<Message>) returns (r: seq<Message>)
    ensures r == Backfilled(ms)
  {
    var declared, fulfilled := Collect(ms);
    var missing := Unanswered(declared, fulfilled);
    StillPending(ms, fulfilled);
    PendingFills(ms, fulfilled);
    if missing == [] {
      r := ms;
      ParseShape(ms);
      ReachedStart(Parse(ms));
    } else {
      r := InsertAll(ms, missing, fulfilled);
    }
  }

  method Collect(ms: seq<Message>) returns (declared: seq<Pending>, fulfilled: set<string>)
    ensures declared == PendingOf(ms, {}) && fulfilled == Answered(ms)
  {
    declared := [];
    fulfilled := {};
    var i := 0;
    while i < |ms|
      invariant 0 <= i <= |ms|
      invariant declared == PendingOf(ms[..i], {})
      invariant fulfilled == Answered(ms[..i])
    {
      assert ms[..i + 1][..i] == ms[..i];
      if ms[i].role.Assistant? {
        var mine := CollectCalls(i, ms[i].calls);
        declared := declared + mine;
      } else {
        fulfilled := fulfilled + AnswerIds(ms[i]);
      }
      i := i + 1;
    }
    assert ms[..i] == ms;
  }

  method CollectCalls(at: nat, calls: seq<Call>) returns (declared: seq<Pending>)
    ensures declared == Owe(at, calls, {})
  {
    declared := [];
    var k := 0;
    while k < |calls|
      invariant 0 <= k <= |calls|
      invariant declared == Owe(at, calls[..k], {})
    {
      assert calls[..k + 1][..k] == calls[..k];
      if calls[k].id != "" {
        declared := declared + [Pending(at, calls[k].id, calls[k].name)];
      }
      k := k + 1;
    }
    assert calls[..k] == calls;
  }

  function Unanswered(pending: seq<Pending>, answered: set<string>): seq<Pending> {
    if pending == [] then [] else
      var p := pending[|pending| - 1];
      Unanswered(pending[..|pending| - 1], answered) + if p.id in answered then [] else [p]
  }

  lemma {:induction false} UnansweredConcat(a: seq<Pending>, b: seq<Pending>, answered: set<string>)
    ensures Unanswered(a + b, answered) == Unanswered(a, answered) + Unanswered(b, answered)
  {
    if b == [] {
      assert a + b == a;
    } else {
      UnansweredConcat(a, b[..|b| - 1], answered);
      assert (a + b)[..|a + b| - 1] == a + b[..|b| - 1];
    }
  }

  lemma {:induction false} StillOwed(at: nat, calls: seq<Call>, answered: set<string>)
    ensures Unanswered(Owe(at, calls, {}), answered) == Owe(at, calls, answered)
  {
    if calls != [] {
      StillOwed(at, calls[..|calls| - 1], answered);
      var o := Owe(at, calls[..|calls| - 1], {});
      var o' := Owe(at, calls, {});
      assert o' != o ==> o'[..|o'| - 1] == o;
    }
  }

  lemma {:induction false} StillPending(ms: seq<Message>, answered: set<string>)
    ensures Unanswered(PendingOf(ms, {}), answered) == PendingOf(ms, answered)
  {
    if ms != [] {
      var n := |ms| - 1;
      StillPending(ms[..n], answered);
      var calls := if ms[n].role.Assistant? then ms[n].calls else [];
      StillOwed(n, calls, answered);
      UnansweredConcat(PendingOf(ms[..n], {}), Owe(n, calls, {}), answered);
    }
  }

  // ------------------------------------------------ what backfilling gives

  // Rows that answer a call in `answered`, or no call at all.
  function Without(ms: seq<Message>, answered: set<string>): seq<Message> {
    if ms == [] then [] else
      var rest := Without(ms[..|ms| - 1], answered);
      if Orphan(ms[|ms| - 1], answered) then rest else rest + [ms[|ms| - 1]]
  }

  lemma {:induction false} WithoutConcat(a: seq<Message>, b: seq<Message>, answered: set<string>)
    ensures Without(a + b, answered) == Without(a, answered) + Without(b, answered)
  {
    if b == [] {
      assert a + b == a;
    } else {
      WithoutConcat(a, b[..|b| - 1], answered);
      assert (a + b)[..|a + b| - 1] == a + b[..|b| - 1];
    }
  }

  lemma {:induction false} WithoutKeeps(ms: seq<Message>, answered: set<string>)
    requires Answered(ms) <= answered
    ensures Without(ms, answered) == ms
  {
    if ms != [] {
      WithoutKeeps(ms[..|ms| - 1], answered);
      assert AnswerIds(ms[|ms| - 1]) <= Answered(ms);
    }
  }

  lemma {:induction false} OwedShape(at: nat, calls: seq<Call>, answered: set<string>)
    ensures var o := Synthetics(Owe(at, calls, answered));
            Without(o, answered) == [] && Answered(o) == IdsOf(calls) - answered
  {
    if calls != [] {
      var c := calls[|calls| - 1];
      var o := Owe(at, calls[..|calls| - 1], answered);
      OwedShape(at, calls[..|calls| - 1], answered);
      if c.id != "" && c.id !in answered {
        var o' := Synthetics(o) + [Synthetic(c.id, c.name)];
        assert Synthetics(Owe(at, calls, answered)) == o';
        assert o'[..|o|] == Synthetics(o);
      } else {
        assert Owe(at, calls, answered) == o;
      }
    }
  }

  lemma {:induction false} OwedOfHead(m: Message, answered: set<string>)
    ensures Without(Owed(m, answered), answered) == []
    ensures Answered(Owed(m, answered)) == CallIds(m) - answered
  {
    OwedShape(0, m.calls, answered);
  }

  // Filling block by block adds results to `Answered`, nothing to `Declared`, and
  // nothing that is not taken out again by what the input already answered.
  ghost predicate OnlyAdds(ms: seq<Message>, out: seq<Message>, answered: set<string>) {
    && Without(out, answered) == ms
    && Declared(out) == Declared(ms)
    && Answered(out) == Answered(ms) + (Declared(ms) - answered)
  }

  lemma {:induction false} FilledSets(bs: seq<Block>, answered: set<string>)
    requires WellFormed(bs) && Answered(Flatten(bs)) <= answered
    ensures OnlyAdds(Flatten(bs), Flatten(FilledBlocks(bs, answered)), answered)
  {
    if bs != [] {
      var n := |bs| - 1;
      AnsweredConcat(Flatten(bs[..n]), Rows(bs[n]));
      FilledSets(bs[..n], answered);
      FilledInit(bs, answered);
      BlockSets(Flatten(bs[..n]), Flatten(FilledBlocks(bs[..n], answered)), bs[n], answered);
    }
  }

  lemma {:induction false} BlockSets(front: seq<Message>, front': seq<Message>, b: Block, answered: set<string>)
    requires OnlyAdds(front, front', answered) && Answered(Rows(b)) <= answered
    requires forall j :: 0 <= j < |b.run| ==> b.run[j].role.Tool?
    ensures OnlyAdds(front + Rows(b), front' + (Rows(b) + Owed(b.head, answered)), answered)
  {
    var owed := Owed(b.head, answered);
    OwedOfHead(b.head, answered);
    RowsSets(b);
    ToolsDeclareNothing(owed);
    SplitSets(front', Rows(b), owed, answered);
    WithoutKeeps(Rows(b), answered);
    AnsweredConcat(front, Rows(b));
    DeclaredConcat(front, Rows(b));
  }

  lemma {:induction false} SplitSets(a: seq<Message>, b: seq<Message>, c: seq<Message>, answered: set<string>)
    ensures var all := a + (b + c);
            && Without(all, answered) == Without(a, answered) + (Without(b, answered) + Without(c, answered))
            && Answered(all) == Answered(a) + (Answered(b) + Answered(c))
            && Declared(all) == Declared(a) + (Declared(b) + Declared(c))
  {
    WithoutConcat(a, b + c, answered);
    WithoutConcat(b, c, answered);
    AnsweredConcat(a, b + c);
    AnsweredConcat(b, c);
    DeclaredConcat(a, b + c);
    DeclaredConcat(b, c);
  }

  lemma {:induction false} FilledInit(bs: seq<Block>, answered: set<string>)
    requires bs != []
    ensures var n := |bs| - 1;
            Flatten(FilledBlocks(bs, answered))
            == Flatten(FilledBlocks(bs[..n], answered)) + (Rows(bs[n]) + Owed(bs[n].head, answered))
  {
    var n := |bs| - 1;
    var f := FilledBlocks(bs, answered);
    assert f[..n] == FilledBlocks(bs[..n], answered);
    assert Rows(f[n]) == Rows(bs[n]) + Owed(bs[n].head, answered);
  }

  // Taking out the rows that answer something the input did not answer gives the
  // input back, and nothing declared is left unanswered.
  lemma {:induction false} BackfillOnlyAdds(ms: seq<Message>)
    ensures Without(Backfilled(ms), Answered(ms)) == ms
    ensures Declared(Backfilled(ms)) == Declared(ms)
    ensures Answered(Backfilled(ms)) == Answered(ms) + Declared(ms)
  {
    ParseShape(ms);
    FilledSets(Parse(ms), Answered(ms));
  }

  lemma {:induction false} BackfillIsIdentityIff(ms: seq<Message>)
    ensures Backfilled(ms) == ms <==> AllAnswered(ms)
  {
    BackfillOnlyAdds(ms);
    if AllAnswered(ms) {
      WithoutKeeps(Backfilled(ms), Answered(ms));
    }
  }

  lemma {:induction false} FilledClean(bs: seq<Block>, answered: set<string>)
    requires Clean({}, Flatten(bs))
    ensures Clean({}, Flatten(FilledBlocks(bs, answered)))
    ensures Declared(Flatten(FilledBlocks(bs, answered))) == Declared(Flatten(bs))
  {
    if bs != [] {
      var n := |bs| - 1;
      var front, b := Flatten(bs[..n]), bs[n];
      var front' := Flatten(FilledBlocks(bs[..n], answered));
      var owed := Owed(b.head, answered);
      CleanConcat({}, front, Rows(b));
      FilledClean(bs[..n], answered);
      FilledInit(bs, answered);
      CleanConcat({}, front', Rows(b) + owed);
      CleanConcat(Declared(front), Rows(b), owed);
      assert {} + Declared(front) == Declared(front);
      OwedOfHead(b.head, answered);
      DeclaredAt(Rows(b), 0);
      ToolsDeclareNothing(owed);
      ToolsClean(Declared(front) + Declared(Rows(b)), owed);
      DeclaredConcat(front, Rows(b));
      DeclaredConcat(front', Rows(b) + owed);
      DeclaredConcat(Rows(b), owed);
    }
  }

  lemma {:induction false} BackfillKeepsNoOrphans(ms: seq<Message>)
    requires NoOrphans(ms)
    ensures NoOrphans(Backfilled(ms))
  {
    ParseShape(ms);
    FilledClean(Parse(ms), Answered(ms));
  }

  // ------------------------------------------------------ the two together

  function Repaired(ms: seq<Message>): seq<Message> {
    Backfilled(WithoutOrphans(ms))
  }

  lemma {:induction false} RepairedIsLegal(ms: seq<Message>)
    ensures NoOrphans(Repaired(ms)) && AllAnswered(Repaired(ms))
    ensures Declared(Repaired(ms)) == Declared(ms)
    ensures Repaired(Repaired(ms)) == Repaired(ms)
    ensures NoOrphans(ms) && AllAnswered(ms) <==> Repaired(ms) == ms
  {
    var kept := WithoutOrphans(ms);
    DropLeavesNoOrphans(ms);
    DropKeepsDeclarations(ms);
    BackfillKeepsNoOrphans(kept);
    BackfillOnlyAdds(kept);
    DropIsIdentityIff(Repaired(ms));
    BackfillIsIdentityIff(Repaired(ms));
    DropIsIdentityIff(ms);
    BackfillIsIdentityIff(ms);
  }

  // In a repaired history every declared call has a result after the first row
  // that declares it.
  lemma {:induction false} AnsweredAfterDeclared(ms: seq<Message>, id: string) returns (i: nat, j: nat)
    requires NoOrphans(ms) && AllAnswered(ms) && id in Declared(ms)
    ensures i < j < |ms| && id in CallIds(ms[i]) && ms[j].role.Tool? && ms[j].answers == id
    ensures id !in Declared(ms[..i])
  {
    j := AnsweredWitness(ms, id);
    NoOrphansPointwise(ms);
    assert !Orphan(ms[j], Declared(ms[..j]));
    i := FirstDeclaring(ms[..j], id);
    assert ms[..j][..i] == ms[..i];
  }

  lemma {:induction false} FirstDeclaring(ms: seq<Message>, id: string) returns (i: nat)
    requires id in Declared(ms)
    ensures i < |ms| && id in CallIds(ms[i]) && id !in Declared(ms[..i])
  {
    var init := ms[..|ms| - 1];
    if id in Declared(init) {
      i := FirstDeclaring(init, id);
      assert init[..i] == ms[..i];
    } else {
      i := |ms| - 1;
    }
  }

  // Only the first: an id declared again after its result is left as it is, with
  // nothing after the second declaration.
  lemma {:induction false} SecondDeclarationStaysUnanswered()
    ensures var call := Message(Assistant, [Call("c1", "grep")], "", "", Text(""));
            var ms := [call, Message(Tool, [], "c1", "grep", Text("hit")), call];
            Repaired(ms) == ms && Answered(ms[3..]) == {} && "c1" in CallIds(ms[2])
  {
    var call := Message(Assistant, [Call("c1", "grep")], "", "", Text(""));
    var result := Message(Tool, [], "c1", "grep", Text("hit"));
    var first, again := Block(call, [result]), Block(call, []);
    assert call.calls[..0] == [] && IdsOf(call.calls) == {"c1"};
    assert [result][..0] == [] && Answered([result]) == {"c1"};
    RowsSets(first);
    RowsSets(again);
    NoOrphansInBlock(first);
    NoOrphansInBlock(again);
    NoOrphansJoin(Rows(first), Rows(again));
    DeclaredConcat(Rows(first), Rows(again));
    AnsweredConcat(Rows(first), Rows(again));
    var ms := [call, result, call];
    assert Rows(first) + Rows(again) == ms && ms[3..] == [];
    RepairedIsLegal(ms);
  }

  // ------------------------------------- which calls get a result after them

  // Every call whose id is in `need` has a result further on.
  predicate AnsweredAhead(ms: seq<Message>, need: set<string>) {
    ms == [] || (CallIds(ms[0]) * need <= Answered(ms[1..]) && AnsweredAhead(ms[1..], need))
  }

  ghost predicate CallsAnsweredLater(ms: seq<Message>) {
    forall i: nat, id :: i < |ms| && id in CallIds(ms[i]) ==> id in Answered(ms[i + 1..])
  }

  // No call stands after the last result of its id, when there is one.
  ghost predicate NoCallBehindItsResults(ms: seq<Message>) {
    forall i: nat, id :: i < |ms| && id in CallIds(ms[i]) && id in Answered(ms) ==> id in Answered(ms[i + 1..])
  }

  lemma {:induction false} AheadAt(ms: seq<Message>, need: set<string>, i: nat, id: string)
    requires AnsweredAhead(ms, need) && i < |ms| && id in CallIds(ms[i]) && id in need
    ensures id in Answered(ms[i + 1..])
  {
    if i > 0 {
      AheadAt(ms[1..], need, i - 1, id);
      assert ms[1..][i..] == ms[i + 1..];
    }
  }

  lemma {:induction false} AheadFromPointwise(ms: seq<Message>, need: set<string>)
    requires forall i: nat, id :: i < |ms| && id in CallIds(ms[i]) && id in need ==> id in Answered(ms[i + 1..])
    ensures AnsweredAhead(ms, need)
  {
    if ms != [] {
      forall i: nat, id | i < |ms[1..]| && id in CallIds(ms[1..][i]) && id in need
        ensures id in Answered(ms[1..][i + 1..])
      {
        assert ms[1..][i] == ms[i + 1] && ms[1..][i + 1..] == ms[i + 1 + 1..];
      }
      AheadFromPointwise(ms[1..], need);
      forall id | id in CallIds(ms[0]) && id in need
        ensures id in Answered(ms[1..])
      {
        assert ms[0 + 1..] == ms[1..];
      }
    }
  }

  lemma {:induction false} ToolsAskNothing(run: seq<Message>, tail: seq<Message>, need: set<string>)
    requires forall j :: 0 <= j < |run| ==> run[j].role.Tool?
    ensures AnsweredAhead(run + tail, need) <==> AnsweredAhead(tail, need)
  {
    if run == [] {
      assert run + tail == tail;
    } else {
      assert (run + tail)[1..] == run[1..] + tail;
      ToolsAskNothing(run[1..], tail, need);
    }
  }

  lemma {:induction false} AheadOfBlock(b: Block, tail: seq<Message>, need: set<string>)
    requires forall j :: 0 <= j < |b.run| ==> b.run[j].role.Tool?
    ensures AnsweredAhead(Rows(b) + tail, need)
        <==> CallIds(b.head) * need <= Answered(b.run) + Answered(tail) && AnsweredAhead(tail, need)
  {
    var all := Rows(b) + tail;
    assert all[0] == b.head && all[1..] == b.run + tail;
    AnsweredConcat(b.run, tail);
    ToolsAskNothing(b.run, tail, need);
  }

  lemma {:induction false} FilledHead(bs: seq<Block>, answered: set<string>)
    requires bs != []
    ensures var b := bs[0]; var filled := Block(b.head, b.run + Owed(b.head, answered));
            && Flatten(bs) == Rows(b) + Flatten(bs[1..])
            && Flatten(FilledBlocks(bs, answered)) == Rows(filled) + Flatten(FilledBlocks(bs[1..], answered))
  {
    var f := FilledBlocks(bs, answered);
    assert bs == [bs[0]] + bs[1..] && f == [f[0]] + FilledBlocks(bs[1..], answered);
    FlattenCons(bs[0], bs[1..]);
    FlattenCons(f[0], FilledBlocks(bs[1..], answered));
  }

  // What a block's head needs ahead, with the inserted results and without them.
  lemma {:induction false} HeadServedIff(
    calls: set<string>, run: set<string>, tail: set<string>, below: set<string>, answered: set<string>, need: set<string>)
    requires calls <= need && tail <= answered && run <= answered
    ensures calls * need <= run + (calls - answered) + (tail + (below - answered))
        <==> calls * answered <= run + tail
  {
    var all := run + (calls - answered) + (tail + (below - answered));
    if calls * need <= all {
      forall id | id in calls * answered ensures id in run + tail {
        assert id in calls * need;
      }
    }
    if calls * answered <= run + tail {
      forall id | id in calls * need ensures id in all {
        assert id in answered ==> id in calls * answered;
      }
    }
  }

  // Filling block by block serves a call exactly when nothing answers it, or something ahead does.
  lemma {:induction false} FilledAhead(bs: seq<Block>, answered: set<string>, need: set<string>)
    requires WellFormed(bs) && Answered(Flatten(bs)) <= answered && Declared(Flatten(bs)) <= need
    ensures AnsweredAhead(Flatten(FilledBlocks(bs, answered)), need) <==> AnsweredAhead(Flatten(bs), answered)
  {
    if bs != [] {
      var b, rest := bs[0], bs[1..];
      var tail, owed := Flatten(rest), Owed(b.head, answered);
      var filled := Block(b.head, b.run + owed);
      FilledHead(bs, answered);
      RestWellFormed(bs);
      AnsweredConcat(Rows(b), tail);
      DeclaredConcat(Rows(b), tail);
      RowsSets(b);
      OwedOfHead(b.head, answered);
      AnsweredConcat(b.run, owed);
      FilledAhead(rest, answered, need);
      FilledSets(rest, answered);
      AheadOfBlock(b, tail, answered);
      AheadOfBlock(filled, Flatten(FilledBlocks(rest, answered)), need);
      HeadServedIff(CallIds(b.head), Answered(b.run), Answered(tail), Declared(tail), answered, need);
    }
  }

  lemma {:induction false} RestWellFormed(bs: seq<Block>)
    requires WellFormed(bs) && bs != []
    ensures WellFormed(bs[1..]) && forall j :: 0 <= j < |bs[0].run| ==> bs[0].run[j].role.Tool?
  {
    assert forall i :: 0 <= i < |bs[1..]| ==> bs[1..][i] == bs[i + 1];
  }

  lemma {:induction false} BackfilledAhead(ms: seq<Message>)
    ensures AnsweredAhead(Backfilled(ms), Declared(ms)) <==> AnsweredAhead(ms, Answered(ms))
  {
    ParseShape(ms);
    FilledAhead(Parse(ms), Answered(ms), Declared(ms));
  }

  lemma {:induction false} LaterIsAhead(ms: seq<Message>)
    ensures CallsAnsweredLater(ms) <==> AnsweredAhead(ms, Declared(ms))
    ensures NoCallBehindItsResults(ms) <==> AnsweredAhead(ms, Answered(ms))
  {
    forall i: nat, id | i < |ms| && id in CallIds(ms[i]) ensures id in Declared(ms) {
      DeclaredAt(ms, i);
    }
    if CallsAnsweredLater(ms) { AheadFromPointwise(ms, Declared(ms)); }
    if NoCallBehindItsResults(ms) { AheadFromPointwise(ms, Answered(ms)); }
    if AnsweredAhead(ms, Declared(ms)) {
      forall i: nat, id | i < |ms| && id in CallIds(ms[i]) ensures id in Answered(ms[i + 1..]) {
        AheadAt(ms, Declared(ms), i, id);
      }
    }
    if AnsweredAhead(ms, Answered(ms)) {
      forall i: nat, id | i < |ms| && id in CallIds(ms[i]) && id in Answered(ms) ensures id in Answered(ms[i + 1..]) {
        AheadAt(ms, Answered(ms), i, id);
      }
    }
  }

  // After repair every call has a result after it exactly when, among the rows kept, no call stands
  // behind the last result of its id.
  lemma {:induction false} RepairedCallsAnsweredIff(ms: seq<Message>)
    ensures CallsAnsweredLater(Repaired(ms)) <==> NoCallBehindItsResults(WithoutOrphans(ms))
  {
    var kept := WithoutOrphans(ms);
    LaterIsAhead(Repaired(ms));
    LaterIsAhead(kept);
    BackfilledAhead(kept);
    BackfillOnlyAdds(kept);
  }
}
