// What is sent to the model: repair, the labels of mid-turn messages, the omitted old results, the cap on
// each result, the trimming to the budget, and repair again, over the checkpoint view of a turn.
module Requests {
  import opened ContextGovernor
  import opened HistoryRepair
  import opened InflightCompaction
  import opened Messages
  import Microcompact
  import opened Options

  // New content for a row, by its place.
  type Rewrite = (nat, Message) -> Content

  function Labelled(ms: seq<Message>, relabel: Rewrite): (r: seq<Message>)
    ensures |r| == |ms|
  {
    seq(|ms|, i requires 0 <= i < |ms| => if ms[i].role.User? then ms[i].(content := relabel(i, ms[i])) else ms[i])
  }

  function Capped(ms: seq<Message>, cap: Rewrite): (r: seq<Message>)
    ensures |r| == |ms|
  {
    seq(|ms|, i requires 0 <= i < |ms| => if ms[i].role.Tool? then ms[i].(content := cap(i, ms[i])) else ms[i])
  }

  method LabelMidTurnMessages(ms: seq<Message>, relabel: Rewrite) returns (r: seq<Message>)
    ensures r == Labelled(ms, relabel)
  {
    r := ms;
    for i := 0 to |ms|
      invariant |r| == |ms|
      invariant forall k :: 0 <= k < |ms| ==> r[k] == if k < i then Labelled(ms, relabel)[k] else ms[k]
    {
      if ms[i].role.User? {
        r := r[i := ms[i].(content := relabel(i, ms[i]))];
      }
    }
  }

  method ApplyToolResultBudget(ms: seq<Message>, cap: Rewrite) returns (r: seq<Message>)
    ensures r == Capped(ms, cap)
  {
    r := ms;
    for i := 0 to |ms|
      invariant |r| == |ms|
      invariant forall k :: 0 <= k < |ms| ==> r[k] == if k < i then Capped(ms, cap)[k] else ms[k]
    {
      if ms[i].role.Tool? {
        r := r[i := ms[i].(content := cap(i, ms[i]))];
      }
    }
  }

  // How the rows are rewritten, and what the request may take.
  datatype Terms = Terms(
    relabel: Rewrite, placeholder: Microcompact.Placeholder, cap: Rewrite,
    window: nat, budget: int, estimate: nat, reserved: nat, weight: Weight)

  function Governed(view: seq<Message>, t: Terms): seq<Message> {
    Capped(Microcompact.Compacted(Labelled(Repaired(view), t.relabel), t.placeholder), t.cap)
  }

  function Trim(ms: seq<Message>, t: Terms): seq<Message> {
    Trimmed(ms, t.window, t.budget, t.estimate, t.reserved, t.weight)
  }

  function Sent(view: seq<Message>, t: Terms): seq<Message> {
    Repaired(Trim(Governed(view, t), t))
  }

  method GovernContext(view: seq<Message>, t: Terms) returns (r: seq<Message>)
    ensures r == Sent(view, t)
  {
    r := DropOrphanToolResults(view);
    r := BackfillMissingToolResults(r);
    r := LabelMidTurnMessages(r, t.relabel);
    r := Microcompact.Compact(r, t.placeholder);
    r := ApplyToolResultBudget(r, t.cap);
    r := SnipHistory(r, t.window, t.budget, t.estimate, t.reserved, t.weight);
    r := DropOrphanToolResults(r);
    r := BackfillMissingToolResults(r);
  }

  // ---------------------------------------------------------- rows that differ in content only

  ghost predicate SameRows(a: seq<Message>, b: seq<Message>) {
    |a| == |b| && forall i :: 0 <= i < |a| ==> b[i] == a[i].(content := b[i].content)
  }

  lemma {:induction false} SameRowsTwice(a: seq<Message>, b: seq<Message>, c: seq<Message>)
    requires SameRows(a, b) && SameRows(b, c)
    ensures SameRows(a, c)
  {
  }

  lemma {:induction false} SameSlices(a: seq<Message>, b: seq<Message>, from: nat, to: nat)
    requires SameRows(a, b) && from <= to <= |a|
    ensures SameRows(a[from..to], b[from..to])
  {
  }

  lemma {:induction false} SameRun(a: seq<Message>, b: seq<Message>)
    requires SameRows(a, b)
    ensures ToolRun(a) == ToolRun(b)
  {
    if a != [] && a[0].role.Tool? {
      SameSlices(a, b, 1, |a|);
      assert a[1..|a|] == a[1..] && b[1..|b|] == b[1..];
      SameRun(a[1..], b[1..]);
    }
  }

  lemma {:induction false} SameAnswered(a: seq<Message>, b: seq<Message>)
    requires SameRows(a, b)
    ensures Answered(a) == Answered(b)
  {
    if a != [] {
      SameSlices(a, b, 0, |a| - 1);
      SameAnswered(a[..|a| - 1], b[..|b| - 1]);
    }
  }

  ghost predicate SameBlocks(p: seq<Block>, q: seq<Block>) {
    |p| == |q| && forall i :: 0 <= i < |p| ==> SameRows([p[i].head], [q[i].head]) && SameRows(p[i].run, q[i].run)
  }

  lemma {:induction false} SameParts(a: seq<Message>, b: seq<Message>, k: nat)
    requires SameRows(a, b) && k <= |a|
    ensures SameRows(a[..k], b[..k]) && SameRows(a[k..], b[k..])
  {
    SameSlices(a, b, 0, k);
    SameSlices(a, b, k, |a|);
    assert a[0..k] == a[..k] && b[0..k] == b[..k] && a[k..|a|] == a[k..] && b[k..|b|] == b[k..];
  }

  lemma {:induction false} SameParse(a: seq<Message>, b: seq<Message>)
    requires SameRows(a, b)
    ensures SameBlocks(Parse(a), Parse(b))
    decreases |a|
  {
    if a != [] {
      var x, y := a[1..], b[1..];
      var k := ToolRun(x);
      SameParts(a, b, 1);
      assert a[..1] == [a[0]] && b[..1] == [b[0]];
      SameRun(x, y);
      SameParts(x, y, k);
      SameParse(x[k..], y[k..]);
      SameBlocksCons(Block(a[0], x[..k]), Block(b[0], y[..k]), Parse(x[k..]), Parse(y[k..]));
    }
  }

  lemma {:induction false} SameBlocksCons(b: Block, c: Block, p: seq<Block>, q: seq<Block>)
    requires SameRows([b.head], [c.head]) && SameRows(b.run, c.run) && SameBlocks(p, q)
    ensures SameBlocks([b] + p, [c] + q)
  {
  }

  lemma {:induction false} SameSettled(b: Block, c: Block)
    requires SameRows([b.head], [c.head]) && SameRows(b.run, c.run) && Settled(b)
    ensures Settled(c)
  {
    assert [c.head][0] == [b.head][0].(content := [c.head][0].content);
    SameAnswered(b.run, c.run);
  }

  lemma {:induction false} SameLegal(a: seq<Message>, b: seq<Message>)
    requires SameRows(a, b) && BlockLegal(a)
    ensures BlockLegal(b)
  {
    SameParse(a, b);
    var p, q := Parse(a), Parse(b);
    forall i | 0 <= i < |q| ensures Settled(q[i]) {
      assert Settled(p[i]);
      SameSettled(p[i], q[i]);
    }
  }

  lemma {:induction false} GovernedSame(view: seq<Message>, t: Terms)
    ensures SameRows(Repaired(view), Governed(view, t))
  {
    var a := Repaired(view);
    var b := Labelled(a, t.relabel);
    var c := Microcompact.Compacted(b, t.placeholder);
    assert SameRows(a, b) && SameRows(b, c) && SameRows(c, Capped(c, t.cap));
    SameRowsTwice(a, b, c);
    SameRowsTwice(a, c, Capped(c, t.cap));
  }

  // ---------------------------------------------------------- what is sent

  lemma {:induction false} OthersSameRows(a: seq<Message>, b: seq<Message>)
    requires SameRows(a, b)
    ensures SameRows(Others(a), Others(b))
  {
    if a != [] {
      var n := |a| - 1;
      SameSlices(a, b, 0, n);
      OthersSameRows(a[..n], b[..n]);
    }
  }

  // What the checkpoint view opens with.
  lemma {:induction false} ViewOpens(ms: seq<Message>, ck: Option<Checkpoint>)
    requires Opens(ms)
    ensures Opens(View(ms, ck))
  {
    if ck.Some? && Applies(ms, ck.value) {
      var front, asked, rest := ms[..ck.value.anchor], ms[ck.value.anchor], ms[ck.value.anchor + 1..];
      var request := asked.(content := Merge(asked.content, ck.value.text));
      var tail := ms[ck.value.cut..];
      assert ms == front + ([asked] + rest) && View(ms, ck) == front + ([request] + tail);
      OthersConcat(front, [asked] + rest);
      OthersConcat(front, [request] + tail);
      OthersConcat([request], tail);
      OthersSame([request]);
    }
  }

  lemma {:induction false} ViewHasUser(ms: seq<Message>, ck: Option<Checkpoint>)
    requires HasUser(ms)
    ensures HasUser(View(ms, ck))
  {
    if ck.Some? && Applies(ms, ck.value) {
      assert View(ms, ck)[ck.value.anchor].role.User?;
    }
  }

  lemma {:induction false} ViewLegal(ms: seq<Message>, ck: Option<Checkpoint>)
    requires BlockLegal(ms) && (ck.Some? && ck.value.cut < |ms| ==> ms[ck.value.cut].role.Assistant?)
    ensures BlockLegal(View(ms, ck)) && Repaired(View(ms, ck)) == View(ms, ck)
  {
    if ck.Some? && Applies(ms, ck.value) {
      ViewIsLegal(ms, ck.value);
    } else {
      BlockLegalImplies(ms);
      RepairedIsLegal(ms);
    }
  }

  // Whatever the history, what is sent has no result without its call and no call without a result.
  lemma {:induction false} SentIsWhole(view: seq<Message>, t: Terms)
    ensures NoOrphans(Sent(view, t)) && AllAnswered(Sent(view, t))
  {
    RepairedIsLegal(Trim(Governed(view, t), t));
  }

  lemma {:induction false} GovernedLegal(ms: seq<Message>, ck: Option<Checkpoint>, t: Terms)
    requires BlockLegal(ms) && HasUser(ms) && (ck.Some? && ck.value.cut < |ms| ==> ms[ck.value.cut].role.Assistant?)
    ensures var view := View(ms, ck); var g := Governed(view, t);
            SameRows(view, g) && BlockLegal(g) && HasUser(Others(g)) && (Opens(ms) ==> Opens(g))
  {
    var view := View(ms, ck);
    var g := Governed(view, t);
    ViewLegal(ms, ck);
    GovernedSame(view, t);
    SameLegal(view, g);
    ViewHasUser(ms, ck);
    var k :| 0 <= k < |view| && view[k].role.User?;
    assert g[k] == view[k].(content := g[k].content);
    UserAmongOthers(g, k);
    OthersSameRows(view, g);
    if Opens(ms) { ViewOpens(ms, ck); }
  }

  // All system rows, and the newest others.
  ghost predicate Newest(g: seq<Message>, r: seq<Message>) {
    Systems(r) == Systems(g) && exists s: nat :: s < |Others(g)| && Others(r) == Others(g)[s..]
  }

  lemma {:induction false} SnippedNewest(g: seq<Message>, remaining: nat, weight: Weight)
    requires BlockLegal(g) && HasUser(Others(g))
    ensures var r := Snipped(g, remaining, weight); BlockLegal(r) && Newest(g, r) && Opens(r)
  {
    SnippedLegal(g, remaining, weight);
  }

  function Remaining(t: Terms): nat {
    if t.budget < t.reserved then 0 else t.budget - t.reserved
  }

  lemma {:induction false} TrimIs(g: seq<Message>, t: Terms)
    ensures Trim(g, t) == g || Trim(g, t) == Snipped(g, Remaining(t), t.weight)
  {
  }

  lemma {:induction false} NewestIsAll(g: seq<Message>)
    requires Others(g) != []
    ensures Newest(g, g)
  {
    assert Others(g)[0..] == Others(g);
  }

  lemma {:induction false} TrimLegal(g: seq<Message>, t: Terms)
    requires BlockLegal(g) && HasUser(Others(g))
    ensures BlockLegal(Trim(g, t)) && Newest(g, Trim(g, t)) && (Trim(g, t) == g || Opens(Trim(g, t)))
  {
    TrimIs(g, t);
    NewestIsAll(g);
    SnippedNewest(g, Remaining(t), t.weight);
  }

  lemma {:induction false} CountLabelled(ms: seq<Message>, relabel: Rewrite, i: nat)
    requires i <= |ms|
    ensures Microcompact.Count(Labelled(ms, relabel)[..i]) == Microcompact.Count(ms[..i])
  {
    if i > 0 {
      CountLabelled(ms, relabel, i - 1);
      assert Labelled(ms, relabel)[..i][..i - 1] == Labelled(ms, relabel)[..i - 1];
      assert ms[..i][..i - 1] == ms[..i - 1];
    }
  }

  // What the passes write into a row of a view that needs no repair: a user row gets its label, a result
  // the cap of what is left of it, any other row stays.
  lemma {:induction false} GovernedContents(view: seq<Message>, t: Terms, i: nat)
    requires Repaired(view) == view && i < |view|
    ensures |Governed(view, t)| == |view|
    ensures var m := view[i];
            Governed(view, t)[i] ==
            if m.role.User? then m.(content := t.relabel(i, m))
            else if m.role.Tool? then m.(content := t.cap(i, Microcompact.Compacted(view, t.placeholder)[i]))
            else m
  {
    var all := Labelled(view, t.relabel);
    CountLabelled(view, t.relabel, i);
    CountLabelled(view, t.relabel, |view|);
    assert all[..|view|] == all && view[..|view|] == view;
  }

  // Of a legal history with a user row what is sent is legal in the strict shape, and the second repair
  // has nothing to do: the view with other contents, of which trimming keeps all system rows and the
  // newest others. Within the budget nothing is trimmed; over it the others start at the least user row from
  // which all fits, or the last. It opens at a user row when it was trimmed, and when the history did.
  lemma {:induction false} SentFromLegal(ms: seq<Message>, ck: Option<Checkpoint>, t: Terms)
    requires BlockLegal(ms) && HasUser(ms) && (ck.Some? && ck.value.cut < |ms| ==> ms[ck.value.cut].role.Assistant?)
    ensures var view := View(ms, ck); var g := Governed(view, t); var sent := Sent(view, t);
            && BlockLegal(sent) && sent == Trim(g, t) && SameRows(view, g)
            && FitsBudget(g, sent, t.window, t.budget, t.estimate, t.reserved, t.weight)
            && Newest(g, sent) && (sent != g || Opens(ms) ==> Opens(sent))
  {
    var g := Governed(View(ms, ck), t);
    GovernedLegal(ms, ck, t);
    TrimLegal(g, t);
    TrimmedFits(g, t.window, t.budget, t.estimate, t.reserved, t.weight);
    BlockLegalImplies(Trim(g, t));
    RepairedIsLegal(Trim(g, t));
  }
}
