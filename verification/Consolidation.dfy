// Archiving the old part of a long conversation: where it may be cut, the bounded rounds of one
// call, the count of failed turns, and what any run of calls leaves on record.
module Consolidation {
  import opened Messages
  import opened Options

  // A saved row: its message, its weight in the prompt, whether a checkpoint replaces it, and whether
  // it is a delivery the next user row answers.
  datatype Row = Row(msg: Message, tokens: nat, compacted: bool, delivery: bool)

  predicate IsUser(r: Row) {
    r.msg.role.User?
  }

  // ---------------------------------------------------------- boundary by tokens

  // Prompt tokens of rows [start, i): compacted rows are not in the prompt.
  function Removed(rows: seq<Row>, start: nat, i: nat): nat
    requires start <= i <= |rows|
    decreases i
  {
    if i == start then 0
    else Removed(rows, start, i - 1) + if rows[i - 1].compacted then 0 else rows[i - 1].tokens
  }

  predicate UserBoundary(rows: seq<Row>, start: nat, i: nat) {
    start < i < |rows| && IsUser(rows[i])
  }

  // The least user row with enough before it; when there is none, the last user row.
  ghost predicate BestBoundary(rows: seq<Row>, start: nat, need: nat, b: nat)
    requires start <= |rows|
  {
    && UserBoundary(rows, start, b)
    && (forall i: nat :: UserBoundary(rows, start, i) && i < b ==> Removed(rows, start, i) < need)
    && (Removed(rows, start, b) < need ==> forall i: nat :: UserBoundary(rows, start, i) ==> i <= b)
  }

  lemma {:induction false} BestBoundaryUnique(rows: seq<Row>, start: nat, need: nat, a: nat, b: nat)
    requires start <= |rows| && BestBoundary(rows, start, need, a) && BestBoundary(rows, start, need, b)
    ensures a == b
  {
  }

  // The boundary as the rows are scanned, from row i on.
  function BoundaryFrom(rows: seq<Row>, start: nat, i: nat, need: nat): (r: Option<nat>)
    requires start <= i <= |rows|
    ensures r.Some? ==> start < r.value < |rows|
    decreases |rows| - i
  {
    if i == |rows| then None
    else if i > start && IsUser(rows[i]) && Removed(rows, start, i) >= need then Some(i)
    else match BoundaryFrom(rows, start, i + 1, need)
      case Some(j) => Some(j)
      case None => if i > start && IsUser(rows[i]) then Some(i) else None
  }

  function Boundary(rows: seq<Row>, start: nat, need: int): (r: Option<nat>)
    ensures r.Some? ==> start < r.value < |rows|
  {
    if start >= |rows| || need <= 0 then None else BoundaryFrom(rows, start, start, need)
  }

  lemma {:induction false} BoundaryFromIs(rows: seq<Row>, start: nat, i: nat, need: nat)
    requires start <= i <= |rows|
    requires forall k: nat :: UserBoundary(rows, start, k) && k < i ==> Removed(rows, start, k) < need
    ensures var b := BoundaryFrom(rows, start, i, need);
            && (b.None? <==> forall k: nat :: UserBoundary(rows, start, k) ==> k < i)
            && (b.Some? ==> i <= b.value && BestBoundary(rows, start, need, b.value))
    decreases |rows| - i
  {
    if i < |rows| {
      if i > start && IsUser(rows[i]) && Removed(rows, start, i) >= need {
        assert UserBoundary(rows, start, i);
      } else {
        assert UserBoundary(rows, start, i) ==> Removed(rows, start, i) < need;
        BoundaryFromIs(rows, start, i + 1, need);
        assert i > start && IsUser(rows[i]) ==> UserBoundary(rows, start, i);
      }
    }
  }

  // None exactly when there is no user row to cut at.
  lemma {:induction false} BoundaryIsBest(rows: seq<Row>, start: nat, need: int)
    requires start <= |rows|
    ensures var b := Boundary(rows, start, need);
            && (b.None? <==> need <= 0 || forall i: nat :: !UserBoundary(rows, start, i))
            && (need > 0 ==> forall c: nat :: BestBoundary(rows, start, need, c) <==> b == Some(c))
  {
    if start < |rows| && need > 0 {
      BoundaryFromIs(rows, start, start, need);
      var b := Boundary(rows, start, need);
      forall c: nat | BestBoundary(rows, start, need, c) ensures b == Some(c) {
        assert UserBoundary(rows, start, c);
        BestBoundaryUnique(rows, start, need, b.value, c);
      }
    }
  }

  // ---------------------------------------------------------- boundary by replay window

  // Rows of [from, n) that the prompt shows, by index.
  function Shown(rows: seq<Row>, from: nat, n: nat): (r: seq<nat>)
    requires from <= n <= |rows|
    ensures forall k: nat :: k < |r| ==> from <= r[k] < n && !rows[r[k]].compacted
    ensures forall j: nat, k: nat :: j < k < |r| ==> r[j] < r[k]
    decreases n
  {
    if n == from then [] else
      var r := Shown(rows, from, n - 1);
      if rows[n - 1].compacted then r else r + [n - 1]
  }

  lemma {:induction false} ShownAre(rows: seq<Row>, from: nat, n: nat)
    requires from <= n <= |rows|
    ensures forall i: nat :: i in Shown(rows, from, n) <==> from <= i < n && !rows[i].compacted
    decreases n
  {
    if from < n { ShownAre(rows, from, n - 1); }
  }

  function TokensAt(rows: seq<Row>, at: seq<nat>): nat
    requires forall k: nat :: k < |at| ==> at[k] < |rows|
  {
    if at == [] then 0 else TokensAt(rows, at[..|at| - 1]) + rows[at[|at| - 1]].tokens
  }

  lemma {:induction false} TokensOneMore(rows: seq<Row>, at: seq<nat>, i: nat)
    requires (forall k: nat :: k < |at| ==> at[k] < |rows|) && i < |rows|
    ensures TokensAt(rows, at + [i]) == TokensAt(rows, at) + rows[i].tokens
  {
    assert (at + [i])[..|at|] == at;
  }

  // What is removed up to a row is what the prompt shows of it.
  lemma {:induction false} RemovedIs(rows: seq<Row>, start: nat, i: nat)
    requires start <= i <= |rows|
    ensures Removed(rows, start, i) == TokensAt(rows, Shown(rows, start, i))
    decreases i
  {
    if start < i {
      RemovedIs(rows, start, i - 1);
      OneMoreShown(rows, Shown(rows, start, i - 1), Shown(rows, start, i), i - 1);
    }
  }

  lemma {:induction false} OneMoreShown(rows: seq<Row>, before: seq<nat>, after: seq<nat>, i: nat)
    requires (forall k: nat :: k < |before| ==> before[k] < |rows|) && i < |rows|
    requires after == if rows[i].compacted then before else before + [i]
    ensures TokensAt(rows, after) == TokensAt(rows, before) + if rows[i].compacted then 0 else rows[i].tokens
  {
    if !rows[i].compacted {
      TokensOneMore(rows, before, i);
    }
  }

  function Picked(rows: seq<Row>, at: seq<nat>): (r: seq<Message>)
    requires forall k: nat :: k < |at| ==> at[k] < |rows|
    ensures |r| == |at|
  {
    seq(|at|, k requires 0 <= k < |at| => rows[at[k]].msg)
  }

  // The last user row before k.
  function UserBefore(rows: seq<Row>, at: seq<nat>, k: nat): (r: Option<nat>)
    requires forall j: nat :: j < |at| ==> at[j] < |rows|
    requires k <= |at|
    ensures r.Some? ==> r.value < k
  {
    if k == 0 then None
    else if IsUser(rows[at[k - 1]]) then Some(k - 1)
    else UserBefore(rows, at, k - 1)
  }

  function UserFrom(rows: seq<Row>, at: seq<nat>, k: nat): (r: Option<nat>)
    requires forall j: nat :: j < |at| ==> at[j] < |rows|
    requires k <= |at|
    ensures r.Some? ==> k <= r.value < |at| && IsUser(rows[at[r.value]])
    ensures forall j: nat :: k <= j < |at| && (r.None? || j < r.value) ==> !IsUser(rows[at[j]])
    decreases |at| - k
  {
    if k == |at| then None else if IsUser(rows[at[k]]) then Some(k) else UserFrom(rows, at, k + 1)
  }

  // One back when the row before is a delivery.
  function WithDelivery(rows: seq<Row>, at: seq<nat>, low: nat, k: nat): (r: nat)
    requires forall j: nat :: j < |at| ==> at[j] < |rows|
    requires low <= k < |at|
    ensures low <= r <= k
  {
    if k > low && rows[at[k - 1]].delivery then k - 1 else k
  }

  // Where the replay window opens among the shown rows: the newest ones, at a user row.
  function WindowOpen(rows: seq<Row>, at: seq<nat>, max: nat): (r: nat)
    requires forall j: nat :: j < |at| ==> at[j] < |rows|
    requires 0 < max < |at|
    ensures r <= |at|
  {
    var k := |at| - max;
    var recovered := if UserFrom(rows, at, k).Some? then None else UserBefore(rows, at, k);
    var open := if recovered.Some? then WithDelivery(rows, at, 0, recovered.value) else k;
    var user := UserFrom(rows, at, open);
    if user.Some? then WithDelivery(rows, at, open, user.value) else open
  }

  // Past the results left without their call.
  function WindowStart(rows: seq<Row>, at: seq<nat>, max: nat): (r: nat)
    requires forall j: nat :: j < |at| ==> at[j] < |rows|
    requires 0 < max < |at|
    ensures r <= |at|
  {
    var s := WindowOpen(rows, at, max);
    s + LegalStart(Picked(rows, at[s..]))
  }

  function ReplayBoundary(rows: seq<Row>, start: nat, max: int): (r: Option<nat>)
    requires start <= |rows|
    ensures r.Some? ==> start < r.value <= |rows|
  {
    var at := Shown(rows, start, |rows|);
    if max <= 0 || |at| <= max then None else
      assert start <= at[0] < |rows|;
      var s := WindowStart(rows, at, max);
      if s == |at| then Some(|rows|)
      else if at[s] <= start then None
      else Some(at[s])
  }

  // The cut leaves what the window shows, and that is a legal opening: no result in it answers a call to its
  // left. There is none to make only when the window shows every row.
  lemma {:induction false} ReplayBoundaryIsLegal(rows: seq<Row>, start: nat, max: int)
    requires start <= |rows|
    ensures var at, b := Shown(rows, start, |rows|), ReplayBoundary(rows, start, max);
            && (b.None? ==> max <= 0 || |at| <= max || WindowStart(rows, at, max) == 0)
            && (b.Some? ==>
                  && 0 < max < |at|
                  && Shown(rows, b.value, |rows|) == at[WindowStart(rows, at, max)..]
                  && NoOrphans(Picked(rows, Shown(rows, b.value, |rows|))))
  {
    var at := Shown(rows, start, |rows|);
    if 0 < max < |at| {
      var s := WindowStart(rows, at, max);
      LegalWindow(rows, at, max);
      if s == |at| {
        assert at[s..] == [] && Shown(rows, |rows|, |rows|) == [];
        assert start <= at[0] < |rows|;
      } else {
        ShownFrom(rows, start, |rows|, s);
        assert s > 0 ==> at[0] < at[s];
      }
    }
  }

  predicate UserAt(rows: seq<Row>, at: seq<nat>, j: nat) {
    j < |at| && at[j] < |rows| && IsUser(rows[at[j]])
  }

  // Opening at user row u: at the delivery it answers when that stands before it, not below `low`.
  predicate OpensAt(rows: seq<Row>, at: seq<nat>, low: nat, u: nat, s: nat)
    requires forall j: nat :: j < |at| ==> at[j] < |rows|
    requires u < |at|
  {
    if low < u && rows[at[u - 1]].delivery then s == u - 1 else s == u
  }

  // The window opens at the first user row of the newest `max` shown, or at the delivery it answers if that
  // is among them; with no user row there, at the last one before, with its delivery; with none at all, it is
  // the newest `max`.
  lemma {:induction false} WindowOpensAtUser(rows: seq<Row>, at: seq<nat>, max: nat)
    requires forall j: nat :: j < |at| ==> at[j] < |rows|
    requires 0 < max < |at|
    ensures var s, k := WindowOpen(rows, at, max), |at| - max;
            && (forall u: nat :: UserAt(rows, at, u) && k <= u && (forall j: nat :: k <= j < u ==> !UserAt(rows, at, j)) ==>
                  OpensAt(rows, at, k, u, s))
            && (forall u: nat :: UserAt(rows, at, u) && u < k && (forall j: nat :: u < j < |at| ==> !UserAt(rows, at, j)) ==>
                  OpensAt(rows, at, 0, u, s))
            && ((forall j: nat :: !UserAt(rows, at, j)) ==> s == k)
  {
    var s, k := WindowOpen(rows, at, max), |at| - max;
    forall u: nat | UserAt(rows, at, u) && k <= u && (forall j: nat :: k <= j < u ==> !UserAt(rows, at, j))
      ensures OpensAt(rows, at, k, u, s)
    {
      FirstUserIs(rows, at, k, u);
    }
    forall u: nat | UserAt(rows, at, u) && u < k && (forall j: nat :: u < j < |at| ==> !UserAt(rows, at, j))
      ensures OpensAt(rows, at, 0, u, s)
    {
      OpensBefore(rows, at, max, u);
    }
    UserBeforeIs(rows, at, k);
    assert UserFrom(rows, at, k).Some? ==> UserAt(rows, at, UserFrom(rows, at, k).value);
    assert UserBefore(rows, at, k).Some? ==> UserAt(rows, at, UserBefore(rows, at, k).value);
  }

  lemma {:induction false} FirstUserIs(rows: seq<Row>, at: seq<nat>, k: nat, u: nat)
    requires forall j: nat :: j < |at| ==> at[j] < |rows|
    requires k <= u && UserAt(rows, at, u) && forall j: nat :: k <= j < u ==> !UserAt(rows, at, j)
    ensures UserFrom(rows, at, k) == Some(u)
    decreases u - k
  {
    if k < u {
      assert !UserAt(rows, at, k);
      FirstUserIs(rows, at, k + 1, u);
    }
  }

  lemma {:induction false} NoUserFrom(rows: seq<Row>, at: seq<nat>, k: nat)
    requires forall j: nat :: j < |at| ==> at[j] < |rows|
    requires k <= |at| && forall j: nat :: k <= j < |at| ==> !UserAt(rows, at, j)
    ensures UserFrom(rows, at, k).None?
  {
    var r := UserFrom(rows, at, k);
    assert r.Some? ==> UserAt(rows, at, r.value);
  }

  lemma {:induction false} LastUserIs(rows: seq<Row>, at: seq<nat>, k: nat, u: nat)
    requires forall j: nat :: j < |at| ==> at[j] < |rows|
    requires u < k <= |at| && UserAt(rows, at, u) && forall j: nat :: u < j < k ==> !UserAt(rows, at, j)
    ensures UserBefore(rows, at, k) == Some(u)
  {
    if u + 1 < k {
      assert !UserAt(rows, at, k - 1);
      LastUserIs(rows, at, k - 1, u);
    }
  }

  lemma {:induction false} OpensBefore(rows: seq<Row>, at: seq<nat>, max: nat, u: nat)
    requires forall j: nat :: j < |at| ==> at[j] < |rows|
    requires 0 < max < |at| && u < |at| - max
    requires UserAt(rows, at, u) && forall j: nat :: u < j < |at| ==> !UserAt(rows, at, j)
    ensures OpensAt(rows, at, 0, u, WindowOpen(rows, at, max))
  {
    NoUserFrom(rows, at, |at| - max);
    LastUserIs(rows, at, |at| - max, u);
    var open := WithDelivery(rows, at, 0, u);
    var user := if UserAt(rows, at, open) then open else u;
    FirstUserIs(rows, at, user, user);
  }

  lemma {:induction false} UserBeforeIs(rows: seq<Row>, at: seq<nat>, k: nat)
    requires forall j: nat :: j < |at| ==> at[j] < |rows|
    requires k <= |at|
    ensures var u := UserBefore(rows, at, k);
            && (u.Some? ==> IsUser(rows[at[u.value]]))
            && (forall j: nat :: j < k && (u.None? || u.value < j) ==> !IsUser(rows[at[j]]))
  {
    if k > 0 { UserBeforeIs(rows, at, k - 1); }
  }

  lemma {:induction false} PickedSuffix(rows: seq<Row>, at: seq<nat>, s: nat, k: nat)
    requires forall j: nat :: j < |at| ==> at[j] < |rows|
    requires s + k <= |at|
    ensures Picked(rows, at[s..])[k..] == Picked(rows, at[s + k..])
  {
  }

  lemma {:induction false} LegalWindow(rows: seq<Row>, at: seq<nat>, max: nat)
    requires forall j: nat :: j < |at| ==> at[j] < |rows|
    requires 0 < max < |at|
    ensures NoOrphans(Picked(rows, at[WindowStart(rows, at, max)..]))
  {
    var s := WindowOpen(rows, at, max);
    var ms := Picked(rows, at[s..]);
    LegalStartLeavesNoOrphans(ms);
    PickedSuffix(rows, at, s, LegalStart(ms));
  }

  lemma {:induction false} ShownFrom(rows: seq<Row>, from: nat, n: nat, s: nat)
    requires from <= n <= |rows| && s < |Shown(rows, from, n)|
    ensures Shown(rows, Shown(rows, from, n)[s], n) == Shown(rows, from, n)[s..]
    decreases n
  {
    var at := Shown(rows, from, n);
    var before := Shown(rows, from, n - 1);
    if s < |before| {
      ShownFrom(rows, from, n - 1, s);
      if !rows[n - 1].compacted {
        assert (before + [n - 1])[s..] == before[s..] + [n - 1];
      }
    } else {
      assert at[s] == n - 1;
      assert Shown(rows, n - 1, n - 1) == [];
      assert at[s..] == [n - 1];
    }
  }

  // ---------------------------------------------------------- one call

  // Why a chunk was archived: the replay window hides it, or the prompt has too many tokens.
  datatype Path = Window | Tokens

  // One history record of an archived chunk: its summary, or the chunk itself when the summary failed.
  datatype Record = Record(from: nat, to: nat, raw: bool, path: Path)

  // `upTo` is last_consolidated; `failures` and `failureTurn` the count of failed turns and the turn
  // that counted last. History: `log` the turn of every failed round since the count was last reset,
  // `dumps` what `log` was, with the failure at hand, when the code gave up, by the record it wrote.
  datatype Ledger = Ledger(
    upTo: nat, failures: nat, failureTurn: Option<string>, records: seq<Record>,
    log: seq<Option<string>>, dumps: map<nat, seq<Option<string>>>)

  // What the model and the estimator answer in one round.
  datatype Round = Round(answered: bool, estimate: int)

  // A call: its turn id, whether the window is positive, the budget and target, the replay window, the
  // bound on rounds, and what is answered from outside.
  datatype Call = Call(
    turn: Option<string>, window: int, budget: int, target: int, replay: int, maxRounds: Option<int>,
    overflowAnswered: bool, estimate: int, rounds: nat -> Round)

  const MAX_ROUNDS: nat := 5
  const FAILURES_BEFORE_RAW_DUMP: nat := 3

  function Limit(maxRounds: Option<int>): (r: nat)
    ensures r <= MAX_ROUNDS
  {
    match maxRounds
    case None => MAX_ROUNDS
    case Some(m) => if m < 0 then 0 else if m > MAX_ROUNDS then MAX_ROUNDS else m
  }

  // A second failure in one turn does not count; without a turn every call does.
  function Counted(s: Ledger, turn: Option<string>): nat {
    if turn.Some? && s.failureTurn == turn then s.failures else s.failures + 1
  }

  function GivesUp(s: Ledger, turn: Option<string>): bool {
    Counted(s, turn) >= FAILURES_BEFORE_RAW_DUMP
  }

  function Archived(s: Ledger, to: nat, raw: bool, path: Path): Ledger {
    s.(upTo := to, records := s.records + [Record(s.upTo, to, raw, path)])
  }

  function Overflowed(rows: seq<Row>, s: Ledger, call: Call): (r: Ledger)
    requires s.upTo <= |rows|
    ensures r.upTo <= |rows|
  {
    match ReplayBoundary(rows, s.upTo, call.replay)
    case None => s
    case Some(end) => Archived(s, end, !call.overflowAnswered, Window)
  }

  function Reset(s: Ledger): Ledger {
    s.(failures := 0, failureTurn := None, log := [])
  }

  // One round at this boundary: the ledger after it.
  function RoundAt(s: Ledger, turn: Option<string>, end: nat, answered: bool): Ledger {
    var log := s.log + [turn];
    if answered then Reset(Archived(s, end, false, Tokens))
    else if GivesUp(s, turn) then Reset(Archived(s.(dumps := s.dumps[|s.records| := log]), end, true, Tokens))
    else s.(failures := Counted(s, turn), failureTurn := if turn.Some? then turn else s.failureTurn, log := log)
  }

  function Need(estimate: int, target: int): int {
    if estimate - target > 1 then estimate - target else 1
  }

  // Rounds k, k + 1, ... of a call, from an estimate.
  function Rounds(rows: seq<Row>, s: Ledger, call: Call, k: nat, estimate: int): Ledger
    requires s.upTo <= |rows| && k <= Limit(call.maxRounds)
    decreases Limit(call.maxRounds) - k
  {
    if k == Limit(call.maxRounds) || estimate <= call.target then s else
      match Boundary(rows, s.upTo, Need(estimate, call.target))
      case None => s
      case Some(end) =>
        var r := call.rounds(k);
        var next := RoundAt(s, call.turn, end, r.answered);
        if !r.answered || r.estimate <= 0 then next
        else Rounds(rows, next, call, k + 1, r.estimate)
  }

  function Consolidated(rows: seq<Row>, s: Ledger, call: Call): Ledger
    requires s.upTo <= |rows|
  {
    if call.window <= 0 || rows == [] then s else
      var s1 := Overflowed(rows, s, call);
      if call.estimate <= 0 || call.estimate < call.budget then s1
      else Rounds(rows, s1, call, 0, call.estimate)
  }

  // ---------------------------------------------------------- the code

  class Session {
    var messages: seq<Row>
    var lastConsolidated: nat
  }

  // The consolidator's view of one session: its failure count and what it wrote to the history.
  class Consolidator {
    var failures: nat
    var failureTurn: Option<string>
    var history: seq<Record>
    ghost var log: seq<Option<string>>
    ghost var dumps: map<nat, seq<Option<string>>>

    ghost function LedgerOf(session: Session): Ledger
      reads this, session
    {
      Ledger(session.lastConsolidated, failures, failureTurn, history, log, dumps)
    }

    // The summary call: a record when it answered, the raw chunk when it failed and that is wanted.
    method Archive(from: nat, to: nat, answered: bool, rawOnFailure: bool, path: Path)
      modifies this`history
      ensures history == old(history) + if answered || rawOnFailure then [Record(from, to, !answered, path)] else []
    {
      if answered || rawOnFailure {
        history := history + [Record(from, to, !answered, path)];
      }
    }

    method PickConsolidationBoundary(session: Session, tokensToRemove: int) returns (r: Option<nat>)
      ensures r == Boundary(session.messages, session.lastConsolidated, tokensToRemove)
    {
      var start, rows := session.lastConsolidated, session.messages;
      if start >= |rows| || tokensToRemove <= 0 {
        return None;
      }
      var removed: nat, last: Option<nat> := 0, None;
      var idx := start;
      while idx < |rows|
        invariant start <= idx <= |rows|
        invariant removed == Removed(rows, start, idx)
        invariant Boundary(rows, start, tokensToRemove)
               == (var b := BoundaryFrom(rows, start, idx, tokensToRemove); if b.Some? then b else last)
      {
        if idx > start && IsUser(rows[idx]) {
          last := Some(idx);
          if removed >= tokensToRemove {
            return last;
          }
        }
        if !rows[idx].compacted {
          removed := removed + rows[idx].tokens;
        }
        idx := idx + 1;
      }
      return last;
    }

    method ReplayOverflowBoundary(session: Session, max: int) returns (r: Option<nat>)
      requires session.lastConsolidated <= |session.messages|
      ensures r == ReplayBoundary(session.messages, session.lastConsolidated, max)
    {
      if max <= 0 {
        return None;
      }
      var start, rows := session.lastConsolidated, session.messages;
      var tail: seq<nat> := [];
      for i := start to |rows|
        invariant tail == Shown(rows, start, i)
      {
        if !rows[i].compacted {
          tail := tail + [i];
        }
      }
      if |tail| <= max {
        return None;
      }
      var s := WindowStart(rows, tail, max);
      if s == |tail| {
        return Some(|rows|);
      }
      r := if tail[s] <= start then None else Some(tail[s]);
    }

    method ConsolidateReplayOverflow(session: Session, call: Call)
      requires session.lastConsolidated <= |session.messages|
      modifies this`history, session`lastConsolidated
      ensures LedgerOf(session) == Overflowed(session.messages, old(LedgerOf(session)), call)
    {
      var end := ReplayOverflowBoundary(session, call.replay);
      if end.Some? {
        Archive(session.lastConsolidated, end.value, call.overflowAnswered, true, Window);
        session.lastConsolidated := end.value;
      }
    }

    // One round at a boundary; `go` when the loop may continue.
    method RunRound(session: Session, turn: Option<string>, end: nat, answered: bool) returns (go: bool)
      modifies this, session`lastConsolidated
      ensures LedgerOf(session) == RoundAt(old(LedgerOf(session)), turn, end, answered)
      ensures go == answered
    {
      var sameTurn := turn.Some? && failureTurn == turn;
      var counted := if sameTurn then failures else failures + 1;
      var giveUp := counted >= FAILURES_BEFORE_RAW_DUMP;
      ghost var place := |history|;
      Archive(session.lastConsolidated, end, answered, giveUp, Tokens);
      if !answered {
        log := log + [turn];
        if !giveUp {
          failures := counted;
          if turn.Some? {
            failureTurn := turn;
          }
          return false;
        }
        dumps := dumps[place := log];
      }
      failures, failureTurn, log := 0, None, [];
      session.lastConsolidated := end;
      return answered;
    }

    // The loop: rounds until the estimate fits, none is left, or there is nowhere to cut.
    method RunRounds(session: Session, call: Call)
      requires session.lastConsolidated <= |session.messages|
      modifies this, session`lastConsolidated
      ensures LedgerOf(session) == Rounds(session.messages, old(LedgerOf(session)), call, 0, call.estimate)
    {
      ghost var s0 := LedgerOf(session);
      var estimated, k := call.estimate, 0;
      while k < Limit(call.maxRounds) && estimated > call.target
        invariant k <= Limit(call.maxRounds) && session.lastConsolidated <= |session.messages|
        invariant Rounds(session.messages, s0, call, 0, call.estimate)
               == Rounds(session.messages, LedgerOf(session), call, k, estimated)
      {
        var boundary := PickConsolidationBoundary(session, Need(estimated, call.target));
        if boundary.None? {
          return;
        }
        var r := call.rounds(k);
        var go := RunRound(session, call.turn, boundary.value, r.answered);
        if !go || r.estimate <= 0 {
          return;
        }
        estimated, k := r.estimate, k + 1;
      }
    }

    method MaybeConsolidateByTokens(session: Session, call: Call)
      requires session.lastConsolidated <= |session.messages|
      modifies this, session`lastConsolidated
      ensures LedgerOf(session) == Consolidated(session.messages, old(LedgerOf(session)), call)
    {
      if call.window <= 0 || session.messages == [] {
        return;
      }
      ConsolidateReplayOverflow(session, call);
      if call.estimate <= 0 || call.estimate < call.budget {
        return;
      }
      RunRounds(session, call);
    }
  }

  // ---------------------------------------------------------- runs

  // Rows are appended or rewritten in place (their checkpoint marks), never fewer; a restart forgets
  // the failures, which live in memory.
  datatype Step = Append(rows: seq<Row>) | Rewrite(rows: seq<Row>) | Consolidate(call: Call) | Restart

  datatype World = World(rows: seq<Row>, ledger: Ledger)

  predicate Allowed(w: World, step: Step) {
    step.Rewrite? ==> |step.rows| == |w.rows|
  }

  function After(w: World, step: Step): World {
    match step
    case Append(rows) => w.(rows := w.rows + rows)
    case Rewrite(rows) => w.(rows := rows)
    case Consolidate(call) =>
      if w.ledger.upTo <= |w.rows| then w.(ledger := Consolidated(w.rows, w.ledger, call)) else w
    case Restart => w.(ledger := Reset(w.ledger))
  }

  function Ran(w: World, steps: seq<Step>): World {
    if steps == [] then w else After(Ran(w, steps[..|steps| - 1]), steps[|steps| - 1])
  }

  predicate AllAllowed(w: World, steps: seq<Step>) {
    steps == [] ||
    (AllAllowed(w, steps[..|steps| - 1]) && Allowed(Ran(w, steps[..|steps| - 1]), steps[|steps| - 1]))
  }

  function Fresh(): World {
    World([], Ledger(0, 0, None, [], [], map[]))
  }

  // The records follow one another from row 0 to `upTo`.
  predicate Tiles(records: seq<Record>, upTo: nat) {
    if records == [] then upTo == 0 else
      var r := records[|records| - 1];
      r.to == upTo && r.from < r.to && Tiles(records[..|records| - 1], r.from)
  }

  lemma {:induction false} ArchivedTiles(s: Ledger, to: nat, raw: bool, path: Path)
    requires Tiles(s.records, s.upTo) && s.upTo < to
    ensures Tiles(Archived(s, to, raw, path).records, to)
  {
    var more := s.records + [Record(s.upTo, to, raw, path)];
    assert more[..|more| - 1] == s.records;
  }

  predicate Inv(rows: seq<Row>, s: Ledger) {
    s.upTo <= |rows| && Tiles(s.records, s.upTo)
  }

  lemma {:induction false} RoundKeeps(rows: seq<Row>, s: Ledger, turn: Option<string>, end: nat, answered: bool)
    requires Inv(rows, s) && s.upTo < end <= |rows|
    ensures Inv(rows, RoundAt(s, turn, end, answered))
    ensures s.upTo <= RoundAt(s, turn, end, answered).upTo
  {
    ArchivedTiles(s, end, false, Tokens);
    ArchivedTiles(s.(dumps := s.dumps[|s.records| := s.log + [turn]]), end, true, Tokens);
  }

  lemma {:induction false} RoundsKeep(rows: seq<Row>, s: Ledger, call: Call, k: nat, estimate: int)
    requires Inv(rows, s) && k <= Limit(call.maxRounds)
    ensures Inv(rows, Rounds(rows, s, call, k, estimate))
    ensures s.upTo <= Rounds(rows, s, call, k, estimate).upTo
    decreases Limit(call.maxRounds) - k
  {
    if k < Limit(call.maxRounds) && estimate > call.target {
      var b := Boundary(rows, s.upTo, Need(estimate, call.target));
      if b.Some? {
        var r := call.rounds(k);
        RoundKeeps(rows, s, call.turn, b.value, r.answered);
        if r.answered && r.estimate > 0 {
          RoundsKeep(rows, RoundAt(s, call.turn, b.value, true), call, k + 1, r.estimate);
        }
      }
    }
  }

  lemma {:induction false} OverflowKeeps(rows: seq<Row>, s: Ledger, call: Call)
    requires Inv(rows, s)
    ensures Inv(rows, Overflowed(rows, s, call)) && s.upTo <= Overflowed(rows, s, call).upTo
  {
    var b := ReplayBoundary(rows, s.upTo, call.replay);
    if b.Some? {
      ArchivedTiles(s, b.value, !call.overflowAnswered, Window);
    }
  }

  lemma {:induction false} ConsolidatedKeeps(rows: seq<Row>, s: Ledger, call: Call)
    requires Inv(rows, s)
    ensures Inv(rows, Consolidated(rows, s, call))
    ensures s.upTo <= Consolidated(rows, s, call).upTo
  {
    OverflowKeeps(rows, s, call);
    RoundsKeep(rows, Overflowed(rows, s, call), call, 0, call.estimate);
    CallParts(rows, s, call);
  }

  lemma {:induction false} CallParts(rows: seq<Row>, s: Ledger, call: Call)
    requires s.upTo <= |rows|
    ensures var after, s1 := Consolidated(rows, s, call), Overflowed(rows, s, call);
            after == s || after == s1 || after == Rounds(rows, s1, call, 0, call.estimate)
  {
  }

  lemma {:induction false} StepKeeps(w: World, step: Step)
    requires Inv(w.rows, w.ledger) && Allowed(w, step)
    ensures Inv(After(w, step).rows, After(w, step).ledger)
    ensures w.ledger.upTo <= After(w, step).ledger.upTo
  {
    if step.Consolidate? {
      ConsolidatedKeeps(w.rows, w.ledger, step.call);
    }
  }

  lemma {:induction false} RunKeeps(steps: seq<Step>)
    requires AllAllowed(Fresh(), steps)
    ensures Inv(Ran(Fresh(), steps).rows, Ran(Fresh(), steps).ledger)
  {
    if steps != [] {
      RunKeeps(steps[..|steps| - 1]);
      StepKeeps(Ran(Fresh(), steps[..|steps| - 1]), steps[|steps| - 1]);
    }
  }

  predicate Holds(r: Record, i: nat) {
    r.from <= i < r.to
  }

  // Tiling means every row below `upTo` is in one record and no row above it is in any.
  lemma {:induction false} TilesCoverOnce(records: seq<Record>, upTo: nat, i: nat)
    requires Tiles(records, upTo)
    ensures i < upTo ==> exists k: nat :: k < |records| && Holds(records[k], i)
    ensures forall k: nat :: k < |records| && Holds(records[k], i) ==> i < upTo
    ensures forall j: nat, k: nat :: j < |records| && k < |records| && Holds(records[j], i) && Holds(records[k], i) ==> j == k
  {
    if records != [] {
      var n := |records| - 1;
      var front := records[..n];
      TilesCoverOnce(front, records[n].from, i);
      assert forall k: nat :: k < n ==> front[k] == records[k];
    }
  }

  // In every run the mark only grows and stays within the rows, and each row below it was archived in
  // exactly one chunk with exactly one record.
  lemma {:induction false} EachRowArchivedOnce(steps: seq<Step>, i: nat)
    requires AllAllowed(Fresh(), steps)
    ensures var w := Ran(Fresh(), steps); var records := w.ledger.records;
            && w.ledger.upTo <= |w.rows|
            && (i < w.ledger.upTo <==> exists k: nat :: k < |records| && Holds(records[k], i))
            && (forall j: nat, k: nat :: j < |records| && k < |records| && Holds(records[j], i) && Holds(records[k], i) ==> j == k)
  {
    RunKeeps(steps);
    var w := Ran(Fresh(), steps);
    TilesCoverOnce(w.ledger.records, w.ledger.upTo, i);
  }

  lemma {:induction false} MarkGrows(steps: seq<Step>, more: seq<Step>)
    requires AllAllowed(Fresh(), steps + more)
    ensures AllAllowed(Fresh(), steps)
    ensures Ran(Fresh(), steps).ledger.upTo <= Ran(Fresh(), steps + more).ledger.upTo
  {
    if more == [] {
      assert steps + more == steps;
    } else {
      var n := |more| - 1;
      var before := steps + more[..n];
      assert (steps + more)[..|steps + more| - 1] == before;
      MarkGrows(steps, more[..n]);
      RunKeeps(before);
      StepKeeps(Ran(Fresh(), before), more[n]);
    }
  }

  // ---------------------------------------------------------- giving up

  // The last turn id among these failures.
  function LastTurn(log: seq<Option<string>>): Option<string> {
    if log == [] then None
    else if log[|log| - 1].Some? then log[|log| - 1]
    else LastTurn(log[..|log| - 1])
  }

  // The failures that count: all but those in the turn of the one before.
  function Counting(log: seq<Option<string>>): seq<Option<string>> {
    if log == [] then [] else
      var before, t := log[..|log| - 1], log[|log| - 1];
      if t.Some? && LastTurn(before) == t then Counting(before) else Counting(before) + [t]
  }

  // No turn id comes back after another one.
  predicate NoReturn(log: seq<Option<string>>) {
    log == [] ||
    (var before, t := log[..|log| - 1], log[|log| - 1];
     NoReturn(before) && (t.Some? && t in before ==> LastTurn(before) == t))
  }

  // Pairwise different turns, all of them turns with an id.
  predicate DifferentTurns(c: seq<Option<string>>) {
    && (forall i: nat :: i < |c| ==> c[i].Some?)
    && (forall i: nat, j: nat :: i < j < |c| ==> c[i] != c[j])
  }

  lemma {:induction false} CountingHasAll(log: seq<Option<string>>, t: Option<string>)
    ensures t in log <==> t in Counting(log)
  {
    if log != [] {
      var before, last := log[..|log| - 1], log[|log| - 1];
      CountingHasAll(before, t);
      LastTurnIsIn(before);
      assert log == before + [last];
    }
  }

  lemma {:induction false} LastTurnIsIn(log: seq<Option<string>>)
    ensures LastTurn(log).Some? ==> LastTurn(log) in log
  {
    if log != [] {
      LastTurnIsIn(log[..|log| - 1]);
      assert log == log[..|log| - 1] + [log[|log| - 1]];
    }
  }

  lemma {:induction false} DifferentOneMore(c: seq<Option<string>>, t: Option<string>)
    ensures DifferentTurns(c + [t]) <==> DifferentTurns(c) && t.Some? && t !in c
  {
    var more := c + [t];
    assert more[|c|] == t;
    if DifferentTurns(more) {
      assert forall i: nat :: i < |c| ==> c[i] == more[i];
    }
  }

  // The counted failures fall in different turns exactly when each failed in a turn and no turn comes
  // back after another.
  lemma {:induction false} DifferentIff(log: seq<Option<string>>)
    ensures DifferentTurns(Counting(log)) <==> NoReturn(log) && None !in log
  {
    if log != [] {
      var before, t := log[..|log| - 1], log[|log| - 1];
      assert log == before + [t];
      DifferentIff(before);
      CountingHasAll(before, t);
      LastTurnIsIn(before);
      DifferentOneMore(Counting(before), t);
    }
  }

  predicate GaveUp(r: Record) {
    r.raw && r.path.Tokens?
  }

  ghost predicate DumpsOk(s: Ledger) {
    && (forall i: nat :: i in s.dumps <==> i < |s.records| && GaveUp(s.records[i]))
    && (forall i: nat :: i in s.dumps ==> |Counting(s.dumps[i])| == FAILURES_BEFORE_RAW_DUMP)
  }

  ghost predicate CountInv(s: Ledger) {
    && s.failures == |Counting(s.log)| < FAILURES_BEFORE_RAW_DUMP
    && s.failureTurn == LastTurn(s.log) && DumpsOk(s)
  }

  lemma {:induction false} NothingFailed()
    ensures Counting([]) == [] && LastTurn([]) == None
  {
  }

  lemma {:induction false} OneMoreFailed(s: Ledger, turn: Option<string>)
    requires CountInv(s)
    ensures |Counting(s.log + [turn])| == Counted(s, turn) <= FAILURES_BEFORE_RAW_DUMP
    ensures LastTurn(s.log + [turn]) == if turn.Some? then turn else s.failureTurn
  {
    var log := s.log + [turn];
    assert log[..|log| - 1] == s.log;
  }

  lemma {:induction false} ArchivedDumps(s: Ledger, to: nat, raw: bool, path: Path)
    requires DumpsOk(s) && !(raw && path.Tokens?)
    ensures DumpsOk(Archived(s, to, raw, path))
  {
  }

  lemma {:induction false} GivenUpDumps(s: Ledger, to: nat, log: seq<Option<string>>)
    requires DumpsOk(s) && |Counting(log)| == FAILURES_BEFORE_RAW_DUMP
    ensures DumpsOk(Archived(s.(dumps := s.dumps[|s.records| := log]), to, true, Tokens))
  {
  }

  lemma {:induction false} RoundCounts(s: Ledger, turn: Option<string>, end: nat, answered: bool)
    requires CountInv(s)
    ensures CountInv(RoundAt(s, turn, end, answered))
  {
    NothingFailed();
    if answered {
      ArchivedDumps(s, end, false, Tokens);
    } else {
      OneMoreFailed(s, turn);
      if GivesUp(s, turn) {
        GivenUpDumps(s, end, s.log + [turn]);
      }
    }
  }

  lemma {:induction false} RoundsCount(rows: seq<Row>, s: Ledger, call: Call, k: nat, estimate: int)
    requires CountInv(s) && s.upTo <= |rows| && k <= Limit(call.maxRounds)
    ensures CountInv(Rounds(rows, s, call, k, estimate))
    decreases Limit(call.maxRounds) - k
  {
    if k < Limit(call.maxRounds) && estimate > call.target {
      var b := Boundary(rows, s.upTo, Need(estimate, call.target));
      if b.Some? {
        var r := call.rounds(k);
        RoundCounts(s, call.turn, b.value, r.answered);
        if r.answered && r.estimate > 0 {
          RoundsCount(rows, RoundAt(s, call.turn, b.value, true), call, k + 1, r.estimate);
        }
      }
    }
  }

  lemma {:induction false} OverflowCounts(rows: seq<Row>, s: Ledger, call: Call)
    requires CountInv(s) && s.upTo <= |rows|
    ensures CountInv(Overflowed(rows, s, call))
  {
    var b := ReplayBoundary(rows, s.upTo, call.replay);
    if b.Some? {
      ArchivedDumps(s, b.value, !call.overflowAnswered, Window);
    }
  }

  lemma {:induction false} CallCounts(rows: seq<Row>, s: Ledger, call: Call)
    requires CountInv(s) && s.upTo <= |rows|
    ensures CountInv(Consolidated(rows, s, call))
  {
    OverflowCounts(rows, s, call);
    RoundsCount(rows, Overflowed(rows, s, call), call, 0, call.estimate);
  }

  lemma {:induction false} StepCounts(w: World, step: Step)
    requires CountInv(w.ledger)
    ensures CountInv(After(w, step).ledger)
  {
    NothingFailed();
    if step.Consolidate? && w.ledger.upTo <= |w.rows| {
      CallCounts(w.rows, w.ledger, step.call);
    }
  }

  lemma {:induction false} RunCounts(steps: seq<Step>)
    ensures CountInv(Ran(Fresh(), steps).ledger)
  {
    if steps == [] {
      NothingFailed();
    } else {
      RunCounts(steps[..|steps| - 1]);
      StepCounts(Ran(Fresh(), steps[..|steps| - 1]), steps[|steps| - 1]);
    }
  }

  // In every run each raw chunk of the token path was written at the third counted failure since the
  // last success, and the three were in different turns exactly when every failure since fell in a turn
  // and no turn came back after another.
  lemma {:induction false} GivesUpAtTheThird(steps: seq<Step>, i: nat)
    requires i < |Ran(Fresh(), steps).ledger.records| && GaveUp(Ran(Fresh(), steps).ledger.records[i])
    ensures var dumps := Ran(Fresh(), steps).ledger.dumps;
            && i in dumps && |Counting(dumps[i])| == FAILURES_BEFORE_RAW_DUMP
            && (DifferentTurns(Counting(dumps[i])) <==> NoReturn(dumps[i]) && None !in dumps[i])
  {
    RunCounts(steps);
    DifferentIff(Ran(Fresh(), steps).ledger.dumps[i]);
  }

  // ---------------------------------------------------------- what one call leaves

  // From s, rounds k to k + n - 1 of a call led to t. Only the last may have failed. Each left a record,
  // raw when it failed, except a failure below the limit: that one only joins the count.
  ghost predicate Told(s: Ledger, t: Ledger, call: Call, k: nat, n: nat) {
    var stays := n > 0 && !call.rounds(k + n - 1).answered && !(n == 1 && GivesUp(s, call.turn));
    var kept := if stays then n - 1 else n;
    && (forall i: nat :: k <= i < k + n - 1 ==> call.rounds(i).answered)
    && |t.records| == |s.records| + kept && t.records[..|s.records|] == s.records
    && (forall j: nat :: |s.records| <= j < |t.records| ==>
          t.records[j].path.Tokens? && t.records[j].raw == !call.rounds(k + j - |s.records|).answered)
    && t.upTo == (if kept == 0 then s.upTo else t.records[|t.records| - 1].to)
    && (stays ==> t.log == (if n == 1 then s.log else []) + [call.turn] && t.dumps == s.dumps)
  }

  lemma {:induction false} ToldNothing(s: Ledger, call: Call, k: nat)
    ensures Told(s, s, call, k, 0)
  {
  }

  lemma {:induction false} ToldFirst(s: Ledger, call: Call, k: nat, end: nat)
    ensures Told(s, RoundAt(s, call.turn, end, call.rounds(k).answered), call, k, 1)
  {
  }

  lemma {:induction false} ToldNext(s: Ledger, t: Ledger, call: Call, k: nat, end: nat, n: nat)
    requires call.rounds(k).answered && Told(RoundAt(s, call.turn, end, true), t, call, k + 1, n)
    ensures Told(s, t, call, k, n + 1)
  {
    var next := RoundAt(s, call.turn, end, true);
    assert next.records == s.records + [Record(s.upTo, end, false, Tokens)];
    assert t.records[..|s.records|] == t.records[..|next.records|][..|s.records|];
    assert t.records[|s.records|] == t.records[..|next.records|][|s.records|];
  }

  // The estimate round i starts from.
  function EstimateAt(call: Call, i: nat): int {
    if i == 0 then call.estimate else call.rounds(i - 1).estimate
  }

  // Each record of these rounds ends at the least user row that brings the estimate of its round down to the
  // target, or at the last user row there is.
  ghost predicate Cuts(rows: seq<Row>, s: Ledger, t: Ledger, call: Call, k: nat, n: nat) {
    && (forall i: nat :: k <= i < k + n ==> EstimateAt(call, i) > call.target)
    && (forall j: nat :: |s.records| <= j < |t.records| && j < |s.records| + n ==>
          CutAt(rows, t.records[j], EstimateAt(call, k + j - |s.records|) - call.target))
  }

  ghost predicate CutAt(rows: seq<Row>, r: Record, over: int) {
    r.from <= |rows| && over > 0 && BestBoundary(rows, r.from, over, r.to)
  }

  // Why no round follows the first m: there are no more, the last one failed, the estimate is unusable or
  // within the target, or no user row is left to cut at.
  ghost predicate Stops(rows: seq<Row>, t: Ledger, call: Call, m: nat) {
    || m == MAX_ROUNDS || (call.maxRounds.Some? && m >= call.maxRounds.value)
    || (m > 0 && !call.rounds(m - 1).answered)
    || EstimateAt(call, m) <= 0 || EstimateAt(call, m) <= call.target
    || forall i: nat :: !UserBoundary(rows, t.upTo, i)
  }

  lemma {:induction false} CutsFirst(rows: seq<Row>, s: Ledger, call: Call, k: nat, end: nat)
    requires s.upTo <= |rows| && EstimateAt(call, k) > call.target
    requires Boundary(rows, s.upTo, Need(EstimateAt(call, k), call.target)) == Some(end)
    ensures Cuts(rows, s, RoundAt(s, call.turn, end, call.rounds(k).answered), call, k, 1)
  {
    var over := EstimateAt(call, k) - call.target;
    BoundaryIsBest(rows, s.upTo, over);
    assert CutAt(rows, Record(s.upTo, end, false, Tokens), over);
    assert CutAt(rows, Record(s.upTo, end, true, Tokens), over);
  }

  lemma {:induction false} FirstRecord(s: Ledger, t: Ledger, next: Ledger, first: Record)
    requires next.records == s.records + [first]
    requires |t.records| >= |next.records| && t.records[..|next.records|] == next.records
    ensures t.records[|s.records|] == first
  {
    assert t.records[|s.records|] == t.records[..|next.records|][|s.records|];
  }

  lemma {:induction false} CutsNext(
      rows: seq<Row>, s: Ledger, next: Ledger, first: Record, t: Ledger, call: Call, k: nat, n: nat)
    requires next.records == s.records + [first]
    requires |t.records| >= |next.records| && t.records[|s.records|] == next.records[|s.records|]
    requires Cuts(rows, s, next, call, k, 1) && Cuts(rows, next, t, call, k + 1, n)
    ensures Cuts(rows, s, t, call, k, n + 1)
  {
  }

  // The rounds of a call from k on: what they leave, where they cut, and why no more follow.
  ghost predicate Traced(rows: seq<Row>, s: Ledger, t: Ledger, call: Call, k: nat, n: nat) {
    && k + n <= MAX_ROUNDS && (n > 0 && call.maxRounds.Some? ==> k + n <= call.maxRounds.value)
    && Told(s, t, call, k, n) && Cuts(rows, s, t, call, k, n) && Stops(rows, t, call, k + n)
  }

  lemma {:induction false} TracedNext(rows: seq<Row>, s: Ledger, t: Ledger, call: Call, k: nat, end: nat, n: nat)
    requires s.upTo <= |rows| && k < Limit(call.maxRounds)
    requires EstimateAt(call, k) > call.target && call.rounds(k).answered
    requires Boundary(rows, s.upTo, Need(EstimateAt(call, k), call.target)) == Some(end)
    requires Traced(rows, RoundAt(s, call.turn, end, true), t, call, k + 1, n)
    ensures Traced(rows, s, t, call, k, n + 1)
  {
    CutsFirst(rows, s, call, k, end);
    ToldNext(s, t, call, k, end, n);
    var next, first := RoundAt(s, call.turn, end, true), Record(s.upTo, end, false, Tokens);
    FirstRecord(s, t, next, first);
    FirstRecord(s, next, next, first);
    CutsNext(rows, s, next, first, t, call, k, n);
  }

  lemma {:induction false} TracedLast(rows: seq<Row>, s: Ledger, call: Call, k: nat, end: nat)
    requires s.upTo <= |rows| && k < Limit(call.maxRounds) && EstimateAt(call, k) > call.target
    requires Boundary(rows, s.upTo, Need(EstimateAt(call, k), call.target)) == Some(end)
    requires !call.rounds(k).answered || call.rounds(k).estimate <= 0
    ensures Traced(rows, s, RoundAt(s, call.turn, end, call.rounds(k).answered), call, k, 1)
  {
    CutsFirst(rows, s, call, k, end);
    ToldFirst(s, call, k, end);
  }

  lemma {:induction false} TracedNone(rows: seq<Row>, s: Ledger, call: Call, k: nat)
    requires s.upTo <= |rows| && k <= Limit(call.maxRounds)
    requires k == Limit(call.maxRounds) || EstimateAt(call, k) <= call.target
             || Boundary(rows, s.upTo, Need(EstimateAt(call, k), call.target)).None?
    ensures Traced(rows, s, s, call, k, 0)
  {
    ToldNothing(s, call, k);
    BoundaryIsBest(rows, s.upTo, Need(EstimateAt(call, k), call.target));
  }

  // The rounds from s end here when there is nothing to cut, and after a failure or an unusable estimate.
  lemma {:induction false} RoundsUnfold(rows: seq<Row>, s: Ledger, call: Call, k: nat, estimate: int)
    requires s.upTo <= |rows| && k < Limit(call.maxRounds) && estimate > call.target
    ensures var b, r := Boundary(rows, s.upTo, Need(estimate, call.target)), call.rounds(k);
            Rounds(rows, s, call, k, estimate) ==
            if b.None? then s
            else if !r.answered || r.estimate <= 0 then RoundAt(s, call.turn, b.value, r.answered)
            else Rounds(rows, RoundAt(s, call.turn, b.value, true), call, k + 1, r.estimate)
  {
  }

  lemma {:induction false} RoundsTraced(rows: seq<Row>, s: Ledger, call: Call, k: nat) returns (n: nat)
    requires s.upTo <= |rows| && k <= Limit(call.maxRounds)
    ensures Traced(rows, s, Rounds(rows, s, call, k, EstimateAt(call, k)), call, k, n)
    decreases Limit(call.maxRounds) - k
  {
    n := 0;
    var estimate := EstimateAt(call, k);
    if k == Limit(call.maxRounds) || estimate <= call.target {
      TracedNone(rows, s, call, k);
    } else {
      RoundsUnfold(rows, s, call, k, estimate);
      var b, r := Boundary(rows, s.upTo, Need(estimate, call.target)), call.rounds(k);
      if b.None? {
        TracedNone(rows, s, call, k);
      } else if !r.answered || r.estimate <= 0 {
        n := 1;
        TracedLast(rows, s, call, k, b.value);
      } else {
        var next := RoundAt(s, call.turn, b.value, true);
        n := RoundsTraced(rows, next, call, k + 1);
        TracedNext(rows, s, Rounds(rows, next, call, k + 1, r.estimate), call, k, b.value, n);
        n := n + 1;
      }
    }
  }

  // What the replay window leaves: without a cut nothing changes; with one a record up to it, raw when its
  // summary failed, and the mark there.
  predicate Overflows(rows: seq<Row>, s: Ledger, s1: Ledger, call: Call)
    requires s.upTo <= |rows|
  {
    var end := ReplayBoundary(rows, s.upTo, call.replay);
    if end.None? then s1 == s
    else
      && |s1.records| == |s.records| + 1 && s1.records[..|s.records|] == s.records
      && s1.records[|s.records|] == Record(s.upTo, end.value, !call.overflowAnswered, Window)
      && s1 == s.(upTo := end.value, records := s1.records)
  }

  lemma {:induction false} CallRounds(rows: seq<Row>, s: Ledger, call: Call)
    requires s.upTo <= |rows|
    requires call.window > 0 && rows != [] && call.estimate > 0 && call.estimate >= call.budget
    ensures Consolidated(rows, s, call) == Rounds(rows, Overflowed(rows, s, call), call, 0, EstimateAt(call, 0))
  {
  }

  // Every call, whatever overflowed before and however many rounds were answered. Below its budget it leaves
  // what overflowed. Else rounds follow until the estimate is within the target, or none may or can follow: a
  // round that fails below the limit leaves no record, and the mark where the round before it put it.
  lemma {:induction false} CallDoes(rows: seq<Row>, s: Ledger, call: Call)
    requires s.upTo <= |rows|
    ensures call.window <= 0 || rows == [] ==> Consolidated(rows, s, call) == s
    ensures call.window > 0 && rows != [] ==>
              var s1, t := Overflowed(rows, s, call), Consolidated(rows, s, call);
              Overflows(rows, s, s1, call) &&
              if call.estimate <= 0 || call.estimate < call.budget then t == s1
              else exists n: nat :: Traced(rows, s1, t, call, 0, n)
  {
    if call.window > 0 && rows != [] && call.estimate > 0 && call.estimate >= call.budget {
      var s1 := Overflowed(rows, s, call);
      var n := RoundsTraced(rows, s1, call, 0);
      CallRounds(rows, s, call);
      assert Traced(rows, s1, Consolidated(rows, s, call), call, 0, n);
    }
  }

  // ---------------------------------------------------------- two turns are enough

  const USER_ROW := Row(Message(User, [], "", "", Text("go on")), 1, false, false)
  const TWO_USERS := [USER_ROW, USER_ROW]

  // A call over its budget whose one summary fails.
  function FailingCall(turn: string): Call {
    Call.Call(Some(turn), 1, 1, 0, 0, None, false, 1, _ => Round(false, 1))
  }

  // Two user rows, and calls that fail in turns a, b and a again.
  function Started(): seq<Step> { [Append(TWO_USERS)] }
  function OneCall(): seq<Step> { Started() + [Consolidate(FailingCall("a"))] }
  function TwoCalls(): seq<Step> { OneCall() + [Consolidate(FailingCall("b"))] }
  function Alternating(): seq<Step> { TwoCalls() + [Consolidate(FailingCall("a"))] }

  lemma {:induction false} FailingCallDoes(s: Ledger, turn: string)
    requires s.upTo == 0
    ensures Consolidated(TWO_USERS, s, FailingCall(turn)) == RoundAt(s, Some(turn), 1, false)
  {
    var rows, call := TWO_USERS, FailingCall(turn);
    assert BoundaryFrom(rows, 0, 1, 1).Some? && Removed(rows, 0, 1) == 1;
    assert Boundary(rows, 0, 1) == Some(1);
    assert ReplayBoundary(rows, 0, 0) == None;
    assert !call.rounds(0).answered;
    assert Rounds(rows, s, call, 0, 1) == RoundAt(s, Some(turn), 1, false);
  }

  lemma {:induction false} OneMoreStep(w: World, steps: seq<Step>, step: Step)
    ensures Ran(w, steps + [step]) == After(Ran(w, steps), step)
  {
    assert (steps + [step])[..|steps|] == steps;
  }

  const ONE_FAILED: Ledger := Ledger(0, 1, Some("a"), [], [Some("a")], map[])
  const TWO_FAILED: Ledger := Ledger(0, 2, Some("b"), [], [Some("a"), Some("b")], map[])

  lemma {:induction false} FirstFails()
    ensures Ran(Fresh(), OneCall()) == World(TWO_USERS, ONE_FAILED)
  {
    OneMoreStep(Fresh(), [], Append(TWO_USERS));
    assert [] + Started() == Started() && [] + TWO_USERS == TWO_USERS;
    OneMoreStep(Fresh(), Started(), Consolidate(FailingCall("a")));
    FailingCallDoes(Fresh().ledger, "a");
  }

  lemma {:induction false} SecondFails()
    ensures Ran(Fresh(), TwoCalls()) == World(TWO_USERS, TWO_FAILED)
  {
    FirstFails();
    OneMoreStep(Fresh(), OneCall(), Consolidate(FailingCall("b")));
    FailingCallDoes(ONE_FAILED, "b");
  }

  // Two turns that alternate are enough: a, b and a again count as three.
  lemma {:induction false} TwoTurnsMayGiveUp()
    ensures var s := Ran(Fresh(), Alternating()).ledger;
            && s.upTo == 1 && s.records == [Record(0, 1, true, Tokens)]
            && s.dumps == map[0 := [Some("a"), Some("b"), Some("a")]]
  {
    SecondFails();
    OneMoreStep(Fresh(), TwoCalls(), Consolidate(FailingCall("a")));
    FailingCallDoes(TWO_FAILED, "a");
    assert TWO_FAILED.log + [Some("a")] == [Some("a"), Some("b"), Some("a")];
  }
}
