// The counters that bound how long Dream may hold a batch, and when a review of
// the memory files is forced.
module DreamCounters {
  import opened InternalRuns
  import opened Options

  const STUCK_FORCES_REVIEW := 2
  const STUCK_IS_ALARMING := 4
  const REVIEW_RETRY_AFTER_RUNS := 2

  datatype Review = Review(runs: nat, stuck: nat, forced: nat, nothingNew: nat)

  const FRESH := Review(0, 0, 0, 0)

  function Counter(v: int): nat {
    if v < 0 then 0 else v
  }

  // None keeps what is on disk; a zero `stuck` always clears `forced`.
  function SetReview(s: Review, runs: int, stuck: int, forced: Option<int>, nothingNew: Option<int>): Review {
    var st := Counter(stuck);
    Review(Counter(runs), st,
           if st == 0 then 0 else Counter(if forced.Some? then forced.value else s.forced),
           Counter(if nothingNew.Some? then nothingNew.value else s.nothingNew))
  }

  datatype Outcome = NoInput | Advanced | HeldBatch | Blocked | Incomplete

  // What is left of a batch's run besides its writes: entry counters, the batch's tags, file growth.
  datatype Evidence = Evidence(
    retained: bool, correction: bool, added: nat, replaced: nat, removed: nat, alreadyPresent: nat, grew: bool)

  predicate NotConsolidated(e: Evidence, attempted: nat, stuck: nat) {
    if stuck >= STUCK_IS_ALARMING then false
    else if !e.retained then false
    else if attempted == 0 then false
    else if e.added > 0 || e.alreadyPresent > 0 then false
    else if (e.replaced > 0 || e.removed > 0) && e.correction then false
    else !e.grew
  }

  // How the run of one batch ended.
  datatype Batch = Batch(run: Run, evidence: Evidence)

  function BatchOutcome(b: Batch, stuck: nat): Outcome {
    if ShouldCommit(b.run) && NotConsolidated(b.evidence, b.run.attempted, stuck) then HeldBatch
    else if ShouldCommit(b.run) then Advanced
    else if b.run.completed then Blocked
    else Incomplete
  }

  // The batch a turn reports: the second only when it lands after the first.
  function Reported(first: Batch, second: Option<Batch>, stuck: nat): Batch {
    if BatchOutcome(first, stuck) != Advanced || second.None? then first
    else if BatchOutcome(second.value, stuck) == Advanced then second.value
    else first
  }

  function AdvancedFlag(o: Outcome): Option<bool> {
    if o == NoInput then None else Some(o == Advanced)
  }

  predicate LivelockDue(s: Review) {
    s.stuck > 0 && s.stuck % STUCK_FORCES_REVIEW == 0 && s.stuck != s.forced
  }

  predicate ReviewDue(s: Review, every: nat) {
    s.runs >= every || LivelockDue(s)
  }

  function Begun(s: Review, every: nat, reviewFails: bool): Review {
    if !ReviewDue(s, every) then s
    else SetReview(s, if reviewFails then Counter(every - REVIEW_RETRY_AFTER_RUNS) else 0, s.stuck,
                   if LivelockDue(s) then Some(s.stuck) else None, None)
  }

  function Finished(s: Review, runs: nat, stuck: nat, nothingNew: nat, adv: Option<bool>, refused: nat): Review {
    var held := adv.Some? && !adv.value;
    var st := if adv == Some(true) then 0 else if held && refused > 0 then stuck + 1 else stuck;
    var nn := if adv == Some(true) then 0 else if held && refused == 0 then nothingNew + 1 else nothingNew;
    SetReview(s, runs + 1, st, None, Some(nn))
  }

  // The store's file with the two ends of a cycle.
  class ReviewStore {
    var state: Review

    constructor ()
      ensures state == FRESH
    {
      state := FRESH;
    }

    method SetReviewState(runs: int, stuck: int, forced: Option<int>, nothingNew: Option<int>)
      modifies this
      ensures state == SetReview(old(state), runs, stuck, forced, nothingNew)
    {
      var f := if forced.Some? then forced.value else state.forced;
      var st := Counter(stuck);
      var nn := if nothingNew.Some? then nothingNew.value else state.nothingNew;
      if st == 0 {
        f := 0;
      }
      state := Review(Counter(runs), st, Counter(f), Counter(nn));
    }

    method BeginDreamCycle(every: nat, reviewFails: bool)
      returns (runs: nat, stuck: nat, nothingNew: nat, reviewed: bool)
      modifies this
      ensures state == Begun(old(state), every, reviewFails)
      ensures reviewed == ReviewDue(old(state), every)
      ensures runs == if reviewed then 0 else old(state).runs
      ensures stuck == old(state).stuck && nothingNew == old(state).nothingNew
    {
      runs, stuck, nothingNew := state.runs, state.stuck, state.nothingNew;
      var livelock := stuck > 0 && stuck % STUCK_FORCES_REVIEW == 0 && stuck != state.forced;
      reviewed := runs >= every || livelock;
      if reviewed {
        var after := if reviewFails then Counter(every - REVIEW_RETRY_AFTER_RUNS) else 0;
        SetReviewState(after, stuck, if livelock then Some(stuck) else None, None);
        runs := 0;
      }
    }

    method FinishDreamCycle(adv: Option<bool>, runs: nat, stuck: nat, nothingNew: nat, refused: nat)
      modifies this
      ensures state == Finished(old(state), runs, stuck, nothingNew, adv, refused)
    {
      var st, nn := stuck, nothingNew;
      if adv.Some? {
        if adv.value {
          st, nn := 0, 0;
        } else if refused > 0 {
          st := st + 1;
        } else {
          nn := nn + 1;
        }
      }
      SetReviewState(runs + 1, st, None, Some(nn));
    }
  }

  // ----------------------------------------------------------- whole cycles

  // How far the process lived: to the end of the cycle, into the review but not to the counters written
  // after it, or past these and not to the end of the turn.
  datatype Life = Whole | CutInReview | CutInTurn

  // One cycle: how its review and its turn went. `raised` is a turn that threw: it is closed like no input.
  datatype Cycle = Cycle(
    input: bool, first: Batch, second: Option<Batch>, reviewFails: bool, raised: bool, life: Life)

  // The batch reported, judged by the two counters read at the begin of the cycle.
  function Ends(s: Review, c: Cycle): Outcome {
    if !c.input then NoInput
    else BatchOutcome(Reported(c.first, c.second, s.stuck + s.nothingNew), s.stuck + s.nothingNew)
  }

  function Refusals(s: Review, c: Cycle): nat {
    Reported(c.first, c.second, s.stuck + s.nothingNew).run.open
  }

  predicate Counted(c: Cycle) {
    c.life.Whole? && !c.raised && c.input
  }

  predicate Lands(s: Review, c: Cycle) {
    Counted(c) && Ends(s, c) == Advanced
  }

  predicate Holds(s: Review, c: Cycle) {
    Counted(c) && Ends(s, c) == HeldBatch
  }

  function After(s: Review, c: Cycle, every: nat): Review {
    var b := Begun(s, every, c.reviewFails);
    if c.life.CutInReview? then s
    else if c.life.CutInTurn? then b
    else Finished(b, if ReviewDue(s, every) then 0 else s.runs, s.stuck, s.nothingNew,
                  if c.raised then None else AdvancedFlag(Ends(s, c)), Refusals(s, c))
  }

  // Nothing of a batch is lost from view: no entry of it, kept or changed, and no growth.
  predicate NothingLanded(e: Evidence) {
    e.added == 0 && e.alreadyPresent == 0 && !e.grew && (e.correction ==> e.replaced == 0 && e.removed == 0)
  }

  // Only the first batch decides whether the turn lands or is held. It lands when its run missed nothing that
  // could still come and is not held; it is held when it wrote, of a batch with something to keep, nothing
  // that landed, and there is room below the alarm.
  lemma {:induction false} LandsIff(s: Review, c: Cycle)
    ensures var b := c.first;
            var could := Counted(c) && b.run.completed && b.run.open == 0 && (b.run.attempted == 0 || b.run.landed > 0);
            var held := s.stuck + s.nothingNew < STUCK_IS_ALARMING && b.evidence.retained && b.run.attempted > 0
                        && NothingLanded(b.evidence);
            (Lands(s, c) <==> could && !held) && (Holds(s, c) <==> could && held)
    ensures c.input ==> (Ends(s, c) == Incomplete <==> !c.first.run.completed)
  {
  }

  function Ran(s: Review, cs: seq<Cycle>, every: nat): Review {
    if cs == [] then s else After(Ran(s, cs[..|cs| - 1], every), cs[|cs| - 1], every)
  }

  predicate NoneLands(s: Review, cs: seq<Cycle>, every: nat) {
    cs == [] ||
    (NoneLands(s, cs[..|cs| - 1], every) && !Lands(Ran(s, cs[..|cs| - 1], every), cs[|cs| - 1]))
  }

  function HeldCount(s: Review, cs: seq<Cycle>, every: nat): nat {
    if cs == [] then 0 else
      HeldCount(s, cs[..|cs| - 1], every) + if Holds(Ran(s, cs[..|cs| - 1], every), cs[|cs| - 1]) then 1 else 0
  }

  function CountedCount(cs: seq<Cycle>): nat {
    if cs == [] then 0 else CountedCount(cs[..|cs| - 1]) + if Counted(cs[|cs| - 1]) then 1 else 0
  }

  // A cycle whose turn was counted and left a refusal open.
  predicate Refused(c: Cycle) {
    Counted(c) && c.first.run.open > 0
  }

  function RefusedCount(cs: seq<Cycle>): nat {
    if cs == [] then 0 else RefusedCount(cs[..|cs| - 1]) + if Refused(cs[|cs| - 1]) then 1 else 0
  }

  // What one cycle does to each counter. A refusal left open raises `stuck`, a counted cycle without one that
  // does not land raises `nothingNew`, and every other cycle that does not land leaves both.
  lemma {:induction false} CycleMoves(s: Review, c: Cycle, every: nat)
    ensures Refused(c) ==> !Lands(s, c)
    ensures var t := After(s, c, every);
            && (Lands(s, c) ==> t.stuck == 0 && t.nothingNew == 0 && t.forced == 0)
            && (!Lands(s, c) ==>
                  && t.stuck == s.stuck + (if Refused(c) then 1 else 0)
                  && t.nothingNew == s.nothingNew + (if Counted(c) && !Refused(c) then 1 else 0))
            && ((s.stuck == 0 ==> s.forced == 0) && !Lands(s, c) ==>
                  t.forced == (if t.stuck == 0 then 0 else if LivelockDue(s) && !c.life.CutInReview? then s.stuck else s.forced))
  {
  }

  // Between two runs that land, each counted run moves one of the counters by one,
  // and at most four of them hold their batch.
  lemma {:induction false} HoldingIsBounded(s: Review, cs: seq<Cycle>, every: nat)
    requires NoneLands(s, cs, every)
    ensures var t := Ran(s, cs, every);
            t.stuck + t.nothingNew == s.stuck + s.nothingNew + CountedCount(cs)
    ensures HeldCount(s, cs, every) <= if s.stuck + s.nothingNew < STUCK_IS_ALARMING
                                       then STUCK_IS_ALARMING - (s.stuck + s.nothingNew) else 0
    ensures HeldCount(s, cs, every) <= CountedCount(cs)
    ensures HeldCount(s, cs, every) > 0 ==> s.stuck + s.nothingNew < STUCK_IS_ALARMING
  {
    if cs != [] {
      var init, c := cs[..|cs| - 1], cs[|cs| - 1];
      HoldingIsBounded(s, init, every);
      LandsIff(Ran(s, init, every), c);
      CycleMoves(Ran(s, init, every), c, every);
    }
  }

  lemma {:induction false} AtMostFourHeldAfterLanding(s: Review, landed: Cycle, cs: seq<Cycle>, every: nat)
    requires Lands(s, landed) && NoneLands(After(s, landed, every), cs, every)
    ensures HeldCount(After(s, landed, every), cs, every) <= STUCK_IS_ALARMING
  {
    CycleMoves(s, landed, every);
    HoldingIsBounded(After(s, landed, every), cs, every);
  }

  // While nothing lands, `stuck` grows by the cycles that left a refusal open and `nothingNew` by the others
  // that were counted.
  lemma {:induction false} CountersTellTheCause(s: Review, cs: seq<Cycle>, every: nat)
    requires NoneLands(s, cs, every)
    ensures Ran(s, cs, every).stuck == s.stuck + RefusedCount(cs)
    ensures Ran(s, cs, every).nothingNew + RefusedCount(cs) == s.nothingNew + CountedCount(cs)
  {
    if cs != [] {
      var init, c := cs[..|cs| - 1], cs[|cs| - 1];
      CountersTellTheCause(s, init, every);
      CycleMoves(Ran(s, init, every), c, every);
    }
  }

  // ------------------------------------------------- when reviews are due

  // Each cycle of `cs` found no review due.
  predicate NoneReviewed(s: Review, cs: seq<Cycle>, every: nat) {
    cs == [] ||
    (NoneReviewed(s, cs[..|cs| - 1], every) && !ReviewDue(Ran(s, cs[..|cs| - 1], every), every))
  }

  function WholeCount(cs: seq<Cycle>): nat {
    if cs == [] then 0 else WholeCount(cs[..|cs| - 1]) + if cs[|cs| - 1].life.Whole? then 1 else 0
  }

  // Between reviews the cycles that ran to their end are counted, so one is due as soon as these and those
  // before make `every`, whatever the turns did, and none is due earlier unless a livelock asks for it.
  lemma {:induction false} ReviewCadence(s: Review, cs: seq<Cycle>, every: nat)
    requires NoneReviewed(s, cs, every)
    ensures Ran(s, cs, every).runs == s.runs + WholeCount(cs)
    ensures ReviewDue(Ran(s, cs, every), every) <==>
            s.runs + WholeCount(cs) >= every || LivelockDue(Ran(s, cs, every))
    ensures cs != [] ==> s.runs + WholeCount(cs) <= every
  {
    if cs != [] {
      ReviewCadence(s, cs[..|cs| - 1], every);
    }
  }

  // A review that failed is to be due again after two runs. The count written for it is written over at the
  // end of the same cycle, from 0: it stays only when the cycle is cut in its turn.
  lemma {:induction false} RetryIsKeptIff(s: Review, c: Cycle, every: nat)
    requires ReviewDue(s, every)
    ensures var failed, done := After(s, c.(reviewFails := true), every), After(s, c.(reviewFails := false), every);
            && (failed == done <==> !c.life.CutInTurn? || every <= REVIEW_RETRY_AFTER_RUNS)
            && (c.life.Whole? ==> failed.runs == 1 && done.runs == 1)
            && (c.life.CutInTurn? ==> done.runs == 0 && failed.runs == Counter(every - REVIEW_RETRY_AFTER_RUNS))
            && (c.life.CutInReview? ==> failed == s)
  {
  }

  // ------------------------------------------------------- forced reviews

  // `began` collects the values of `stuck` at which cycles of this climb began and were not cut in their
  // review: history of the run, read by no step.
  datatype Climb = Climb(s: Review, began: set<nat>)

  function ClimbAfter(x: Climb, c: Cycle, every: nat): Climb {
    Climb(After(x.s, c, every),
          if Lands(x.s, c) then {} else if c.life.CutInReview? then x.began else x.began + {x.s.stuck})
  }

  function Climbed(cs: seq<Cycle>, every: nat): Climb {
    if cs == [] then Climb(FRESH, {}) else ClimbAfter(Climbed(cs[..|cs| - 1], every), cs[|cs| - 1], every)
  }

  predicate Even(n: nat) { n > 0 && n % STUCK_FORCES_REVIEW == 0 }

  ghost predicate ClimbInv(x: Climb) {
    && (forall v :: v in x.began ==> v <= x.s.stuck)
    && x.s.forced <= x.s.stuck
    && (Even(x.s.stuck) ==> (x.s.forced == x.s.stuck <==> x.s.stuck in x.began))
    && (x.s.stuck == 0 ==> x.s.forced == 0)
  }

  lemma {:induction false} ClimbKeeps(x: Climb, c: Cycle, every: nat)
    requires ClimbInv(x)
    ensures ClimbInv(ClimbAfter(x, c, every))
  {
    CycleMoves(x.s, c, every);
  }

  // Whatever the cycles so far: the next one forces a review exactly when `stuck` stands at an even value
  // where no cycle of this climb has got past its review before. So each even value reached forces one
  // review that ends, besides those the process did not survive.
  lemma {:induction false} ForcedExactlyOnce(cs: seq<Cycle>, every: nat)
    ensures var x := Climbed(cs, every);
            LivelockDue(x.s) <==> Even(x.s.stuck) && x.s.stuck !in x.began
  {
    ClimbInvariant(cs, every);
  }

  lemma {:induction false} ClimbInvariant(cs: seq<Cycle>, every: nat)
    ensures ClimbInv(Climbed(cs, every))
  {
    if cs != [] {
      ClimbInvariant(cs[..|cs| - 1], every);
      ClimbKeeps(Climbed(cs[..|cs| - 1], every), cs[|cs| - 1], every);
    }
  }

  // A cycle that leaves the counters alone leaves no forced review due, unless it was cut in its review:
  // then what was due is due again.
  lemma {:induction false} QuietRunsForceNothing(cs: seq<Cycle>, c: Cycle, every: nat)
    requires !Counted(c)
    ensures LivelockDue(Climbed(cs + [c], every).s) <==> c.life.CutInReview? && LivelockDue(Climbed(cs, every).s)
  {
    ForcedExactlyOnce(cs + [c], every);
    assert (cs + [c])[..|cs|] == cs;
    var x, y := Climbed(cs, every), Climbed(cs + [c], every);
    assert y == ClimbAfter(x, c, every);
    QuietKeepsStuck(x.s, c, every);
  }

  // From a landing on, the cycle that leaves the second refusal open makes a review due, and so do the
  // fourth, the sixth and so on; cycles that leave none open never make one due.
  lemma {:induction false} RefusalsForceReview(s: Review, landed: Cycle, cs: seq<Cycle>, every: nat)
    requires Lands(s, landed) && NoneLands(After(s, landed, every), cs, every)
    ensures var t := Ran(After(s, landed, every), cs, every);
            && (LivelockDue(t) ==> Even(RefusedCount(cs)))
            && (cs != [] && Refused(cs[|cs| - 1]) && Even(RefusedCount(cs)) ==> LivelockDue(t))
  {
    CycleMoves(s, landed, every);
    var s0 := After(s, landed, every);
    CountersTellTheCause(s0, cs, every);
    if cs != [] {
      var init, c := cs[..|cs| - 1], cs[|cs| - 1];
      CountersTellTheCause(s0, init, every);
      ForcedStaysBelow(s0, init, every);
      CycleMoves(Ran(s0, init, every), c, every);
    }
  }

  lemma {:induction false} ForcedStaysBelow(s: Review, cs: seq<Cycle>, every: nat)
    requires NoneLands(s, cs, every)
    requires s.forced <= s.stuck
    ensures var t := Ran(s, cs, every); t.forced <= t.stuck
  {
    if cs != [] {
      ForcedStaysBelow(s, cs[..|cs| - 1], every);
      CycleMoves(Ran(s, cs[..|cs| - 1], every), cs[|cs| - 1], every);
    }
  }

  lemma {:induction false} QuietKeepsStuck(s: Review, c: Cycle, every: nat)
    requires !Counted(c)
    ensures After(s, c, every).stuck == s.stuck
  {
  }
}
