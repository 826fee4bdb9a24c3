// Which project a gardener tick serves, and what a pass records about itself.
module GardenerPasses {
  import opened InternalRuns
  import opened Options

  const MAP_TARGET_CHARS: nat := 2000

  // Time stamps as seconds; None is absent or unreadable.
  datatype State = State(lastRun: Option<nat>, lastAttempt: Option<nat>, failures: nat, mapLeftAt: Option<nat>)

  function Touch(s: Option<nat>): int {
    if s.Some? then s.value else -1
  }

  // The later of the two stamps; never touched comes before any date.
  function LastTouch(s: State): int {
    if Touch(s.lastRun) > Touch(s.lastAttempt) then Touch(s.lastRun) else Touch(s.lastAttempt)
  }

  // ---------------------------------------------------------- recording a pass

  function Left(s: State, mapChars: Option<nat>): Option<nat> {
    if mapChars.Some? then mapChars else s.mapLeftAt
  }

  function Advanced(s: State, at: nat, mapChars: Option<nat>): State {
    State(Some(at), Some(at), 0, Left(s, mapChars))
  }

  function Attempted(s: State, at: nat, mapChars: Option<nat>): State {
    s.(lastAttempt := Some(at), failures := s.failures + 1, mapLeftAt := Left(s, mapChars))
  }

  datatype Status =
    | AlreadyRunning | SkippedNoDelta | Failed | Aborted | PartialWrite | CommitFailed
    | Written | NothingToPromote | NoWrite | Incomplete

  predicate Ran(status: Status) {
    !status.AlreadyRunning? && !status.SkippedNoDelta?
  }

  predicate Committed(status: Status) {
    status.Written? || status.NothingToPromote?
  }

  // What a pass meets: unread lines, the map's size before and after, how the turn ended, whether its
  // state could be saved.
  datatype Meeting = Meeting(
    unread: nat, mapBefore: nat, mapAfter: nat, raised: bool, yielded: bool, run: Run,
    commitSaved: bool, attemptSaved: bool, at: nat)

  predicate MapNeedsPruning(s: State, chars: nat) {
    chars > MAP_TARGET_CHARS && (s.mapLeftAt.None? || chars > s.mapLeftAt.value)
  }

  function Outcome(s: State, m: Meeting): Status {
    if m.unread == 0 && !MapNeedsPruning(s, m.mapBefore) then SkippedNoDelta
    else if m.raised then Failed
    else if m.yielded then Aborted
    else if m.run.completed && m.run.landed > 0 && Missed(m.run) > 0 then PartialWrite
    else if ShouldCommit(m.run) then
      if !m.commitSaved then CommitFailed else if m.run.landed > 0 then Written else NothingToPromote
    else if m.run.completed then NoWrite
    else Incomplete
  }

  // The model answered unless the call raised.
  function Seen(m: Meeting): Option<nat> {
    if m.raised then None else Some(m.mapAfter)
  }

  function Recorded(s: State, m: Meeting): State {
    var status := Outcome(s, m);
    if Committed(status) then Advanced(s, m.at, Seen(m))
    else if Ran(status) && m.attemptSaved then Attempted(s, m.at, Seen(m))
    else s
  }

  // There is something to do: unread lines, or a map over its target that grew past the size the last
  // answered pass left.
  predicate Worth(s: State, m: Meeting) {
    m.unread > 0 || (m.mapBefore > 2000 && (s.mapLeftAt == None || m.mapBefore > s.mapLeftAt.value))
  }

  // A pass that ran to its end, uninterrupted.
  predicate Finishes(s: State, m: Meeting) {
    Worth(s, m) && !m.raised && !m.yielded
  }

  // Everything the pass wanted to write is there.
  predicate NothingMissing(r: Run) {
    r.completed && r.attempted <= r.landed && r.open == 0
  }

  // When each status is returned, by the state and the meeting.
  predicate Says(s: State, m: Meeting, status: Status) {
    match status
    case AlreadyRunning => false
    case SkippedNoDelta => !Worth(s, m)
    case Failed => Worth(s, m) && m.raised
    case Aborted => Worth(s, m) && !m.raised && m.yielded
    case PartialWrite => Finishes(s, m) && m.run.completed && 0 < m.run.landed < m.run.attempted
    case CommitFailed => Finishes(s, m) && NothingMissing(m.run) && !m.commitSaved
    case Written => Finishes(s, m) && NothingMissing(m.run) && m.commitSaved && m.run.landed > 0
    case NothingToPromote => Finishes(s, m) && NothingMissing(m.run) && m.commitSaved && m.run.attempted == m.run.landed == 0
    case NoWrite =>
      && Finishes(s, m) && m.run.completed && !NothingMissing(m.run)
      && !(0 < m.run.landed < m.run.attempted)
    case Incomplete => Finishes(s, m) && !m.run.completed
  }

  // The pass commits: it finished, everything it wanted to write is there, and that could be saved.
  predicate Commits(s: State, m: Meeting) {
    Finishes(s, m) && NothingMissing(m.run) && m.commitSaved
  }

  // What a pass leaves: a commit ends the streak of failures and touches both clocks; any other pass that
  // ran, and could be saved, adds a failure and touches the attempt only; the size of the map is noted
  // when the model answered.
  predicate Leaves(s: State, m: Meeting, after: State) {
    if Commits(s, m) then after == State(Some(m.at), Some(m.at), 0, Some(m.mapAfter))
    else if Worth(s, m) && m.attemptSaved then
      && after.lastRun == s.lastRun && after.lastAttempt == Some(m.at) && after.failures == s.failures + 1
      && after.mapLeftAt == if m.raised then s.mapLeftAt else Some(m.mapAfter)
    else after == s
  }

  // No pass commits past a write that was refused or lost.
  lemma {:induction false} PassCommitsIff(s: State, m: Meeting)
    ensures forall status :: Outcome(s, m) == status <==> Says(s, m, status)
    ensures Committed(Outcome(s, m)) <==> Commits(s, m)
    ensures Leaves(s, m, Recorded(s, m))
  {
    CommitsMostly(m.run);
  }

  // The passes in flight, and each project's saved state.
  class Gardener {
    var inFlight: set<string>
    var states: map<string, State>

    function StateOf(name: string): State
      reads this`states
    {
      if name in states then states[name] else State(None, None, 0, None)
    }

    method RecordAttempt(name: string, m: Meeting, seen: Option<nat>)
      modifies this`states
      ensures states == if m.attemptSaved then old(states)[name := Attempted(old(StateOf(name)), m.at, seen)] else old(states)
    {
      if m.attemptSaved {
        states := states[name := Attempted(StateOf(name), m.at, seen)];
      }
    }

    // The pass itself: its outcome, stamped unless it never called the model or has committed.
    method RunPass(name: string, m: Meeting) returns (status: Status)
      modifies this`states
      ensures status == Outcome(old(StateOf(name)), m) && Says(old(StateOf(name)), m, status)
      ensures StateOf(name) == Recorded(old(StateOf(name)), m) && Leaves(old(StateOf(name)), m, StateOf(name))
      ensures forall other :: other != name ==> StateOf(other) == old(StateOf(other))
    {
      PassCommitsIff(StateOf(name), m);
      var mapPass := m.unread == 0;
      if mapPass && !MapNeedsPruning(StateOf(name), m.mapBefore) {
        return SkippedNoDelta;
      }
      var seen: Option<nat> := None;
      if m.raised {
        RecordAttempt(name, m, seen);
        return Failed;
      }
      seen := Some(m.mapAfter);
      if m.yielded {
        status := Aborted;
      } else if m.run.completed && m.run.landed > 0 && Missed(m.run) > 0 {
        status := PartialWrite;
      } else if ShouldCommit(m.run) {
        if m.commitSaved {
          states := states[name := Advanced(StateOf(name), m.at, seen)];
          status := if m.run.landed > 0 then Written else NothingToPromote;
        } else {
          status := CommitFailed;
        }
      } else {
        status := if m.run.completed then NoWrite else Incomplete;
      }
      if !Committed(status) {
        RecordAttempt(name, m, seen);
      }
    }

    // One pass a project at a time, and the claim is given back on every exit.
    method RunGardener(name: string, m: Meeting) returns (status: Status)
      modifies this
      ensures inFlight == old(inFlight)
      ensures name in old(inFlight) ==> status == AlreadyRunning && states == old(states)
      ensures name !in old(inFlight) ==>
        status == Outcome(old(StateOf(name)), m) && StateOf(name) == Recorded(old(StateOf(name)), m)
      ensures forall other :: other != name ==> StateOf(other) == old(StateOf(other))
    {
      if name in inFlight {
        return AlreadyRunning;
      }
      inFlight := inFlight + {name};
      status := RunPass(name, m);
      inFlight := inFlight - {name};
      assert inFlight == old(inFlight);
    }
  }

  // ---------------------------------------------------------- runs of passes

  function After(s: State, passes: seq<Meeting>): State {
    if passes == [] then s else Recorded(After(s, passes[..|passes| - 1]), passes[|passes| - 1])
  }

  function Unstarted(): State {
    State(None, None, 0, None)
  }

  // A pass leaves a mark on the saved state when its commit, or else its attempt, could be saved.
  predicate Stamps(s: State, m: Meeting) {
    Committed(Outcome(s, m)) || (Ran(Outcome(s, m)) && m.attemptSaved)
  }

  predicate OnRecord(passes: seq<Meeting>, i: nat)
    requires i < |passes|
  {
    Stamps(After(Unstarted(), passes[..i]), passes[i])
  }

  predicate Landed(passes: seq<Meeting>, i: nat)
    requires i < |passes|
  {
    Committed(Outcome(After(Unstarted(), passes[..i]), passes[i]))
  }

  predicate Inside(passes: seq<Meeting>, r: seq<nat>) {
    forall k: nat :: k < |r| ==> r[k] < |passes|
  }

  // The numbers of the passes on record, in order.
  function Records(passes: seq<Meeting>): (r: seq<nat>)
    ensures Inside(passes, r)
  {
    if passes == [] then [] else
      var last := |passes| - 1;
      var before := Records(passes[..last]);
      if OnRecord(passes, last) then before + [last] else before
  }

  lemma {:induction false} EarlierPass(passes: seq<Meeting>, init: seq<Meeting>, m: Meeting, i: nat)
    requires passes == init + [m] && i < |init|
    ensures OnRecord(passes, i) == OnRecord(init, i) && Landed(passes, i) == Landed(init, i)
  {
    assert passes[..i] == init[..i];
  }

  // Each pass on record is listed once and no other is.
  lemma {:induction false} RecordsAreThose(passes: seq<Meeting>)
    ensures var r := Records(passes);
            && (forall i: nat :: i in r <==> i < |passes| && OnRecord(passes, i))
            && (forall j: nat, k: nat :: j < k < |r| ==> r[j] < r[k])
  {
    if passes != [] {
      var init, m := passes[..|passes| - 1], passes[|passes| - 1];
      assert passes == init + [m];
      RecordsAreThose(init);
      forall i: nat | i < |init| ensures OnRecord(passes, i) == OnRecord(init, i) {
        EarlierPass(passes, init, m, i);
      }
    }
  }

  // `failures` counts the records since the last commit: the last `failures` of them ended without one,
  // and the one before these, if any, is a commit.
  ghost predicate CountsStreak(passes: seq<Meeting>, r: seq<nat>, failures: nat)
    requires Inside(passes, r)
  {
    && failures <= |r|
    && (forall k: nat :: |r| - failures <= k < |r| ==> !Landed(passes, r[k]))
    && (failures < |r| ==> Landed(passes, r[|r| - failures - 1]))
  }

  // The size the last record with an answer left the map at.
  ghost predicate LastAnswered(passes: seq<Meeting>, r: seq<nat>, left: Option<nat>)
    requires Inside(passes, r)
  {
    if left.None? then forall k: nat :: k < |r| ==> passes[r[k]].raised
    else exists k: nat :: AnsweredLast(passes, r, k) && left.value == passes[r[k]].mapAfter
  }

  ghost predicate AnsweredLast(passes: seq<Meeting>, r: seq<nat>, k: nat)
    requires Inside(passes, r)
  {
    k < |r| && !passes[r[k]].raised && forall j: nat :: k < j < |r| ==> passes[r[j]].raised
  }

  lemma {:induction false} StreakStays(passes: seq<Meeting>, init: seq<Meeting>, m: Meeting, r: seq<nat>, n: nat)
    requires passes == init + [m] && Inside(init, r) && CountsStreak(init, r, n)
    ensures Inside(passes, r) && CountsStreak(passes, r, n)
  {
    forall k: nat | k < |r| ensures Landed(passes, r[k]) == Landed(init, r[k]) {
      EarlierPass(passes, init, m, r[k]);
    }
  }

  lemma {:induction false} StreakGrows(passes: seq<Meeting>, r: seq<nat>, n: nat, i: nat)
    requires i < |passes| && Inside(passes, r) && CountsStreak(passes, r, n)
    ensures Inside(passes, r + [i]) && CountsStreak(passes, r + [i], if Landed(passes, i) then 0 else n + 1)
  {
    var all := r + [i];
    assert forall k: nat :: k < |r| ==> all[k] == r[k];
  }

  lemma {:induction false} AnsweredStays(passes: seq<Meeting>, init: seq<Meeting>, m: Meeting, r: seq<nat>,
                                         left: Option<nat>)
    requires passes == init + [m] && Inside(init, r) && LastAnswered(init, r, left)
    ensures Inside(passes, r) && LastAnswered(passes, r, left)
  {
    if left.Some? {
      var k: nat :| AnsweredLast(init, r, k) && left.value == init[r[k]].mapAfter;
      assert AnsweredLast(passes, r, k);
    }
  }

  lemma {:induction false} AnsweredGrows(passes: seq<Meeting>, r: seq<nat>, left: Option<nat>, i: nat)
    requires i < |passes| && Inside(passes, r) && LastAnswered(passes, r, left)
    ensures Inside(passes, r + [i])
    ensures LastAnswered(passes, r + [i], if passes[i].raised then left else Some(passes[i].mapAfter))
  {
    var all := r + [i];
    if !passes[i].raised {
      assert AnsweredLast(passes, all, |r|);
    } else if left.Some? {
      var k: nat :| AnsweredLast(passes, r, k) && left.value == passes[r[k]].mapAfter;
      assert all[k] == r[k] && AnsweredLast(passes, all, k);
    }
  }

  lemma {:induction false} RecordedOnce(passes: seq<Meeting>, init: seq<Meeting>, m: Meeting, r: seq<nat>,
                                        failures: nat, left: Option<nat>)
    requires passes == init + [m] && Inside(init, r)
    requires CountsStreak(init, r, failures) && LastAnswered(init, r, left)
    ensures var all := if OnRecord(passes, |init|) then r + [|init|] else r;
            && Inside(passes, all)
            && CountsStreak(passes, all, if !OnRecord(passes, |init|) then failures
                                         else if Landed(passes, |init|) then 0 else failures + 1)
            && LastAnswered(passes, all, if OnRecord(passes, |init|) && !m.raised then Some(m.mapAfter) else left)
  {
    StreakStays(passes, init, m, r, failures);
    AnsweredStays(passes, init, m, r, left);
    if OnRecord(passes, |init|) {
      StreakGrows(passes, r, failures, |init|);
      AnsweredGrows(passes, r, left, |init|);
    }
  }

  // After any run of passes the saved state tells, of the passes on record, how many came since the last
  // commit and at which size the last answered one left the map.
  lemma {:induction false} PassesKeepCount(passes: seq<Meeting>)
    ensures CountsStreak(passes, Records(passes), After(Unstarted(), passes).failures)
    ensures LastAnswered(passes, Records(passes), After(Unstarted(), passes).mapLeftAt)
  {
    if passes != [] {
      var init, m := passes[..|passes| - 1], passes[|passes| - 1];
      assert passes == init + [m] && passes[..|init|] == init;
      PassesKeepCount(init);
      var s := After(Unstarted(), init);
      RecordedOnce(passes, init, m, Records(init), s.failures, s.mapLeftAt);
    }
  }

  // A pass on record that was answered disarms the map's own trigger, whatever it achieved.
  lemma {:induction false} AnsweredPassDisarms(s: State, m: Meeting, more: seq<Meeting>)
    requires Stamps(s, m) && !m.raised
    requires forall i: nat :: i < |more| ==> more[i].unread == 0 && more[i].mapBefore <= m.mapAfter
    ensures After(Recorded(s, m), more) == Recorded(s, m)
    decreases |more|
  {
    if more != [] {
      var front := more[..|more| - 1];
      assert forall i: nat :: i < |front| ==> front[i] == more[i];
      AnsweredPassDisarms(s, m, front);
    }
  }

  // ---------------------------------------------------------- overlapping passes

  // A pass is open between its claim and its last write. It decides on the state it read at the claim
  // and records on the state it reads again at the end.
  datatype Open = Open(seen: State, m: Meeting)
  datatype House = House(running: map<string, Open>, states: map<string, State>)

  // `Cancel` is a pass cancelled before its last write, `Restart` the death of the process.
  datatype Event = Begin(name: string, m: Meeting) | End(name: string) | Cancel(name: string) | Restart

  function StateIn(states: map<string, State>, name: string): State {
    if name in states then states[name] else Unstarted()
  }

  function WrittenBy(current: State, o: Open): State {
    var status := Outcome(o.seen, o.m);
    if Committed(status) then Advanced(current, o.m.at, Seen(o.m))
    else if Ran(status) && o.m.attemptSaved then Attempted(current, o.m.at, Seen(o.m))
    else current
  }

  // A second pass over a project with one open is refused.
  function Happened(h: House, e: Event): House {
    match e
    case Begin(name, m) =>
      if name in h.running then h else h.(running := h.running[name := Open(StateIn(h.states, name), m)])
    case End(name) =>
      if name !in h.running then h
      else House(h.running - {name}, h.states[name := WrittenBy(StateIn(h.states, name), h.running[name])])
    case Cancel(name) => h.(running := h.running - {name})
    case Restart => h.(running := map[])
  }

  function Overlapped(h: House, events: seq<Event>): House {
    if events == [] then h else Happened(Overlapped(h, events[..|events| - 1]), events[|events| - 1])
  }

  datatype Finished = Finished(name: string, m: Meeting)

  // The passes that ended, in the order they did.
  function Ended(h: House, events: seq<Event>): seq<Finished> {
    if events == [] then [] else
      var front, e := events[..|events| - 1], events[|events| - 1];
      var before, done := Overlapped(h, front), Ended(h, front);
      if e.End? && e.name in before.running then done + [Finished(e.name, before.running[e.name].m)] else done
  }

  // Passes one after the other, each without interruption.
  function InTurn(states: map<string, State>, done: seq<Finished>): map<string, State> {
    if done == [] then states else
      var before, d := InTurn(states, done[..|done| - 1]), done[|done| - 1];
      before[d.name := Recorded(StateIn(before, d.name), d.m)]
  }

  ghost predicate SawCurrent(h: House) {
    forall name :: name in h.running ==> h.running[name].seen == StateIn(h.states, name)
  }

  lemma {:induction false} StaysCurrent(h: House, e: Event)
    requires SawCurrent(h)
    ensures SawCurrent(Happened(h, e))
  {
    var next := Happened(h, e);
    forall name | name in next.running ensures next.running[name].seen == StateIn(next.states, name) {
    }
  }

  // However passes overlap, are cancelled or die with the process, the states they leave are those of the
  // passes that ended, run one after the other: while a pass is open nobody else writes its project's state.
  lemma {:induction false} OverlapsAreSerial(states: map<string, State>, events: seq<Event>)
    ensures SawCurrent(Overlapped(House(map[], states), events))
    ensures Overlapped(House(map[], states), events).states == InTurn(states, Ended(House(map[], states), events))
  {
    if events != [] {
      var start, front, e := House(map[], states), events[..|events| - 1], events[|events| - 1];
      OverlapsAreSerial(states, front);
      var before, done := Overlapped(start, front), Ended(start, front);
      StaysCurrent(before, e);
      if e.End? && e.name in before.running {
        OneMoreInTurn(states, done, Finished(e.name, before.running[e.name].m));
      }
    }
  }

  lemma {:induction false} OneMoreInTurn(states: map<string, State>, done: seq<Finished>, d: Finished)
    ensures InTurn(states, done + [d]) ==
            InTurn(states, done)[d.name := Recorded(StateIn(InTurn(states, done), d.name), d.m)]
  {
    assert (done + [d])[..|done|] == done;
  }

  // ---------------------------------------------------------- choosing

  // A candidate as a tick sees it; `ready` gathers the gates that are not about time or work: not held
  // by a plan, no turn in flight, quiet long enough.
  datatype View = View(ready: bool, unread: nat, mapChars: nat)

  function Age(stamp: Option<nat>, now: nat): Option<nat> {
    if stamp.None? || stamp.value > now then None else Some(now - stamp.value)
  }

  // The younger known stamp decides; unknown and future ones do not block.
  predicate FarEnough(s: State, now: nat, minHours: nat) {
    minHours == 0 ||
    var run, attempt := Age(s.lastRun, now), Age(s.lastAttempt, now);
    (run.Some? ==> run.value >= minHours * 3600) && (attempt.Some? ==> attempt.value >= minHours * 3600)
  }

  predicate Eligible(s: State, v: View, now: nat, minHours: nat) {
    FarEnough(s, now, minHours) && v.ready && (v.unread > 0 || MapNeedsPruning(s, v.mapChars))
  }

  // A stamp of the project, a pass or an attempt, not in the future.
  predicate Stamped(s: State, at: nat, now: nat) {
    (s.lastRun == Some(at) || s.lastAttempt == Some(at)) && at <= now
  }

  // A project may be picked when it is ready, has unread lines or a map over its ceiling that grew since it
  // was left, and no stamp it bears is younger than the hours asked for.
  lemma {:induction false} EligibleIff(s: State, v: View, now: nat, minHours: nat)
    ensures Eligible(s, v, now, minHours) <==>
            && v.ready
            && (v.unread > 0 || (v.mapChars > MAP_TARGET_CHARS && (s.mapLeftAt.None? || s.mapLeftAt.value < v.mapChars)))
            && forall at: nat :: Stamped(s, at, now) ==> at + minHours * 3600 <= now
  {
    if s.lastRun.Some? && s.lastRun.value <= now { assert Stamped(s, s.lastRun.value, now); }
    if s.lastAttempt.Some? && s.lastAttempt.value <= now { assert Stamped(s, s.lastAttempt.value, now); }
  }

  // A pass that left its mark, whatever came of it, keeps its project from being picked for those hours.
  lemma {:induction false} NotAgainTooSoon(s: State, m: Meeting, v: View, now: nat, minHours: nat)
    requires Stamps(s, m) && m.at <= now < m.at + minHours * 3600
    ensures !Eligible(Recorded(s, m), v, now, minHours)
  {
    EligibleIff(Recorded(s, m), v, now, minHours);
    assert Stamped(Recorded(s, m), m.at, now);
  }

  // Projects are numbered in the order of their names.
  predicate Before(states: seq<State>, i: nat, j: nat)
    requires i < |states| && j < |states|
  {
    LastTouch(states[i]) < LastTouch(states[j]) || (LastTouch(states[i]) == LastTouch(states[j]) && i < j)
  }

  // The least recently touched eligible project, the first by name among equals.
  ghost predicate IsPick(states: seq<State>, views: seq<View>, now: nat, minHours: nat, pick: Option<nat>)
    requires |views| == |states|
  {
    match pick
    case None => forall i: nat :: i < |states| ==> !Eligible(states[i], views[i], now, minHours)
    case Some(p) =>
      && p < |states| && Eligible(states[p], views[p], now, minHours)
      && forall i: nat :: i < |states| && Eligible(states[i], views[i], now, minHours) && i != p ==> Before(states, p, i)
  }

  method Candidates(states: seq<State>, views: seq<View>, now: nat, minHours: nat) returns (candidates: seq<nat>)
    requires |views| == |states|
    ensures forall i: nat :: i in candidates <==> i < |states| && Eligible(states[i], views[i], now, minHours)
    ensures forall k: nat :: k < |candidates| ==> candidates[k] < |states|
  {
    candidates := [];
    for i := 0 to |states|
      invariant forall k: nat :: k in candidates <==> k < i && Eligible(states[k], views[k], now, minHours)
      invariant forall k: nat :: k < |candidates| ==> candidates[k] < |states|
    {
      if Eligible(states[i], views[i], now, minHours) {
        candidates := candidates + [i];
      }
    }
  }

  method PickProject(states: seq<State>, views: seq<View>, now: nat, minHours: nat) returns (pick: Option<nat>)
    requires |views| == |states|
    ensures IsPick(states, views, now, minHours, pick)
  {
    var candidates := Candidates(states, views, now, minHours);
    if candidates == [] {
      assert forall i: nat :: i !in candidates;
      return None;
    }
    var best := candidates[0];
    for k := 1 to |candidates|
      invariant best in candidates
      invariant forall j: nat :: j < k ==> candidates[j] == best || Before(states, best, candidates[j])
    {
      if Before(states, candidates[k], best) {
        best := candidates[k];
      }
    }
    pick := Some(best);
  }

  // ---------------------------------------------------------- fairness

  // A tick and the recorded pass of the project it picks, or a recorded pass started by hand.
  datatype Step =
    | Tick(now: nat, views: seq<View>, pick: Option<nat>, m: Meeting)
    | Hand(project: nat, m: Meeting)

  datatype World = World(states: seq<State>, clock: nat)

  // Time only goes on, every pick is stamped, and project p is eligible at each tick.
  predicate Allowed(w: World, step: Step, p: nat, minHours: nat)
    requires p < |w.states|
  {
    match step
    case Tick(now, views, pick, m) =>
      && |views| == |w.states| && w.clock < now <= m.at
      && Eligible(w.states[p], views[p], now, minHours)
      && pick.Some? && pick.value < |w.states| && Eligible(w.states[pick.value], views[pick.value], now, minHours)
      && (pick.value != p ==> Before(w.states, pick.value, p))
      && Stamps(w.states[pick.value], m)
    case Hand(project, m) => project < |w.states| && project != p && w.clock < m.at && Stamps(w.states[project], m)
  }

  function Served(w: World, i: nat, m: Meeting): World
    requires i < |w.states|
  {
    World(w.states[i := Recorded(w.states[i], m)], m.at)
  }

  function Next(w: World, step: Step): World {
    match step
    case Tick(now, views, pick, m) => if pick.Some? && pick.value < |w.states| then Served(w, pick.value, m) else w
    case Hand(project, m) => if project < |w.states| then Served(w, project, m) else w
  }

  predicate Serves(step: Step, p: nat) {
    step.Tick? && step.pick == Some(p)
  }

  // A run in which p waits: no step serves it.
  predicate Waits(w: World, steps: seq<Step>, p: nat, minHours: nat)
    requires p < |w.states|
    decreases |steps|
  {
    steps == [] ||
    (Allowed(w, steps[0], p, minHours) && !Serves(steps[0], p) && Waits(Next(w, steps[0]), steps[1..], p, minHours))
  }

  function Ticks(steps: seq<Step>): nat {
    if steps == [] then 0 else Ticks(steps[1..]) + if steps[0].Tick? then 1 else 0
  }

  // How many of the first n projects come before p.
  function Ahead(states: seq<State>, p: nat, n: nat): nat
    requires p < |states| && n <= |states|
  {
    if n == 0 then 0 else Ahead(states, p, n - 1) + if n - 1 != p && Before(states, n - 1, p) then 1 else 0
  }

  lemma {:induction false} AheadBound(states: seq<State>, p: nat, n: nat)
    requires p < |states| && n <= |states|
    ensures Ahead(states, p, n) <= if p < n then n - 1 else n
  {
    if n > 0 { AheadBound(states, p, n - 1); }
  }

  // A stamp later than p's touch takes one project from before p to after it.
  lemma {:induction false} AheadFalls(states: seq<State>, p: nat, n: nat, i: nat, s: State)
    requires p < |states| && n <= |states| && i < |states| && i != p && LastTouch(s) > LastTouch(states[p])
    ensures Ahead(states[i := s], p, n) == Ahead(states, p, n) - if i < n && Before(states, i, p) then 1 else 0
  {
    if n > 0 { AheadFalls(states, p, n - 1, i, s); }
  }

  predicate Past(w: World) {
    forall i: nat :: i < |w.states| ==> LastTouch(w.states[i]) <= w.clock
  }

  lemma {:induction false} StampIsTouch(s: State, m: Meeting)
    requires Stamps(s, m) && LastTouch(s) < m.at
    ensures LastTouch(Recorded(s, m)) == m.at
  {
  }

  // A project that stays eligible is passed over at most once for every project before it: it is served
  // within as many ticks as there are projects.
  lemma {:induction false} WaitIsBounded(w: World, steps: seq<Step>, p: nat, minHours: nat)
    requires p < |w.states| && Past(w) && Waits(w, steps, p, minHours)
    ensures Ticks(steps) <= Ahead(w.states, p, |w.states|) < |w.states|
    decreases |steps|
  {
    AheadBound(w.states, p, |w.states|);
    if steps != [] {
      var step := steps[0];
      var i := if step.Tick? then step.pick.value else step.project;
      var s := Recorded(w.states[i], step.m);
      StampIsTouch(w.states[i], step.m);
      AheadFalls(w.states, p, |w.states|, i, s);
      WaitIsBounded(Next(w, step), steps[1..], p, minHours);
    }
  }
}
