// Truncating an idle conversation to its recent legal suffix, only once the rest is safe elsewhere.
module IdleCompaction {
  import opened Bounds
  import opened Messages
  import Notes
  import opened Options

  // Where the kept suffix starts: the newest rows, back to a user row, without orphan results in front.
  function KeepFrom(ms: seq<Message>, max: int): (r: nat)
    ensures r <= |ms|
  {
    if max <= 0 then |ms| else if |ms| <= max then 0 else
      var back := LastUser(ms, |ms| - max + 1);
      var start := if back >= 0 then back else |ms| - max;
      var user := FirstUser(ms, start);
      var s := if user < |ms| then user else start;
      s + LegalStart(ms[s..])
  }

  lemma {:induction false} UserSuffixIsLegal(ms: seq<Message>, u: nat)
    requires BlockLegal(ms) && u < |ms| && ms[u].role.User?
    ensures NoOrphans(ms[u..]) && LegalStart(ms[u..]) == 0
  {
    assert ms == ms[..u] + ms[u..];
    BlockLegalJoin(ms[..u], ms[u..]);
    BlockLegalImplies(ms[u..]);
    LegalStartLeavesNoOrphans(ms[u..]);
  }

  // A legal conversation keeps at least its newest rows, from a user row when one is in reach.
  lemma {:induction false} KeepFromUser(ms: seq<Message>, max: nat)
    requires BlockLegal(ms) && 0 < max < |ms| && LastUser(ms, |ms| - max + 1) >= 0
    ensures KeepFrom(ms, max) == LastUser(ms, |ms| - max + 1)
    ensures ms[KeepFrom(ms, max)].role.User? && |ms[KeepFrom(ms, max)..]| >= max
    ensures NoOrphans(ms[KeepFrom(ms, max)..])
  {
    var u := LastUser(ms, |ms| - max + 1);
    UserSuffixIsLegal(ms, u);
    assert FirstUser(ms, u) == u;
  }

  predicate NoUser(ms: seq<Message>, from: nat, to: nat)
    requires to <= |ms|
  {
    forall i :: from <= i < to ==> !ms[i].role.User?
  }

  // Where a suffix is to open, w being the oldest of the newest `max` rows: at the last user row up to w,
  // else at the first one after it, else at w.
  predicate OpensAt(ms: seq<Message>, w: nat, b: nat)
    requires w < |ms|
  {
    && b < |ms|
    && if ms[b].role.User? then NoUser(ms, b + 1, w + 1) && (b > w ==> NoUser(ms, 0, b)) else b == w && NoUser(ms, 0, |ms|)
  }

  // Any conversation: one of at most `max` rows keeps them all. A longer one keeps the suffix from the row it
  // is to open at, and no less than that when it has no orphan; else it drops rows from its front until it has none.
  lemma {:induction false} KeepFromIs(ms: seq<Message>, max: int) returns (b: nat)
    ensures var r := KeepFrom(ms, max);
            && (max <= 0 ==> r == |ms|)
            && (max > 0 && |ms| <= max ==> r == 0)
            && (0 < max < |ms| ==>
                  && OpensAt(ms, |ms| - max, b)
                  && b <= r && NoOrphans(ms[r..]) && (r == b <==> NoOrphans(ms[b..])))
  {
    b := 0;
    if 0 < max < |ms| {
      b := OpenedAt(ms, |ms| - max);
      LegalSuffix(ms, b, KeepFrom(ms, max));
    }
  }

  lemma {:induction false} OpenedAt(ms: seq<Message>, w: nat) returns (b: nat)
    requires 0 < w < |ms|
    ensures OpensAt(ms, w, b) && KeepFrom(ms, |ms| - w) == b + LegalStart(ms[b..])
  {
    var back := LastUser(ms, w + 1);
    var start := if back >= 0 then back else w;
    var user := FirstUser(ms, start);
    b := if user < |ms| then user else start;
  }

  lemma {:induction false} LegalSuffix(ms: seq<Message>, b: nat, r: nat)
    requires b <= |ms| && r == b + LegalStart(ms[b..])
    ensures NoOrphans(ms[r..]) && (r == b <==> NoOrphans(ms[b..]))
  {
    var rest := ms[b..];
    LegalStartLeavesNoOrphans(rest);
    assert ms[r..] == rest[r - b..];
  }

  // ---------------------------------------------------------- one compaction

  // A saved row: its message and how it is printed. History: the number it came under.
  datatype Item = Item(number: nat, msg: Message, note: Notes.Row)

  function Msgs(items: seq<Item>): (r: seq<Message>)
    ensures |r| == |items|
  {
    seq(|items|, i requires 0 <= i < |items| => items[i].msg)
  }

  function NotesOf(items: seq<Item>): (r: seq<Notes.Row>)
    ensures |r| == |items|
  {
    seq(|items|, i requires 0 <= i < |items| => items[i].note)
  }

  function Numbers(items: seq<Item>): set<nat> {
    set i: nat | i < |items| :: items[i].number
  }

  // The rows of a raw dump that its cut spares.
  function Spared(items: seq<Item>): set<nat> {
    set i: nat | i < |items| && Notes.Whole(NotesOf(items), i) :: items[i].number
  }

  // Where rows went, by number. A row leaves the rows to consolidate into one of the first three:
  // `archived` with a summary, `copied` into the project, `dumped` with no more than a raw dump. Beside
  // these, `retold` holds rows a summary covered although they were kept, `noted` rows whole in a raw dump.
  datatype Deposits = Deposits(archived: set<nat>, copied: set<nat>, dumped: set<nat>, retold: set<nat>, noted: set<nat>)

  // A conversation; `count` is how many rows ever came.
  datatype State = State(messages: seq<Item>, upTo: nat, harvested: Option<nat>, count: nat, deposits: Deposits)

  // What the outside answers: did the summary call succeed, could the copy be written.
  datatype Answers = Answers(summary: bool, copy: bool)

  function Truncated(s: State, from: nat, summarised: bool): State
    requires from <= |s.messages|
  {
    var kept := s.messages[from..];
    var harvested := match s.harvested
      case None => None
      case Some(h) => Some(if summarised then |kept| else Below(h, from, |s.messages|));
    s.(messages := kept, upTo := 0, harvested := harvested)
  }

  // How the rows to be removed were made safe; None when they were not.
  datatype Safe = Nothing | Summarised | Copied

  function Secured(removed: seq<Item>, project: bool, answers: Answers): Option<Safe> {
    if removed == [] then Some(Nothing)
    else if answers.summary then Some(Summarised)
    else if project && answers.copy then Some(Copied)
    else None
  }

  // The summary is given the kept rows too; the dump and the copy are of the removed ones.
  function Stored(d: Deposits, removed: seq<Item>, kept: seq<Item>, project: bool, answers: Answers): Deposits {
    if removed == [] then d
    else if answers.summary then d.(archived := d.archived + Numbers(removed), retold := d.retold + Numbers(kept))
    else if !project then d
    else d.(noted := d.noted + Spared(removed), copied := d.copied + if answers.copy then Numbers(removed) else {})
  }

  // With the first k unconsolidated rows to be removed.
  function Outcome(s: State, k: nat, project: bool, answers: Answers): State
    requires s.upTo + k <= |s.messages|
  {
    var removed, kept := s.messages[s.upTo..s.upTo + k], s.messages[s.upTo + k..];
    var safe := Secured(removed, project, answers);
    var stored := s.(deposits := Stored(s.deposits, removed, kept, project, answers));
    if safe.None? then stored else Truncated(stored, s.upTo + k, safe.value.Summarised?)
  }

  function Compacted(s: State, max: int, project: bool, answers: Answers): State
    requires s.upTo <= |s.messages|
  {
    var tail := Msgs(s.messages[s.upTo..]);
    if tail == [] then s else Outcome(s, KeepFrom(tail, max), project, answers)
  }

  // After a truncation, kept row j is below the new index when it was below the old one - or always,
  // when the summary was given the kept rows too.
  lemma {:induction false} IndexCountsKept(s: State, from: nat, summarised: bool, j: nat)
    requires from <= |s.messages| && s.harvested.Some? && j < |s.messages| - from
    ensures var after := Truncated(s, from, summarised);
            && after.messages[j] == s.messages[from + j]
            && after.harvested.Some?
            && (j < after.harvested.value <==> summarised || from + j < s.harvested.value)
  {
  }

  // The index never points past the rows.
  predicate IndexInside(s: State) {
    s.harvested.Some? ==> s.harvested.value <= |s.messages|
  }

  lemma {:induction false} OutcomeIndexInside(s: State, k: nat, project: bool, answers: Answers)
    requires s.upTo + k <= |s.messages| && IndexInside(s)
    ensures IndexInside(Outcome(s, k, project, answers))
  {
  }

  // A conversation is cut only once the removed rows are in a summary or a copy: a personal one never
  // after a failed call, a project one only with its copy written.
  lemma {:induction false} CutOnlyWhenSafe(s: State, k: nat, project: bool, answers: Answers)
    requires s.upTo + k <= |s.messages| && k > 0
    ensures var after, removed := Outcome(s, k, project, answers), Numbers(s.messages[s.upTo..s.upTo + k]);
            && (after.messages != s.messages ==> removed <= after.deposits.archived + after.deposits.copied)
            && (!answers.summary && !project ==> after == s)
            && (!answers.summary && !answers.copy ==> after.messages == s.messages && after.harvested == s.harvested)
  {
  }

  class Session {
    var messages: seq<Item>
    var lastConsolidated: nat
    var harvested: Option<nat>
    ghost var count: nat
  }

  // What was written outside the session.
  class Compactor {
    var deposits: Deposits

    ghost function StateOf(session: Session): State
      reads this, session
    {
      State(session.messages, session.lastConsolidated, session.harvested, session.count, deposits)
    }

    // The index carried over to the kept rows, counted row by row.
    method CountHarvested(rows: nat, from: nat, harvested: nat) returns (n: nat)
      ensures n == Below(harvested, from, rows)
    {
      n := 0;
      for i := 0 to rows
        invariant n == Below(harvested, from, i)
      {
        if i < harvested && from <= i {
          n := n + 1;
        }
      }
    }

    // The summary call, and for a project whose call failed the raw dump and the copy.
    method Secure(toRemove: seq<Item>, toKeep: seq<Item>, project: bool, answers: Answers) returns (safe: Option<Safe>)
      modifies this
      ensures deposits == Stored(old(deposits), toRemove, toKeep, project, answers)
      ensures safe == Secured(toRemove, project, answers)
    {
      if toRemove == [] {
        return Some(Nothing);
      }
      if answers.summary {
        deposits := deposits.(archived := deposits.archived + Numbers(toRemove), retold := deposits.retold + Numbers(toKeep));
        return Some(Summarised);
      }
      if !project {
        return None;
      }
      deposits := deposits.(noted := deposits.noted + Spared(toRemove));
      if !answers.copy {
        return None;
      }
      deposits := deposits.(copied := deposits.copied + Numbers(toRemove));
      return Some(Copied);
    }

    method Truncate(session: Session, from: nat, summarised: bool)
      requires from <= |session.messages|
      modifies session
      ensures StateOf(session) == Truncated(old(StateOf(session)), from, summarised)
      ensures old(session.harvested).Some? ==>
                && session.harvested.Some?
                && forall j: nat :: j < |session.messages| ==>
                     && session.messages[j] == old(session.messages)[from + j]
                     && (j < session.harvested.value <==> summarised || from + j < old(session.harvested).value)
    {
      ghost var after := Truncated(StateOf(session), from, summarised);
      if session.harvested.Some? {
        forall j: nat | j < |after.messages|
          ensures after.messages[j] == session.messages[from + j]
          ensures j < after.harvested.value <==> summarised || from + j < session.harvested.value
        {
          IndexCountsKept(StateOf(session), from, summarised, j);
        }
      }
      if session.harvested.Some? {
        var n := |session.messages| - from;
        if !summarised {
          n := CountHarvested(|session.messages|, from, session.harvested.value);
        }
        session.harvested := Some(n);
      }
      session.messages, session.lastConsolidated := session.messages[from..], 0;
    }

    // False when the session is left as it was, to be retried.
    method RemoveFirst(session: Session, k: nat, project: bool, answers: Answers) returns (done: bool)
      requires session.lastConsolidated + k <= |session.messages|
      modifies this, session
      ensures StateOf(session) == Outcome(old(StateOf(session)), k, project, answers)
      ensures !done ==> session.messages == old(session.messages) && session.harvested == old(session.harvested)
      ensures old(IndexInside(StateOf(session))) ==> IndexInside(StateOf(session))
      ensures session.messages != old(session.messages) ==>
                old(Numbers(session.messages[session.lastConsolidated..session.lastConsolidated + k]))
                <= deposits.archived + deposits.copied
    {
      if IndexInside(StateOf(session)) {
        OutcomeIndexInside(StateOf(session), k, project, answers);
      }
      if k > 0 {
        CutOnlyWhenSafe(StateOf(session), k, project, answers);
      }
      var from := session.lastConsolidated + k;
      var removed, kept := session.messages[session.lastConsolidated..from], session.messages[from..];
      var safe := Secure(removed, kept, project, answers);
      if safe.None? {
        return false;
      }
      Truncate(session, from, safe.value.Summarised?);
      return true;
    }

    method CompactIdleSession(session: Session, max: int, project: bool, answers: Answers) returns (done: bool)
      requires session.lastConsolidated <= |session.messages|
      modifies this, session
      ensures StateOf(session) == Compacted(old(StateOf(session)), max, project, answers)
      ensures !done ==> session.messages == old(session.messages) && session.harvested == old(session.harvested)
      ensures old(IndexInside(StateOf(session))) ==> IndexInside(StateOf(session))
    {
      var tail := Msgs(session.messages[session.lastConsolidated..]);
      if tail == [] {
        return true;
      }
      done := RemoveFirst(session, KeepFrom(tail, max), project, answers);
    }
  }
}
