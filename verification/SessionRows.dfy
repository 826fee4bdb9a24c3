// Where the rows of a conversation go over any run of appends, consolidations, idle compactions, new
// conversations and hard caps, and which of them are lost.
module SessionRows {
  import opened Bounds
  import opened IdleCompaction
  import opened Messages
  import Notes
  import opened Options

  // `Cap` is the hard cap on saved rows: it keeps rows [from, to) and writes a raw dump of the others.
  datatype Step =
    | Append(msg: Message, note: Notes.Row)
    | Consolidate(to: nat, answered: bool)
    | Idle(max: int, project: bool, answers: Answers)
    | New(answered: bool)
    | Cap(from: nat, to: nat)

  // A chunk that leaves the rows to consolidate: its summary, or the raw dump.
  function Took(d: Deposits, chunk: seq<Item>, answered: bool): Deposits {
    if answered then d.(archived := d.archived + Numbers(chunk))
    else d.(dumped := d.dumped + Numbers(chunk), noted := d.noted + Spared(chunk))
  }

  // Rows to consolidate that are not in [from, to).
  function Outside(s: State, from: nat, to: nat): seq<Item>
    requires s.upTo <= |s.messages| && from <= to <= |s.messages|
  {
    (if s.upTo < from then s.messages[s.upTo..from] else []) + s.messages[Max(to, s.upTo)..]
  }

  function After(s: State, step: Step): State {
    if s.upTo > |s.messages| then s else
      match step
      case Append(msg, note) => s.(messages := s.messages + [Item(s.count, msg, note)], count := s.count + 1)
      case Consolidate(to, answered) =>
        if s.upTo <= to <= |s.messages|
        then s.(upTo := to, deposits := Took(s.deposits, s.messages[s.upTo..to], answered))
        else s
      case Idle(max, project, answers) => Compacted(s, max, project, answers)
      case New(answered) =>
        State([], 0, None, s.count, Took(s.deposits, s.messages[s.upTo..], answered))
      case Cap(from, to) =>
        if from <= to <= |s.messages|
        then State(s.messages[from..to], Below(s.upTo, from, to),
                   if s.harvested.None? then None else Some(Below(s.harvested.value, from, to)),
                   s.count, Took(s.deposits, Outside(s, from, to), false))
        else s
  }

  function Fresh(): State {
    State([], 0, None, 0, Deposits({}, {}, {}, {}, {}))
  }

  function Ran(steps: seq<Step>): State {
    if steps == [] then Fresh() else After(Ran(steps[..|steps| - 1]), steps[|steps| - 1])
  }

  // The chunk a step takes without a summary.
  function Taken(s: State, step: Step): seq<Item> {
    if s.upTo > |s.messages| then [] else
      match step
      case Consolidate(to, answered) => if !answered && s.upTo <= to <= |s.messages| then s.messages[s.upTo..to] else []
      case New(answered) => if answered then [] else s.messages[s.upTo..]
      case Cap(from, to) => if from <= to <= |s.messages| then Outside(s, from, to) else []
      case _ => []
  }

  // ---------------------------------------------------------- rows by number

  predicate Ascending(items: seq<Item>) {
    forall i: nat, j: nat :: i < j < |items| ==> items[i].number < items[j].number
  }

  function Tail(s: State): seq<Item>
    requires s.upTo <= |s.messages|
  {
    s.messages[s.upTo..]
  }

  function All(count: nat): (r: set<nat>)
    ensures forall n: nat :: n in r <==> n < count
  {
    if count == 0 then {} else All(count - 1) + {count - 1}
  }

  // Four parts of a whole, no two with a row in common.
  predicate Parts(tail: set<nat>, a: set<nat>, c: set<nat>, d: set<nat>, all: set<nat>) {
    tail + a + c + d == all && tail !! a && tail !! c && tail !! d && a !! c && a !! d && c !! d
  }

  // Rows some text covers beside a summary that took them or a copy.
  function Beside(d: Deposits): set<nat> {
    d.retold + d.noted
  }

  ghost predicate Ok(s: State) {
    && s.upTo <= |s.messages| && Ascending(s.messages) && Numbers(s.messages) <= All(s.count)
    && Parts(Numbers(Tail(s)), s.deposits.archived, s.deposits.copied, s.deposits.dumped, All(s.count))
    && Beside(s.deposits) <= All(s.count)
  }

  lemma {:induction false} NumbersConcat(a: seq<Item>, b: seq<Item>)
    ensures Numbers(a + b) == Numbers(a) + Numbers(b)
  {
    var ab := a + b;
    forall n | n in Numbers(a) ensures n in Numbers(ab) {
      var i: nat :| i < |a| && a[i].number == n;
      assert ab[i].number == n;
    }
    forall n | n in Numbers(b) ensures n in Numbers(ab) {
      var i: nat :| i < |b| && b[i].number == n;
      assert ab[|a| + i].number == n;
    }
  }

  lemma {:induction false} AscendingApart(a: seq<Item>, b: seq<Item>)
    requires Ascending(a + b)
    ensures Ascending(a) && Ascending(b) && Numbers(a) !! Numbers(b)
  {
    var ab := a + b;
    assert forall i: nat :: i < |a| ==> ab[i] == a[i];
    assert forall i: nat :: i < |b| ==> ab[|a| + i] == b[i];
  }

  // Cutting a list in two cuts its rows in two.
  lemma {:induction false} SplitRows(all: seq<Item>, a: seq<Item>, b: seq<Item>)
    requires all == a + b && Ascending(all)
    ensures Numbers(all) == Numbers(a) + Numbers(b) && Numbers(a) !! Numbers(b) && Ascending(a) && Ascending(b)
  {
    NumbersConcat(a, b);
    AscendingApart(a, b);
  }

  lemma {:induction false} MovePart(
    tail: set<nat>, chunk: set<nat>, rest: set<nat>, a: set<nat>, c: set<nat>, d: set<nat>, all: set<nat>)
    requires Parts(tail, a, c, d, all) && tail == chunk + rest && chunk !! rest
    ensures Parts(rest, a + chunk, c, d, all) && Parts(rest, a, c + chunk, d, all) && Parts(rest, a, c, d + chunk, all)
  {
  }

  lemma {:induction false} SparedInside(items: seq<Item>)
    ensures Spared(items) <= Numbers(items)
  {
  }

  // ---------------------------------------------------------- each step

  // How many first rows of the tail an idle compaction would remove.
  function Removable(s: State, max: int): (k: nat)
    requires s.upTo <= |s.messages|
    ensures s.upTo + k <= |s.messages|
  {
    if Tail(s) == [] then 0 else KeepFrom(Msgs(Tail(s)), max)
  }

  // With k rows to be removed, a compaction truncates when there are none, or they are in a summary, or in
  // a copy.
  predicate Safely(k: nat, project: bool, answers: Answers) {
    k == 0 || answers.summary || (project && answers.copy)
  }

  // An idle compaction truncates when there are rows to consolidate and those to be removed are safe.
  predicate Truncates(s: State, max: int, project: bool, answers: Answers)
    requires s.upTo <= |s.messages|
  {
    Tail(s) != [] && Safely(Removable(s, max), project, answers)
  }

  // Rows put into a text beside the summary or the copy that takes rows: those kept that were summarised
  // too, and those whole in the raw dump of a failed call.
  function CoveredBy(s: State, k: nat, project: bool, answers: Answers): set<nat>
    requires s.upTo + k <= |s.messages|
  {
    if k == 0 then {}
    else if answers.summary then Numbers(s.messages[s.upTo + k..])
    else if project then Spared(s.messages[s.upTo..s.upTo + k])
    else {}
  }

  function Covered(s: State, step: Step): set<nat> {
    if s.upTo > |s.messages| || !step.Idle? then {}
    else CoveredBy(s, Removable(s, step.max), step.project, step.answers)
  }

  lemma {:induction false} TailSplit(s: State, to: nat)
    requires s.upTo <= to <= |s.messages| && Ascending(s.messages)
    ensures Numbers(Tail(s)) == Numbers(s.messages[s.upTo..to]) + Numbers(s.messages[to..])
    ensures Numbers(s.messages[s.upTo..to]) !! Numbers(s.messages[to..])
    ensures Ascending(s.messages[to..]) && Numbers(s.messages[to..]) <= Numbers(s.messages)
  {
    assert s.messages == s.messages[..s.upTo] + Tail(s);
    SplitRows(s.messages, s.messages[..s.upTo], Tail(s));
    assert Tail(s) == s.messages[s.upTo..to] + s.messages[to..];
    SplitRows(Tail(s), s.messages[s.upTo..to], s.messages[to..]);
  }

  // What a step does to the texts.
  predicate Writes(s: State, step: Step, next: State) {
    && next.deposits.dumped == s.deposits.dumped + Numbers(Taken(s, step))
    && Beside(next.deposits) == Beside(s.deposits) + Covered(s, step) + Spared(Taken(s, step))
  }

  lemma {:induction false} OneMore(items: seq<Item>, item: Item)
    requires Ascending(items) && Numbers(items) <= All(item.number)
    ensures Ascending(items + [item]) && Numbers(items + [item]) == Numbers(items) + {item.number}
  {
    NumbersConcat(items, [item]);
    assert Numbers([item]) == {item.number} by { assert [item][0].number == item.number; }
    forall i: nat | i < |items| ensures items[i].number < item.number {
      assert items[i].number in Numbers(items);
    }
  }

  lemma {:induction false} AppendKeeps(s: State, msg: Message, note: Notes.Row)
    requires Ok(s)
    ensures var step := Append(msg, note); Ok(After(s, step)) && Writes(s, step, After(s, step))
  {
    var item, next := Item(s.count, msg, note), After(s, Append(msg, note));
    TailSplit(s, s.upTo);
    OneMore(s.messages, item);
    OneMore(Tail(s), item);
    assert Tail(next) == Tail(s) + [item];
    assert All(s.count + 1) == All(s.count) + {s.count};
  }

  lemma {:induction false} ConsolidateKeeps(s: State, to: nat, answered: bool)
    requires Ok(s) && s.upTo <= to <= |s.messages|
    ensures var step := Consolidate(to, answered); Ok(After(s, step)) && Writes(s, step, After(s, step))
  {
    var chunk, d := s.messages[s.upTo..to], s.deposits;
    TailSplit(s, to);
    SparedInside(chunk);
    MovePart(Numbers(Tail(s)), Numbers(chunk), Numbers(s.messages[to..]), d.archived, d.copied, d.dumped, All(s.count));
  }

  lemma {:induction false} NewKeeps(s: State, answered: bool)
    requires Ok(s)
    ensures var step := New(answered); Ok(After(s, step)) && Writes(s, step, After(s, step))
  {
    var chunk, d := Tail(s), s.deposits;
    SparedInside(chunk);
    MovePart(Numbers(chunk), Numbers(chunk), {}, d.archived, d.copied, d.dumped, All(s.count));
    assert Tail(After(s, New(answered))) == [];
  }

  lemma {:induction false} CompactedIs(s: State, max: int, project: bool, answers: Answers)
    requires s.upTo <= |s.messages|
    ensures Compacted(s, max, project, answers) ==
            if Tail(s) == [] then s else Outcome(s, Removable(s, max), project, answers)
  {
    assert |Msgs(Tail(s))| == |Tail(s)|;
  }

  // What it does, by whether it truncates.
  lemma {:induction false} OutcomeIs(s: State, k: nat, project: bool, answers: Answers)
    requires s.upTo + k <= |s.messages|
    ensures var next, removed, kept := Outcome(s, k, project, answers), s.messages[s.upTo..s.upTo + k], s.messages[s.upTo + k..];
            && next.count == s.count && next.deposits == Stored(s.deposits, removed, kept, project, answers)
            && (if Safely(k, project, answers) then next.messages == kept && next.upTo == 0
                else next.messages == s.messages && next.upTo == s.upTo)
  {
  }

  lemma {:induction false} StoredWrites(d: Deposits, removed: seq<Item>, kept: seq<Item>, project: bool, answers: Answers)
    ensures var e := Stored(d, removed, kept, project, answers);
            && e.dumped == d.dumped
            && Beside(e) == Beside(d) + if removed == [] then {}
                                        else if answers.summary then Numbers(kept)
                                        else if project then Spared(removed) else {}
  {
  }

  lemma {:induction false} OutcomeWrites(s: State, k: nat, project: bool, answers: Answers)
    requires s.upTo + k <= |s.messages|
    ensures var next := Outcome(s, k, project, answers);
            && next.deposits.dumped == s.deposits.dumped
            && Beside(next.deposits) == Beside(s.deposits) + CoveredBy(s, k, project, answers)
  {
    OutcomeIs(s, k, project, answers);
    StoredWrites(s.deposits, s.messages[s.upTo..s.upTo + k], s.messages[s.upTo + k..], project, answers);
  }

  lemma {:induction false} IdleWrites(s: State, max: int, project: bool, answers: Answers)
    requires s.upTo <= |s.messages|
    ensures var step := Idle(max, project, answers); Writes(s, step, After(s, step))
  {
    CompactedIs(s, max, project, answers);
    OutcomeWrites(s, Removable(s, max), project, answers);
    assert Numbers([]) == {} && Spared([]) == {};
  }

  lemma {:induction false} StoredParts(d: Deposits, tail: set<nat>, removed: seq<Item>, kept: seq<Item>, project: bool,
                                       answers: Answers, all: set<nat>)
    requires Parts(tail, d.archived, d.copied, d.dumped, all)
    requires tail == Numbers(removed) + Numbers(kept) && Numbers(removed) !! Numbers(kept)
    ensures var e := Stored(d, removed, kept, project, answers);
            Parts(if removed == [] || answers.summary || (project && answers.copy) then Numbers(kept) else tail,
                  e.archived, e.copied, e.dumped, all)
  {
    MovePart(tail, Numbers(removed), Numbers(kept), d.archived, d.copied, d.dumped, all);
  }

  // What makes a state fine when its texts stay within the rows that came.
  lemma {:induction false} OkOf(next: State, all: set<nat>)
    requires next.upTo <= |next.messages| && Ascending(next.messages) && all == All(next.count)
    requires Numbers(next.messages) <= all && Beside(next.deposits) <= all
    requires Parts(Numbers(Tail(next)), next.deposits.archived, next.deposits.copied, next.deposits.dumped, all)
    ensures Ok(next)
  {
  }

  lemma {:induction false} CoveredCame(s: State, k: nat, project: bool, answers: Answers)
    requires Ok(s) && s.upTo + k <= |s.messages|
    ensures Beside(s.deposits) + CoveredBy(s, k, project, answers) <= All(s.count)
  {
    TailSplit(s, s.upTo + k);
    SparedInside(s.messages[s.upTo..s.upTo + k]);
  }

  lemma {:induction false} OutcomeParts(s: State, k: nat, project: bool, answers: Answers)
    requires Ok(s) && s.upTo + k <= |s.messages|
    ensures var d := Outcome(s, k, project, answers).deposits;
            Parts(Numbers(if Safely(k, project, answers) then s.messages[s.upTo + k..] else Tail(s)),
                  d.archived, d.copied, d.dumped, All(s.count))
  {
    var removed, kept := s.messages[s.upTo..s.upTo + k], s.messages[s.upTo + k..];
    OutcomeIs(s, k, project, answers);
    TailSplit(s, s.upTo + k);
    assert removed == [] <==> k == 0;
    StoredParts(s.deposits, Numbers(Tail(s)), removed, kept, project, answers, All(s.count));
  }

  lemma {:induction false} OutcomeKeeps(s: State, k: nat, project: bool, answers: Answers)
    requires Ok(s) && s.upTo + k <= |s.messages|
    ensures Ok(Outcome(s, k, project, answers))
  {
    var next, kept := Outcome(s, k, project, answers), s.messages[s.upTo + k..];
    OutcomeIs(s, k, project, answers);
    OutcomeWrites(s, k, project, answers);
    OutcomeParts(s, k, project, answers);
    CoveredCame(s, k, project, answers);
    TailSplit(s, s.upTo + k);
    assert kept[0..] == kept;
    OkOf(next, All(s.count));
  }

  lemma {:induction false} IdleKeeps(s: State, max: int, project: bool, answers: Answers)
    requires Ok(s)
    ensures Ok(Compacted(s, max, project, answers))
  {
    CompactedIs(s, max, project, answers);
    if Tail(s) != [] {
      OutcomeKeeps(s, Removable(s, max), project, answers);
    }
  }

  lemma {:induction false} CapPieces(s: State, from: nat, to: nat)
    requires s.upTo <= |s.messages| && from <= to <= |s.messages|
    ensures Tail(s) == (if s.upTo < from then s.messages[s.upTo..from] else [])
                       + (s.messages[from..to][Below(s.upTo, from, to)..] + s.messages[Max(to, s.upTo)..])
  {
    var ms := s.messages;
    if s.upTo < from {
      assert ms[s.upTo..] == ms[s.upTo..from] + (ms[from..to] + ms[to..]);
    } else if s.upTo <= to {
      assert ms[from..to][s.upTo - from..] == ms[s.upTo..to];
      assert ms[s.upTo..] == ms[s.upTo..to] + ms[to..];
    }
  }

  // The tail when rows [from, to) are kept: what stands outside them, and what stands inside.
  lemma {:induction false} CapSplit(s: State, from: nat, to: nat)
    requires s.upTo <= |s.messages| && from <= to <= |s.messages| && Ascending(s.messages)
    ensures var inside := s.messages[from..to][Below(s.upTo, from, to)..];
            && Numbers(Tail(s)) == Numbers(Outside(s, from, to)) + Numbers(inside)
            && Numbers(Outside(s, from, to)) !! Numbers(inside)
  {
    var ms, inside := s.messages, s.messages[from..to][Below(s.upTo, from, to)..];
    var front := if s.upTo < from then ms[s.upTo..from] else [];
    var back := ms[Max(to, s.upTo)..];
    CapPieces(s, from, to);
    TailSplit(s, s.upTo);
    SplitRows(Tail(s), front, inside + back);
    SplitRows(inside + back, inside, back);
    NumbersConcat(front, back);
  }

  lemma {:induction false} SliceRows(items: seq<Item>, from: nat, to: nat)
    requires from <= to <= |items| && Ascending(items)
    ensures Ascending(items[from..to]) && Numbers(items[from..to]) <= Numbers(items)
  {
    assert items == items[..from] + items[from..] && items[from..] == items[from..to] + items[to..];
    SplitRows(items, items[..from], items[from..]);
    SplitRows(items[from..], items[from..to], items[to..]);
  }

  lemma {:induction false} CapKeeps(s: State, from: nat, to: nat)
    requires Ok(s) && from <= to <= |s.messages|
    ensures Ok(After(s, Cap(from, to))) && Writes(s, Cap(from, to), After(s, Cap(from, to)))
  {
    var d, chunk, next := s.deposits, Outside(s, from, to), After(s, Cap(from, to));
    CapSplit(s, from, to);
    SliceRows(s.messages, from, to);
    SparedInside(chunk);
    MovePart(Numbers(Tail(s)), Numbers(chunk), Numbers(Tail(next)), d.archived, d.copied, d.dumped, All(s.count));
  }

  lemma {:induction false} StepKeeps(s: State, step: Step)
    requires Ok(s)
    ensures Ok(After(s, step)) && Writes(s, step, After(s, step))
  {
    match step
    case Append(msg, note) => AppendKeeps(s, msg, note);
    case Consolidate(to, answered) => if s.upTo <= to <= |s.messages| { ConsolidateKeeps(s, to, answered); }
    case Idle(max, project, answers) =>
      IdleKeeps(s, max, project, answers);
      IdleWrites(s, max, project, answers);
    case New(answered) => NewKeeps(s, answered);
    case Cap(from, to) => if from <= to <= |s.messages| { CapKeeps(s, from, to); }
  }

  // ---------------------------------------------------------- every row is in one place

  // The rows of the chunks a run took without a summary.
  function TakenBy(steps: seq<Step>): set<nat> {
    if steps == [] then {} else
      var front := steps[..|steps| - 1];
      TakenBy(front) + Numbers(Taken(Ran(front), steps[|steps| - 1]))
  }

  // Each row that ever came is still to consolidate, was taken with a summary, was copied into the
  // project, or was taken without a summary - exactly one of them.
  lemma {:induction false} EveryRowIsAccountedFor(steps: seq<Step>)
    ensures Ok(Ran(steps)) && Ran(steps).deposits.dumped == TakenBy(steps)
  {
    if steps == [] {
      assert Numbers([]) == {};
    } else {
      EveryRowIsAccountedFor(steps[..|steps| - 1]);
      StepKeeps(Ran(steps[..|steps| - 1]), steps[|steps| - 1]);
    }
  }

  // ---------------------------------------------------------- lost rows

  // In no session, no summary, no copy, and not whole in a raw dump.
  function Lost(s: State): set<nat> {
    All(s.count) - Numbers(s.messages) - s.deposits.archived - s.deposits.copied - Beside(s.deposits)
  }

  // Taken without a summary and covered by no other text.
  function Exposed(s: State): set<nat> {
    s.deposits.dumped - Beside(s.deposits)
  }

  lemma {:induction false} LostIsExposed(s: State)
    requires Ok(s)
    ensures Lost(s) == Exposed(s) - Numbers(s.messages)
  {
    TailSplit(s, s.upTo);
  }

  lemma {:induction false} HeadAndTail(s: State)
    requires Ok(s)
    ensures Numbers(s.messages) == Numbers(s.messages[..s.upTo]) + Numbers(Tail(s))
    ensures Numbers(s.messages[..s.upTo]) !! Numbers(Tail(s))
  {
    assert s.messages == s.messages[..s.upTo] + Tail(s);
    SplitRows(s.messages, s.messages[..s.upTo], Tail(s));
  }

  // One idle compaction loses an exposed row exactly when it truncates and the row stands below the mark.
  lemma {:induction false} IdleLosesIff(s: State, max: int, project: bool, answers: Answers, n: nat)
    requires Ok(s) && n in Exposed(s) && n in Numbers(s.messages)
    ensures n in Numbers(s.messages[..s.upTo])
    ensures n in Lost(Compacted(s, max, project, answers)) <==> Truncates(s, max, project, answers)
  {
    var next, k := Compacted(s, max, project, answers), Removable(s, max);
    IdleKeeps(s, max, project, answers);
    LostIsExposed(next);
    HeadAndTail(s);
    CompactedIs(s, max, project, answers);
    OutcomeIs(s, k, project, answers);
    OutcomeWrites(s, k, project, answers);
    TailSplit(s, s.upTo + k);
    SparedInside(s.messages[s.upTo..s.upTo + k]);
  }

  // And no other row.
  lemma {:induction false} IdleLosesNoOther(s: State, max: int, project: bool, answers: Answers, n: nat)
    requires Ok(s) && n in Lost(Compacted(s, max, project, answers)) && n !in Lost(s)
    ensures n in Exposed(s) && n in Numbers(s.messages)
  {
    IdleKeeps(s, max, project, answers);
    IdleWrites(s, max, project, answers);
    LostIsExposed(Compacted(s, max, project, answers));
    LostIsExposed(s);
  }

  // Rows a step takes without a summary and cuts from its raw dump.
  function Cut(s: State, step: Step): set<nat> {
    Numbers(Taken(s, step)) - Spared(Taken(s, step))
  }

  function CoveredIn(steps: seq<Step>): set<nat> {
    if steps == [] then {} else
      var front := steps[..|steps| - 1];
      CoveredIn(front) + Covered(Ran(front), steps[|steps| - 1])
  }

  // Rows a run cut from a raw dump that no earlier text had covered.
  function CutIn(steps: seq<Step>): set<nat> {
    if steps == [] then {} else
      var front := steps[..|steps| - 1];
      CutIn(front) + (Cut(Ran(front), steps[|steps| - 1]) - CoveredIn(front))
  }

  lemma {:induction false} CoveredInTail(s: State, k: nat, project: bool, answers: Answers)
    requires Ok(s) && s.upTo + k <= |s.messages|
    ensures CoveredBy(s, k, project, answers) <= Numbers(Tail(s))
    ensures Numbers(Tail(Outcome(s, k, project, answers))) <= Numbers(Tail(s))
  {
    OutcomeKeeps(s, k, project, answers);
    OutcomeIs(s, k, project, answers);
    TailSplit(s, s.upTo + k);
    SparedInside(s.messages[s.upTo..s.upTo + k]);
  }

  lemma {:induction false} IdleInTail(s: State, max: int, project: bool, answers: Answers)
    requires Ok(s)
    ensures Compacted(s, max, project, answers).upTo <= |Compacted(s, max, project, answers).messages|
    ensures Covered(s, Idle(max, project, answers)) <= Numbers(Tail(s))
    ensures Numbers(Tail(Compacted(s, max, project, answers))) <= Numbers(Tail(s))
  {
    IdleKeeps(s, max, project, answers);
    CompactedIs(s, max, project, answers);
    CoveredInTail(s, Removable(s, max), project, answers);
  }

  lemma {:induction false} TakenInTail(s: State, step: Step)
    requires Ok(s)
    ensures After(s, step).upTo <= |After(s, step).messages|
    ensures Numbers(Taken(s, step)) <= Numbers(Tail(s)) && Covered(s, step) <= Numbers(Tail(s))
    ensures Numbers(Taken(s, step)) == {} || Covered(s, step) == {}
    ensures Numbers(Taken(s, step)) !! Numbers(Tail(After(s, step)))
    ensures Numbers(Tail(After(s, step))) <= Numbers(Tail(s)) + {s.count}
  {
    match step
    case Append(msg, note) =>
      assert Tail(After(s, step)) == Tail(s) + [Item(s.count, msg, note)];
      NumbersConcat(Tail(s), [Item(s.count, msg, note)]);
    case Consolidate(to, answered) => if s.upTo <= to <= |s.messages| { TailSplit(s, to); }
    case Idle(max, project, answers) => IdleInTail(s, max, project, answers);
    case New(answered) =>
    case Cap(from, to) =>
      if from <= to <= |s.messages| {
        CapKeeps(s, from, to);
        CapSplit(s, from, to);
      }
  }

  // Sets only: what a step adds to the texts, against the run so far.
  lemma {:induction false} ExposedStep(
    tail: set<nat>, tail': set<nat>, dumped: set<nat>, beside: set<nat>, taken: set<nat>, spared: set<nat>,
    covered: set<nat>, before: set<nat>, count: nat)
    requires tail !! dumped && taken <= tail && covered <= tail && spared <= taken && (taken == {} || covered == {})
    requires taken !! tail' && tail' <= tail + {count} && count !in beside && count !in before
    requires tail * beside == tail * before && before <= All(count) && beside <= All(count)
    ensures (dumped + taken) - (beside + covered + spared) == (dumped - beside) + (taken - spared - before)
    ensures tail' * (beside + covered + spared) == tail' * (before + covered)
  {
    forall n ensures n in tail ==> (n in beside <==> n in before) {
      assert n in tail ==> (n in tail * beside <==> n in tail * before);
    }
  }

  // The texts of a run against the rows its steps cut and covered.
  ghost predicate Tells(s: State, cut: set<nat>, covered: set<nat>) {
    && Ok(s) && Exposed(s) == cut && covered <= All(s.count)
    && Numbers(Tail(s)) * Beside(s.deposits) == Numbers(Tail(s)) * covered
  }

  lemma {:induction false} StepTells(s: State, step: Step, cut: set<nat>, covered: set<nat>)
    requires Tells(s, cut, covered)
    ensures Tells(After(s, step), cut + (Cut(s, step) - covered), covered + Covered(s, step))
  {
    var next, taken, spared := After(s, step), Numbers(Taken(s, step)), Spared(Taken(s, step));
    StepKeeps(s, step);
    TakenInTail(s, step);
    SparedInside(Taken(s, step));
    ExposedStep(Numbers(Tail(s)), Numbers(Tail(next)), s.deposits.dumped, Beside(s.deposits), taken, spared,
                Covered(s, step), covered, s.count);
    CountGrows(s, step);
  }

  lemma {:induction false} CountGrows(s: State, step: Step)
    requires Ok(s)
    ensures s.count <= After(s, step).count && Numbers(Tail(s)) <= All(s.count)
  {
    if step.Idle? {
      CompactedIs(s, step.max, step.project, step.answers);
      OutcomeIs(s, Removable(s, step.max), step.project, step.answers);
    }
  }

  lemma {:induction false} RunExposes(steps: seq<Step>)
    ensures Tells(Ran(steps), CutIn(steps), CoveredIn(steps))
  {
    if steps == [] {
      EveryRowIsAccountedFor(steps);
    } else {
      RunExposes(steps[..|steps| - 1]);
      StepTells(Ran(steps[..|steps| - 1]), steps[|steps| - 1], CutIn(steps[..|steps| - 1]), CoveredIn(steps[..|steps| - 1]));
    }
  }

  lemma {:induction false} LostAre(steps: seq<Step>)
    ensures Lost(Ran(steps)) == CutIn(steps) - Numbers(Ran(steps).messages)
  {
    RunExposes(steps);
    LostIsExposed(Ran(steps));
  }

  // ---------------------------------------------------------- lost rows, step by step

  // A step takes row n without a summary, and its raw dump is cut before the row ends.
  ghost predicate CutShort(s: State, step: Step, n: nat) {
    exists j: nat :: && j < |Taken(s, step)| && Taken(s, step)[j].number == n
                     && !Notes.Whole(NotesOf(Taken(s, step)), j)
  }

  predicate RemovesPlace(s: State, step: Step, i: nat)
    requires s.upTo <= |s.messages|
  {
    match step
    case Idle(max, project, answers) => Truncates(s, max, project, answers) && i < s.upTo + Removable(s, max)
    case New(answered) => true
    case Cap(from, to) => from <= to <= |s.messages| && !(from <= i < to)
    case _ => false
  }

  // A step takes row n out of the session.
  ghost predicate Removes(s: State, step: Step, n: nat) {
    s.upTo <= |s.messages| && exists i: nat :: i < |s.messages| && s.messages[i].number == n && RemovesPlace(s, step, i)
  }

  ghost predicate CoveredAt(steps: seq<Step>, j: nat, n: nat) {
    j < |steps| && n in Covered(Ran(steps[..j]), steps[j])
  }

  // Step k of a run cuts row n short, and no idle compaction had covered the row before.
  ghost predicate CutAt(steps: seq<Step>, k: nat, n: nat) {
    && k < |steps| && CutShort(Ran(steps[..k]), steps[k], n)
    && forall j: nat :: j < k ==> !CoveredAt(steps, j, n)
  }

  ghost predicate RemovedAt(steps: seq<Step>, l: nat, n: nat) {
    l < |steps| && Removes(Ran(steps[..l]), steps[l], n)
  }

  lemma {:induction false} AscendingGap(a: seq<Item>, b: seq<Item>, c: seq<Item>)
    requires Ascending(a + (b + c))
    ensures Ascending(a + c)
  {
    var all, ac := a + (b + c), a + c;
    assert forall i: nat :: i < |a| ==> all[i] == ac[i];
    assert forall i: nat :: |a| <= i < |ac| ==> all[i + |b|] == ac[i];
  }

  lemma {:induction false} TakenAscends(s: State, step: Step)
    requires Ok(s)
    ensures Ascending(Taken(s, step))
  {
    TailSplit(s, s.upTo);
    if step.Cap? && step.from <= step.to <= |s.messages| {
      CapPieces(s, step.from, step.to);
      AscendingGap(if s.upTo < step.from then s.messages[s.upTo..step.from] else [],
                   s.messages[step.from..step.to][Below(s.upTo, step.from, step.to)..],
                   s.messages[Max(step.to, s.upTo)..]);
    }
  }

  lemma {:induction false} CutIs(items: seq<Item>, n: nat)
    requires Ascending(items)
    ensures n in Numbers(items) - Spared(items) <==>
            exists j: nat :: j < |items| && items[j].number == n && !Notes.Whole(NotesOf(items), j)
  {
    if j: nat :| j < |items| && items[j].number == n && !Notes.Whole(NotesOf(items), j) {
      assert n in Numbers(items);
      forall i: nat | i < |items| && items[i].number == n ensures i == j {
      }
    }
  }

  lemma {:induction false} Earlier(steps: seq<Step>, front: seq<Step>, k: nat)
    requires |steps| > 0 && front == steps[..|steps| - 1] && k < |front|
    ensures front[..k] == steps[..k] && front[k] == steps[k]
  {
  }

  lemma {:induction false} CoveredAtEarlier(steps: seq<Step>, front: seq<Step>, j: nat, n: nat)
    requires |steps| > 0 && front == steps[..|steps| - 1] && j < |front|
    ensures CoveredAt(front, j, n) <==> CoveredAt(steps, j, n)
  {
    Earlier(steps, front, j);
  }

  lemma {:induction false} CoveredLast(steps: seq<Step>, front: seq<Step>, n: nat)
    requires |steps| > 0 && front == steps[..|steps| - 1]
    ensures n in CoveredIn(steps) <==> n in CoveredIn(front) || CoveredAt(steps, |front|, n)
  {
  }

  lemma {:induction false} CoveredWhere(steps: seq<Step>, n: nat) returns (j: nat)
    requires n in CoveredIn(steps)
    ensures CoveredAt(steps, j, n)
    decreases |steps|
  {
    var front := steps[..|steps| - 1];
    CoveredLast(steps, front, n);
    if CoveredAt(steps, |front|, n) {
      j := |front|;
    } else {
      j := CoveredWhere(front, n);
      CoveredAtEarlier(steps, front, j, n);
    }
  }

  lemma {:induction false} CoveredThere(steps: seq<Step>, j: nat, n: nat)
    requires CoveredAt(steps, j, n)
    ensures n in CoveredIn(steps)
    decreases |steps|
  {
    var front := steps[..|steps| - 1];
    CoveredLast(steps, front, n);
    if j != |front| {
      CoveredAtEarlier(steps, front, j, n);
      CoveredThere(front, j, n);
    }
  }

  // No step of the front covered the row.
  lemma {:induction false} NotCoveredIff(steps: seq<Step>, front: seq<Step>, n: nat)
    requires |steps| > 0 && front == steps[..|steps| - 1]
    ensures n !in CoveredIn(front) <==> forall j: nat :: j < |front| ==> !CoveredAt(steps, j, n)
  {
    if n in CoveredIn(front) {
      var j := CoveredWhere(front, n);
      CoveredAtEarlier(steps, front, j, n);
    } else {
      forall j: nat | j < |front| ensures !CoveredAt(steps, j, n) {
        CoveredAtEarlier(steps, front, j, n);
        if CoveredAt(front, j, n) { CoveredThere(front, j, n); }
      }
    }
  }

  lemma {:induction false} CutAtEarlier(steps: seq<Step>, front: seq<Step>, k: nat, n: nat)
    requires |steps| > 0 && front == steps[..|steps| - 1] && k < |front|
    ensures CutAt(front, k, n) <==> CutAt(steps, k, n)
  {
    Earlier(steps, front, k);
    forall j: nat | j < k ensures CoveredAt(front, j, n) <==> CoveredAt(steps, j, n) {
      CoveredAtEarlier(steps, front, j, n);
    }
  }

  lemma {:induction false} CutAtLast(steps: seq<Step>, front: seq<Step>, n: nat)
    requires |steps| > 0 && front == steps[..|steps| - 1]
    ensures n in Cut(Ran(front), steps[|front|]) - CoveredIn(front) <==> CutAt(steps, |front|, n)
  {
    EveryRowIsAccountedFor(front);
    TakenAscends(Ran(front), steps[|front|]);
    CutIs(Taken(Ran(front), steps[|front|]), n);
    NotCoveredIff(steps, front, n);
  }

  lemma {:induction false} CutLast(steps: seq<Step>, front: seq<Step>, n: nat)
    requires |steps| > 0 && front == steps[..|steps| - 1]
    ensures n in CutIn(steps) <==> n in CutIn(front) || CutAt(steps, |front|, n)
  {
    CutAtLast(steps, front, n);
  }

  lemma {:induction false} CutWhere(steps: seq<Step>, n: nat) returns (k: nat)
    requires n in CutIn(steps)
    ensures CutAt(steps, k, n)
    decreases |steps|
  {
    var front := steps[..|steps| - 1];
    CutLast(steps, front, n);
    if n in CutIn(front) {
      k := CutWhere(front, n);
      CutAtEarlier(steps, front, k, n);
    } else {
      k := |front|;
    }
  }

  lemma {:induction false} CutThere(steps: seq<Step>, k: nat, n: nat)
    requires CutAt(steps, k, n)
    ensures n in CutIn(steps)
    decreases |steps|
  {
    var front := steps[..|steps| - 1];
    CutLast(steps, front, n);
    if k != |front| {
      CutAtEarlier(steps, front, k, n);
      CutThere(front, k, n);
    }
  }

  // ---------------------------------------------------------- leaving the session

  lemma {:induction false} KeptPlaces(s: State, next: State, from: nat, to: nat, n: nat)
    requires Ok(s) && from <= to <= |s.messages| && next.messages == s.messages[from..to]
    ensures n in Numbers(next.messages) <==>
            exists i: nat :: i < |s.messages| && s.messages[i].number == n && from <= i < to
  {
    if n in Numbers(next.messages) {
      var j: nat :| j < |next.messages| && next.messages[j].number == n;
      assert s.messages[from + j].number == n;
    }
    if i: nat :| i < |s.messages| && s.messages[i].number == n && from <= i < to {
      assert next.messages[i - from].number == n;
    }
  }

  // The rows a step keeps of those there.
  function KeptSpan(s: State, step: Step): (r: (nat, nat))
    requires s.upTo <= |s.messages|
    ensures r.0 <= r.1 <= |s.messages|
  {
    match step
    case Idle(max, project, answers) =>
      if Truncates(s, max, project, answers) then (s.upTo + Removable(s, max), |s.messages|) else (0, |s.messages|)
    case New(answered) => (0, 0)
    case Cap(from, to) => if from <= to <= |s.messages| then (from, to) else (0, |s.messages|)
    case _ => (0, |s.messages|)
  }

  lemma {:induction false} IdleSpan(s: State, max: int, project: bool, answers: Answers)
    requires s.upTo <= |s.messages|
    ensures Compacted(s, max, project, answers).messages ==
            if Truncates(s, max, project, answers) then s.messages[s.upTo + Removable(s, max)..] else s.messages
  {
    CompactedIs(s, max, project, answers);
    OutcomeIs(s, Removable(s, max), project, answers);
  }

  lemma {:induction false} SpanIs(s: State, step: Step)
    requires s.upTo <= |s.messages|
    ensures var span := KeptSpan(s, step); step.Append? || After(s, step).messages == s.messages[span.0..span.1]
  {
    assert s.messages[0..|s.messages|] == s.messages;
    if step.Idle? {
      IdleSpan(s, step.max, step.project, step.answers);
    }
  }

  lemma {:induction false} SpanRemoves(s: State, step: Step, i: nat)
    requires s.upTo <= |s.messages| && i < |s.messages|
    ensures var span := KeptSpan(s, step); RemovesPlace(s, step, i) <==> !(span.0 <= i < span.1)
  {
  }

  // A row there leaves exactly when the step removes it, and no row comes back.
  lemma {:induction false} RemovesIff(s: State, step: Step, n: nat)
    requires Ok(s) && n < s.count
    ensures n in Numbers(After(s, step).messages) <==> n in Numbers(s.messages) && !Removes(s, step, n)
  {
    var span := KeptSpan(s, step);
    SpanIs(s, step);
    if step.Append? {
      OneMore(s.messages, Item(s.count, step.msg, step.note));
    } else {
      KeptPlaces(s, After(s, step), span.0, span.1, n);
    }
    if n in Numbers(s.messages) {
      var i: nat :| i < |s.messages| && s.messages[i].number == n;
      SpanRemoves(s, step, i);
      forall j: nat | j < |s.messages| && s.messages[j].number == n ensures j == i {
      }
    }
  }

  lemma {:induction false} RemovedAtEarlier(steps: seq<Step>, front: seq<Step>, l: nat, n: nat)
    requires |steps| > 0 && front == steps[..|steps| - 1] && l < |front|
    ensures RemovedAt(front, l, n) <==> RemovedAt(steps, l, n)
  {
    Earlier(steps, front, l);
  }

  // A row there before the last step is there after it unless that step removes it, and one that had come
  // and is not there stays away.
  lemma {:induction false} LastRemoves(steps: seq<Step>, front: seq<Step>, n: nat)
    requires |steps| > 0 && front == steps[..|steps| - 1] && n < Ran(front).count
    ensures n in Numbers(Ran(steps).messages) <==> n in Numbers(Ran(front).messages) && !RemovedAt(steps, |front|, n)
  {
    EveryRowIsAccountedFor(front);
    RemovesIff(Ran(front), steps[|front|], n);
  }

  lemma {:induction false} CameBefore(steps: seq<Step>, k: nat, n: nat)
    requires k <= |steps| && n < Ran(steps[..k]).count
    ensures n < Ran(steps).count
    decreases |steps|
  {
    if k == |steps| {
      assert steps[..k] == steps;
    } else {
      var front := steps[..|steps| - 1];
      assert front[..k] == steps[..k];
      CameBefore(front, k, n);
      CountStep(steps, front);
    }
  }

  lemma {:induction false} CountStep(steps: seq<Step>, front: seq<Step>)
    requires |steps| > 0 && front == steps[..|steps| - 1]
    ensures Ran(front).count <= Ran(steps).count
  {
    EveryRowIsAccountedFor(front);
    CountGrows(Ran(front), steps[|front|]);
  }

  lemma {:induction false} GoneWhere(steps: seq<Step>, k: nat, n: nat) returns (l: nat)
    requires k < |steps| && n < Ran(steps[..k]).count && n in Numbers(Ran(steps[..k]).messages)
    requires n !in Numbers(Ran(steps).messages)
    ensures k <= l && RemovedAt(steps, l, n)
    decreases |steps|
  {
    var front := steps[..|steps| - 1];
    assert front[..k] == steps[..k];
    CameBefore(front, k, n);
    LastRemoves(steps, front, n);
    if n in Numbers(Ran(front).messages) {
      l := |front|;
    } else {
      l := GoneWhere(front, k, n);
      RemovedAtEarlier(steps, front, l, n);
    }
  }

  lemma {:induction false} GoneSince(steps: seq<Step>, l: nat, n: nat)
    requires RemovedAt(steps, l, n) && n < Ran(steps[..l]).count
    ensures n !in Numbers(Ran(steps).messages)
    decreases |steps|
  {
    var front := steps[..|steps| - 1];
    assert front[..l] == steps[..l];
    CameBefore(front, l, n);
    LastRemoves(steps, front, n);
    if l < |front| {
      RemovedAtEarlier(steps, front, l, n);
      GoneSince(front, l, n);
    }
  }

  lemma {:induction false} CutIsThere(steps: seq<Step>, k: nat, n: nat)
    requires CutAt(steps, k, n)
    ensures n in Numbers(Ran(steps[..k]).messages) && n < Ran(steps[..k]).count
  {
    var s, step := Ran(steps[..k]), steps[k];
    EveryRowIsAccountedFor(steps[..k]);
    TakenInTail(s, step);
    HeadAndTail(s);
    var j: nat :| && j < |Taken(s, step)| && Taken(s, step)[j].number == n
                  && !Notes.Whole(NotesOf(Taken(s, step)), j);
    assert n in Numbers(Taken(s, step));
  }

  lemma {:induction false} LostWhere(steps: seq<Step>, n: nat) returns (k: nat, l: nat)
    requires n in Lost(Ran(steps))
    ensures CutAt(steps, k, n) && k <= l && RemovedAt(steps, l, n)
  {
    LostAre(steps);
    k := CutWhere(steps, n);
    CutIsThere(steps, k, n);
    l := GoneWhere(steps, k, n);
  }

  lemma {:induction false} LostThere(steps: seq<Step>, k: nat, l: nat, n: nat)
    requires CutAt(steps, k, n) && k <= l && RemovedAt(steps, l, n)
    ensures n in Lost(Ran(steps))
  {
    LostAre(steps);
    CutThere(steps, k, n);
    CutIsThere(steps, k, n);
    assert steps[..l][..k] == steps[..k];
    CameBefore(steps[..l], k, n);
    GoneSince(steps, l, n);
  }

  // In every run a row is lost exactly when a step took it without a summary and its raw dump is cut
  // before the row ends, no idle compaction had put the row into a text before, and that step or a later
  // one removes it from the session.
  lemma {:induction false} LostIff(steps: seq<Step>, n: nat)
    ensures n in Lost(Ran(steps)) <==> exists k: nat, l: nat :: CutAt(steps, k, n) && k <= l && RemovedAt(steps, l, n)
  {
    if n in Lost(Ran(steps)) {
      var k, l := LostWhere(steps, n);
    } else {
      forall k: nat, l: nat | CutAt(steps, k, n) && k <= l && RemovedAt(steps, l, n) ensures false {
        LostThere(steps, k, l, n);
      }
    }
  }

  // ---------------------------------------------------------- a lost row

  lemma {:induction false} OneMoreStep(steps: seq<Step>, step: Step)
    ensures Ran(steps + [step]) == After(Ran(steps), step)
  {
    assert (steps + [step])[..|steps|] == steps;
  }

  // Two rows, the first consolidated without a summary, then an idle compaction.
  function TwoRows(a: Item, b: Item): seq<Step> {
    [] + [Append(a.msg, a.note)] + [Append(b.msg, b.note)]
  }

  lemma {:induction false} TwoAppended(a: Item, b: Item)
    requires a.number == 0 && b.number == 1
    ensures Ran(TwoRows(a, b)) == Fresh().(messages := [a, b], count := 2)
  {
    OneMoreStep([], Append(a.msg, a.note));
    OneMoreStep([] + [Append(a.msg, a.note)], Append(b.msg, b.note));
    assert [] + [a] + [b] == [a, b];
  }

  lemma {:induction false} OneRowSpared(a: Item)
    ensures Numbers([a]) == {a.number}
    ensures Spared([a]) == if Notes.Printed(a.note) && |Notes.Line(a.note)| > Notes.RAW_ARCHIVE_MAX_CHARS then {} else {a.number}
  {
    assert NotesOf([a]) == [a.note];
    Notes.OneRowWhole(a.note);
    assert [a][0].number == a.number;
    if Notes.Whole(NotesOf([a]), 0) {
      assert a.number in Spared([a]);
    }
  }

  lemma {:induction false} FirstDumped(a: Item, b: Item)
    requires a.number == 0 && b.number == 1
    ensures Ran(TwoRows(a, b) + [Consolidate(1, false)]) ==
            State([a, b], 1, None, 2, Deposits({}, {}, {0}, {}, Spared([a])))
  {
    TwoAppended(a, b);
    OneMoreStep(TwoRows(a, b), Consolidate(1, false));
    OneRowSpared(a);
    assert [a, b][0..1] == [a];
  }

  // The first row is lost exactly when it is printed longer than a raw dump may be.
  lemma {:induction false} DumpedRowLeavesTheSession(a: Item, b: Item, answers: Answers)
    requires a.number == 0 && b.number == 1
    ensures var s := Ran(TwoRows(a, b) + [Consolidate(1, false)] + [Idle(8, false, answers)]);
            && s.messages == [b]
            && (0 in Lost(s) <==> Notes.Printed(a.note) && |Notes.Line(a.note)| > Notes.RAW_ARCHIVE_MAX_CHARS)
  {
    var s := State([a, b], 1, None, 2, Deposits({}, {}, {0}, {}, Spared([a])));
    FirstDumped(a, b);
    OneMoreStep(TwoRows(a, b) + [Consolidate(1, false)], Idle(8, false, answers));
    OneRowSpared(a);
    OneRowSpared(b);
    CompactedIs(s, 8, false, answers);
    assert Tail(s) == [b] && Removable(s, 8) == 0;
    OutcomeIs(s, 0, false, answers);
    assert s.messages[1..1] == [] && s.messages[1 + 0..] == [b];
    assert 0 in All(2);
  }

  // Such a row: sixteen thousand characters in one message.
  lemma {:induction false} LongRowIsLost(b: Item, answers: Answers)
    requires b.number == 1
    ensures var text := seq(Notes.RAW_ARCHIVE_MAX_CHARS, _ => 'x');
            var a := Item(0, Message(User, [], "", "", Text(text)), Notes.Row("2026-01-01T09:00", "USER", [], text, false));
            0 in Lost(Ran(TwoRows(a, b) + [Consolidate(1, false)] + [Idle(8, false, answers)]))
  {
    var text := seq(Notes.RAW_ARCHIVE_MAX_CHARS, _ => 'x');
    var a := Item(0, Message(User, [], "", "", Text(text)), Notes.Row("2026-01-01T09:00", "USER", [], text, false));
    assert |text| == Notes.RAW_ARCHIVE_MAX_CHARS;
    assert |Notes.Line(a.note)| > |text|;
    DumpedRowLeavesTheSession(a, b, answers);
  }
}
