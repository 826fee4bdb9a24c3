// The diary a conversation sees: a frozen view that keeps the prompt prefix stable, and the lines new
// since it was frozen.
module Diary {
  import opened Options
  import opened Selections

  const SHARP: nat := 3 * 86400
  const TRACE: nat := 7 * 86400
  const REFREEZE_AFTER_IDLE: nat := 3600
  const REFREEZE_AFTER_NEW: nat := 12
  const MAX_SHARP_LINES: nat := 30
  const MAX_COMING_UP: nat := 8

  // A history entry. `when` is its time stamp in seconds, to the minute; `line` how it is printed.
  datatype Row = Row(
    cursor: Option<nat>, when: Option<nat>, session: string, about: string, isDiary: bool,
    promptVisible: bool, untrusted: bool, line: string)

  datatype Session = Personal(key: string) | Project(key: string, notebook: string)

  // A coming date: its id and its line.
  datatype Coming = Coming(id: string, line: string)

  predicate Visible(row: Row, s: Session) {
    var own := row.session == s.key;
    && row.isDiary && row.promptVisible && (row.untrusted ==> own)
    && (s.Project? ==> !own && row.about == s.notebook)
  }

  function VisibleRows(rows: seq<Row>, s: Session): seq<Row> {
    if rows == [] then [] else
      var n := |rows| - 1;
      VisibleRows(rows[..n], s) + if Visible(rows[n], s) then [rows[n]] else []
  }

  lemma {:induction false} VisibleConcat(a: seq<Row>, b: seq<Row>, s: Session)
    ensures VisibleRows(a + b, s) == VisibleRows(a, s) + VisibleRows(b, s)
  {
    if b == [] {
      assert a + b == a;
    } else {
      assert (a + b)[..|a + b| - 1] == a + b[..|b| - 1];
      VisibleConcat(a, b[..|b| - 1], s);
    }
  }

  lemma {:induction false} VisibleHas(rows: seq<Row>, s: Session, row: Row)
    ensures row in VisibleRows(rows, s) <==> row in rows && Visible(row, s)
  {
    if rows != [] {
      var n := |rows| - 1;
      VisibleHas(rows[..n], s, row);
      assert rows == rows[..n] + [rows[n]];
    }
  }

  // The personal conversation sees every row but untrusted ones born elsewhere; a project only rows about it
  // born elsewhere, and none of these untrusted.
  function Seen(s: Session): Row -> bool {
    match s
    case Personal(key) => (r: Row) => r.isDiary && r.promptVisible && (r.session == key || !r.untrusted)
    case Project(key, notebook) =>
      (r: Row) => r.isDiary && r.promptVisible && r.session != key && r.about == notebook && !r.untrusted
  }

  lemma {:induction false} VisibleAre(rows: seq<Row>, s: Session)
    ensures VisibleRows(rows, s) == Only(rows, Seen(s))
  {
    if rows != [] {
      VisibleAre(rows[..|rows| - 1], s);
      assert Visible(rows[|rows| - 1], s) <==> Seen(s)(rows[|rows| - 1]);
    }
  }

  function Top(rows: seq<Row>): nat {
    if rows == [] then 0 else
      var c := rows[|rows| - 1].cursor;
      var t := Top(rows[..|rows| - 1]);
      if c.Some? && c.value > t then c.value else t
  }

  lemma {:induction false} TopIsMax(rows: seq<Row>, row: Row)
    requires row in rows && row.cursor.Some?
    ensures row.cursor.value <= Top(rows)
  {
    var n := |rows| - 1;
    if row in rows[..n] { TopIsMax(rows[..n], row); }
  }

  // ---------------------------------------------------------- the frozen section

  predicate Frozen(row: Row, until: nat) {
    row.cursor.Some? && row.cursor.value <= until && row.when.Some?
  }

  // Rows of the view not older than `oldest` and older than `newest`; a row after the anchor is recent.
  function Aged(rows: seq<Row>, until: nat, anchor: nat, newest: Option<nat>, oldest: nat): seq<Row> {
    if rows == [] then [] else
      var n := |rows| - 1;
      var row := rows[n];
      var age := if row.when.Some? then anchor - row.when.value else 0;
      Aged(rows[..n], until, anchor, newest, oldest)
      + if Frozen(row, until) && age <= oldest && (newest.Some? ==> age > newest.value) then [row] else []
  }

  function Last(rows: seq<Row>, n: nat): seq<Row> {
    if |rows| <= n then rows else rows[|rows| - n..]
  }

  // The detailed rows, the rows counted day by day, and the frozen dates.
  datatype Section = Section(sharp: seq<Row>, trace: seq<Row>, coming: seq<Coming>)

  function SectionOf(rows: seq<Row>, until: nat, anchor: nat, coming: seq<Coming>): Section {
    Section(Last(Aged(rows, until, anchor, None, SHARP), MAX_SHARP_LINES), Aged(rows, until, anchor, Some(SHARP), TRACE), coming)
  }

  method RenderRows(rows: seq<Row>, until: nat, anchor: nat) returns (sharp: seq<Row>, trace: seq<Row>)
    ensures sharp == Last(Aged(rows, until, anchor, None, SHARP), MAX_SHARP_LINES)
    ensures trace == Aged(rows, until, anchor, Some(SHARP), TRACE)
  {
    sharp, trace := [], [];
    for i := 0 to |rows|
      invariant sharp == Aged(rows[..i], until, anchor, None, SHARP)
      invariant trace == Aged(rows[..i], until, anchor, Some(SHARP), TRACE)
    {
      assert rows[..i + 1][..i] == rows[..i];
      var row := rows[i];
      if Frozen(row, until) {
        var age := anchor - row.when.value;
        if age <= SHARP {
          sharp := sharp + [row];
        } else if age <= TRACE {
          trace := trace + [row];
        }
      }
    }
    assert rows[..|rows|] == rows;
    sharp := Last(sharp, MAX_SHARP_LINES);
  }

  // ---------------------------------------------------------- one turn

  datatype View = View(cursor: Option<nat>, at: Option<nat>, seen: Option<nat>, dates: seq<Coming>)

  function Fresh(rows: seq<Row>, cursor: nat): seq<Row> {
    if rows == [] then [] else
      var n := |rows| - 1;
      Fresh(rows[..n], cursor)
      + if rows[n].cursor.Some? && rows[n].cursor.value > cursor then [rows[n]] else []
  }

  // Dates of `some` that are not in `others`, as they are or by id.
  function NotIn(some: seq<Coming>, others: seq<Coming>): seq<Coming> {
    if some == [] then [] else
      var n := |some| - 1;
      NotIn(some[..n], others) + if some[n] in others then [] else [some[n]]
  }

  function Ids(dates: seq<Coming>): set<string> {
    set d | d in dates :: d.id
  }

  function Gone(dates: seq<Coming>, window: set<string>): seq<Coming> {
    if dates == [] then [] else
      var n := |dates| - 1;
      Gone(dates[..n], window) + if dates[n].id in window then [] else [dates[n]]
  }

  function First(dates: seq<Coming>, n: nat): seq<Coming> {
    if |dates| <= n then dates else dates[..n]
  }

  // What is pending against a stored view.
  function Pending(rows: seq<Row>, v: View, window: seq<Coming>): nat {
    (if v.cursor.Some? then |Fresh(rows, v.cursor.value)| else 0)
    + |NotIn(First(window, MAX_COMING_UP), v.dates)| + |Gone(v.dates, Ids(window))|
  }

  predicate Refreezes(rows: seq<Row>, v: View, window: seq<Coming>, now: nat) {
    v.cursor.None? || v.at.None? || v.seen.None?
    || now > v.seen.value + REFREEZE_AFTER_IDLE
    || Pending(rows, v, window) > REFREEZE_AFTER_NEW
  }

  function Minute(t: nat): nat {
    t - t % 60
  }

  // The view after the turn.
  function Kept(entries: seq<Row>, s: Session, v: View, window: seq<Coming>, now: nat): View {
    if Refreezes(VisibleRows(entries, s), v, window, now)
    then View(Some(Top(entries)), Some(Minute(now)), Some(Minute(now)), First(window, MAX_COMING_UP))
    else v.(seen := Some(Minute(now)))
  }

  predicate Within(line: string, text: string) {
    exists i: nat :: i <= |text| && line <= text[i..]
  }

  lemma {:induction false} WithinIff(line: string, text: string)
    ensures Within(line, text) <==> exists before: string, after: string :: text == before + line + after
  {
    if Within(line, text) {
      var i: nat :| i <= |text| && line <= text[i..];
      assert text == text[..i] + line + text[i..][|line|..];
    }
    forall before: string, after: string | text == before + line + after ensures Within(line, text) {
      assert text[|before|..] == line + after;
      assert line <= text[|before|..];
    }
  }

  predicate Sent(line: string, history: seq<string>) {
    exists k: nat :: k < |history| && Within(line, history[k])
  }

  function Unsent(lines: seq<string>, history: seq<string>): seq<string> {
    if lines == [] then [] else
      var n := |lines| - 1;
      Unsent(lines[..n], history) + if Sent(lines[n], history) then [] else [lines[n]]
  }

  function RowLines(rows: seq<Row>): (r: seq<string>)
    ensures |r| == |rows|
  {
    seq(|rows|, i requires 0 <= i < |rows| => rows[i].line)
  }

  // A line about a date: that it is coming up, or no longer is.
  function DateLines(dates: seq<Coming>, prefix: string): (r: seq<string>)
    ensures |r| == |dates|
  {
    seq(|dates|, i requires 0 <= i < |dates| => prefix + dates[i].line)
  }

  const COMING_UP: string := "- coming up in a notebook: "
  const NO_LONGER: string := "- no longer coming up (it rang, or was moved or removed): "

  function News(rows: seq<Row>, v: View, window: seq<Coming>): seq<string> {
    (if v.cursor.Some? then RowLines(Fresh(rows, v.cursor.value)) else [])
    + DateLines(NotIn(First(window, MAX_COMING_UP), v.dates), COMING_UP)
    + DateLines(Gone(v.dates, Ids(window)), NO_LONGER)
  }

  function NewLines(entries: seq<Row>, s: Session, v: View, window: seq<Coming>, history: seq<string>, now: nat): seq<string> {
    var rows := VisibleRows(entries, s);
    if Refreezes(rows, v, window, now) then [] else Unsent(News(rows, v, window), history)
  }

  // The anchor of the section: the stored minute, or this second on the turn that freezes.
  function TurnSection(entries: seq<Row>, s: Session, v: View, window: seq<Coming>, now: nat): Section {
    var rows := VisibleRows(entries, s);
    if Refreezes(rows, v, window, now) then SectionOf(rows, Top(entries), now, First(window, MAX_COMING_UP))
    else SectionOf(rows, v.cursor.value, v.at.value, v.dates)
  }

  // Only the personal conversation sees the coming dates.
  function DatesFor(s: Session, dates: seq<Coming>): seq<Coming> {
    if s.Personal? then dates else []
  }

  // The session metadata the view is kept in.
  class Holder {
    var view: View

    method DiaryTurn(entries: seq<Row>, s: Session, dates: seq<Coming>, history: seq<string>, now: nat)
      returns (section: Section, newLines: seq<string>)
      modifies this
      ensures view == Kept(entries, s, old(view), DatesFor(s, dates), now)
      ensures section == TurnSection(entries, s, old(view), DatesFor(s, dates), now)
      ensures newLines == NewLines(entries, s, old(view), DatesFor(s, dates), history, now)
    {
      var window := DatesFor(s, dates);
      var rows := VisibleRows(entries, s);
      var cursor, anchor, frozen, news := 0, now, First(window, MAX_COMING_UP), [];
      if Refreezes(rows, view, window, now) {
        cursor := Top(entries);
        view := View(Some(cursor), Some(Minute(now)), Some(Minute(now)), frozen);
      } else {
        cursor, anchor, frozen := view.cursor.value, view.at.value, view.dates;
        news := News(rows, view, window);
        view := view.(seen := Some(Minute(now)));
      }
      var sharp, trace := RenderRows(rows, cursor, anchor);
      section := Section(sharp, trace, frozen);
      newLines := Unsent(news, history);
    }
  }

  // ---------------------------------------------------------- what a section and a freeze are made of

  // A row of the view of an age in (above, most], counted from the anchor; a row after the anchor has none.
  function OfAge(until: nat, anchor: nat, above: Option<nat>, most: nat): Row -> bool {
    (r: Row) => && r.cursor.Some? && r.cursor.value <= until && r.when.Some?
                && anchor <= r.when.value + most && (above.Some? ==> anchor > r.when.value + above.value)
  }

  lemma {:induction false} AgedAre(rows: seq<Row>, until: nat, anchor: nat, newest: Option<nat>, oldest: nat)
    ensures Aged(rows, until, anchor, newest, oldest) == Only(rows, OfAge(until, anchor, newest, oldest))
  {
    if rows != [] { AgedAre(rows[..|rows| - 1], until, anchor, newest, oldest); }
  }

  // The rows of a section, in the order of the log: of those of at most three days the newest thirty, one by
  // one, and those older than that and of at most seven, counted.
  lemma {:induction false} GradesAre(rows: seq<Row>, until: nat, anchor: nat, dates: seq<Coming>)
    ensures var section, recent := SectionOf(rows, until, anchor, dates), Only(rows, OfAge(until, anchor, None, SHARP));
            && section.trace == Only(rows, OfAge(until, anchor, Some(SHARP), TRACE))
            && |section.sharp| == (if |recent| < MAX_SHARP_LINES then |recent| else MAX_SHARP_LINES)
            && section.sharp == recent[|recent| - |section.sharp|..]
            && section.coming == dates
  {
    AgedAre(rows, until, anchor, None, SHARP);
    AgedAre(rows, until, anchor, Some(SHARP), TRACE);
  }

  function Above(cursor: nat): Row -> bool {
    (r: Row) => r.cursor.Some? && r.cursor.value > cursor
  }

  function MissingFrom(others: seq<Coming>): Coming -> bool {
    (d: Coming) => d !in others
  }

  function NoneLike(others: seq<Coming>): Coming -> bool {
    (d: Coming) => forall k :: 0 <= k < |others| ==> others[k].id != d.id
  }

  lemma {:induction false} FreshAre(rows: seq<Row>, cursor: nat)
    ensures Fresh(rows, cursor) == Only(rows, Above(cursor))
  {
    if rows != [] { FreshAre(rows[..|rows| - 1], cursor); }
  }

  lemma {:induction false} NotInAre(some: seq<Coming>, others: seq<Coming>)
    ensures NotIn(some, others) == Only(some, MissingFrom(others))
  {
    if some != [] { NotInAre(some[..|some| - 1], others); }
  }

  lemma {:induction false} GoneAre(dates: seq<Coming>, window: seq<Coming>)
    ensures Gone(dates, Ids(window)) == Only(dates, NoneLike(window))
  {
    if dates != [] {
      var n := |dates| - 1;
      GoneAre(dates[..n], window);
      assert dates[n].id in Ids(window) <==> !NoneLike(window)(dates[n]);
    }
  }

  // The news against a view: the rows above its cursor, the first eight dates it does not hold, and the dates
  // it holds of which none with that id is coming up now.
  lemma {:induction false} NewsAre(rows: seq<Row>, v: View, window: seq<Coming>)
    requires v.cursor.Some?
    ensures var later := Only(rows, Above(v.cursor.value));
            var first := window[..if |window| < MAX_COMING_UP then |window| else MAX_COMING_UP];
            var here, gone := Only(first, MissingFrom(v.dates)), Only(v.dates, NoneLike(window));
            && News(rows, v, window) == RowLines(later) + DateLines(here, COMING_UP) + DateLines(gone, NO_LONGER)
            && Pending(rows, v, window) == |later| + |here| + |gone|
  {
    assert window[..|window|] == window;
    FreshAre(rows, v.cursor.value);
    NotInAre(First(window, MAX_COMING_UP), v.dates);
    GoneAre(v.dates, window);
  }

  // A view is frozen again when it never was, when no turn came for more than an hour, or when more than
  // twelve news wait; then it holds the top of the log, this minute and the first eight dates. Else the
  // turn leaves nothing in it but its minute. A project has no dates.
  lemma {:induction false} FreezesIff(entries: seq<Row>, s: Session, v: View, dates: seq<Coming>, now: nat)
    ensures var window := if s.Project? then [] else dates;
            var rows, after := VisibleRows(entries, s), Kept(entries, s, v, DatesFor(s, dates), now);
            var frozenOnce := v.cursor.Some? && v.at.Some? && v.seen.Some?;
            && after.seen == Some(now - now % 60)
            && (if frozenOnce && now <= v.seen.value + 3600 && |News(rows, v, window)| <= 12
                then after == v.(seen := after.seen)
                else && after.cursor == Some(Top(entries)) && after.at == after.seen
                     && after.dates <= window && (|after.dates| == 8 || after.dates == window) && |after.dates| <= 8)
  {
  }

  // ---------------------------------------------------------- what a conversation sees

  lemma {:induction false} FreshHas(rows: seq<Row>, cursor: nat, row: Row)
    requires row in rows && row.cursor.Some? && row.cursor.value > cursor
    ensures row.line in RowLines(Fresh(rows, cursor))
  {
    var n := |rows| - 1;
    var before := Fresh(rows[..n], cursor);
    if row in rows[..n] {
      FreshHas(rows[..n], cursor, row);
      var k :| 0 <= k < |before| && RowLines(before)[k] == row.line;
      assert RowLines(Fresh(rows, cursor))[k] == row.line;
    } else {
      assert row == rows[n];
      assert RowLines(Fresh(rows, cursor))[|before|] == row.line;
    }
  }

  lemma {:induction false} UnsentHas(lines: seq<string>, history: seq<string>, line: string)
    requires line in lines && !Sent(line, history)
    ensures line in Unsent(lines, history)
  {
    var n := |lines| - 1;
    if line in lines[..n] { UnsentHas(lines[..n], history, line); }
  }

  lemma {:induction false} UnsentCount(lines: seq<string>, history: seq<string>)
    ensures |Unsent(lines, history)| <= |lines|
    ensures forall k: nat :: k < |Unsent(lines, history)| ==> !Sent(Unsent(lines, history)[k], history)
  {
    if lines != [] { UnsentCount(lines[..|lines| - 1], history); }
  }

  // No visible row goes unseen: it is at or below the cursor kept, or among the new lines, or already in
  // the history this turn sends.
  lemma {:induction false} NoRowGoesUnseen(entries: seq<Row>, s: Session, v: View, window: seq<Coming>, history: seq<string>, now: nat, row: Row)
    requires row in entries && Visible(row, s) && row.cursor.Some?
    ensures var after := Kept(entries, s, v, window, now);
            && after.cursor.Some?
            && (row.cursor.value <= after.cursor.value
                || row.line in NewLines(entries, s, v, window, history, now)
                || Sent(row.line, history))
  {
    var rows := VisibleRows(entries, s);
    if Refreezes(rows, v, window, now) {
      TopIsMax(entries, row);
    } else if row.cursor.value > v.cursor.value && !Sent(row.line, history) {
      VisibleHas(entries, s, row);
      FreshHas(rows, v.cursor.value, row);
      assert row.line in News(rows, v, window);
      UnsentHas(News(rows, v, window), history, row.line);
    }
  }

  // At most twelve changes are ever pending, and none of them is repeated while it is in the history.
  lemma {:induction false} FewNewLines(entries: seq<Row>, s: Session, v: View, window: seq<Coming>, history: seq<string>, now: nat)
    ensures var r := NewLines(entries, s, v, window, history, now);
            && |r| <= REFREEZE_AFTER_NEW
            && forall k: nat :: k < |r| ==> !Sent(r[k], history)
  {
    UnsentCount(News(VisibleRows(entries, s), v, window), history);
  }

  // The cursor goes back only when the view is frozen again on a log that ends before it.
  lemma {:induction false} CursorGoesBackIff(entries: seq<Row>, s: Session, v: View, window: seq<Coming>, now: nat)
    requires v.cursor.Some?
    ensures var after := Kept(entries, s, v, window, now);
            && after.cursor.Some?
            && (after.cursor.value < v.cursor.value <==>
                  Refreezes(VisibleRows(entries, s), v, window, now) && Top(entries) < v.cursor.value)
  {
  }

  predicate AllAfter(rows: seq<Row>, cursor: nat) {
    forall i: nat :: i < |rows| && rows[i].cursor.Some? ==> rows[i].cursor.value > cursor
  }

  lemma {:induction false} AgedIgnoresNewer(rows: seq<Row>, more: seq<Row>, until: nat, anchor: nat, newest: Option<nat>, oldest: nat)
    requires AllAfter(more, until)
    ensures Aged(rows + more, until, anchor, newest, oldest) == Aged(rows, until, anchor, newest, oldest)
  {
    if more == [] {
      assert rows + more == rows;
    } else {
      var n := |more| - 1;
      assert (rows + more)[..|rows + more| - 1] == rows + more[..n];
      AgedIgnoresNewer(rows, more[..n], until, anchor, newest, oldest);
    }
  }

  lemma {:induction false} VisibleAfter(rows: seq<Row>, s: Session, cursor: nat)
    requires AllAfter(rows, cursor)
    ensures AllAfter(VisibleRows(rows, s), cursor)
  {
    if rows != [] { VisibleAfter(rows[..|rows| - 1], s, cursor); }
  }

  // Turns that read the same view back render the same section, however the log has grown since.
  lemma {:induction false} SameViewSameSection(
    entries: seq<Row>, more: seq<Row>, s: Session, v: View, w: View, window: seq<Coming>, window': seq<Coming>, now: nat, now': nat)
    requires v.cursor.Some? && w == v.(seen := w.seen) && AllAfter(more, v.cursor.value)
    requires !Refreezes(VisibleRows(entries, s), v, window, now)
    requires !Refreezes(VisibleRows(entries + more, s), w, window', now')
    ensures TurnSection(entries + more, s, w, window', now') == TurnSection(entries, s, v, window, now)
  {
    var rows, added := VisibleRows(entries, s), VisibleRows(more, s);
    VisibleConcat(entries, more, s);
    VisibleAfter(more, s, v.cursor.value);
    AgedIgnoresNewer(rows, added, v.cursor.value, v.at.value, None, SHARP);
    AgedIgnoresNewer(rows, added, v.cursor.value, v.at.value, Some(SHARP), TRACE);
  }

  // ---------------------------------------------------------- runs of turns

  // The log grows at its end under rising cursors and is trimmed at its front, never of its last entry.
  datatype Event =
    | Log(row: Row)
    | Trim(n: nat)
    | Turn(dates: seq<Coming>, history: seq<string>, now: nat)

  // `said` collects the new lines of each turn: history of the run, read by no event.
  datatype World = World(entries: seq<Row>, view: View, said: seq<seq<string>>)

  predicate Allowed(w: World, e: Event) {
    match e
    case Log(row) => row.cursor.Some? && row.cursor.value > Top(w.entries)
    case Trim(n) => n < |w.entries|
    case Turn(_, _, _) => true
  }

  function After(w: World, s: Session, e: Event): World {
    match e
    case Log(row) => w.(entries := w.entries + [row])
    case Trim(n) => if n < |w.entries| then w.(entries := w.entries[n..]) else w
    case Turn(dates, history, now) =>
      var window := DatesFor(s, dates);
      World(w.entries, Kept(w.entries, s, w.view, window, now),
            w.said + [NewLines(w.entries, s, w.view, window, history, now)])
  }

  function Ran(w: World, s: Session, events: seq<Event>): World {
    if events == [] then w else After(Ran(w, s, events[..|events| - 1]), s, events[|events| - 1])
  }

  predicate AllAllowed(w: World, s: Session, events: seq<Event>) {
    events == [] ||
    (AllAllowed(w, s, events[..|events| - 1]) && Allowed(Ran(w, s, events[..|events| - 1]), events[|events| - 1]))
  }

  predicate Ascending(rows: seq<Row>) {
    && (forall i: nat :: i < |rows| ==> rows[i].cursor.Some?)
    && (forall i: nat, j: nat :: i < j < |rows| ==> rows[i].cursor.value < rows[j].cursor.value)
  }

  lemma {:induction false} TopIsLast(rows: seq<Row>)
    requires Ascending(rows) && rows != []
    ensures Top(rows) == rows[|rows| - 1].cursor.value
  {
    if |rows| > 1 { TopIsLast(rows[..|rows| - 1]); }
  }

  predicate CursorInside(w: World) {
    Ascending(w.entries) && (w.view.cursor.Some? ==> w.view.cursor.value <= Top(w.entries))
  }

  lemma {:induction false} TrimKeepsTop(rows: seq<Row>, n: nat)
    requires Ascending(rows) && n < |rows|
    ensures Ascending(rows[n..]) && Top(rows[n..]) == Top(rows)
  {
    var rest := rows[n..];
    assert forall i: nat :: i < |rest| ==> rest[i] == rows[n + i];
    TopIsLast(rows);
    TopIsLast(rest);
  }

  lemma {:induction false} LogRaisesTop(rows: seq<Row>, row: Row)
    requires Ascending(rows) && row.cursor.Some? && row.cursor.value > Top(rows)
    ensures Ascending(rows + [row]) && Top(rows + [row]) == row.cursor.value
  {
    if rows != [] { TopIsLast(rows); }
    assert (rows + [row])[..|rows|] == rows;
  }

  predicate NotBefore(a: Option<nat>, b: Option<nat>) {
    a.Some? ==> b.Some? && a.value <= b.value
  }

  lemma {:induction false} EventKeeps(w: World, s: Session, e: Event)
    requires CursorInside(w) && Allowed(w, e)
    ensures CursorInside(After(w, s, e)) && NotBefore(w.view.cursor, After(w, s, e).view.cursor)
  {
    match e
    case Log(row) => LogRaisesTop(w.entries, row);
    case Trim(n) => TrimKeepsTop(w.entries, n);
    case Turn(dates, history, now) =>
      if w.view.cursor.Some? {
        CursorGoesBackIff(w.entries, s, w.view, DatesFor(s, dates), now);
      }
  }

  // However the log grows and is trimmed between turns, the cursor of the view never goes back.
  lemma {:induction false} CursorNeverGoesBack(w: World, s: Session, events: seq<Event>)
    requires CursorInside(w) && AllAllowed(w, s, events)
    ensures CursorInside(Ran(w, s, events)) && NotBefore(w.view.cursor, Ran(w, s, events).view.cursor)
  {
    if events != [] {
      var front := events[..|events| - 1];
      CursorNeverGoesBack(w, s, front);
      EventKeeps(Ran(w, s, front), s, events[|events| - 1]);
    }
  }

  // Every turn sends, in its history, all lines said before it.
  ghost predicate KeepsSaid(w: World, s: Session, events: seq<Event>) {
    events == [] ||
    (var before, e := Ran(w, s, events[..|events| - 1]), events[|events| - 1];
     && KeepsSaid(w, s, events[..|events| - 1])
     && (e.Turn? ==> forall i: nat, k: nat :: i < |before.said| && k < |before.said[i]| ==> Sent(before.said[i][k], e.history)))
  }

  ghost predicate SaidOnce(said: seq<seq<string>>) {
    forall i: nat, j: nat, k: nat, l: nat ::
      i < j < |said| && k < |said[i]| && l < |said[j]| ==> said[i][k] != said[j][l]
  }

  lemma {:induction false} SaidOnceMore(said: seq<seq<string>>, lines: seq<string>, history: seq<string>)
    requires SaidOnce(said)
    requires forall i: nat, k: nat :: i < |said| && k < |said[i]| ==> Sent(said[i][k], history)
    requires forall l: nat :: l < |lines| ==> !Sent(lines[l], history)
    ensures SaidOnce(said + [lines])
  {
  }

  // While the history keeps what was said, no turn says a line an earlier turn said: a line comes back
  // only after it left the history sent.
  lemma {:induction false} NoLineIsSaidTwice(w: World, s: Session, events: seq<Event>)
    requires SaidOnce(w.said) && KeepsSaid(w, s, events)
    ensures SaidOnce(Ran(w, s, events).said)
  {
    if events != [] {
      var front, e := events[..|events| - 1], events[|events| - 1];
      NoLineIsSaidTwice(w, s, front);
      if e.Turn? {
        var before, window := Ran(w, s, front), DatesFor(s, e.dates);
        FewNewLines(before.entries, s, before.view, window, e.history, e.now);
        SaidOnceMore(before.said, NewLines(before.entries, s, before.view, window, e.history, e.now), e.history);
      }
    }
  }

  // ---------------------------------------------------------- within a turn

  predicate AllDiffer(lines: seq<string>) {
    forall i: nat, j: nat :: i < j < |lines| ==> lines[i] != lines[j]
  }

  lemma {:induction false} UnsentAmong(lines: seq<string>, history: seq<string>)
    ensures forall k: nat :: k < |Unsent(lines, history)| ==> Unsent(lines, history)[k] in lines
  {
    if lines != [] {
      var front := lines[..|lines| - 1];
      UnsentAmong(front, history);
      assert forall line :: line in front ==> line in lines;
    }
  }

  lemma {:induction false} UnsentDiffer(lines: seq<string>, history: seq<string>)
    requires AllDiffer(lines)
    ensures AllDiffer(Unsent(lines, history))
  {
    if lines != [] {
      var n := |lines| - 1;
      UnsentDiffer(lines[..n], history);
      UnsentAmong(lines[..n], history);
    }
  }

  // A turn repeats a line only where two of its news print alike.
  lemma {:induction false} TurnRepeatsOnlyAlike(
    entries: seq<Row>, s: Session, v: View, window: seq<Coming>, history: seq<string>, now: nat)
    requires AllDiffer(News(VisibleRows(entries, s), v, window))
    ensures AllDiffer(NewLines(entries, s, v, window, history, now))
  {
    UnsentDiffer(News(VisibleRows(entries, s), v, window), history);
  }

  // The news of every turn print differently.
  predicate NewsDiffer(w: World, s: Session, events: seq<Event>) {
    events == [] ||
    (var before, e := Ran(w, s, events[..|events| - 1]), events[|events| - 1];
     && NewsDiffer(w, s, events[..|events| - 1])
     && (e.Turn? ==> AllDiffer(News(VisibleRows(before.entries, s), before.view, DatesFor(s, e.dates)))))
  }

  predicate EachDiffers(said: seq<seq<string>>) {
    forall i: nat :: i < |said| ==> AllDiffer(said[i])
  }

  // Then no line is said twice, neither by two turns nor by one.
  lemma {:induction false} EachLineOnce(w: World, s: Session, events: seq<Event>)
    requires SaidOnce(w.said) && EachDiffers(w.said) && KeepsSaid(w, s, events) && NewsDiffer(w, s, events)
    ensures SaidOnce(Ran(w, s, events).said) && EachDiffers(Ran(w, s, events).said)
  {
    NoLineIsSaidTwice(w, s, events);
    if events != [] {
      var front, e := events[..|events| - 1], events[|events| - 1];
      EachLineOnce(w, s, front);
      if e.Turn? {
        var before := Ran(w, s, front);
        TurnRepeatsOnlyAlike(before.entries, s, before.view, DatesFor(s, e.dates), e.history, e.now);
      }
    }
  }
}
