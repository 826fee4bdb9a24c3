// Old results of reading tools are replaced by one-line placeholders, ten at a
// time, so that the prefix the provider has cached changes once in ten results.
module Microcompact {
  import opened Messages
  import opened Selections

  const KEEP_RECENT := 5
  const BATCH := 10
  const MIN_CHARS := 500

  const COMPACTABLE_TOOLS := {
    "read_file", "python_exec", "grep", "find_files", "web_search", "web_fetch", "list_dir",
    "list_exec_sessions", "browser_read", "browser_snapshot", "ssh_exec", "get_recent_logs",
    "get_source", "recall_history", "recall_chat"}

  // The text put in place of a result, from the tool's name and the old text.
  type Placeholder = (string, string) -> string

  predicate Compactable(m: Message) {
    m.role.Tool? && m.name in COMPACTABLE_TOOLS
  }

  function Count(ms: seq<Message>): nat {
    if ms == [] then 0 else
      Count(ms[..|ms| - 1]) + if Compactable(ms[|ms| - 1]) then 1 else 0
  }

  lemma {:induction false} CountIs(ms: seq<Message>)
    ensures Count(ms) == |Only(ms, Compactable)|
  {
    if ms != [] { CountIs(ms[..|ms| - 1]); }
  }

  // Division rounds down, so fewer than five rows give a negative count.
  function StaleCount(n: nat): int {
    ((n - KEEP_RECENT) / BATCH) * BATCH
  }

  function Omit(m: Message, ph: Placeholder): Message {
    if m.content.Text? && |m.content.text| >= MIN_CHARS
    then m.(content := Text(ph(m.name, m.content.text)))
    else m
  }

  predicate Stale(ms: seq<Message>, i: nat, stale: int)
    requires i < |ms|
  {
    Compactable(ms[i]) && Count(ms[..i]) < stale
  }

  function Seen(ms: seq<Message>, i: nat, stale: int, ph: Placeholder): Message
    requires i < |ms|
  {
    if Stale(ms, i, stale) then Omit(ms[i], ph) else ms[i]
  }

  function View(ms: seq<Message>, stale: int, ph: Placeholder): (r: seq<Message>)
    ensures |r| == |ms|
  {
    seq(|ms|, i requires 0 <= i < |ms| => Seen(ms, i, stale, ph))
  }

  function Compacted(ms: seq<Message>, ph: Placeholder): seq<Message> {
    View(ms, StaleCount(Count(ms)), ph)
  }

  lemma {:induction false} CountConcat(a: seq<Message>, b: seq<Message>)
    ensures Count(a + b) == Count(a) + Count(b)
  {
    if b == [] {
      assert a + b == a;
    } else {
      CountConcat(a, b[..|b| - 1]);
      assert (a + b)[..|a + b| - 1] == a + b[..|b| - 1];
    }
  }

  lemma {:induction false} CountUpTo(ms: seq<Message>, i: nat, j: nat)
    requires i <= j <= |ms|
    ensures Count(ms[..i]) <= Count(ms[..j])
    ensures i < j && Compactable(ms[i]) ==> Count(ms[..i]) < Count(ms[..j])
  {
    if i < j {
      assert ms[..i + 1][..i] == ms[..i];
      assert ms[..j] == ms[..i + 1] + ms[i + 1..j];
      CountConcat(ms[..i + 1], ms[i + 1..j]);
    }
  }

  // The indices of the compactable rows, in order.
  ghost predicate Indexes(indices: seq<nat>, ms: seq<Message>) {
    && |indices| == Count(ms)
    && (forall k :: 0 <= k < |indices| ==>
          indices[k] < |ms| && Compactable(ms[indices[k]]) && Count(ms[..indices[k]]) == k)
  }

  method CompactableIndices(ms: seq<Message>) returns (indices: seq<nat>)
    ensures Indexes(indices, ms)
  {
    indices := [];
    var idx := 0;
    while idx < |ms|
      invariant 0 <= idx <= |ms|
      invariant |indices| == Count(ms[..idx])
      invariant forall k :: 0 <= k < |indices| ==>
        indices[k] < idx && Compactable(ms[indices[k]]) && Count(ms[..indices[k]]) == k
    {
      assert ms[..idx + 1][..idx] == ms[..idx];
      if Compactable(ms[idx]) {
        indices := indices + [idx];
      }
      idx := idx + 1;
    }
    assert ms[..idx] == ms;
  }

  // Row `i` once the first `k` stale rows have been gone through.
  ghost predicate Through(ms: seq<Message>, view: seq<Message>, k: int, ph: Placeholder) {
    |view| == |ms| && forall i :: 0 <= i < |ms| ==> view[i] == Seen(ms, i, k, ph)
  }

  method Compact(ms: seq<Message>, ph: Placeholder) returns (r: seq<Message>)
    ensures r == Compacted(ms, ph)
  {
    var indices := CompactableIndices(ms);
    var stale := ((|indices| - KEEP_RECENT) / BATCH) * BATCH;
    r := ms;
    if stale <= 0 {
      return;
    }
    var k := 0;
    while k < stale
      invariant 0 <= k <= stale
      invariant Through(ms, r, k, ph)
    {
      var at := indices[k];
      forall i | 0 <= i < |ms| && i != at ensures Seen(ms, i, k + 1, ph) == Seen(ms, i, k, ph) {
        CountUpTo(ms, if i < at then i else at, if i < at then at else i);
      }
      r := r[at := Omit(ms[at], ph)];
      k := k + 1;
    }
  }

  // ------------------------------------------------------------ properties

  // Only contents change, and the newest compactable rows are untouched: all of
  // them when there are fewer than fifteen, otherwise between five and fourteen.
  lemma {:induction false} KeepsNewest(ms: seq<Message>, ph: Placeholder) returns (kept: nat)
    ensures var n := Count(ms);
            if n < KEEP_RECENT + BATCH then kept == n
            else KEEP_RECENT <= kept < KEEP_RECENT + BATCH && (n - kept) % BATCH == 0
    ensures forall i :: 0 <= i < |ms| && Count(ms) - Count(ms[..i]) <= kept
              ==> Compacted(ms, ph)[i] == ms[i]
    ensures forall i :: 0 <= i < |ms| ==>
              Compacted(ms, ph)[i] == ms[i].(content := Compacted(ms, ph)[i].content)
    ensures forall i :: 0 <= i < |ms| && Compactable(ms[i]) && Count(ms) - Count(ms[..i]) > kept
              ==> Compacted(ms, ph)[i] == Omit(ms[i], ph)
  {
    var stale := StaleCount(Count(ms));
    kept := if stale < 0 then Count(ms) else Count(ms) - stale;
  }

  // Appending rows leaves the earlier view as it was unless the count crosses a
  // batch, and the appended rows themselves are always intact.
  lemma {:induction false} AppendKeepsView(ms: seq<Message>, more: seq<Message>, ph: Placeholder)
    requires var a, b := StaleCount(Count(ms)), StaleCount(Count(ms + more));
             a == b || b <= 0
    ensures Compacted(ms + more, ph) == Compacted(ms, ph) + more
  {
    CountConcat(ms, more);
    var all := ms + more;
    forall i | 0 <= i < |all|
      ensures Compacted(all, ph)[i] == (Compacted(ms, ph) + more)[i]
    {
      if i < |ms| {
        assert all[..i] == ms[..i];
      } else {
        CountUpTo(all, |ms|, i);
        assert all[..|ms|] == ms;
      }
    }
  }

  // A row that was replaced stays replaced, by the same text.
  lemma {:induction false} NeverUnomits(ms: seq<Message>, more: seq<Message>, ph: Placeholder, i: nat)
    requires i < |ms|
    ensures Compacted(ms + more, ph)[i] == Compacted(ms, ph)[i]
         || (Compacted(ms, ph)[i] == ms[i] && Compacted(ms + more, ph)[i] == Omit(ms[i], ph))
  {
    CountConcat(ms, more);
    assert (ms + more)[..i] == ms[..i];
    StaleMonotone(Count(ms), Count(ms + more));
  }

  lemma {:induction false} StaleMonotone(a: nat, b: nat)
    requires a <= b
    ensures StaleCount(a) <= StaleCount(b)
  {
  }

  // Row `i` of `ms` becomes stale only in `all`, and is replaced by another text.
  ghost predicate Crosses(ms: seq<Message>, all: seq<Message>, ph: Placeholder, i: nat) {
    && i < |ms| && Compactable(ms[i]) && Omit(ms[i], ph) != ms[i]
    && StaleCount(Count(ms)) <= Count(ms[..i]) < StaleCount(Count(all))
  }

  // The earlier view changes exactly when the batch is crossed by a row long
  // enough to be replaced by a different text.
  lemma {:induction false} ViewChangesIff(ms: seq<Message>, more: seq<Message>, ph: Placeholder)
    ensures Compacted(ms + more, ph)[..|ms|] != Compacted(ms, ph) <==>
            exists i: nat :: Crosses(ms, ms + more, ph, i)
  {
    var all := ms + more;
    CountConcat(ms, more);
    StaleMonotone(Count(ms), Count(all));
    assert forall i :: 0 <= i < |ms| ==> all[..i] == ms[..i];
    if Compacted(all, ph)[..|ms|] != Compacted(ms, ph) {
      var i: nat :| i < |ms| && Compacted(all, ph)[i] != Compacted(ms, ph)[i];
      assert Crosses(ms, all, ph, i);
    }
    if exists i: nat :: Crosses(ms, all, ph, i) {
      var i: nat :| Crosses(ms, all, ph, i);
      assert Compacted(all, ph)[..|ms|][i] != Compacted(ms, ph)[i];
    }
  }

  lemma {:induction false} CountOfView(ms: seq<Message>, stale: int, ph: Placeholder, i: nat)
    requires i <= |ms|
    ensures Count(View(ms, stale, ph)[..i]) == Count(ms[..i])
  {
    if i > 0 {
      CountOfView(ms, stale, ph, i - 1);
      assert View(ms, stale, ph)[..i][..i - 1] == View(ms, stale, ph)[..i - 1];
      assert ms[..i][..i - 1] == ms[..i - 1];
    }
  }

  // Running it again changes nothing, exactly when no placeholder it wrote is
  // long enough to be replaced once more by something else.
  lemma {:induction false} IdempotentIff(ms: seq<Message>, ph: Placeholder)
    ensures Compacted(Compacted(ms, ph), ph) == Compacted(ms, ph) <==>
            forall i :: 0 <= i < |ms| && Stale(ms, i, StaleCount(Count(ms))) && Omit(ms[i], ph) != ms[i] ==>
              var text := ph(ms[i].name, ms[i].content.text);
              |text| < MIN_CHARS || ph(ms[i].name, text) == text
  {
    var stale := StaleCount(Count(ms));
    var once := Compacted(ms, ph);
    var twice := Compacted(once, ph);
    CountOfView(ms, stale, ph, |ms|);
    assert once[..|ms|] == once && ms[..|ms|] == ms;
    forall i | 0 <= i < |ms|
      ensures twice[i] == if Stale(ms, i, stale) then Omit(Omit(ms[i], ph), ph) else ms[i]
    {
      CountOfView(ms, stale, ph, i);
    }
    assert twice == once <==> forall i :: 0 <= i < |ms| ==> twice[i] == once[i];
  }

  lemma {:induction false} IdempotentWhenShort(ms: seq<Message>, ph: Placeholder)
    requires forall name, text :: |ph(name, text)| < MIN_CHARS
    ensures Compacted(Compacted(ms, ph), ph) == Compacted(ms, ph)
  {
    IdempotentIff(ms, ph);
  }
}
