// Picking the elements of a list that a test holds for.
module Selections {

  // The elements `keep` holds for, in their order.
  function Only<T>(all: seq<T>, keep: T -> bool): seq<T> {
    if all == [] then [] else Only(all[..|all| - 1], keep) + if keep(all[|all| - 1]) then [all[|all| - 1]] else []
  }

  // `picked` are the elements of `all` at the places `at`, in their order, and all `keep` holds for.
  ghost predicate Picks<T>(all: seq<T>, keep: T -> bool, picked: seq<T>, at: seq<nat>) {
    && |at| == |picked|
    && (forall k :: 0 <= k < |at| ==> at[k] < |all| && all[at[k]] == picked[k] && keep(picked[k]))
    && (forall j, k :: 0 <= j < k < |at| ==> at[j] < at[k])
    && (forall i :: 0 <= i < |all| && keep(all[i]) ==> exists k :: 0 <= k < |at| && at[k] == i)
  }

  lemma {:induction false} PicksMore<T>(front: seq<T>, keep: T -> bool, r: T, picked: seq<T>, at: seq<nat>)
    requires Picks(front, keep, picked, at)
    ensures if keep(r) then Picks(front + [r], keep, picked + [r], at + [|front|]) else Picks(front + [r], keep, picked, at)
  {
    var all := front + [r];
    assert forall i :: 0 <= i < |front| ==> all[i] == front[i];
    if keep(r) {
      var at' := at + [|front|];
      forall i | 0 <= i < |all| && keep(all[i]) ensures exists k :: 0 <= k < |at'| && at'[k] == i {
        if i < |front| {
          var k :| 0 <= k < |at| && at[k] == i;
          assert at'[k] == i;
        } else {
          assert at'[|at|] == i;
        }
      }
    }
  }

  lemma {:induction false} OnlyMore<T>(front: seq<T>, r: T, keep: T -> bool)
    ensures Only(front + [r], keep) == if keep(r) then Only(front, keep) + [r] else Only(front, keep)
  {
    assert (front + [r])[..|front|] == front;
  }

  // So Only leaves none of these out, takes no other, and keeps their order.
  lemma {:induction false} OnlyPicks<T>(all: seq<T>, keep: T -> bool) returns (at: seq<nat>)
    ensures Picks(all, keep, Only(all, keep), at)
  {
    at := [];
    if all != [] {
      var front, r := all[..|all| - 1], all[|all| - 1];
      assert front + [r] == all;
      at := OnlyPicks(front, keep);
      OnlyMore(front, r, keep);
      PicksMore(front, keep, r, Only(front, keep), at);
      if keep(r) { at := at + [|front|]; }
    }
  }
}
