// When an internal run - of Dream, or of the gardener - may record its progress.
module InternalRuns {

  // How a run ended: whether it completed, how many writes landed of those it attempted, and how many
  // budget refusals were left open.
  datatype Run = Run(completed: bool, landed: nat, attempted: nat, open: nat)

  predicate ShouldCommit(r: Run) {
    r.completed && r.open == 0 && (r.landed > 0 || r.attempted == 0)
  }

  // Writes the run wanted that did not land.
  function Missed(r: Run): nat {
    if r.attempted > r.landed then r.attempted - r.landed else 0
  }

  // A run that attempted nothing and completed may record it, and so may one that completed with every
  // attempt landed and no refusal left open. One that may although an attempt was missed has landed another.
  lemma {:induction false} CommitsMostly(r: Run)
    ensures r.completed && r.open == 0 && r.attempted <= r.landed ==> ShouldCommit(r)
    ensures ShouldCommit(r) ==> r.completed && r.open == 0 && (r.attempted <= r.landed || 0 < r.landed < r.attempted)
  {
  }
}
