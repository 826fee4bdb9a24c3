// The smaller and the larger of two counts.
module Bounds {
  function Min(a: nat, b: nat): nat {
    if a < b then a else b
  }

  function Max(a: nat, b: nat): nat {
    if a < b then b else a
  }

  // How many of the places below n lie in [from, to).
  function Below(n: nat, from: nat, to: nat): nat {
    if Min(n, to) <= from then 0 else Min(n, to) - from
  }
}
