/** Sets of ranks, and counting them. */
module RankSets {
  /** All ranks of a world of `n`. */
  function Below(n: nat): (ranks: set<nat>)
    ensures |ranks| == n
    ensures forall r :: r in ranks <==> 0 <= r < n
  {
    if n == 0 then {} else Below(n - 1) + {n - 1}
  }

  /** Pigeonhole: `n` different ranks below `n` are all of them. */
  lemma AllOfThem(ranks: set<nat>, n: nat)
    requires ranks <= Below(n)
    ensures |ranks| <= n && (|ranks| == n <==> ranks == Below(n))
  {
    var rest := Below(n) - ranks;
    assert Below(n) == ranks + rest;
    assert rest == {} <==> ranks == Below(n);
  }
}
