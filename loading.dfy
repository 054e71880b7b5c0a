/**
 * What the load generator builds from the chambers it draws: every drawn
 * chamber not yet loaded is appended, a repeat is rejected.
 */
module Loading {
  import opened Cylinders

  /** The distinct draws in `draws`, in the order they first appeared. */
  function Dedup(draws: seq<int>): (r: seq<int>) {
    if draws == [] then []
    else
      var earlier := Dedup(draws[..|draws| - 1]);
      var pos := draws[|draws| - 1];
      if pos in earlier then earlier else earlier + [pos]
  }

  /** Every draw is loaded once and nothing else is: the load is set-like. */
  lemma {:induction false} DedupLoad(draws: seq<int>)
    ensures Distinct(Dedup(draws))
    ensures Elements(Dedup(draws)) == Elements(draws)
    ensures InRange(draws) ==> InRange(Dedup(draws))
  {
    if draws != [] {
      var init := draws[..|draws| - 1];
      DedupLoad(init);
      assert draws == init + [draws[|draws| - 1]];
      assert Elements(draws) == Elements(init) + {draws[|draws| - 1]};
      if InRange(draws) {
        assert InRange(init) by {
          forall i | 0 <= i < |init| ensures OnCylinder(init[i]) {
            assert init[i] == draws[i];
          }
        }
      }
    }
  }

  /** The load reaches `k` rounds only once `k` distinct chambers were drawn. */
  lemma DedupSize(draws: seq<int>)
    ensures |Dedup(draws)| == |Elements(draws)|
  {
    DedupLoad(draws);
    DistinctSize(Dedup(draws));
  }

  /** Drawing one more chamber adds at most one round. */
  lemma {:induction false} DedupStep(draws: seq<int>, i: int)
    requires 0 <= i < |draws|
    ensures var before := Dedup(draws[..i]);
      Dedup(draws[..i + 1]) == if draws[i] in before then before else before + [draws[i]]
  {
    assert draws[..i + 1][..i] == draws[..i];
  }
}
