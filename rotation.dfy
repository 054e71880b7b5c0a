/**
 * Several pulls in a row. Because every pull advances the pointer by one
 * chamber, six pulls from a set-like load visit each chamber once and spend
 * every live round.
 */
module Rotation {
  import opened Interfaces
  import opened Cylinders

  /** The cylinder after `n` pulls starting from `st`. */
  function Volley(st: Cylinder, n: nat): (r: Cylinder)
    requires OnCylinder(st.chamber)
    ensures OnCylinder(r.chamber)
  {
    if n == 0 then st else Fired(Volley(st, n - 1))
  }

  /** The results of `n` pulls starting from `st`, in firing order. */
  function Outcomes(st: Cylinder, n: nat): (r: seq<FireResult>)
    requires OnCylinder(st.chamber)
    ensures |r| == n
  {
    if n == 0 then [] else Outcomes(st, n - 1) + [Outcome(Volley(st, n - 1))]
  }

  /** How many pulls from chamber `c` it takes to bring chamber `x` under the hammer. */
  function Distance(c: int, x: int): (r: int) {
    (x - c) % Chambers
  }

  /** The loaded chambers of `st` that `n` pulls have not reached yet. */
  function Unreached(st: Cylinder, n: int): (r: set<int>) {
    set x | x in st.bullets && Distance(st.chamber, x) >= n
  }

  /** After `n` pulls the pointer has moved `n` chambers on. */
  lemma {:induction false} VolleyChamber(st: Cylinder, n: nat)
    requires OnCylinder(st.chamber)
    ensures Volley(st, n).chamber == (st.chamber + n) % Chambers
  {
    if n > 0 {
      VolleyChamber(st, n - 1);
    }
  }

  /** Within one turn of the cylinder, the chamber reached by pull `k` is `k` pulls away. */
  lemma ReachedAt(c: int, k: int, x: int)
    requires OnCylinder(c) && OnCylinder(x) && 0 <= k < Chambers
    ensures Distance(c, x) == k <==> x == (c + k) % Chambers
  {
  }

  /**
   * After `n <= 6` pulls the rounds still loaded are exactly those not yet
   * reached, and pull `k` reported whether the `k`-th chamber from the start
   * was loaded.
   */
  lemma {:induction false} VolleyProgress(st: Cylinder, n: nat)
    requires OnCylinder(st.chamber) && LoadValid(st.bullets) && n <= Chambers
    ensures LoadValid(Volley(st, n).bullets)
    ensures Elements(Volley(st, n).bullets) == Unreached(st, n)
    ensures forall k :: 0 <= k < n ==>
              Outcomes(st, n)[k] == if (st.chamber + k) % Chambers in st.bullets then Bullet else Blank
  {
    var c := st.chamber;
    if n > 0 {
      VolleyProgress(st, n - 1);
      var prev := Volley(st, n - 1);
      var p := prev.chamber;
      VolleyChamber(st, n - 1);
      RemoveFirstLoad(prev.bullets, p);
      UnreachedStep(st, n, p);
      assert Outcome(prev) == if p in st.bullets then Bullet else Blank by {
        assert p in prev.bullets <==> p in Elements(prev.bullets);
        ReachedAt(c, n - 1, p);
      }
      assert Outcomes(st, n)[..n - 1] == Outcomes(st, n - 1);
    }
  }

  /** Pull `n` takes the chamber `n - 1` away from the unreached ones. */
  lemma UnreachedStep(st: Cylinder, n: int, p: int)
    requires OnCylinder(st.chamber) && InRange(st.bullets) && 0 < n <= Chambers
    requires p == (st.chamber + n - 1) % Chambers
    ensures Unreached(st, n) == Unreached(st, n - 1) - {p}
  {
    forall x | x in st.bullets
      ensures Distance(st.chamber, x) >= n <==> Distance(st.chamber, x) >= n - 1 && x != p
    {
      ReachedAt(st.chamber, n - 1, x);
    }
  }

  /**
   * Six pulls after any start chamber on a set-like load: pull `k` hits a
   * round exactly when chamber `start + k` was loaded, the pointer is back
   * where it started, and no round is left.
   */
  lemma FullRotation(st: Cylinder)
    requires OnCylinder(st.chamber) && LoadValid(st.bullets)
    ensures forall k :: 0 <= k < Chambers ==>
              Outcomes(st, Chambers)[k] == if (st.chamber + k) % Chambers in st.bullets then Bullet else Blank
    ensures Volley(st, Chambers).chamber == st.chamber
    ensures Volley(st, Chambers).bullets == []
  {
    VolleyProgress(st, Chambers);
    VolleyChamber(st, Chambers);
    var left := Volley(st, Chambers).bullets;
    assert Unreached(st, Chambers) == {};
    DistinctSize(left);
  }

  /**
   * Over any number of pulls, from any load (repeats included), the rounds
   * still loaded plus the Bullet results equal the rounds loaded at the start.
   */
  lemma {:induction false} BulletsFired(st: Cylinder, n: nat)
    requires OnCylinder(st.chamber)
    ensures |st.bullets| == |Volley(st, n).bullets| + Hits(Outcomes(st, n))
  {
    if n > 0 {
      BulletsFired(st, n - 1);
      FiredSpendsOneRound(Volley(st, n - 1));
      assert Outcomes(st, n)[..n - 1] == Outcomes(st, n - 1);
      HitsSnoc(Outcomes(st, n - 1), Outcome(Volley(st, n - 1)));
    }
  }

  /** The number of Bullet results in a sequence of results. */
  function Hits(rs: seq<FireResult>): (r: nat) {
    if rs == [] then 0 else Hits(rs[..|rs| - 1]) + (if rs[|rs| - 1] == Bullet then 1 else 0)
  }

  lemma HitsSnoc(rs: seq<FireResult>, r: FireResult)
    ensures Hits(rs + [r]) == Hits(rs) + (if r == Bullet then 1 else 0)
  {
    assert (rs + [r])[..|rs|] == rs;
  }
}
