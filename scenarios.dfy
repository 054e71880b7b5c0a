/**
 * A full turn of the cylinder after a reload, first on the value model and
 * then through the revolver's own methods.
 */
module Scenarios {
  import opened Interfaces
  import opened Cylinders
  import opened Rotation
  import opened Revolvers

  /** Reloaded with rounds in chambers 1 and 3, six pulls go blank, live, blank, live, blank, blank. */
  lemma ChambersOneAndThree()
    ensures Outcomes(Cylinder([1, 3], 0), 6) == [Blank, Bullet, Blank, Bullet, Blank, Blank]
    ensures Volley(Cylinder([1, 3], 0), 6) == Cylinder([], 0)
  {
    var st := Cylinder([1, 3], 0);
    FullRotation(st);
    var os := Outcomes(st, 6);
    assert os[0] == Blank && os[1] == Bullet && os[2] == Blank;
    assert os[3] == Bullet && os[4] == Blank && os[5] == Blank;
  }

  /** Six pulls from chamber 0 fire chamber `k` at pull `k` and spend every round. */
  lemma FromChamberZero(positions: seq<int>)
    requires LoadValid(positions)
    ensures forall k :: 0 <= k < Chambers ==>
              (Outcomes(Cylinder(positions, 0), Chambers)[k] == Bullet <==> k in positions)
    ensures Volley(Cylinder(positions, 0), Chambers) == Cylinder([], 0)
  {
    var st := Cylinder(positions, 0);
    FullRotation(st);
    forall k | 0 <= k < Chambers
      ensures Outcomes(st, Chambers)[k] == Bullet <==> k in positions
    {
      assert (st.chamber + k) % Chambers == k;
    }
  }

  /** One more pull extends the run of `n` pulls by its result and its new state. */
  lemma Pulled(start: Cylinder, n: nat, before: seq<FireResult>, result: FireResult, after: Cylinder)
    requires OnCylinder(start.chamber)
    requires before == Outcomes(start, n)
    requires result == Outcome(Volley(start, n)) && after == Fired(Volley(start, n))
    ensures before + [result] == Outcomes(start, n + 1) && after == Volley(start, n + 1)
  {
  }

  /**
   * Reload with a set-like load, then pull the trigger six times: pull `k`
   * fires chamber `k`, it is live exactly when `k` was loaded, and the
   * revolver ends empty with its pointer back on chamber 0.
   */
  method ReloadAndEmpty(r: Revolver, positions: seq<int>) returns (results: seq<FireResult>)
    requires LoadValid(positions)
    modifies r
    ensures |results| == Chambers
    ensures forall k :: 0 <= k < Chambers ==> (results[k] == Bullet <==> k in positions)
    ensures r.Valid() && r.State() == Cylinder([], 0)
  {
    r.Reload(positions);
    ghost var start := r.State();
    var a := r.Fire();
    Pulled(start, 0, [], a, r.State());
    var b := r.Fire();
    Pulled(start, 1, [a], b, r.State());
    var c := r.Fire();
    Pulled(start, 2, [a, b], c, r.State());
    var d := r.Fire();
    Pulled(start, 3, [a, b, c], d, r.State());
    var e := r.Fire();
    Pulled(start, 4, [a, b, c, d], e, r.State());
    var f := r.Fire();
    Pulled(start, 5, [a, b, c, d, e], f, r.State());
    results := [a, b, c, d, e, f];
    FromChamberZero(positions);
  }
}
