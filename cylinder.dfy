/**
 * The revolver's cylinder as a value: which chambers hold a live round (an
 * ordered list, as the revolver keeps it) and which chamber is under the
 * hammer. The functions here specify what one trigger pull does; the class
 * in module Revolvers is proved to follow them.
 */
module Cylinders {
  import opened Interfaces

  /** The number of chambers of the cylinder. */
  const Chambers: int := 6

  /** The abstract state of a revolver: its live rounds and its current chamber. */
  datatype Cylinder = Cylinder(bullets: seq<int>, chamber: int)

  /** The chamber pointer lies on the cylinder. */
  predicate OnCylinder(c: int) {
    0 <= c < Chambers
  }

  /** Every listed chamber exists. */
  predicate InRange(s: seq<int>) {
    forall i :: 0 <= i < |s| ==> OnCylinder(s[i])
  }

  /** No chamber is listed twice. */
  predicate Distinct(s: seq<int>) {
    forall i, j :: 0 <= i < j < |s| ==> s[i] != s[j]
  }

  /** A load that behaves like a set of chambers. */
  predicate LoadValid(s: seq<int>) {
    Distinct(s) && InRange(s)
  }

  /** The chambers a list mentions. */
  function Elements(s: seq<int>): (r: set<int>) {
    set x | x in s
  }

  /**
   * The pointer step after every shot: `(c + 1) % 6`. For a pointer on the
   * cylinder C#'s truncating `%` and Dafny's Euclidean `%` agree.
   */
  function Advance(c: int): (r: int)
    requires OnCylinder(c)
    ensures OnCylinder(r)
    ensures r == if c == Chambers - 1 then 0 else c + 1
  {
    (c + 1) % Chambers
  }

  /** `List<int>.Remove`: drops the first occurrence of `x`, if there is one. */
  function RemoveFirst(s: seq<int>, x: int): (r: seq<int>) {
    if s == [] then []
    else if s[0] == x then s[1..]
    else [s[0]] + RemoveFirst(s[1..], x)
  }

  /** Without an occurrence of `x` the list is left as it is. */
  lemma {:induction false} RemoveFirstAbsent(s: seq<int>, x: int)
    requires x !in s
    ensures RemoveFirst(s, x) == s
  {
    if s != [] {
      RemoveFirstAbsent(s[1..], x);
    }
  }

  /** With `i` the first index holding `x`, exactly `s[i]` is cut out. */
  lemma {:induction false} RemoveFirstAt(s: seq<int>, x: int, i: int)
    requires 0 <= i < |s| && s[i] == x && x !in s[..i]
    ensures RemoveFirst(s, x) == s[..i] + s[i + 1..]
  {
    if i > 0 {
      assert s[0] in s[..i];
      assert s[1..][..i - 1] == s[1..i];
      RemoveFirstAt(s[1..], x, i - 1);
      assert s[1..][i..] == s[i + 1..];
      assert [s[0]] + s[1..i] == s[..i];
    }
  }

  /** Removing takes out one copy of `x` when there is one and nothing else. */
  lemma {:induction false} RemoveFirstMultiset(s: seq<int>, x: int)
    ensures multiset(RemoveFirst(s, x)) == multiset(s) - multiset{x}
    ensures |RemoveFirst(s, x)| == if x in s then |s| - 1 else |s|
  {
    if s != [] {
      assert s == [s[0]] + s[1..];
      RemoveFirstMultiset(s[1..], x);
    }
  }

  /** On a set-like load, removal is set difference and the load stays set-like. */
  lemma {:induction false} RemoveFirstLoad(s: seq<int>, x: int)
    requires LoadValid(s)
    ensures LoadValid(RemoveFirst(s, x))
    ensures Elements(RemoveFirst(s, x)) == Elements(s) - {x}
  {
    var r := RemoveFirst(s, x);
    RemoveFirstMultiset(s, x);
    forall y
      ensures y in r <==> y in s && y != x
    {
      assert y in r <==> y in multiset(r);
      assert y in s <==> y in multiset(s);
      if y == x && x in s {
        DistinctCount(s, x);
      }
    }
    forall i | 0 <= i < |r|
      ensures OnCylinder(r[i])
    {
      assert r[i] in r;
    }
    forall i, j | 0 <= i < j < |r|
      ensures r[i] != r[j]
    {
      if r[i] == r[j] {
        assert multiset(r)[r[i]] >= 2 by {
          assert r == r[..i] + [r[i]] + r[i + 1..j] + [r[j]] + r[j + 1..];
        }
        DistinctCount(s, r[i]);
        assert false;
      }
    }
  }

  /** In a list without repeats every member occurs exactly once. */
  lemma {:induction false} DistinctCount(s: seq<int>, x: int)
    requires Distinct(s) && x in s
    ensures multiset(s)[x] == 1
  {
    assert s == [s[0]] + s[1..];
    if s[0] == x {
      assert x !in s[1..];
    } else {
      DistinctCount(s[1..], x);
    }
  }

  /** A set-like list has as many elements as chambers it mentions. */
  lemma {:induction false} DistinctSize(s: seq<int>)
    requires Distinct(s)
    ensures |Elements(s)| == |s|
  {
    if s != [] {
      DistinctSize(s[1..]);
      assert Elements(s) == Elements(s[1..]) + {s[0]};
      assert s[0] !in Elements(s[1..]);
    }
  }

  /** A set-like load never holds more rounds than there are chambers. */
  lemma LoadAtMostChambers(s: seq<int>)
    requires LoadValid(s)
    ensures |s| <= Chambers
  {
    var all := {0, 1, 2, 3, 4, 5};
    var e := Elements(s);
    assert e <= all;
    assert all == e + (all - e);
    DistinctSize(s);
  }

  /** Whether the pull on `st` fires a live round. */
  function Outcome(st: Cylinder): (r: FireResult) {
    if st.chamber in st.bullets then Bullet else Blank
  }

  /** The cylinder after one pull: the fired round is spent, the pointer moves on. */
  function Fired(st: Cylinder): (r: Cylinder)
    requires OnCylinder(st.chamber)
    ensures OnCylinder(r.chamber)
  {
    Cylinder(RemoveFirst(st.bullets, st.chamber), Advance(st.chamber))
  }

  /**
   * One pull spends exactly the round in the current chamber: one copy
   * disappears on a Bullet, nothing changes on a Blank, and the pointer
   * always moves on by one.
   */
  lemma FiredSpendsOneRound(st: Cylinder)
    requires OnCylinder(st.chamber)
    ensures Outcome(st) == Bullet <==> st.chamber in st.bullets
    ensures Outcome(st) == Blank ==> Fired(st).bullets == st.bullets
    ensures multiset(Fired(st).bullets) == multiset(st.bullets) - multiset{st.chamber}
    ensures |Fired(st).bullets| == |st.bullets| - (if Outcome(st) == Bullet then 1 else 0)
    ensures Fired(st).chamber == (st.chamber + 1) % Chambers
  {
    RemoveFirstMultiset(st.bullets, st.chamber);
    if st.chamber !in st.bullets {
      RemoveFirstAbsent(st.bullets, st.chamber);
    }
  }
}
