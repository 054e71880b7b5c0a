/**
 * The revolver object: a list of live chambers and a chamber pointer, both
 * updated in place by Fire, GenerateBulletPositions, Spin and Reload. The
 * random draws of the engine come in as parameters whose range is that of
 * the draw.
 */
module Revolvers {
  import opened Interfaces
  import opened Cylinders
  import opened Loading

  /** A growable list of ints that callers share by reference, as `List<int>`. */
  class IntList {
    var items: seq<int>

    /** `new List<int>(source)`: a fresh list holding a copy of `source`. */
    constructor (source: seq<int>)
      ensures items == source
    {
      items := source;
    }

    function Count(): (n: nat)
      reads this
      ensures n == |items|
    {
      |items|
    }

    function Contains(x: int): (b: bool)
      reads this
      ensures b <==> exists i :: 0 <= i < |items| && items[i] == x
    {
      x in items
    }

    method Clear()
      modifies this
      ensures items == []
    {
      items := [];
    }

    method Add(x: int)
      modifies this
      ensures items == old(items) + [x]
    {
      items := items + [x];
    }

    /** Removes the first occurrence of `x` and reports whether there was one. */
    method Remove(x: int) returns (found: bool)
      modifies this
      ensures found == (x in old(items))
      ensures items == RemoveFirst(old(items), x)
    {
      found := x in items;
      items := RemoveFirst(items, x);
    }
  }

  class Revolver {
    /** The most rounds a generated load may hold (an inspector setting, 3 by default). */
    var maxBullets: int
    /** The live chambers, in the order they were loaded. */
    var bulletList: IntList
    /** The chamber that the next pull fires. */
    var currentChamber: int

    /** The pointer stays on the cylinder. */
    ghost predicate Valid()
      reads this
    {
      OnCylinder(currentChamber)
    }

    /** The abstract value of the revolver. */
    ghost function State(): (r: Cylinder)
      reads this, bulletList
    {
      Cylinder(bulletList.items, currentChamber)
    }

    /**
     * Start-up: the revolver generates a load into its own list and then
     * reloads from that list, which leaves a fresh copy of the load in place
     * and the pointer on chamber 0.
     */
    constructor Awake(maxBullets: int, amount: int, draws: seq<int>)
      requires 1 <= amount <= maxBullets
      requires InRange(draws) && amount <= |Elements(draws)|
      ensures Valid() && fresh(bulletList) && this.maxBullets == maxBullets
      ensures currentChamber == 0
      ensures LoadValid(bulletList.items) && |bulletList.items| == amount
      ensures exists used :: 0 < used <= |draws| && bulletList.items == Dedup(draws[..used])
    {
      this.maxBullets := maxBullets;
      bulletList := new IntList([]);
      currentChamber := 0;
      new;
      var list, used := GenerateBulletPositions(amount, draws);
      Reload(list.items);
    }

    /** The chamber under the hammer. */
    function CurrentChamber(): (c: int)
      reads this
      requires Valid()
      ensures OnCylinder(c) && c == State().chamber
    {
      currentChamber
    }

    /** The number of chambers. */
    function MaxChambers(): (n: int)
      ensures n == Chambers && n > 0
    {
      Chambers
    }

    /** The live list itself, shared with the revolver rather than copied. */
    function BulletPositions(): (l: IntList)
      reads this
      ensures l == bulletList
    {
      bulletList
    }

    /**
     * One trigger pull: reports whether the current chamber was live, spends
     * that round (its first occurrence in the list) and advances the pointer
     * whatever the outcome.
     */
    method Fire() returns (result: FireResult)
      requires Valid()
      modifies this`currentChamber, bulletList
      ensures Valid() && bulletList == old(bulletList)
      ensures result == Bullet <==> old(currentChamber) in old(bulletList.items)
      ensures result == Outcome(old(State()))
      ensures State() == Fired(old(State()))
      ensures currentChamber == (old(currentChamber) + 1) % Chambers
      ensures |bulletList.items| == |old(bulletList.items)| - (if result == Bullet then 1 else 0)
    {
      var wasBullet := bulletList.Contains(currentChamber);
      if wasBullet {
        var _ := bulletList.Remove(currentChamber);
      }
      AdvanceChamber();
      result := if wasBullet then Bullet else Blank;
      FiredSpendsOneRound(old(State()));
    }

    /** Moves the pointer to the next chamber, wrapping after the last. */
    method AdvanceChamber()
      requires Valid()
      modifies this`currentChamber
      ensures Valid() && currentChamber == Advance(old(currentChamber))
    {
      currentChamber := (currentChamber + 1) % Chambers;
    }

    /**
     * Empties the revolver's own list and refills it with `amount` distinct
     * chambers, taken from `draws` in order with repeats rejected; returns
     * that same list. `amount` is the engine's draw from `[1, maxBullets]`,
     * `draws` its successive draws from `[0, 6)`, and `used` how many of
     * them the loop consumed.
     */
    method GenerateBulletPositions(amount: int, draws: seq<int>) returns (list: IntList, used: nat)
      requires 1 <= amount <= maxBullets
      requires InRange(draws) && amount <= |Elements(draws)|
      modifies bulletList
      ensures list == bulletList
      ensures used <= |draws| && list.items == Dedup(draws[..used])
      ensures 0 < used && |Dedup(draws[..used - 1])| < amount
      ensures LoadValid(list.items)
      ensures 1 <= |list.items| == amount <= maxBullets
    {
      bulletList.Clear();
      used := 0;
      while bulletList.Count() < amount
        invariant used <= |draws|
        invariant bulletList.items == Dedup(draws[..used])
        invariant used == 0 || |Dedup(draws[..used - 1])| < amount
        invariant |bulletList.items| <= amount
        decreases |draws| - used
      {
        if used == |draws| {
          assert draws[..used] == draws;
          DedupSize(draws);
          assert false;
        }
        var pos := draws[used];
        DedupStep(draws, used);
        if !bulletList.Contains(pos) {
          bulletList.Add(pos);
        }
        used := used + 1;
      }
      list := bulletList;
      DedupLoad(draws[..used]);
      assert InRange(draws[..used]) by {
        forall i | 0 <= i < used ensures OnCylinder(draws[..used][i]) {
          assert draws[..used][i] == draws[i];
        }
      }
    }

    /** Points the hammer at the drawn chamber; the load is not touched. */
    method Spin(draw: int)
      requires OnCylinder(draw)
      modifies this`currentChamber
      ensures Valid() && currentChamber == draw
      ensures bulletList == old(bulletList) && State().bullets == old(State().bullets)
    {
      currentChamber := draw;
    }

    /**
     * Installs a fresh list holding a copy of `positions`, unchecked (repeats
     * and chambers off the cylinder are kept), and resets the pointer to 0.
     */
    method Reload(positions: seq<int>)
      modifies this`bulletList, this`currentChamber
      ensures Valid() && fresh(bulletList)
      ensures State() == Cylinder(positions, 0)
    {
      bulletList := new IntList(positions);
      currentChamber := 0;
    }
  }
}
