# Revolver cylinder model

A Dafny model of the revolver behind a turn-based Russian-roulette VR game.
The revolver has six chambers. It keeps a list of the chambers that hold a
live round and a pointer to the chamber the next pull fires. Four operations
change that state:

- `Fire` reports `Bullet` when the current chamber is listed, removes that
  chamber's first occurrence from the list, and always moves the pointer
  one chamber on, modulo 6.
- `GenerateBulletPositions` empties the revolver's own list and refills it
  by rejection sampling with between 1 and `MaxBullets` distinct chambers. It
  returns that same list object.
- `Spin` moves the pointer to a random chamber.
- `Reload` installs a fresh copy of the given positions and puts the pointer
  on chamber 0.

Module layout:

- `Interfaces` (interfaces.dfy) holds the `FireResult` enum.
- `Cylinders` (cylinder.dfy) holds the revolver's state as a value
  (`Cylinder`), the pointer step `Advance`, `RemoveFirst` (the semantics of
  `List<int>.Remove`), and `Outcome` and `Fired`, which specify one pull.
- `Loading` (loading.dfy) holds `Dedup`, the load that the rejection loop
  builds from a sequence of draws.
- `Rotation` (rotation.dfy) covers several pulls in a row (`Volley`,
  `Outcomes`) and the full turn of the cylinder.
- `Revolvers` (revolver.dfy) holds the `Revolver` class. Its fields are
  updated in place. `IntList` stands for the shared, mutable `List<int>`,
  which lets the model state that `GenerateBulletPositions` returns the
  revolver's own list and `Reload` installs a new one.
- `Scenarios` (scenarios.dfy) has a reload followed by six pulls, once on
  the value model and once through the class's methods.

Randomness comes in as parameters, each constrained to the range of the
engine's `Random.Range` call: `amount` for the bullet count, the sequence
`draws` for the chambers drawn in the loop, and `draw` for `Spin`.

Points of the code the model keeps as they are:

- `Reload` checks nothing. Repeated chambers and chambers off the cylinder
  are stored as given.
- `GenerateBulletPositions` works on the revolver's own list and returns it.
  It does not build a separate set.
- The live chambers form an ordered list, not a set. Removal drops only the
  first occurrence. Set-like behaviour is therefore proved only for loads
  that satisfy `LoadValid` (no repeats, every chamber in `[0, 6)`), and
  `LoadValid` appears as a precondition wherever it is needed.

## Model

| member | source | states |
|---|---|---|
| `Cylinders.Advance` | Assets/Revolver.cs:98-101 | the pointer step keeps the pointer in `[0, 6)`: it moves from `c` to `c + 1`, and from chamber 5 back to 0 |
| `Cylinders.RemoveFirstAbsent` | Assets/Revolver.cs:88 | removing a chamber that is not listed leaves the list unchanged |
| `Cylinders.RemoveFirstAt` | Assets/Revolver.cs:88 | removal cuts out exactly the first index holding the chamber; everything before and after it keeps its order |
| `Cylinders.RemoveFirstMultiset` | Assets/Revolver.cs:88 | removal takes away one copy of the chamber if there is one, and nothing else; the length drops by one exactly when the chamber was listed |
| `Cylinders.RemoveFirstLoad` | Assets/Revolver.cs:84-88 | on a load without repeats whose chambers are all in range, removal is set difference, and the load keeps both properties |
| `Cylinders.LoadAtMostChambers` | Assets/Revolver.cs:107-113 | a load without repeats whose chambers are all in range holds at most 6 rounds, so the rejection loop can only stop for a bullet count of at most 6 |
| `Cylinders.FiredSpendsOneRound` | Assets/Revolver.cs:82-101 | one pull gives `Bullet` exactly when the current chamber was listed; a `Blank` leaves the list as it was; the list loses exactly one copy of the fired chamber; the count never grows and drops by at most one; the pointer becomes `(c + 1) % 6` |
| `Loading.DedupLoad` | Assets/Revolver.cs:109-114 | the load built from the draws has no repeats, holds exactly the drawn chambers, and is in range when the draws are |
| `Loading.DedupSize` | Assets/Revolver.cs:109-114 | the load reaches `k` rounds only once `k` distinct chambers have been drawn |
| `Loading.DedupStep` | Assets/Revolver.cs:111-113 | step lemma for the rejection loop: the load after one more draw is the earlier load with that draw appended if it was not yet loaded, and unchanged otherwise |
| `Rotation.Volley` | Assets/Revolver.cs:82-101 | any number of pulls keeps the pointer on the cylinder |
| `Rotation.VolleyChamber` | Assets/Revolver.cs:93-101 | after `n` pulls the pointer has moved `n` chambers on, modulo 6, whatever the outcomes |
| `Rotation.VolleyProgress` | Assets/Revolver.cs:84-101 | on a load without repeats and in range, after `n <= 6` pulls the rounds left are exactly the loaded chambers not yet reached, and pull `k` reported `Bullet` exactly when chamber `start + k` was loaded |
| `Rotation.FullRotation` | Assets/Revolver.cs:82-101 | six pulls from any chamber on a load without repeats and in range visit every chamber once, give `Bullet` exactly for the loaded ones, bring the pointer back to where it started and leave no round |
| `Rotation.BulletsFired` | Assets/Revolver.cs:84-91 | over any run of pulls, the rounds left plus the `Bullet` results equal the rounds loaded, for any load |
| `Scenarios.ChambersOneAndThree` | Assets/Revolver.cs:82-128 | reloaded with chambers 1 and 3, six pulls give Blank, Bullet, Blank, Bullet, Blank, Blank and leave an empty list with the pointer on 0 |
| `Scenarios.FromChamberZero` | Assets/Revolver.cs:124-127 | after a reload, pull `k` of six gives `Bullet` exactly when chamber `k` was loaded, and the load is spent |
| `Scenarios.ReloadAndEmpty` | Assets/Revolver.cs:82-128 | `Reload` followed by six `Fire` calls on the class: result `k` is `Bullet` exactly when `k` was loaded, and the revolver ends with an empty list and its pointer on 0 |
| `Revolvers.IntList.constructor` | Assets/Revolver.cs:126 | a new list holds a copy of the given positions, in order |
| `Revolvers.IntList.Contains` | Assets/Revolver.cs:84 | true exactly when some index holds the chamber |
| `Revolvers.IntList.Clear` | Assets/Revolver.cs:105 | the list becomes empty |
| `Revolvers.IntList.Add` | Assets/Revolver.cs:113 | the chamber is appended at the end |
| `Revolvers.IntList.Remove` | Assets/Revolver.cs:88 | reports whether the chamber was listed and removes its first occurrence only |
| `Revolvers.Revolver.Awake` | Assets/Revolver.cs:39 | start-up generates a load into the revolver's own list and reloads from it; the result is a fresh list of `amount` distinct in-range rounds, built from the first draws, with the pointer on 0 |
| `Revolvers.Revolver.CurrentChamber` | Assets/Revolver.cs:29 | the pointer read without side effect, always in `[0, 6)` |
| `Revolvers.Revolver.MaxChambers` | Assets/Revolver.cs:30 | the cylinder has 6 chambers |
| `Revolvers.Revolver.BulletPositions` | Assets/Revolver.cs:31 | the accessor hands out the revolver's live list object itself, not a copy |
| `Revolvers.Revolver.Fire` | Assets/Revolver.cs:82-96 | `Bullet` exactly when the old chamber was listed; the new state is `Fired` of the old one (first occurrence removed, pointer `(c + 1) % 6`); the count drops by one on `Bullet` only; the same list object is kept |
| `Revolvers.Revolver.AdvanceChamber` | Assets/Revolver.cs:98-101 | the pointer moves on by one chamber modulo 6 and stays in range |
| `Revolvers.Revolver.GenerateBulletPositions` | Assets/Revolver.cs:103-117 | returns the revolver's own list, refilled with `amount` rounds (`1 <= amount <= maxBullets`), without repeats and in range; these are the distinct draws in first-drawn order, and the loop stops at the first draw that completes the count |
| `Revolvers.Revolver.Spin` | Assets/Revolver.cs:119-122 | the pointer becomes the drawn chamber in `[0, 6)`; the list object and its contents are untouched |
| `Revolvers.Revolver.Reload` | Assets/Revolver.cs:124-128 | a fresh list equal to the given positions element for element, unchecked, and the pointer on 0 |

## Left out

- The XR wiring (`Awake`'s listener registration, `OnGrab`, `OnRelease`, `OnTriggerDown`, `OnTriggerUp`) is engine event plumbing. Only `Awake`'s call `Reload(GenerateBulletPositions())` is modelled, as the constructor.
- The muzzle flash, the gunshot sound and the `Debug.Log` line in `Fire` are presentation side effects that do not touch the revolver's state.
- The unused float `triggerThreshold` is not modelled.
- `Assets/InterfaceManager.cs` declares only interfaces and enums for players, turns, game rules, UI and AI, with no implementation. Only `FireResult` is modelled.
- Randomness: each `Random.Range` draw is a parameter limited to the draw's range. Uniformity cannot be stated here.
- Revolvers.Revolver.GenerateBulletPositions: the model requires the draws to contain at least `amount` distinct chambers. With real random draws this happens with probability 1. A stream of draws that never gets there would make the source loop run forever, and the model does not capture that. One such case is `MaxBullets` above 6, which allows a bullet count that no load can reach (see `Cylinders.LoadAtMostChambers`).
- Revolvers.Revolver.GenerateBulletPositions: a `MaxBullets` below 1 is not modelled. It gives `Random.Range` an empty range, and what happens then is up to the engine.
- Revolvers.Revolver.Awake: it carries the same two requirements as `GenerateBulletPositions`, for the same reasons: the bullet count is drawn from `[1, maxBullets]`, and the draws must eventually contain that many distinct chambers.
- Revolvers.Revolver.Reload: `Reload(null)` throws `ArgumentNullException` from `new List<int>(null)` before either field is assigned, so the revolver keeps its old state. The model passes positions as a `seq<int>`, which cannot be null, so this error path is not modelled.
- Revolvers.Revolver.BulletPositions: the read-only restriction of `IReadOnlyList` is not modelled. The model returns the list object itself.
- Integers are unbounded in the model. The pointer stays in `[0, 6)`. List elements are only compared, by `Contains` and `Remove`, and never used in arithmetic. List lengths are bounded by .NET itself. So 32-bit wrap-around cannot change what the model describes. `MaxBullets + 1` could overflow for `MaxBullets` equal to `int.MaxValue`, but that setting already falls under the first `GenerateBulletPositions` line above.
