/** Turning and moving, shared by the player and the enemy ships
    (`angleCalc` and `move` are written twice in the original, once per
    ship class, with different constants). */
module Steering {
  import opened Vectors

  function Abs(n: int): nat { if n < 0 then -n else n }

  /** One `angleCalc` step on a whole-degree heading, given the rounded
      signed difference `dif` to the wanted heading: inside the dead-band the
      heading is kept; otherwise it moves `step` degrees in the direction of
      `dif` and is reduced modulo 360 (Ruby's `%`, which for the positive
      divisor 360 agrees with Dafny's). The ships compute the direction as
      `dif / dif.abs`; SignOf shows that this is the sign of `dif`. */
  function TurnStep(angle: int, dif: int, deadBand: nat, step: nat): (r: int)
    ensures Abs(dif) <= deadBand ==> r == angle
    ensures Abs(dif) > deadBand ==> 0 <= r < 360 && (r - angle - (if dif > 0 then step as int else -(step as int))) % 360 == 0
    ensures 0 <= angle < 360 ==> 0 <= r < 360
  {
    if dif > deadBand then (angle + step) % 360
    else if dif < -(deadBand as int) then (angle - step) % 360
    else angle
  }

  lemma SignOf(n: int)
    requires n != 0
    ensures n > 0 ==> n / Abs(n) == 1
    ensures n < 0 ==> n / Abs(n) == -1
  {
    if n < 0 {
      assert n == Abs(n) * -1;
    }
  }

  /** The shortest signed turn, in whole degrees, that takes heading `from`
      to heading `to`: a value in [-180, 180) congruent to `to - from`. On
      whole-degree arguments this is what Gosu::angle_diff returns. */
  function CircDiff(from: int, to: int): (d: int)
    ensures -180 <= d < 180
    ensures (to - from - d) % 360 == 0
  {
    ((to - from + 180) % 360) - 180
  }

  /** A whole number congruent to `y` modulo 360, with `y` in [0, 360),
      has `y` as its remainder. */
  lemma ModOfCongruent(x: int, y: int)
    requires 0 <= y < 360 && (x - y) % 360 == 0
    ensures x % 360 == y
  {
    var k := (x - y) / 360;
    assert x - y == 360 * k;
    assert x == 360 * k + y;
  }

  /** Turning the heading by `s` changes the shortest difference to the
      target by exactly `s`, as long as the result stays in [-180, 180). */
  lemma CircDiffShift(a: int, t: int, s: int)
    requires -180 <= CircDiff(a, t) - s < 180
    ensures CircDiff((a + s) % 360, t) == CircDiff(a, t) - s
  {
    var d := CircDiff(a, t);
    var a' := (a + s) % 360;
    assert (a + s - a') % 360 == 0;
    var x := t - a' + 180;
    assert (x - (d - s + 180)) % 360 == 0 by {
      assert x - (d - s + 180) == (t - a - d) + (a + s - a');
    }
    ModOfCongruent(x, d - s + 180);
  }

  /** One step of the turn rule, fed the true shortest difference, never
      turns the long way round: it keeps a heading already within the
      dead-band, brings a heading at least one step away exactly one step
      closer, and brings a heading closer than one step into the dead-band
      (so an overshoot never leaves the dead-band). The relation between the
      two constants holds for both ships: dead-band 2 and step 4 for the
      player, dead-band 1 and step 2 for the enemies. */
  lemma TurnStepApproaches(angle: int, target: int, deadBand: nat, step: nat)
    requires deadBand < step <= 2 * deadBand + 1 && step <= 180
    ensures var d := CircDiff(angle, target);
      var r := TurnStep(angle, d, deadBand, step);
      && (Abs(d) <= deadBand ==> r == angle)
      && (Abs(d) >= step ==> Abs(CircDiff(r, target)) == Abs(d) - step)
      && (deadBand < Abs(d) < step ==> Abs(CircDiff(r, target)) <= deadBand)
  {
    var d := CircDiff(angle, target);
    if d > deadBand {
      CircDiffShift(angle, target, step);
    } else if d < -(deadBand as int) {
      CircDiffShift(angle, target, -(step as int));
    }
  }

  /** `n` ticks of turning towards a fixed whole-degree target. */
  function Steer(angle: int, target: int, deadBand: nat, step: nat, n: nat): int
    decreases n
  {
    if n == 0 then angle
    else Steer(TurnStep(angle, CircDiff(angle, target), deadBand, step), target, deadBand, step, n - 1)
  }

  function Max(a: int, b: int): int { if a < b then b else a }

  /** After `n` ticks the remaining turn has shrunk by `step` per tick, down
      to the dead-band and never below it: the heading reaches the
      dead-band within ceil(180 / step) ticks and then stays there. */
  lemma SteerConverges(angle: int, target: int, deadBand: nat, step: nat, n: nat)
    requires deadBand < step <= 2 * deadBand + 1 && step <= 180
    ensures Abs(CircDiff(Steer(angle, target, deadBand, step, n), target))
            <= Max(Abs(CircDiff(angle, target)) - n * step, deadBand)
  {
    SteerConvergesBy(angle, target, deadBand, step, n);
    TurnedIsProduct(n, step);
  }

  /** `n` steps of `step` degrees, as a sum. */
  function Turned(n: nat, step: nat): nat
    decreases n
  {
    if n == 0 then 0 else Turned(n - 1, step) + step
  }

  lemma {:induction false} TurnedIsProduct(n: nat, step: nat)
    ensures Turned(n, step) == n * step
    decreases n
  {
    if n > 0 {
      TurnedIsProduct(n - 1, step);
      MulSucc(n, step);
    }
  }

  lemma {:induction false} SteerConvergesBy(angle: int, target: int, deadBand: nat, step: nat, n: nat)
    requires deadBand < step <= 2 * deadBand + 1 && step <= 180
    ensures Abs(CircDiff(Steer(angle, target, deadBand, step, n), target))
            <= Max(Abs(CircDiff(angle, target)) - Turned(n, step), deadBand)
    decreases n
  {
    if n > 0 {
      var next := TurnStep(angle, CircDiff(angle, target), deadBand, step);
      var last := Steer(next, target, deadBand, step, n - 1);
      OneStepCloser(angle, target, deadBand, step);
      SteerConvergesBy(next, target, deadBand, step, n - 1);
      MaxChain(Abs(CircDiff(angle, target)), Abs(CircDiff(next, target)), Abs(CircDiff(last, target)),
               Turned(n - 1, step), step, deadBand);
    }
  }

  /** One tick of SteerConverges. */
  lemma OneStepCloser(angle: int, target: int, deadBand: nat, step: nat)
    requires deadBand < step <= 2 * deadBand + 1 && step <= 180
    ensures Abs(CircDiff(TurnStep(angle, CircDiff(angle, target), deadBand, step), target))
            <= Max(Abs(CircDiff(angle, target)) - step, deadBand)
  {
    TurnStepApproaches(angle, target, deadBand, step);
  }

  lemma MulSucc(n: nat, s: int)
    requires n > 0
    ensures n * s == (n - 1) * s + s
  {
  }

  /** The arithmetic step of SteerConverges. */
  lemma MaxChain(a: int, a1: int, b: int, m: nat, s: int, db: int)
    requires a1 <= Max(a - s, db) && b <= Max(a1 - m, db)
    ensures b <= Max(a - (m + s), db)
  {
  }

  /** A heading inside the dead-band is never moved again. */
  lemma {:induction false} SteerHolds(angle: int, target: int, deadBand: nat, step: nat, n: nat)
    requires Abs(CircDiff(angle, target)) <= deadBand
    ensures Steer(angle, target, deadBand, step, n) == angle
    decreases n
  {
    if n > 0 {
      SteerHolds(angle, target, deadBand, step, n - 1);
    }
  }

  /** Turning keeps a heading in [0, 360). */
  lemma {:induction false} SteerInRange(angle: int, target: int, deadBand: nat, step: nat, n: nat)
    requires 0 <= angle < 360
    ensures 0 <= Steer(angle, target, deadBand, step, n) < 360
    decreases n
  {
    if n > 0 {
      SteerInRange(TurnStep(angle, CircDiff(angle, target), deadBand, step), target, deadBand, step, n - 1);
    }
  }

  /** Enough ticks to cover the initial difference bring the heading into
      the dead-band, and it stays a heading in [0, 360). */
  lemma SteerSettles(angle: int, target: int, deadBand: nat, step: nat, n: nat)
    requires deadBand < step <= 2 * deadBand + 1 && step <= 180
    requires 0 <= angle < 360 && Abs(CircDiff(angle, target)) <= n * step
    ensures 0 <= Steer(angle, target, deadBand, step, n) < 360
    ensures Abs(CircDiff(Steer(angle, target, deadBand, step, n), target)) <= deadBand
  {
    SteerConverges(angle, target, deadBand, step, n);
    SteerInRange(angle, target, deadBand, step, n);
  }

  /** The player (dead-band 2, step 4) starting at heading 0 and aiming at
      90 is within two degrees of 90 after 23 ticks. */
  lemma PlayerTurnScenario(angle: int, aim: int, ticks: nat)
    requires angle == 0 && aim == 90 && ticks == 23
    ensures 88 <= Steer(angle, aim, 2, 4, ticks) <= 92
  {
    assert CircDiff(angle, aim) == 90;
    SteerSettles(angle, aim, 2, 4, ticks);
    var r := Steer(angle, aim, 2, 4, ticks);
    WithinOf(r, aim, 2);
  }

  /** `n + 1` ticks of turning are `n` ticks followed by one more step. */
  lemma {:induction false} SteerSnoc(angle: int, target: int, deadBand: nat, step: nat, n: nat)
    ensures var a := Steer(angle, target, deadBand, step, n);
      Steer(angle, target, deadBand, step, n + 1) == TurnStep(a, CircDiff(a, target), deadBand, step)
    decreases n
  {
    if n > 0 {
      SteerSnoc(TurnStep(angle, CircDiff(angle, target), deadBand, step), target, deadBand, step, n - 1);
    }
  }

  /** In the player's turn from 0 to 90, each of the first 22 ticks turns
      by a full step of 4 degrees. */
  lemma {:induction false} ScenarioLinear(k: nat)
    requires k <= 22
    ensures Steer(0, 90, 2, 4, k) == 4 * k
  {
    if k > 0 {
      ScenarioLinear(k - 1);
      SteerSnoc(0, 90, 2, 4, k - 1);
      assert CircDiff(4 * (k - 1), 90) == 90 - 4 * (k - 1);
    }
  }

  /** The same turn never passes 94 degrees on the way: the heading climbs
      in steps of 4 up to 88, where it enters the dead-band and stays. */
  lemma ScenarioNeverPast94(k: nat)
    requires k <= 23
    ensures Steer(0, 90, 2, 4, k) == if k <= 22 then 4 * k else 88
    ensures 0 <= Steer(0, 90, 2, 4, k) <= 94
  {
    if k <= 22 {
      ScenarioLinear(k);
    } else {
      ScenarioLinear(22);
      SteerSnoc(0, 90, 2, 4, 22);
    }
  }

  /** A heading in [0, 360) whose shortest difference to `target` is at most
      `tol` lies within `tol` of `target`, when no wrap-around intervenes. */
  lemma WithinOf(r: int, target: int, tol: nat)
    requires 0 <= r < 360 && tol < target && target + tol < 360
    requires Abs(CircDiff(r, target)) <= tol
    ensures target - tol <= r <= target + tol
  {
    var d := CircDiff(r, target);
    SmallMultiple(target - r - d);
  }

  lemma SmallMultiple(x: int)
    requires -360 < x < 360 && x % 360 == 0
    ensures x == 0
  {
  }

  /** The wrap test of `move`: `v % size != v`, which for a positive size
      holds exactly when `v` has left `[0, size)`. */
  function Leaves(v: real, size: real): (out: bool)
    requires size > 0.0
    ensures out <==> !(0.0 <= v < size)
  {
    Mod(v, size) != v
  }

  /** One axis of `move`: the tentative coordinate is kept when it is still
      inside the world, and the axis is reverted to its old value when the
      move would have carried it across the edge. */
  function WrapRevert(prev: real, moved: real, size: real): (r: real)
    requires size > 0.0
    ensures r == (if 0.0 <= moved < size then moved else prev)
    ensures 0.0 <= prev < size ==> 0.0 <= r < size
  {
    if Leaves(moved, size) then prev else moved
  }

  predicate InWorld(p: Vector, size: Vector) {
    0.0 <= p.x < size.x && 0.0 <= p.y < size.y
  }

  /** The position test of `move` on both axes: the move by `change` would
      carry `pos` out of the world on at least one axis. */
  function Blocked(pos: Vector, change: Vector, size: Vector): (b: bool)
    requires size.x > 0.0 && size.y > 0.0
    ensures b <==> !InWorld(Vector(pos.x + change.x, pos.y + change.y), size)
  {
    Leaves(pos.x + change.x, size.x) || Leaves(pos.y + change.y, size.y)
  }

  /** `move` on both axes: each axis takes the step when the result stays in
      the world and keeps its old value otherwise. A ship inside the world
      stays inside, and a move that is not blocked is taken in full. */
  function MoveWithin(pos: Vector, change: Vector, size: Vector): (r: Vector)
    requires size.x > 0.0 && size.y > 0.0
    ensures r.x == (if 0.0 <= pos.x + change.x < size.x then pos.x + change.x else pos.x)
    ensures r.y == (if 0.0 <= pos.y + change.y < size.y then pos.y + change.y else pos.y)
    ensures InWorld(pos, size) ==> InWorld(r, size)
    ensures !Blocked(pos, change, size) ==> r == Add(pos, change)
  {
    Vector(WrapRevert(pos.x, pos.x + change.x, size.x), WrapRevert(pos.y, pos.y + change.y, size.y))
  }

  /** The middle of the world, `world_size / 2` (the world's sizes are even
      whole numbers, so Ruby's integer division is exact). */
  function Centre(size: Vector): Vector {
    Vector(size.x / 2.0, size.y / 2.0)
  }

  /** One axis of the player's camera update: the draw position is pinned
      to the raw position near the low edge, to `2 * half - (world - pos)`
      near the high edge (the high test is applied second, so it wins when
      both hold), and is otherwise left as it was. */
  function CameraAxis(prev: real, pos: real, half: real, world: real): (r: real)
    ensures world - pos < half ==> r == 2.0 * half - (world - pos)
    ensures pos < half && half <= world - pos ==> r == pos
    ensures half <= pos && half <= world - pos ==> r == prev
  {
    var low := if pos < half then pos else prev;
    var difToEnd := world - pos;
    if difToEnd < half then half * 2.0 - difToEnd else low
  }

  /** The player's camera update on both axes. */
  function Camera(prev: Vector, pos: Vector, half: Vector, world: Vector): Vector {
    Vector(CameraAxis(prev.x, pos.x, half.x, world.x), CameraAxis(prev.y, pos.y, half.y, world.y))
  }

  /** With the ship inside the world and the world at least a screen wide,
      the camera update keeps the draw position on the screen
      (`[0, 2 * half]`), and at either edge the screen shows the world from
      its edge on: the view starts at world coordinate 0 near the low edge
      and ends at `world` near the high edge. */
  lemma CameraOnScreen(prev: real, pos: real, half: real, world: real)
    requires 0.0 <= pos < world && 2.0 * half <= world
    requires 0.0 <= prev <= 2.0 * half
    ensures 0.0 <= CameraAxis(prev, pos, half, world) <= 2.0 * half
    ensures pos < half ==> pos - CameraAxis(prev, pos, half, world) == 0.0
    ensures world - pos < half ==> pos - CameraAxis(prev, pos, half, world) + 2.0 * half == world
  {
  }

  /** `d` lies on a screen whose middle is `half`. */
  predicate OnScreen(d: Vector, half: Vector) {
    0.0 <= d.x <= 2.0 * half.x && 0.0 <= d.y <= 2.0 * half.y
  }

  /** A move followed by the camera update keeps a ship that is inside the
      world inside it, and keeps its draw position on the screen, for a
      world at least a screen wide and high. */
  lemma MoveKeepsOnScreen(pos: Vector, change: Vector, prev: Vector, half: Vector, world: Vector)
    requires world.x > 0.0 && world.y > 0.0
    requires InWorld(pos, world) && OnScreen(prev, half)
    requires 2.0 * half.x <= world.x && 2.0 * half.y <= world.y
    ensures InWorld(MoveWithin(pos, change, world), world)
    ensures OnScreen(Camera(prev, MoveWithin(pos, change, world), half, world), half)
  {
    var p := MoveWithin(pos, change, world);
    CameraOnScreen(prev.x, p.x, half.x, world.x);
    CameraOnScreen(prev.y, p.y, half.y, world.y);
  }
}
