/** A ship's projectiles: at most one charging ball in the slot `plasma`
    and the ordered list `plasmas` of balls in flight. Both ship classes of
    the original carry these two fields and the same code for them
    (`fire`, and the last three lines before the draw-position update in
    `update`); here that code lives once, in the class `Launcher`, which
    each ship owns. */
module Weapons {
  import opened Vectors
  import opened Geometry
  import opened Plasma

  /** No ball is listed twice: each ball differs from all balls before it. */
  predicate Distinct(s: seq<PlasmaBall>)
    decreases |s|
  {
    s == [] || (s[|s| - 1] !in s[..|s| - 1] && Distinct(s[..|s| - 1]))
  }

  /** `delete_if {|plasma| plasma.old?}` as a value: the balls of `s` that
      are not old, in their order in `s`. No old ball survives, every ball
      that is not old does, and nothing else appears. */
  function Survivors(s: seq<PlasmaBall>): (r: seq<PlasmaBall>)
    reads s
    ensures |r| <= |s|
    ensures forall i | 0 <= i < |r| :: !r[i].IsOld() && r[i] in s
    ensures forall i | 0 <= i < |s| :: !s[i].IsOld() ==> s[i] in r
    decreases |s|
  {
    if s == [] then []
    else
      var last := s[|s| - 1];
      Survivors(s[..|s| - 1]) + (if last.IsOld() then [] else [last])
  }

  /** Where each survivor came from: the positions in `s` of the balls kept,
      strictly increasing, so the survivors keep their relative order. */
  ghost function KeptPositions(s: seq<PlasmaBall>): (idx: seq<nat>)
    reads s
    ensures |idx| == |Survivors(s)|
    ensures forall k | 0 <= k < |idx| :: idx[k] < |s| && Survivors(s)[k] == s[idx[k]]
    ensures forall k, l | 0 <= k < l < |idx| :: idx[k] < idx[l]
    decreases |s|
  {
    if s == [] then []
    else
      var last := s[|s| - 1];
      KeptPositions(s[..|s| - 1]) + (if last.IsOld() then [] else [|s| - 1])
  }

  /** In a list without repeated balls, different positions hold different
      balls. */
  lemma {:induction false} DistinctApart(s: seq<PlasmaBall>, i: nat, j: nat)
    requires Distinct(s) && i < j < |s|
    ensures s[i] != s[j]
    decreases |s|
  {
    var init := s[..|s| - 1];
    if j < |s| - 1 {
      DistinctApart(init, i, j);
    } else {
      assert s[i] == init[i];
    }
  }

  /** Purging a list without repeated balls gives a list without repeated
      balls. */
  lemma {:induction false} SurvivorsDistinct(s: seq<PlasmaBall>)
    requires Distinct(s)
    ensures Distinct(Survivors(s))
    decreases |s|
  {
    if s != [] {
      var init := s[..|s| - 1];
      SurvivorsDistinct(init);
      var r := Survivors(s);
      if !s[|s| - 1].IsOld() {
        assert r[..|r| - 1] == Survivors(init);
      } else {
        assert r == Survivors(init);
      }
    }
  }

  class Launcher {
    var plasma: PlasmaBall?
    var plasmas: seq<PlasmaBall>
    ghost var Repr: set<object>

    /** The shape that holds at every point of a tick: the slot holds a
        charging ball that is not also in flight, every ball in flight is
        fired, and no ball is listed twice. */
    ghost predicate Sound()
      reads this, Repr
    {
      && this in Repr
      && (plasma != null ==>
            plasma in Repr && plasma.Valid() && plasma.stage == Charging && plasma !in plasmas)
      && (forall i | 0 <= i < |plasmas| ::
            plasmas[i] in Repr && plasmas[i].Valid() && plasmas[i].stage == Fired)
      && Distinct(plasmas)
    }

    /** Between ticks, in addition: a charging ball is below the maximum
        radius (it would have been fired otherwise) and no ball in flight
        is old (it would have been purged). */
    ghost predicate Valid()
      reads this, Repr
    {
      && Sound()
      && (plasma != null ==> plasma.radius < RadiusMax)
      && (forall i | 0 <= i < |plasmas| :: !plasmas[i].IsOld())
    }

    /** The charging ball reaches the maximum radius on this tick, which
        fires it. */
    ghost predicate WillDischarge()
      reads this, Repr
      requires Sound()
    {
      plasma != null && plasma.radius + RadiusGrowth >= RadiusMax
    }

    constructor ()
      ensures Valid() && fresh(Repr)
      ensures plasma == null && plasmas == []
    {
      plasma := null;
      plasmas := [];
      Repr := {this};
    }

    /** `@plasma = PlasmaBall.new(self, posModify)`: start charging a new ball
        in the empty slot. */
    method Charge(shipAngle: int, shipPos: Vector, posModify: Vector, gosu: Gosu)
      requires Valid() && plasma == null
      modifies this
      ensures Valid()
      ensures plasma != null && fresh(plasma) && Repr == old(Repr) + {plasma}
      ensures plasmas == old(plasmas)
      ensures plasma.stage == Charging && plasma.radius == RadiusStart && plasma.distanceTravelled == 0
      ensures plasma.modifyAngle == gosu.angle(Vector(0.0, 0.0), posModify) - 90.0
      ensures plasma.modifyDist == gosu.distance(Vector(0.0, 0.0), posModify)
      ensures plasma.pos == plasma.Mounted(shipAngle, shipPos, gosu)
    {
      plasma := new PlasmaBall(shipAngle, shipPos, posModify, gosu);
      Repr := Repr + {plasma};
    }

    /** `fire`: launch the charging ball, move it to the end of the list in
        flight and empty the slot. The other balls and their order are left
        alone. */
    method Fire(shipAngle: int, shipSpeed: nat)
      requires Sound() && plasma != null
      modifies this, plasma
      ensures Sound() && Repr == old(Repr)
      ensures plasma == null && plasmas == old(plasmas) + [old(plasma)]
      ensures old(plasma).stage == Fired
      ensures old(plasma).angle == shipAngle && old(plasma).speed == 2 * shipSpeed
      ensures old(plasma).radius == old(plasma.radius) && old(plasma).pos == old(plasma.pos)
      ensures old(plasma).distanceTravelled == 0
      ensures (forall i | 0 <= i < |old(plasmas)| :: !old(plasmas)[i].IsOld()) ==> Valid()
    {
      plasma.Fire(shipAngle, shipSpeed);
      assert (plasmas + [plasma])[..|plasmas|] == plasmas;
      plasmas := plasmas + [plasma];
      plasma := null;
    }

    /** `@plasmas.delete_if {|plasma| plasma.old?}`. */
    method Purge()
      requires Sound()
      modifies this
      ensures Sound() && Repr == old(Repr)
      ensures plasma == old(plasma) && plasmas == Survivors(old(plasmas))
    {
      var kept: seq<PlasmaBall> := [];
      var i := 0;
      while i < |plasmas|
        invariant 0 <= i <= |plasmas|
        invariant kept == Survivors(plasmas[..i])
      {
        assert plasmas[..i + 1][..i] == plasmas[..i];
        if !plasmas[i].IsOld() {
          kept := kept + [plasmas[i]];
        }
        i := i + 1;
      }
      assert plasmas[..i] == plasmas;
      SurvivorsDistinct(plasmas);
      plasmas := kept;
    }

    /** The projectile part of a ship's `update`: update the charging ball
        (which fires it when it reaches the maximum radius), then every ball
        in flight, then purge the old ones. A ball fired by its own update
        has already joined the list when the list is updated, so it moves
        once on the tick it is fired. */
    method Update(shipAngle: int, shipSpeed: nat, shipPos: Vector,
                  playerPos: Vector, playerDrawPos: Vector, gosu: Gosu)
      requires Valid()
      modifies Repr
      ensures Valid() && Repr == old(Repr)
      ensures old(WillDischarge()) ==>
        plasma == null && plasmas == Survivors(old(plasmas) + [old(plasma)])
      ensures !old(WillDischarge()) ==>
        plasma == old(plasma) && plasmas == Survivors(old(plasmas))
      // every ball already in flight moves once
      ensures forall i | 0 <= i < |old(plasmas)| :: Flown(old(plasmas)[i], gosu)
      // a charging ball below the threshold follows the ship and grows
      ensures old(plasma) != null && !old(WillDischarge()) ==>
        var c := old(plasma);
        && c.stage == Charging && c.radius == old(c.radius) + RadiusGrowth
        && c.pos == c.Mounted(shipAngle, shipPos, gosu) && c.distanceTravelled == 0
      // a ball that reaches the maximum radius is fired and is then updated
      // a second time as part of the list: it has already flown once
      ensures old(WillDischarge()) ==>
        var c := old(plasma);
        && c.stage == Fired && c.angle == shipAngle && c.speed == 2 * shipSpeed
        && c.radius == old(c.radius) + RadiusGrowth
        && c.pos == Add(c.Mounted(shipAngle, shipPos, gosu), gosu.offset(shipAngle as real, c.speed as real))
        && c.distanceTravelled == c.speed
    {
      ghost var before := plasmas;
      ghost var c := plasma;
      ghost var discharging := WillDischarge();
      ChargeTick(shipAngle, shipSpeed, shipPos, playerPos, playerDrawPos, gosu);
      ghost var flying := plasmas;
      assert flying == if discharging then before + [c] else before;
      forall i | 0 <= i < |before|
        ensures unchanged(before[i])
      {
        assert before[i] != c;
      }
      FlightTick(shipAngle, shipPos, playerPos, playerDrawPos, gosu);
      forall i | 0 <= i < |before|
        ensures Flown(before[i], gosu)
      {
        assert flying[i] == before[i];
      }
      Purge();
    }

    /** `@plasma.update if @plasma`, with the firing it may cause. */
    method ChargeTick(shipAngle: int, shipSpeed: nat, shipPos: Vector,
                      playerPos: Vector, playerDrawPos: Vector, gosu: Gosu)
      requires Valid()
      modifies this, plasma
      ensures Sound() && Repr == old(Repr)
      ensures forall i | 0 <= i < |plasmas| :: !plasmas[i].IsOld()
      ensures old(WillDischarge()) ==> plasma == null && plasmas == old(plasmas) + [old(plasma)]
      ensures !old(WillDischarge()) ==> plasma == old(plasma) && plasmas == old(plasmas)
      ensures plasma != null ==> plasma.radius < RadiusMax
      ensures old(plasma) != null && !old(WillDischarge()) ==>
        var c := old(plasma);
        && c.stage == Charging && c.radius == old(c.radius) + RadiusGrowth
        && c.pos == c.Mounted(shipAngle, shipPos, gosu) && c.distanceTravelled == 0
      ensures old(WillDischarge()) ==>
        var c := old(plasma);
        && c.stage == Fired && c.angle == shipAngle && c.speed == 2 * shipSpeed
        && c.radius == old(c.radius) + RadiusGrowth
        && c.pos == c.Mounted(shipAngle, shipPos, gosu) && c.distanceTravelled == 0
    {
      if plasma != null {
        var full := plasma.Update(shipAngle, shipPos, playerPos, playerDrawPos, gosu);
        if full {
          Fire(shipAngle, shipSpeed);
        }
      }
    }

    /** `@plasmas.each {|plasma| plasma.update}`: every ball in flight moves
        once along its heading. */
    method FlightTick(shipAngle: int, shipPos: Vector,
                      playerPos: Vector, playerDrawPos: Vector, gosu: Gosu)
      requires Sound()
      modifies set k | 0 <= k < |plasmas| :: plasmas[k]
      ensures Sound()
      ensures forall i | 0 <= i < |plasmas| :: Flown(plasmas[i], gosu)
    {
      var i := 0;
      while i < |plasmas|
        invariant 0 <= i <= |plasmas|
        invariant forall k | 0 <= k < i ::
          var b := plasmas[k];
          && b.Valid() && b.stage == Fired
          && b.angle == old(b.angle) && b.speed == old(b.speed)
          && b.radius == old(b.radius)
          && b.pos == Add(old(b.pos), gosu.offset(b.angle as real, b.speed as real))
          && b.distanceTravelled == old(b.distanceTravelled) + b.speed
        invariant forall k | i <= k < |plasmas| :: unchanged(plasmas[k])
      {
        forall k | i < k < |plasmas|
          ensures plasmas[k] != plasmas[i]
        {
          DistinctApart(plasmas, i, k);
        }
        var _ := plasmas[i].Update(shipAngle, shipPos, playerPos, playerDrawPos, gosu);
        i := i + 1;
      }
    }
  }
}
