/** The player's ship (the Ruby class `Starship`): it turns towards the
    window's aim angle, moves at a fixed speed without leaving the world,
    keeps its on-screen draw position (the camera) and charges a plasma ball
    while the trigger is held, firing it on release. */
module Player {
  import opened Vectors
  import opened Geometry
  import opened Plasma
  import opened Weapons
  import opened Steering

  const ShipSize: Vector := Vector(128.0, 32.0)
  const PlayerSpeed: nat := 5
  const PlayerDeadBand: nat := 2
  const PlayerTurn: nat := 4

  /** Where a ship mounts its charging ball, relative to the ship with its
      nose along x: `Vector.new((@shipSize.x * 0.7).round, 0)`. */
  function MountPoint(size: Vector): (m: Vector)
    ensures m.y == 0.0
    ensures -0.5 <= size.x * 0.7 - m.x < 0.5 || -0.5 < size.x * 0.7 - m.x <= 0.5
  {
    Vector(Round(size.x * 0.7) as real, 0.0)
  }

  /** For the ships of the game the ball sits 90 units ahead of the ship's
      position. */
  lemma MountPointOfShip()
    ensures MountPoint(ShipSize) == Vector(90.0, 0.0)
  {
    assert ShipSize.x * 0.7 == 89.6;
    assert (89.6 + 0.5).Floor == 90;
  }

  /** When Gosu's `angle_diff` returns the shortest whole-degree turn, the
      player's `angleCalc` is exactly one tick of `Steer`, so the
      convergence lemmas of `Steering` are about the player's turning. */
  lemma AngleCalcIsSteerStep(angle: int, aim: int, gosu: Gosu)
    requires gosu.angleDiff(angle as real, aim as real) == CircDiff(angle, aim) as real
    ensures TurnStep(angle, Round(gosu.angleDiff(angle as real, aim as real)), PlayerDeadBand, PlayerTurn)
            == Steer(angle, aim, PlayerDeadBand, PlayerTurn, 1)
  {
    RoundWhole(CircDiff(angle, aim));
  }

  class Starship {
    var angle: int
    var pos: Vector
    var drawPos: Vector
    /** The middle of the screen, where the camera keeps the ship when it is
        away from the world's edges. */
    const oDrawPos: Vector
    const speed: nat
    const worldSize: Vector
    const arms: Launcher
    ghost var Repr: set<object>

    ghost predicate Valid()
      reads this, Repr
    {
      && this in Repr && arms in Repr && arms.Repr <= Repr && this !in arms.Repr
      && arms.Valid()
      && worldSize.x > 0.0 && worldSize.y > 0.0
      && 0 <= angle < 360
    }

    /** `Starship.new(window)`: heading the window's current aim angle, in
        the middle of the world, drawn in the middle of the screen, at speed
        5, with no ball. */
    constructor (worldSize: Vector, halfScreen: Vector, aim: int)
      requires worldSize.x > 0.0 && worldSize.y > 0.0
      requires 0 <= aim < 360
      ensures Valid() && fresh(Repr)
      ensures angle == aim && pos == Centre(worldSize) && speed == PlayerSpeed
      ensures oDrawPos == halfScreen && drawPos == halfScreen && this.worldSize == worldSize
      ensures arms.plasma == null && arms.plasmas == []
    {
      angle := aim;
      pos := Centre(worldSize);
      oDrawPos := halfScreen;
      drawPos := halfScreen;
      speed := PlayerSpeed;
      this.worldSize := worldSize;
      var launcher := new Launcher();
      arms := launcher;
      new;
      Repr := {this} + arms.Repr;
    }

    /** `angleCalc`: one turn step towards the aim angle, with a dead-band
        of 2 degrees and a step of 4. */
    method AngleCalc(aim: int, gosu: Gosu)
      modifies this`angle
      ensures angle == TurnStep(old(angle), Round(gosu.angleDiff(old(angle) as real, aim as real)),
                                PlayerDeadBand, PlayerTurn)
      ensures 0 <= old(angle) < 360 ==> 0 <= angle < 360
    {
      var dif := Round(gosu.angleDiff(angle as real, aim as real));
      if Abs(dif) > PlayerDeadBand {
        SignOf(dif);
        var add := if dif != 0 then dif / Abs(dif) * PlayerTurn else 0;
        angle := (angle + add) % 360;
      }
    }

    /** `move`: one step of `speed` along the heading, reverted on each axis
        that would leave the world, then the camera update. */
    method Move(gosu: Gosu)
      requires worldSize.x > 0.0 && worldSize.y > 0.0
      modifies this`pos, this`drawPos
      ensures pos == MoveWithin(old(pos), gosu.offset(angle as real, speed as real), worldSize)
      ensures drawPos == Camera(old(drawPos), pos, oDrawPos, worldSize)
    {
      var oldPos := pos;
      var change := gosu.offset(angle as real, speed as real);
      var p := Add(oldPos, change);
      var xbool := Leaves(p.x, worldSize.x);
      var ybool := Leaves(p.y, worldSize.y);
      if xbool { p := p.(x := oldPos.x); }
      if ybool { p := p.(y := oldPos.y); }
      assert p == MoveWithin(oldPos, change, worldSize);
      pos := p;
      var d := drawPos;
      if p.x < oDrawPos.x { d := d.(x := p.x); }
      if p.y < oDrawPos.y { d := d.(y := p.y); }
      var difToEnd := Sub(worldSize, p);
      if difToEnd.x < oDrawPos.x { d := d.(x := oDrawPos.x * 2.0 - difToEnd.x); }
      if difToEnd.y < oDrawPos.y { d := d.(y := oDrawPos.y * 2.0 - difToEnd.y); }
      drawPos := d;
    }

    /** `update`, one tick: turn, move, then the trigger. */
    method Update(aim: int, trigger: bool, gosu: Gosu)
      requires Valid()
      modifies Repr
      ensures Valid() && fresh(Repr - old(Repr))
      ensures angle == TurnStep(old(angle), Round(gosu.angleDiff(old(angle) as real, aim as real)),
                                PlayerDeadBand, PlayerTurn)
      ensures pos == MoveWithin(old(pos), gosu.offset(angle as real, speed as real), worldSize)
      ensures drawPos == Camera(old(drawPos), pos, oDrawPos, worldSize)
      ensures trigger && old(arms.plasma) == null ==>
        && arms.plasma != null && fresh(arms.plasma)
        && arms.plasma.stage == Charging && arms.plasma.radius == RadiusStart + RadiusGrowth
        && arms.plasma.pos == arms.plasma.Mounted(angle, pos, gosu)
        && arms.plasmas == Survivors(old(arms.plasmas))
      ensures !trigger && old(arms.plasma) != null ==>
        arms.plasma == null && arms.plasmas == Survivors(old(arms.plasmas) + [old(arms.plasma)])
      ensures !trigger && old(arms.plasma) == null ==>
        arms.plasma == null && arms.plasmas == Survivors(old(arms.plasmas))
      ensures trigger && old(arms.plasma) != null && old(arms.WillDischarge()) ==>
        arms.plasma == null && arms.plasmas == Survivors(old(arms.plasmas) + [old(arms.plasma)])
      ensures trigger && old(arms.plasma) != null && !old(arms.WillDischarge()) ==>
        arms.plasma == old(arms.plasma) && arms.plasmas == Survivors(old(arms.plasmas))
      // every ball already in flight moves once
      ensures forall i | 0 <= i < |old(arms.plasmas)| :: Flown(old(arms.plasmas)[i], gosu)
      // a released ball takes the ship's heading and twice its speed, and
      // flies once on this tick
      ensures !trigger && old(arms.plasma) != null ==>
        var c := old(arms.plasma);
        && Launched(c, angle, speed) && c.radius == old(c.radius)
        && c.pos == Add(old(c.pos), gosu.offset(angle as real, c.speed as real))
        && c.distanceTravelled == c.speed
      // a held ball grows and follows the ship, until at full size it is
      // launched and flies once
      ensures trigger && old(arms.plasma) != null && !old(arms.WillDischarge()) ==>
        var c := old(arms.plasma);
        && c.stage == Charging && c.radius == old(c.radius) + RadiusGrowth
        && c.pos == c.Mounted(angle, pos, gosu)
      ensures trigger && old(arms.plasma) != null && old(arms.WillDischarge()) ==>
        var c := old(arms.plasma);
        && Launched(c, angle, speed) && c.radius == old(c.radius) + RadiusGrowth
        && c.pos == Add(c.Mounted(angle, pos, gosu), gosu.offset(angle as real, c.speed as real))
        && c.distanceTravelled == c.speed
    {
      AngleCalc(aim, gosu);
      Move(gosu);
      Trigger(trigger, gosu);
    }

    /** The trigger part of `update`. Holding the trigger with an empty slot
        starts a ball at the mount point; releasing it fires the ball in the
        slot; then the balls are updated and the old ones purged. The draw
        positions of the balls are computed from this ship's position and
        draw position. */
    method Trigger(trigger: bool, gosu: Gosu)
      requires Valid()
      modifies arms.Repr, this`Repr
      ensures Valid() && fresh(Repr - old(Repr))
      // holding the trigger with an empty slot starts a new ball, which
      // grows once on this tick
      ensures trigger && old(arms.plasma) == null ==>
        && arms.plasma != null && fresh(arms.plasma)
        && arms.plasma.stage == Charging && arms.plasma.radius == RadiusStart + RadiusGrowth
        && arms.plasma.pos == arms.plasma.Mounted(angle, pos, gosu)
        && arms.plasmas == Survivors(old(arms.plasmas))
      // releasing the trigger fires whatever is charging
      ensures !trigger && old(arms.plasma) != null ==>
        arms.plasma == null && arms.plasmas == Survivors(old(arms.plasmas) + [old(arms.plasma)])
      ensures !trigger && old(arms.plasma) == null ==>
        arms.plasma == null && arms.plasmas == Survivors(old(arms.plasmas))
      // holding it keeps charging, until the ball fires itself at full size
      ensures trigger && old(arms.plasma) != null && old(arms.WillDischarge()) ==>
        arms.plasma == null && arms.plasmas == Survivors(old(arms.plasmas) + [old(arms.plasma)])
      ensures trigger && old(arms.plasma) != null && !old(arms.WillDischarge()) ==>
        arms.plasma == old(arms.plasma) && arms.plasmas == Survivors(old(arms.plasmas))
      // every ball already in flight moves once
      ensures forall i | 0 <= i < |old(arms.plasmas)| :: Flown(old(arms.plasmas)[i], gosu)
      // a released ball takes the ship's heading and twice its speed, and
      // flies once on this tick
      ensures !trigger && old(arms.plasma) != null ==>
        var c := old(arms.plasma);
        && Launched(c, angle, speed) && c.radius == old(c.radius)
        && c.pos == Add(old(c.pos), gosu.offset(angle as real, c.speed as real))
        && c.distanceTravelled == c.speed
      // a held ball grows and follows the ship, until at full size it is
      // launched and flies once
      ensures trigger && old(arms.plasma) != null && !old(arms.WillDischarge()) ==>
        var c := old(arms.plasma);
        && c.stage == Charging && c.radius == old(c.radius) + RadiusGrowth
        && c.pos == c.Mounted(angle, pos, gosu)
      ensures trigger && old(arms.plasma) != null && old(arms.WillDischarge()) ==>
        var c := old(arms.plasma);
        && Launched(c, angle, speed) && c.radius == old(c.radius) + RadiusGrowth
        && c.pos == Add(c.Mounted(angle, pos, gosu), gosu.offset(angle as real, c.speed as real))
        && c.distanceTravelled == c.speed
    {
      ghost var before, c := arms.plasmas, arms.plasma;
      ghost var discharging := arms.WillDischarge();
      forall i | 0 <= i < |before|
        ensures before[i] != c
      {
      }
      Press(trigger, gosu);
      ghost var mid := arms.plasmas;
      assert trigger && c != null ==> arms.plasma == c && (arms.WillDischarge() <==> discharging);
      arms.Update(angle, speed, pos, pos, drawPos, gosu);
      forall i | 0 <= i < |before|
        ensures Flown(before[i], gosu)
      {
        assert mid[i] == before[i];
      }
    }

    /** The first half of the trigger part: holding the trigger with an
        empty slot starts a ball at the mount point, and releasing it fires
        the ball in the slot. The balls in flight are not touched. */
    method Press(trigger: bool, gosu: Gosu)
      requires Valid()
      modifies arms, arms.plasma, this`Repr
      ensures Valid() && fresh(Repr - old(Repr)) && fresh(arms.Repr - old(arms.Repr))
      ensures trigger && old(arms.plasma) == null ==>
        && arms.plasma != null && fresh(arms.plasma) && arms.plasmas == old(arms.plasmas)
        && arms.plasma.stage == Charging && arms.plasma.radius == RadiusStart
        && arms.plasma.pos == arms.plasma.Mounted(angle, pos, gosu) && !arms.WillDischarge()
      ensures !trigger && old(arms.plasma) != null ==>
        var c := old(arms.plasma);
        && arms.plasma == null && arms.plasmas == old(arms.plasmas) + [c]
        && Launched(c, angle, speed) && c.radius == old(c.radius) && c.pos == old(c.pos)
        && c.distanceTravelled == 0
      ensures trigger == (old(arms.plasma) != null) ==>
        arms.plasma == old(arms.plasma) && arms.plasmas == old(arms.plasmas)
        && (arms.plasma != null ==> arms.plasma.radius == old(arms.plasma.radius))
    {
      if trigger && arms.plasma == null {
        arms.Charge(angle, pos, MountPoint(ShipSize), gosu);
        Repr := Repr + arms.Repr;
      } else if arms.plasma != null && !trigger {
        arms.Fire(angle, speed);
      }
    }
  }
}
