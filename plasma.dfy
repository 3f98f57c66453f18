/** The plasma ball: a projectile that rides on its ship while it charges,
    and flies on a fixed heading once fired (the Ruby class `PlasmaBall`). */
module Plasma {
  import opened Vectors
  import opened Geometry

  datatype Stage = Charging | Fired

  const RadiusStart: real := 10.0
  const RadiusMax: real := 40.0
  const RadiusGrowth: real := 0.2
  /** A ball that has travelled further than this is `old?` and is purged. */
  const TravelBudget: int := 10000
  const SpinStep: int := 2

  /** Where a charging ball sits (`posGetFromShip`): at distance
      `modifyDist` from the ship's position, on the heading
      `(shipAngle + modifyAngle) % 360`, so it turns with the ship. */
  function MountedPos(shipAngle: int, shipPos: Vector, modifyAngle: real, modifyDist: real, gosu: Gosu): Vector
  {
    Add(shipPos, gosu.offset(Mod(shipAngle as real + modifyAngle, 360.0), modifyDist))
  }

  /** The ball has been fired by a ship with heading `shipAngle` and speed
      `shipSpeed`: it flies on the ship's heading at twice its speed. */
  predicate Launched(b: PlasmaBall, shipAngle: int, shipSpeed: nat)
    reads b
  {
    b.stage == Fired && b.angle == shipAngle && b.speed == 2 * shipSpeed
  }

  /** A ball in flight moved once on this tick: one step of its speed along
      its heading, added to the distance travelled; nothing else changed. */
  twostate predicate Flown(b: PlasmaBall, gosu: Gosu)
    reads b
  {
    && b.stage == Fired && b.angle == old(b.angle) && b.speed == old(b.speed)
    && b.radius == old(b.radius)
    && b.pos == Add(old(b.pos), gosu.offset(b.angle as real, b.speed as real))
    && b.distanceTravelled == old(b.distanceTravelled) + b.speed
  }

  class PlasmaBall {
    var stage: Stage
    var radius: real
    /** Heading and speed of flight; both are taken from the ship when fired
        (nil in the original until then, 0 here). */
    var angle: int
    var speed: int
    var pos: Vector
    var drawPos: Vector
    var rotateAngle: int
    var distanceTravelled: int
    /** The mounting offset in polar form, computed once by `getModify`. */
    const modifyAngle: real
    const modifyDist: real

    ghost predicate Valid()
      reads this
    {
      && RadiusStart <= radius < RadiusMax + RadiusGrowth
      && 0 <= rotateAngle < 360
      && 0 <= speed
      && 0 <= distanceTravelled
      && (stage == Charging ==> distanceTravelled == 0)
    }

    /** `old?`: the ball has used up its travel budget. */
    predicate IsOld()
      reads this
    {
      distanceTravelled > TravelBudget
    }

    /** Where this ball sits while it charges on a ship with the given
        heading and position. */
    function Mounted(shipAngle: int, shipPos: Vector, gosu: Gosu): Vector
    {
      MountedPos(shipAngle, shipPos, modifyAngle, modifyDist, gosu)
    }

    /** `PlasmaBall.new(ship, posModify)`: a charging ball of radius 10 that
        has not travelled, mounted at `posModify` (ship-relative, with the
        ship's nose along x) turned into polar form. */
    constructor (shipAngle: int, shipPos: Vector, posModify: Vector, gosu: Gosu)
      ensures Valid()
      ensures stage == Charging && radius == RadiusStart
      ensures distanceTravelled == 0 && rotateAngle == 0 && angle == 0 && speed == 0
      ensures modifyAngle == gosu.angle(Vector(0.0, 0.0), posModify) - 90.0
      ensures modifyDist == gosu.distance(Vector(0.0, 0.0), posModify)
      ensures pos == Mounted(shipAngle, shipPos, gosu)
    {
      stage := Charging;
      radius := RadiusStart;
      modifyAngle := gosu.angle(Vector(0.0, 0.0), posModify) - 90.0;
      modifyDist := gosu.distance(Vector(0.0, 0.0), posModify);
      pos := MountedPos(shipAngle, shipPos,
                        gosu.angle(Vector(0.0, 0.0), posModify) - 90.0,
                        gosu.distance(Vector(0.0, 0.0), posModify), gosu);
      drawPos := pos;
      rotateAngle := 0;
      distanceTravelled := 0;
      angle := 0;
      speed := 0;
    }

    /** `fire`: switch to flight on the ship's heading at twice its speed. */
    method Fire(shipAngle: int, shipSpeed: nat)
      requires Valid()
      modifies this
      ensures Valid()
      ensures stage == Fired && angle == shipAngle && speed == 2 * shipSpeed
      ensures radius == old(radius) && pos == old(pos) && drawPos == old(drawPos)
      ensures rotateAngle == old(rotateAngle) && distanceTravelled == old(distanceTravelled)
    {
      stage := Fired;
      angle := shipAngle;
      speed := shipSpeed * 2;
    }

    /** `update`, one tick. A charging ball follows its ship and grows by 0.2
        while below the maximum radius; a fired ball moves `speed` along its
        heading and adds `speed` to the distance travelled; the stage never
        changes here. The result `full` is the original's condition for
        calling `@ship.fire` (charging at the maximum radius or beyond): the
        owner fires the ball when it is true. The spin and the camera-relative
        draw position are for rendering. */
    method Update(shipAngle: int, shipPos: Vector, playerPos: Vector, playerDrawPos: Vector, gosu: Gosu)
      returns (full: bool)
      requires Valid()
      modifies this
      ensures Valid()
      ensures stage == old(stage) && angle == old(angle) && speed == old(speed)
      ensures old(stage) == Charging ==>
        && pos == Mounted(shipAngle, shipPos, gosu)
        && radius == (if old(radius) < RadiusMax then old(radius) + RadiusGrowth else old(radius))
        && distanceTravelled == 0
      ensures old(stage) == Fired ==>
        && pos == Add(old(pos), gosu.offset(angle as real, speed as real))
        && radius == old(radius)
        && distanceTravelled == old(distanceTravelled) + speed
      ensures rotateAngle == (old(rotateAngle) + SpinStep) % 360
      ensures drawPos == Add(Sub(pos, playerPos), playerDrawPos)
      ensures full <==> stage == Charging && radius >= RadiusMax
    {
      if stage == Charging {
        pos := Mounted(shipAngle, shipPos, gosu);
      }
      if stage == Charging && radius < RadiusMax {
        radius := radius + RadiusGrowth;
      }
      rotateAngle := (rotateAngle + SpinStep) % 360;
      if stage == Fired {
        pos := Add(pos, gosu.offset(angle as real, speed as real));
        distanceTravelled := distanceTravelled + speed;
      }
      full := radius >= RadiusMax && stage == Charging;
      drawPos := Add(Sub(pos, playerPos), playerDrawPos);
    }
  }
}
