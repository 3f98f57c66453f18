/** An enemy ship (the Ruby class `EnemyShip`): it re-targets every 60
    ticks, flees when the player is too close, turns towards its wanted
    heading, moves without leaving the world (turning back towards the
    middle when an edge stops it), and charges and fires plasma balls when
    its gates open. Everything it reads from the window and the player's
    ship is passed in. */
module Enemy {
  import opened Vectors
  import opened Geometry
  import opened Plasma
  import opened Weapons
  import opened Steering
  import opened Tactics
  import opened Player

  const EnemyDeadBand: nat := 1
  const EnemyTurn: nat := 2
  const HiddenDrawPos: Vector := Vector(-100.0, -100.0)
  const StartAngle: int := 90

  /** `findNewAngle`'s roaming destination: the player's position moved by
      the drawn distance along the drawn heading. */
  function Destination(playerPos: Vector, gosu: Gosu, dice: Dice): Vector {
    Add(playerPos, gosu.offset(dice.heading as real, dice.reach as real))
  }

  /** `shoot?` for an enemy at `pos` heading `angle`. */
  predicate ReadyToShoot(angle: int, pos: Vector, playerPos: Vector, gosu: Gosu) {
    ShouldShoot(gosu.distance(pos, playerPos), gosu.angleDiff(angle as real, gosu.angle(pos, playerPos)))
  }

  /** `startCharging?` for an enemy at `pos` heading `angle`. */
  predicate ReadyToCharge(angle: int, pos: Vector, playerPos: Vector, gosu: Gosu) {
    ShouldCharge(gosu.distance(pos, playerPos), gosu.angleDiff(angle as real, gosu.angle(pos, playerPos)))
  }

  /** The navigation state of an enemy: heading, position, wanted heading
      and whether it is engaged. */
  datatype Helm = Helm(angle: int, pos: Vector, newAngle: real, engaged: bool)

  /** The steering part of one enemy tick as a function of the state before
      it: re-target when the counter is a multiple of 60, flee when too close
      (together `Plan`), one turn step towards the wanted heading, one step
      along the new heading kept inside the world, and when an edge stopped
      the step a new wanted heading towards the middle of the world plus the
      jitter. */
  function Steered(h: Helm, counter: nat, speed: nat, worldSize: Vector,
                   engagedCount: int, engagedCountMax: int, playerPos: Vector, gosu: Gosu, dice: Dice): (r: Helm)
    requires worldSize.x > 0.0 && worldSize.y > 0.0
  {
    var c := Plan(Course(h.engaged, h.newAngle), counter, gosu.distance(h.pos, playerPos),
                  engagedCount, engagedCountMax, gosu.angle(h.pos, Destination(playerPos, gosu, dice)),
                  dice.patrol, gosu.angle(h.pos, playerPos));
    var a := TurnStep(h.angle, Round(gosu.angleDiff(h.angle as real, c.newAngle)), EnemyDeadBand, EnemyTurn);
    var change := gosu.offset(a as real, speed as real);
    var p := MoveWithin(h.pos, change, worldSize);
    var n := if Blocked(h.pos, change, worldSize)
      then Mod(gosu.angle(p, Centre(worldSize)) + dice.jitter as real, 360.0) else c.newAngle;
    Helm(a, p, n, c.engaged)
  }

  /** Engagement only changes on re-targeting ticks, and there it follows
      `findNewAngle`: in range and either below the cap or engaged already.
      In particular a ship only becomes engaged below the cap. */
  lemma SteeredEngagement(h: Helm, counter: nat, speed: nat, worldSize: Vector,
                          engagedCount: int, engagedCountMax: int, playerPos: Vector, gosu: Gosu, dice: Dice)
    requires worldSize.x > 0.0 && worldSize.y > 0.0
    ensures var r := Steered(h, counter, speed, worldSize, engagedCount, engagedCountMax, playerPos, gosu, dice);
      && (counter % RetargetPeriod != 0 ==> r.engaged == h.engaged)
      && (!h.engaged && r.engaged ==>
            engagedCount < engagedCountMax && gosu.distance(h.pos, playerPos) < InRange)
      && (counter % RetargetPeriod == 0 ==>
            (r.engaged <==> gosu.distance(h.pos, playerPos) < InRange
                            && (engagedCount < engagedCountMax || h.engaged)))
  {
    var c := Plan(Course(h.engaged, h.newAngle), counter, gosu.distance(h.pos, playerPos),
                  engagedCount, engagedCountMax, gosu.angle(h.pos, Destination(playerPos, gosu, dice)),
                  dice.patrol, gosu.angle(h.pos, playerPos));
    assert Steered(h, counter, speed, worldSize, engagedCount, engagedCountMax, playerPos, gosu, dice).engaged
      == c.engaged;
  }

  /** The heading moves by one turn step of at most 2 degrees (or wraps
      round 360), stays in [0, 360), and the ship takes one step along the
      new heading without leaving the world. */
  lemma SteeredMotion(h: Helm, counter: nat, speed: nat, worldSize: Vector,
                      engagedCount: int, engagedCountMax: int, playerPos: Vector, gosu: Gosu, dice: Dice)
    requires worldSize.x > 0.0 && worldSize.y > 0.0
    ensures var r := Steered(h, counter, speed, worldSize, engagedCount, engagedCountMax, playerPos, gosu, dice);
      && (0 <= h.angle < 360 ==> 0 <= r.angle < 360)
      && (Abs(r.angle - h.angle) <= EnemyTurn || Abs(r.angle - h.angle) >= 360 - EnemyTurn)
      && r.pos == MoveWithin(h.pos, gosu.offset(r.angle as real, speed as real), worldSize)
      && (InWorld(h.pos, worldSize) ==> InWorld(r.pos, worldSize))
  {
    var c := Plan(Course(h.engaged, h.newAngle), counter, gosu.distance(h.pos, playerPos),
                  engagedCount, engagedCountMax, gosu.angle(h.pos, Destination(playerPos, gosu, dice)),
                  dice.patrol, gosu.angle(h.pos, playerPos));
    var a := TurnStep(h.angle, Round(gosu.angleDiff(h.angle as real, c.newAngle)), EnemyDeadBand, EnemyTurn);
    var r := Steered(h, counter, speed, worldSize, engagedCount, engagedCountMax, playerPos, gosu, dice);
    assert r.angle == a;
    assert r.pos == MoveWithin(h.pos, gosu.offset(a as real, speed as real), worldSize);
  }

  /** The wanted heading: when an edge stopped the step it is a fresh
      heading in [0, 360); otherwise fleeing overrides it when the player is
      too close, on the re-targeting ticks it is `findNewAngle`'s, and off
      them it is kept. */
  lemma SteeredHeading(h: Helm, counter: nat, speed: nat, worldSize: Vector,
                       engagedCount: int, engagedCountMax: int, playerPos: Vector, gosu: Gosu, dice: Dice)
    requires worldSize.x > 0.0 && worldSize.y > 0.0
    ensures var r := Steered(h, counter, speed, worldSize, engagedCount, engagedCountMax, playerPos, gosu, dice);
      var blocked := Blocked(h.pos, gosu.offset(r.angle as real, speed as real), worldSize);
      && (blocked ==> 0.0 <= r.newAngle < 360.0)
      && (gosu.distance(h.pos, playerPos) < TooClose && !blocked ==>
            r.newAngle == Mod(gosu.angle(h.pos, playerPos) + 180.0, 360.0))
      && (TooClose <= gosu.distance(h.pos, playerPos) && counter % RetargetPeriod != 0 && !blocked ==>
            r.newAngle == h.newAngle)
      && (TooClose <= gosu.distance(h.pos, playerPos) && counter % RetargetPeriod == 0 && !blocked ==>
            r.newAngle == Retarget(Course(h.engaged, h.newAngle), gosu.distance(h.pos, playerPos),
                                   engagedCount, engagedCountMax,
                                   gosu.angle(h.pos, Destination(playerPos, gosu, dice)), dice.patrol).newAngle)
  {
    var c := Plan(Course(h.engaged, h.newAngle), counter, gosu.distance(h.pos, playerPos),
                  engagedCount, engagedCountMax, gosu.angle(h.pos, Destination(playerPos, gosu, dice)),
                  dice.patrol, gosu.angle(h.pos, playerPos));
    var a := TurnStep(h.angle, Round(gosu.angleDiff(h.angle as real, c.newAngle)), EnemyDeadBand, EnemyTurn);
    var change := gosu.offset(a as real, speed as real);
    var r := Steered(h, counter, speed, worldSize, engagedCount, engagedCountMax, playerPos, gosu, dice);
    assert r.angle == a;
    if !Blocked(h.pos, change, worldSize) {
      assert r.newAngle == c.newAngle;
    }
  }

  class EnemyShip {
    var angle: int
    var pos: Vector
    var drawPos: Vector
    var newAngle: real
    var engaged: bool
    var counter: nat
    const speed: nat
    /** Drawn at creation and never read by the game. */
    const smartness: int
    const shipSize: Vector
    const worldSize: Vector
    const arms: Launcher
    ghost var Repr: set<object>

    ghost predicate Valid()
      reads this, Repr
    {
      && this in Repr && arms in Repr && arms.Repr <= Repr && this !in arms.Repr
      && arms.Valid()
      && worldSize.x > 0.0 && worldSize.y > 0.0
      && 0 <= angle < 360
    }

    /** The navigation state of this ship. */
    function Nav(): (h: Helm)
      reads this
      ensures h.angle == angle && h.pos == pos && h.newAngle == newAngle && h.engaged == engaged
    {
      Helm(angle, pos, newAngle, engaged)
    }

    /** `EnemyShip.new(window, pos, speed, smartness)`: heading 90, drawn off
        screen until its first update, counter 0, no ball, then a first
        `findNewAngle`. The original leaves the wanted heading unset when
        that first call finds the player in range with the engagement cap
        already reached; the precondition rules that case out. The first
        `update` would run `findNewAngle` again (its counter is 0) and then
        `runAway`, and `angleCalc` fails on the unset heading only if
        neither sets it: the player still in range, the cap still reached,
        and the player not within 100. */
    constructor (pos: Vector, speed: nat, smartness: int, worldSize: Vector,
                 engagedCount: int, engagedCountMax: int, playerPos: Vector, gosu: Gosu, dice: Dice)
      requires worldSize.x > 0.0 && worldSize.y > 0.0
      requires gosu.distance(pos, playerPos) >= InRange || engagedCount < engagedCountMax
      ensures Valid() && fresh(Repr)
      ensures this.pos == pos && this.speed == speed && this.smartness == smartness
      ensures this.worldSize == worldSize && shipSize == ShipSize
      ensures angle == StartAngle && drawPos == HiddenDrawPos && counter == 0
      ensures engaged <==> gosu.distance(pos, playerPos) < InRange
      ensures engaged ==> newAngle == gosu.angle(pos, Destination(playerPos, gosu, dice))
      ensures !engaged ==> newAngle == dice.patrol as real
      ensures arms.plasma == null && arms.plasmas == []
    {
      this.pos := pos;
      this.speed := speed;
      this.smartness := smartness;
      this.worldSize := worldSize;
      angle := StartAngle;
      drawPos := HiddenDrawPos;
      shipSize := ShipSize;
      counter := 0;
      engaged := false;
      newAngle := 0.0;
      var launcher := new Launcher();
      arms := launcher;
      new;
      Repr := {this} + arms.Repr;
      FindNewAngle(engagedCount, engagedCountMax, playerPos, gosu, dice);
    }

    /** `findNewAngle`, with its random draws taken from `dice`. */
    method FindNewAngle(engagedCount: int, engagedCountMax: int, playerPos: Vector, gosu: Gosu, dice: Dice)
      modifies this`engaged, this`newAngle
      ensures Course(engaged, newAngle)
        == Retarget(Course(old(engaged), old(newAngle)), gosu.distance(pos, playerPos),
                    engagedCount, engagedCountMax, gosu.angle(pos, Destination(playerPos, gosu, dice)), dice.patrol)
    {
      var dest := Destination(playerPos, gosu, dice);
      if gosu.distance(pos, playerPos) < InRange {
        if engagedCount < engagedCountMax || engaged {
          engaged := true;
          newAngle := gosu.angle(pos, dest);
        }
      } else {
        engaged := false;
        newAngle := dice.patrol as real;
      }
    }

    /** `runAway`. */
    method RunAway(playerPos: Vector, gosu: Gosu)
      modifies this`newAngle
      ensures newAngle == Flee(old(newAngle), gosu.distance(pos, playerPos), gosu.angle(pos, playerPos))
    {
      if gosu.distance(pos, playerPos) < TooClose {
        newAngle := gosu.angle(pos, playerPos) + 180.0;
        newAngle := Mod(newAngle, 360.0);
      }
    }

    /** `angleCalc`: one turn step towards the wanted heading, with a
        dead-band of 1 degree and a step of 2. */
    method AngleCalc(gosu: Gosu)
      modifies this`angle
      ensures angle == TurnStep(old(angle), Round(gosu.angleDiff(old(angle) as real, newAngle)),
                                EnemyDeadBand, EnemyTurn)
      ensures 0 <= old(angle) < 360 ==> 0 <= angle < 360
    {
      var dif := Round(gosu.angleDiff(angle as real, newAngle));
      if Abs(dif) > EnemyDeadBand {
        SignOf(dif);
        var add := if dif != 0 then dif / Abs(dif) * EnemyTurn else 0;
        angle := (angle + add) % 360;
      }
    }

    /** `move`: one step of `speed` along the heading, reverted on each axis
        that would leave the world; when an axis was reverted the wanted
        heading becomes the bearing to the middle of the world plus the
        jitter, reduced into [0, 360). */
    method Move(gosu: Gosu, jitter: int)
      requires worldSize.x > 0.0 && worldSize.y > 0.0
      modifies this`pos, this`newAngle
      ensures pos == MoveWithin(old(pos), gosu.offset(angle as real, speed as real), worldSize)
      ensures Blocked(old(pos), gosu.offset(angle as real, speed as real), worldSize) ==>
        && newAngle == Mod(gosu.angle(pos, Centre(worldSize)) + jitter as real, 360.0)
        && 0.0 <= newAngle < 360.0
      ensures !Blocked(old(pos), gosu.offset(angle as real, speed as real), worldSize) ==>
        newAngle == old(newAngle)
    {
      var oldPos := pos;
      var change := gosu.offset(angle as real, speed as real);
      var p := Add(oldPos, change);
      var xbool := Leaves(p.x, worldSize.x);
      var ybool := Leaves(p.y, worldSize.y);
      if xbool { p := p.(x := oldPos.x); }
      if ybool { p := p.(y := oldPos.y); }
      assert p == MoveWithin(oldPos, change, worldSize);
      pos := p;
      if xbool || ybool {
        var a := gosu.angle(p, Centre(worldSize));
        a := a + jitter as real;
        newAngle := Mod(a, 360.0);
      }
    }

    /** `update`, one tick: steer and move, then the charging and firing
        gates and the projectile update, then the draw position relative to
        the player's camera, and the counter. The ghost results name the
        slot and the balls in flight before the gates, whether the ball in
        the slot reaches full size on this tick, and the ball started on
        this tick, if any. */
    method Update(engagedCount: int, engagedCountMax: int, playerPos: Vector, playerDrawPos: Vector,
                  gosu: Gosu, dice: Dice)
      returns (ghost slot: PlasmaBall?, ghost flying: seq<PlasmaBall>, ghost full: bool, ghost charged: PlasmaBall?)
      requires Valid()
      modifies Repr
      ensures Valid() && fresh(Repr - old(Repr))
      ensures Nav() == Steered(old(Nav()), old(counter), speed, worldSize,
                               engagedCount, engagedCountMax, playerPos, gosu, dice)
      ensures drawPos == Add(Sub(pos, playerPos), playerDrawPos)
      ensures counter == old(counter) + 1
      ensures slot == old(arms.plasma) && flying == old(arms.plasmas) && full == old(arms.WillDischarge())
      // a ball starts charging when the slot is empty and the charging gate
      // is open; it grows once on this tick and may be fired at once
      ensures charged != null <==>
        slot == null && old(counter) % ChargePeriod == 0 && ReadyToCharge(angle, pos, playerPos, gosu)
      ensures charged != null ==> fresh(charged)
      ensures charged != null && old(counter) % ShotPeriod == 0 && ReadyToShoot(angle, pos, playerPos, gosu) ==>
        arms.plasma == null && arms.plasmas == Survivors(flying + [charged])
      ensures charged != null && !(old(counter) % ShotPeriod == 0 && ReadyToShoot(angle, pos, playerPos, gosu)) ==>
        && arms.plasma == charged && arms.plasmas == Survivors(flying)
        && charged.stage == Charging && charged.radius == RadiusStart + RadiusGrowth
        && charged.pos == charged.Mounted(angle, pos, gosu)
      ensures slot == null && charged == null ==>
        arms.plasma == null && arms.plasmas == Survivors(flying)
      // a ball already in the slot is fired by the gate or by reaching full size
      ensures slot != null && ((old(counter) % ShotPeriod == 0 && ReadyToShoot(angle, pos, playerPos, gosu)) || full) ==>
        arms.plasma == null && arms.plasmas == Survivors(flying + [slot])
      ensures slot != null && !(old(counter) % ShotPeriod == 0 && ReadyToShoot(angle, pos, playerPos, gosu)) && !full ==>
        arms.plasma == slot && arms.plasmas == Survivors(flying)
      // every ball already in flight moves once
      ensures forall i | 0 <= i < |flying| :: Flown(flying[i], gosu)
      // a ball fired on this tick takes the ship's heading and twice its
      // speed and flies once; a ball kept in the slot grows
      ensures slot != null && old(counter) % ShotPeriod == 0 && ReadyToShoot(angle, pos, playerPos, gosu) ==>
        && Launched(slot, angle, speed) && slot.radius == old(slot.radius)
        && slot.pos == Add(old(slot.pos), gosu.offset(angle as real, slot.speed as real))
        && slot.distanceTravelled == slot.speed
      ensures slot != null && !(old(counter) % ShotPeriod == 0 && ReadyToShoot(angle, pos, playerPos, gosu)) && full ==>
        && Launched(slot, angle, speed) && slot.radius == old(slot.radius) + RadiusGrowth
        && slot.pos == Add(slot.Mounted(angle, pos, gosu), gosu.offset(angle as real, slot.speed as real))
        && slot.distanceTravelled == slot.speed
      ensures slot != null && !(old(counter) % ShotPeriod == 0 && ReadyToShoot(angle, pos, playerPos, gosu)) && !full ==>
        && slot.stage == Charging && slot.radius == old(slot.radius) + RadiusGrowth
        && slot.pos == slot.Mounted(angle, pos, gosu)
      ensures charged != null && old(counter) % ShotPeriod == 0 && ReadyToShoot(angle, pos, playerPos, gosu) ==>
        && Launched(charged, angle, speed) && charged.radius == RadiusStart
        && charged.pos == Add(charged.Mounted(angle, pos, gosu), gosu.offset(angle as real, charged.speed as real))
        && charged.distanceTravelled == charged.speed
    {
      var tick := counter;
      Pilot(engagedCount, engagedCountMax, playerPos, gosu, dice);
      drawPos := Add(Sub(pos, playerPos), playerDrawPos);
      counter := counter + 1;
      slot, flying, full, charged := Gunnery(tick, playerPos, playerDrawPos, gosu);
    }

    /** The steering part of `update`: `findNewAngle` when the counter is a
        multiple of 60, `runAway`, `angleCalc`, `move`. */
    method Pilot(engagedCount: int, engagedCountMax: int, playerPos: Vector, gosu: Gosu, dice: Dice)
      requires worldSize.x > 0.0 && worldSize.y > 0.0
      modifies this`engaged, this`newAngle, this`angle, this`pos
      ensures Nav() == Steered(old(Nav()), counter, speed, worldSize,
                               engagedCount, engagedCountMax, playerPos, gosu, dice)
      ensures 0 <= old(angle) < 360 ==> 0 <= angle < 360
    {
      if counter % RetargetPeriod == 0 {
        FindNewAngle(engagedCount, engagedCountMax, playerPos, gosu, dice);
      }
      RunAway(playerPos, gosu);
      AngleCalc(gosu);
      Move(gosu, dice.jitter);
    }

    /** The weapons part of `update`: start a ball when the slot is empty,
        the counter is a multiple of 30 and `startCharging?` holds; fire the
        ball in the slot when `shoot?` holds and the counter is a multiple
        of 20 (a ball started on this tick can be fired at once); then update
        the balls and purge the old ones. `tick` is the counter of this
        tick; the ghost results are those of `Update`. */
    method Gunnery(tick: nat, playerPos: Vector, playerDrawPos: Vector, gosu: Gosu)
      returns (ghost slot: PlasmaBall?, ghost flying: seq<PlasmaBall>, ghost full: bool, ghost charged: PlasmaBall?)
      requires Valid()
      modifies arms.Repr, this`Repr
      ensures Valid() && fresh(Repr - old(Repr))
      ensures slot == old(arms.plasma) && flying == old(arms.plasmas) && full == old(arms.WillDischarge())
      // a ball starts charging when the slot is empty and the charging gate
      // is open; it grows once on this tick and may be fired at once
      ensures charged != null <==>
        slot == null && tick % ChargePeriod == 0 && ReadyToCharge(angle, pos, playerPos, gosu)
      ensures charged != null ==> fresh(charged)
      ensures charged != null && tick % ShotPeriod == 0 && ReadyToShoot(angle, pos, playerPos, gosu) ==>
        arms.plasma == null && arms.plasmas == Survivors(flying + [charged])
      ensures charged != null && !(tick % ShotPeriod == 0 && ReadyToShoot(angle, pos, playerPos, gosu)) ==>
        && arms.plasma == charged && arms.plasmas == Survivors(flying)
        && charged.stage == Charging && charged.radius == RadiusStart + RadiusGrowth
        && charged.pos == charged.Mounted(angle, pos, gosu)
      ensures slot == null && charged == null ==>
        arms.plasma == null && arms.plasmas == Survivors(flying)
      // a ball already in the slot is fired by the gate or by reaching full size
      ensures slot != null && ((tick % ShotPeriod == 0 && ReadyToShoot(angle, pos, playerPos, gosu)) || full) ==>
        arms.plasma == null && arms.plasmas == Survivors(flying + [slot])
      ensures slot != null && !(tick % ShotPeriod == 0 && ReadyToShoot(angle, pos, playerPos, gosu)) && !full ==>
        arms.plasma == slot && arms.plasmas == Survivors(flying)
      // every ball already in flight moves once
      ensures forall i | 0 <= i < |flying| :: Flown(flying[i], gosu)
      // a ball fired on this tick takes the ship's heading and twice its
      // speed and flies once; a ball kept in the slot grows
      ensures slot != null && tick % ShotPeriod == 0 && ReadyToShoot(angle, pos, playerPos, gosu) ==>
        && Launched(slot, angle, speed) && slot.radius == old(slot.radius)
        && slot.pos == Add(old(slot.pos), gosu.offset(angle as real, slot.speed as real))
        && slot.distanceTravelled == slot.speed
      ensures slot != null && !(tick % ShotPeriod == 0 && ReadyToShoot(angle, pos, playerPos, gosu)) && full ==>
        && Launched(slot, angle, speed) && slot.radius == old(slot.radius) + RadiusGrowth
        && slot.pos == Add(slot.Mounted(angle, pos, gosu), gosu.offset(angle as real, slot.speed as real))
        && slot.distanceTravelled == slot.speed
      ensures slot != null && !(tick % ShotPeriod == 0 && ReadyToShoot(angle, pos, playerPos, gosu)) && !full ==>
        && slot.stage == Charging && slot.radius == old(slot.radius) + RadiusGrowth
        && slot.pos == slot.Mounted(angle, pos, gosu)
      ensures charged != null && tick % ShotPeriod == 0 && ReadyToShoot(angle, pos, playerPos, gosu) ==>
        && Launched(charged, angle, speed) && charged.radius == RadiusStart
        && charged.pos == Add(charged.Mounted(angle, pos, gosu), gosu.offset(angle as real, charged.speed as real))
        && charged.distanceTravelled == charged.speed
    {
      slot, flying, full := arms.plasma, arms.plasmas, arms.WillDischarge();
      forall i | 0 <= i < |flying| ensures flying[i] != slot { }
      ghost var fired;
      charged, fired := Gates(tick, playerPos, gosu);
      ghost var mid := arms.plasmas;
      assert !fired && slot != null ==> arms.plasma == slot && (arms.WillDischarge() <==> full);
      arms.Update(angle, speed, pos, playerPos, playerDrawPos, gosu);
      forall i | 0 <= i < |flying| ensures Flown(flying[i], gosu) { assert mid[i] == flying[i]; }
    }

    /** The two gates of `update`: start a ball when the slot is empty, the
        counter is a multiple of 30 and `startCharging?` holds, then fire
        the ball in the slot when the counter is a multiple of 20 and
        `shoot?` holds. `charged` is the ball started, `fired` whether a
        ball was fired. */
    method Gates(tick: nat, playerPos: Vector, gosu: Gosu) returns (ghost charged: PlasmaBall?, ghost fired: bool)
      requires Valid()
      modifies arms, arms.plasma, this`Repr
      ensures Valid() && fresh(Repr - old(Repr)) && fresh(arms.Repr - old(arms.Repr))
      ensures charged != null <==>
        old(arms.plasma) == null && tick % ChargePeriod == 0 && ReadyToCharge(angle, pos, playerPos, gosu)
      ensures charged != null ==>
        && fresh(charged) && charged.radius == RadiusStart && (fired || charged.stage == Charging)
      ensures fired <==>
        (old(arms.plasma) != null || charged != null) && tick % ShotPeriod == 0 && ReadyToShoot(angle, pos, playerPos, gosu)
      ensures fired ==>
        && arms.plasma == null
        && arms.plasmas == old(arms.plasmas) + [if old(arms.plasma) != null then old(arms.plasma) else charged]
      ensures !fired ==>
        && arms.plasma == (if old(arms.plasma) != null then old(arms.plasma) else charged)
        && arms.plasmas == old(arms.plasmas)
      ensures !fired && old(arms.plasma) != null ==> arms.plasma.radius == old(arms.plasma.radius)
      // the ball fired takes the ship's heading and twice its speed
      ensures fired ==>
        var b := if old(arms.plasma) != null then old(arms.plasma) else charged;
        Launched(b, angle, speed) && b.distanceTravelled == 0
      ensures fired && old(arms.plasma) != null ==>
        old(arms.plasma).radius == old(arms.plasma.radius) && old(arms.plasma).pos == old(arms.plasma.pos)
      ensures charged != null ==> charged.pos == charged.Mounted(angle, pos, gosu)
    {
      charged, fired := null, false;
      if arms.plasma == null && tick % ChargePeriod == 0 && ReadyToCharge(angle, pos, playerPos, gosu) {
        arms.Charge(angle, pos, MountPoint(shipSize), gosu);
        Repr := Repr + arms.Repr;
        charged := arms.plasma;
      }
      if arms.plasma != null && ReadyToShoot(angle, pos, playerPos, gosu) && tick % ShotPeriod == 0 {
        arms.Fire(angle, speed);
        fired := true;
      }
    }
  }
}
