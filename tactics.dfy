/** The enemy's decision rules (`findNewAngle`, `runAway`, `shoot?`,
    `startCharging?` and the counter gates of `update`), stated over the
    values the rules read: distances and angles from Gosu, the shared
    engagement count, and the random draws. */
module Tactics {
  import opened Vectors

  const TooClose: real := 100.0
  const InRange: real := 1000.0
  /** `startCharging?` also holds at any heading inside this distance. */
  const ChargeRange: real := 200.0
  const ShotTolerance: real := 10.0
  const ChargeTolerance: real := 20.0
  const RetargetPeriod: nat := 60
  const ChargePeriod: nat := 30
  const ShotPeriod: nat := 20

  function RAbs(r: real): real { if r < 0.0 then -r else r }

  /** The random draws of one enemy tick: `findNewAngle`'s heading
      `rand(0...360)` and signed distance `rand(-2000..2000)` for the roaming
      destination and its patrol heading `rand(0...360)`, and `move`'s jitter
      `rand(-20..20)`. */
  datatype Dice = Dice(heading: int, reach: int, patrol: int, jitter: int)

  /** What the enemy is after: whether it is engaged and the heading it
      wants (`@engaged`, `@newAngle`). */
  datatype Course = Course(engaged: bool, newAngle: real)

  /** `findNewAngle`. Out of range the enemy disengages and patrols on a
      random heading. In range it engages, heading for the roaming
      destination near the player, when the previous tick's engagement count
      is below the cap or it was engaged already; otherwise nothing changes. */
  function Retarget(c: Course, dist: real, engagedCount: int, engagedCountMax: int,
                    toDest: real, patrol: int): (r: Course)
    ensures r.engaged <==> dist < InRange && (engagedCount < engagedCountMax || c.engaged)
    ensures !c.engaged && r.engaged ==> engagedCount < engagedCountMax
    ensures r.engaged ==> r.newAngle == toDest
    ensures dist >= InRange ==> r.newAngle == patrol as real
    ensures dist < InRange && !r.engaged ==> r == c
  {
    if dist < InRange then
      if engagedCount < engagedCountMax || c.engaged then Course(true, toDest) else c
    else
      Course(false, patrol as real)
  }

  /** `runAway`: closer than `TooClose`, the wanted heading is the bearing
      to the player turned round, reduced into [0, 360). */
  function Flee(newAngle: real, dist: real, toPlayer: real): (r: real)
    ensures dist < TooClose ==> 0.0 <= r < 360.0 && r == Mod(toPlayer + 180.0, 360.0)
    ensures dist >= TooClose ==> r == newAngle
  {
    if dist < TooClose then Mod(toPlayer + 180.0, 360.0) else newAngle
  }

  /** The first two steps of an enemy tick: re-target when the counter is a
      multiple of 60, then flee if too close. Fleeing overrides whatever the
      re-targeting chose, and the engagement flag only changes on
      re-targeting ticks. */
  function Plan(c: Course, counter: nat, dist: real, engagedCount: int, engagedCountMax: int,
                toDest: real, patrol: int, toPlayer: real): (r: Course)
    ensures counter % RetargetPeriod != 0 ==> r.engaged == c.engaged
    ensures counter % RetargetPeriod == 0 ==>
      r.engaged == Retarget(c, dist, engagedCount, engagedCountMax, toDest, patrol).engaged
    ensures dist < TooClose ==> r.newAngle == Mod(toPlayer + 180.0, 360.0)
    ensures TooClose <= dist && counter % RetargetPeriod != 0 ==> r.newAngle == c.newAngle
    ensures TooClose <= dist && counter % RetargetPeriod == 0 ==>
      r.newAngle == Retarget(c, dist, engagedCount, engagedCountMax, toDest, patrol).newAngle
  {
    var retargeted := if counter % RetargetPeriod == 0
      then Retarget(c, dist, engagedCount, engagedCountMax, toDest, patrol) else c;
    Course(retargeted.engaged, Flee(retargeted.newAngle, dist, toPlayer))
  }

  /** `shoot?`: facing the player within 10 degrees and in range, or too
      close whatever the facing. */
  predicate ShouldShoot(dist: real, dif: real)
  {
    (RAbs(dif) < ShotTolerance && dist < InRange) || dist < TooClose
  }

  /** `startCharging?`: facing the player within 20 degrees and in range, or
      closer than 200 whatever the facing. */
  predicate ShouldCharge(dist: real, dif: real)
  {
    (dist < InRange && RAbs(dif) < ChargeTolerance) || dist < ChargeRange
  }

  /** The firing gates at close range: too close always shoots, and under
      200 always charges, regardless of facing; beyond those radii each gate
      needs the facing and the range. */
  lemma GatesAtCloseRange(dist: real, dif: real)
    ensures dist < TooClose ==> ShouldShoot(dist, dif)
    ensures dist < ChargeRange ==> ShouldCharge(dist, dif)
    ensures ShouldShoot(dist, dif) && TooClose <= dist ==> RAbs(dif) < ShotTolerance && dist < InRange
    ensures ShouldCharge(dist, dif) && ChargeRange <= dist ==> RAbs(dif) < ChargeTolerance && dist < InRange
  {
  }

  /** Whenever `shoot?` holds, so does `startCharging?`. */
  lemma ShootImpliesCharge(dist: real, dif: real)
    ensures ShouldShoot(dist, dif) ==> ShouldCharge(dist, dif)
  {
  }

  /** Both firing periods divide the re-targeting period, so on every
      re-targeting tick both firing gates are open as far as the counter is
      concerned, and a ball can start charging and be fired on the same
      tick. */
  lemma PeriodsAlign(counter: nat)
    requires counter % RetargetPeriod == 0
    ensures counter % ChargePeriod == 0 && counter % ShotPeriod == 0
  {
    var k := counter / 60;
    assert counter == 60 * k;
    assert counter / 30 == 2 * k;
    assert counter / 20 == 3 * k;
  }
}
