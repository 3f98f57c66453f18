/** The game window (the Ruby class `Window`) as far as the simulation goes:
    it owns the player's ship and the enemies, keeps the aim angle and the
    number of engaged enemies, and runs one tick in `update`. The screen
    size, the mouse position and the trigger button are inputs; so are the
    random draws of the enemies. */
module World {
  import opened Vectors
  import opened Geometry
  import opened Steering
  import opened Tactics
  import opened Player
  import opened Enemy

  const WorldSize: Vector := Vector(2560.0, 1600.0)
  const EngagedCountMax: int := 3
  const EnemyCount: nat := 10
  const EnemySpeed: nat := 4

  /** How many of `flags` hold. */
  function Count(flags: seq<bool>): (n: nat)
    ensures n <= |flags|
    decreases |flags|
  {
    if flags == [] then 0 else Count(flags[..|flags| - 1]) + (if flags[|flags| - 1] then 1 else 0)
  }

  /** None of `flags` holds exactly when the count is 0, and all of them
      exactly when it is their number. */
  lemma {:induction false} CountExtremes(flags: seq<bool>)
    ensures Count(flags) == 0 <==> forall k | 0 <= k < |flags| :: !flags[k]
    ensures Count(flags) == |flags| <==> forall k | 0 <= k < |flags| :: flags[k]
    decreases |flags|
  {
    if flags != [] {
      CountExtremes(flags[..|flags| - 1]);
    }
  }

  /** When every flag is `b`, the count is all or nothing. */
  lemma {:induction false} CountAlike(flags: seq<bool>, b: bool)
    requires forall k | 0 <= k < |flags| :: flags[k] == b
    ensures Count(flags) == if b then |flags| else 0
    decreases |flags|
  {
    if flags != [] {
      CountAlike(flags[..|flags| - 1], b);
    }
  }

  /** Flags that only hold where `flags` hold count no more. */
  lemma {:induction false} CountMono(fewer: seq<bool>, flags: seq<bool>)
    requires |fewer| == |flags|
    requires forall k | 0 <= k < |flags| :: fewer[k] ==> flags[k]
    ensures Count(fewer) <= Count(flags)
    decreases |flags|
  {
    if flags != [] {
      CountMono(fewer[..|fewer| - 1], flags[..|flags| - 1]);
    }
  }

  /** Appending one flag adds one to the count exactly when it holds. */
  lemma CountSnoc(flags: seq<bool>, b: bool)
    ensures Count(flags + [b]) == Count(flags) + (if b then 1 else 0)
  {
    assert (flags + [b])[..|flags|] == flags;
  }

  /** The helm states of the ships of `s`, in order. */
  ghost function Navs(s: seq<EnemyShip>): (r: seq<Helm>)
    reads s
    ensures |r| == |s| && forall k | 0 <= k < |s| :: r[k] == s[k].Nav()
  {
    seq(|s|, k requires 0 <= k < |s| reads s => s[k].Nav())
  }

  /** The tick counters of the ships of `s`, in order. */
  ghost function Counters(s: seq<EnemyShip>): (r: seq<nat>)
    reads s
    ensures |r| == |s| && forall k | 0 <= k < |s| :: r[k] == s[k].counter
  {
    seq(|s|, k requires 0 <= k < |s| reads s => s[k].counter)
  }

  /** Which of the ships of `s` are engaged, in order. */
  ghost function Flags(s: seq<EnemyShip>): (r: seq<bool>)
    reads s
    ensures |r| == |s| && forall k | 0 <= k < |s| :: r[k] == s[k].engaged
  {
    seq(|s|, k requires 0 <= k < |s| reads s => s[k].engaged)
  }

  /** The speeds of the ships of `s`, in order. */
  function Speeds(s: seq<EnemyShip>): (r: seq<nat>)
    ensures |r| == |s| && forall k | 0 <= k < |s| :: r[k] == s[k].speed
  {
    seq(|s|, k requires 0 <= k < |s| => s[k].speed)
  }

  /** Every counter one tick on. */
  function Ticked(cs: seq<nat>): (r: seq<nat>)
    ensures |r| == |cs| && forall k | 0 <= k < |cs| :: r[k] == cs[k] + 1
  {
    seq(|cs|, k requires 0 <= k < |cs| => cs[k] + 1)
  }

  /** The enemy half of a tick for a whole fleet: every ship steers from
      its own helm state, counter, speed and random draws, and all of them
      read the same engagement count and player position. */
  function Fleet(hs: seq<Helm>, counters: seq<nat>, speeds: seq<nat>, worldSize: Vector,
                 engagedCount: int, engagedCountMax: int, playerPos: Vector, gosu: Gosu,
                 dice: seq<Dice>): (r: seq<Helm>)
    requires |counters| == |hs| && |speeds| == |hs| && |dice| == |hs|
    requires worldSize.x > 0.0 && worldSize.y > 0.0
    ensures |r| == |hs|
    ensures forall k | 0 <= k < |hs| ::
      r[k] == Steered(hs[k], counters[k], speeds[k], worldSize, engagedCount, engagedCountMax,
                      playerPos, gosu, dice[k])
  {
    seq(|hs|, k requires 0 <= k < |hs| =>
      Steered(hs[k], counters[k], speeds[k], worldSize, engagedCount, engagedCountMax,
              playerPos, gosu, dice[k]))
  }

  /** Which of the helm states `hs` are engaged. */
  function EngagedOf(hs: seq<Helm>): (r: seq<bool>)
    ensures |r| == |hs| && forall k | 0 <= k < |hs| :: r[k] == hs[k].engaged
  {
    seq(|hs|, k requires 0 <= k < |hs| => hs[k].engaged)
  }

  /** At or past the cap no ship of the fleet becomes engaged, so the
      number of engaged ships cannot grow. */
  lemma FleetAtCap(hs: seq<Helm>, counters: seq<nat>, speeds: seq<nat>, worldSize: Vector,
                   engagedCount: int, engagedCountMax: int, playerPos: Vector, gosu: Gosu,
                   dice: seq<Dice>)
    requires |counters| == |hs| && |speeds| == |hs| && |dice| == |hs|
    requires worldSize.x > 0.0 && worldSize.y > 0.0
    requires engagedCount >= engagedCountMax
    ensures forall k | 0 <= k < |hs| ::
      Fleet(hs, counters, speeds, worldSize, engagedCount, engagedCountMax, playerPos, gosu, dice)[k].engaged
      ==> hs[k].engaged
    ensures Count(EngagedOf(Fleet(hs, counters, speeds, worldSize, engagedCount, engagedCountMax,
                                  playerPos, gosu, dice)))
      <= Count(EngagedOf(hs))
  {
    forall k | 0 <= k < |hs| {
      SteeredEngagement(hs[k], counters[k], speeds[k], worldSize, engagedCount, engagedCountMax,
                        playerPos, gosu, dice[k]);
    }
    var r := Fleet(hs, counters, speeds, worldSize, engagedCount, engagedCountMax, playerPos, gosu, dice);
    CountMono(EngagedOf(r), EngagedOf(hs));
  }

  /** Off the re-targeting ticks nobody engages or disengages. */
  lemma FleetBetweenRetargets(hs: seq<Helm>, counters: seq<nat>, speeds: seq<nat>, worldSize: Vector,
                              engagedCount: int, engagedCountMax: int, playerPos: Vector, gosu: Gosu,
                              dice: seq<Dice>)
    requires |counters| == |hs| && |speeds| == |hs| && |dice| == |hs|
    requires worldSize.x > 0.0 && worldSize.y > 0.0
    requires forall k | 0 <= k < |counters| :: counters[k] % RetargetPeriod != 0
    ensures EngagedOf(Fleet(hs, counters, speeds, worldSize, engagedCount, engagedCountMax,
                            playerPos, gosu, dice))
      == EngagedOf(hs)
  {
    forall k | 0 <= k < |hs| {
      SteeredEngagement(hs[k], counters[k], speeds[k], worldSize, engagedCount, engagedCountMax,
                        playerPos, gosu, dice[k]);
    }
  }

  /** The cap is checked against the count of the previous tick, so below
      it a whole fleet in range engages on a common re-targeting tick: the
      count can jump past the cap, up to every ship. */
  lemma FleetPastCap(hs: seq<Helm>, counters: seq<nat>, speeds: seq<nat>, worldSize: Vector,
                     engagedCount: int, engagedCountMax: int, playerPos: Vector, gosu: Gosu,
                     dice: seq<Dice>)
    requires |counters| == |hs| && |speeds| == |hs| && |dice| == |hs|
    requires worldSize.x > 0.0 && worldSize.y > 0.0
    requires engagedCount < engagedCountMax
    requires forall k | 0 <= k < |hs| ::
      counters[k] % RetargetPeriod == 0 && gosu.distance(hs[k].pos, playerPos) < InRange
    ensures Count(EngagedOf(Fleet(hs, counters, speeds, worldSize, engagedCount, engagedCountMax,
                                  playerPos, gosu, dice)))
      == |hs|
  {
    forall k | 0 <= k < |hs| {
      SteeredEngagement(hs[k], counters[k], speeds[k], worldSize, engagedCount, engagedCountMax,
                        playerPos, gosu, dice[k]);
    }
    var r := Fleet(hs, counters, speeds, worldSize, engagedCount, engagedCountMax, playerPos, gosu, dice);
    CountAlike(EngagedOf(r), true);
  }

  /** The engaged count of the ships is that of their helm states. */
  lemma CountEngagedOfNavs(s: seq<EnemyShip>)
    ensures CountEngaged(s) == Count(EngagedOf(Navs(s)))
  {
    assert Flags(s) == EngagedOf(Navs(s));
  }

  /** The state `Window.Update` leaves behind, read at the cap: when the
      count of the previous tick was at or past the cap, the count stored
      after the tick is no larger than the number of ships that were
      engaged before it. */
  lemma TickAtCap(s: seq<EnemyShip>, hs: seq<Helm>, counters: seq<nat>, worldSize: Vector,
                  engagedCount: int, engagedCountMax: int, playerPos: Vector, gosu: Gosu,
                  dice: seq<Dice>)
    requires |counters| == |hs| && |s| == |hs| && |dice| == |hs|
    requires worldSize.x > 0.0 && worldSize.y > 0.0
    requires engagedCount >= engagedCountMax
    requires Navs(s) == Fleet(hs, counters, Speeds(s), worldSize, engagedCount, engagedCountMax,
                              playerPos, gosu, dice)
    ensures CountEngaged(s) <= Count(EngagedOf(hs))
  {
    CountEngagedOfNavs(s);
    FleetAtCap(hs, counters, Speeds(s), worldSize, engagedCount, engagedCountMax, playerPos, gosu, dice);
  }

  /** `@enemies.count(&:engaged)`: how many of the ships of `s` are engaged. */
  ghost function CountEngaged(s: seq<EnemyShip>): (n: nat)
    reads s
    ensures n <= |s|
  {
    Count(Flags(s))
  }

  /** Gosu's bearings lie in [0, 360). Rounded, the aim angle lies in
      [0, 360]: it is 360, not 0, for every bearing from 359.5 on. */
  lemma AimRange(bearing: real)
    requires 0.0 <= bearing < 360.0
    ensures 0 <= Round(bearing) <= 360
    ensures Round(bearing) == 360 <==> bearing >= 359.5
  {
  }

  /** When every ship of `s` has the same engagement flag `b`, the count of
      engaged ships is all of them or none. */
  lemma CountEngagedAlike(s: seq<EnemyShip>, b: bool)
    requires forall k | 0 <= k < |s| :: s[k].engaged == b
    ensures CountEngaged(s) == if b then |s| else 0
  {
    CountAlike(Flags(s), b);
  }

  class Window {
    /** The aim angle: where the player's ship is turning to. */
    var angle: int
    /** The number of engaged enemies at the end of the previous tick. */
    var engagedCount: int
    const engagedCountMax: int
    const halfScreenSize: Vector
    const worldSize: Vector
    const starship: Starship
    var enemies: seq<EnemyShip>
    ghost var Repr: set<object>

    /** Every ship is valid, lives in this window's world, and owns its
        objects alone. */
    ghost predicate Valid()
      reads this, Repr
    {
      && this in Repr && worldSize.x > 0.0 && worldSize.y > 0.0
      && starship in Repr && starship.Repr <= Repr && this !in starship.Repr
      && starship.Valid() && starship.worldSize == worldSize
      && (forall i | 0 <= i < |enemies| ::
            && enemies[i] in Repr && enemies[i].Repr <= Repr && this !in enemies[i].Repr
            && enemies[i].Repr !! starship.Repr
            && enemies[i].Valid() && enemies[i].worldSize == worldSize)
      && (forall i, j | 0 <= i < j < |enemies| :: enemies[i].Repr !! enemies[j].Repr)
    }

    /** `Window.new`: half the screen size in whole pixels, the world of
        2560 by 1600, aim angle 0, no enemy engaged yet, a cap of 3, the
        player's ship, and ten enemies from `createEnemies`. */
    constructor (screenWidth: nat, screenHeight: nat, gosu: Gosu, smartness: seq<int>, dice: seq<Dice>)
      requires |smartness| == EnemyCount && |dice| == EnemyCount
      ensures Valid() && fresh(Repr)
      ensures angle == 0 && engagedCount == 0 && engagedCountMax == EngagedCountMax
      ensures halfScreenSize == Vector((screenWidth / 2) as real, (screenHeight / 2) as real)
      ensures worldSize == WorldSize
      ensures starship.angle == 0 && starship.pos == Centre(WorldSize) && starship.drawPos == halfScreenSize
      ensures |enemies| == EnemyCount
      ensures forall i | 0 <= i < |enemies| ::
        && enemies[i].pos == Centre(WorldSize) && enemies[i].speed == EnemySpeed
        && enemies[i].smartness == smartness[i] && enemies[i].counter == 0
      // every enemy starts at the player's position, so when that counts as
      // in range they all start engaged (all ten, past the cap, by
      // CountEngagedAlike)
      ensures forall i | 0 <= i < |enemies| ::
        enemies[i].engaged <==> gosu.distance(Centre(WorldSize), Centre(WorldSize)) < InRange
    {
      var half := Vector((screenWidth / 2) as real, (screenHeight / 2) as real);
      halfScreenSize := half;
      worldSize := WorldSize;
      angle := 0;
      engagedCount := 0;
      engagedCountMax := EngagedCountMax;
      var ship := new Starship(WorldSize, half, 0);
      starship := ship;
      enemies := [];
      new;
      Repr := {this} + starship.Repr;
      CreateEnemies(EnemyCount, gosu, smartness, dice);
    }

    /** `createEnemies(n)`: a new list of `n` enemies in the middle of the
        world at speed 4, each with its own random draws. Every new enemy
        sees the same engagement count. */
    method CreateEnemies(n: nat, gosu: Gosu, smartness: seq<int>, dice: seq<Dice>)
      requires Valid()
      requires |smartness| >= n && |dice| >= n
      requires gosu.distance(Centre(worldSize), starship.pos) >= InRange || engagedCount < engagedCountMax
      modifies this`enemies, this`Repr
      ensures Valid() && fresh(Repr - old(Repr))
      ensures |enemies| == n
      ensures forall i | 0 <= i < n ::
        && fresh(enemies[i])
        && enemies[i].pos == Centre(worldSize) && enemies[i].speed == EnemySpeed
        && enemies[i].smartness == smartness[i] && enemies[i].counter == 0
        && (enemies[i].engaged <==> gosu.distance(Centre(worldSize), starship.pos) < InRange)
    {
      enemies := [];
      var i := 0;
      while i < n
        invariant 0 <= i <= n && |enemies| == i
        invariant Valid() && fresh(Repr - old(Repr))
        invariant forall k | 0 <= k < i ::
          && fresh(enemies[k])
          && enemies[k].pos == Centre(worldSize) && enemies[k].speed == EnemySpeed
          && enemies[k].smartness == smartness[k] && enemies[k].counter == 0
          && (enemies[k].engaged <==> gosu.distance(Centre(worldSize), starship.pos) < InRange)
      {
        var e := new EnemyShip(Centre(worldSize), EnemySpeed, smartness[i], worldSize,
                               engagedCount, engagedCountMax, starship.pos, gosu, dice[i]);
        Enlist(e);
        i := i + 1;
      }
    }

    /** `@enemies << enemy`: a valid ship of this world that shares no object
        with this window joins the end of the list. */
    method Enlist(e: EnemyShip)
      requires Valid() && e.Valid() && e.worldSize == worldSize && e.Repr !! Repr
      modifies this`enemies, this`Repr
      ensures Valid() && enemies == old(enemies) + [e] && Repr == old(Repr) + e.Repr
    {
      enemies := enemies + [e];
      Repr := Repr + e.Repr;
    }

    /** `update`, one tick. The aim angle follows the mouse unless it sits
        exactly in the middle of the screen; the player's ship updates; then
        every enemy updates in order, reading the player's new position and
        the engagement count of the previous tick; finally the count is
        recomputed from the enemies' new state. */
    method Update(mouse: Vector, trigger: bool, gosu: Gosu, dice: seq<Dice>)
      requires Valid() && |dice| == |enemies|
      modifies Repr
      ensures Valid()
      ensures fresh(Repr - old(Repr))
      ensures enemies == old(enemies)
      ensures mouse != halfScreenSize ==> angle == Round(gosu.angle(old(starship.drawPos), mouse))
      ensures mouse == halfScreenSize ==> angle == old(angle)
      ensures starship.angle
        == TurnStep(old(starship.angle), Round(gosu.angleDiff(old(starship.angle) as real, angle as real)),
                    PlayerDeadBand, PlayerTurn)
      ensures starship.pos
        == MoveWithin(old(starship.pos), gosu.offset(starship.angle as real, starship.speed as real), worldSize)
      ensures starship.drawPos == Camera(old(starship.drawPos), starship.pos, starship.oDrawPos, worldSize)
      ensures Navs(enemies)
        == Fleet(old(Navs(enemies)), old(Counters(enemies)), Speeds(enemies), worldSize,
                 old(engagedCount), engagedCountMax, starship.pos, gosu, dice)
      ensures Counters(enemies) == Ticked(old(Counters(enemies)))
      ensures engagedCount == CountEngaged(enemies)
    {
      Aim(mouse, gosu);
      UpdateShip(trigger, gosu);
      ghost var shipRepr := Repr;
      assert fresh(shipRepr - old(Repr));
      UpdateEnemies(gosu, dice);
      assert fresh(Repr - shipRepr);
    }

    /** The aim angle follows the mouse unless it sits exactly in the
        middle of the screen; no ship changes. */
    method Aim(mouse: Vector, gosu: Gosu)
      requires Valid()
      modifies this`angle
      ensures Valid()
      ensures mouse != halfScreenSize ==> angle == Round(gosu.angle(starship.drawPos, mouse))
      ensures mouse == halfScreenSize ==> angle == old(angle)
      ensures Navs(enemies) == old(Navs(enemies)) && Counters(enemies) == old(Counters(enemies))
    {
      if mouse != halfScreenSize {
        angle := Round(gosu.angle(starship.drawPos, mouse));
      }
    }

    /** The player's part of `update`: the player's ship updates towards
        the aim angle; no enemy changes. */
    /** The ship's `update` seen from the window: only its motion, which
        is all the window reads back. */
    static method Fly(s: Starship, aim: int, trigger: bool, gosu: Gosu)
      requires s.Valid()
      modifies s.Repr
      ensures s.Valid() && fresh(s.Repr - old(s.Repr))
      ensures s.angle == TurnStep(old(s.angle), Round(gosu.angleDiff(old(s.angle) as real, aim as real)),
                                  PlayerDeadBand, PlayerTurn)
      ensures s.pos == MoveWithin(old(s.pos), gosu.offset(s.angle as real, s.speed as real), s.worldSize)
      ensures s.drawPos == Camera(old(s.drawPos), s.pos, s.oDrawPos, s.worldSize)
    {
      s.Update(aim, trigger, gosu);
    }

    method UpdateShip(trigger: bool, gosu: Gosu)
      requires Valid()
      modifies starship.Repr, this`Repr
      ensures Valid() && fresh(Repr - old(Repr))
      ensures starship.angle
        == TurnStep(old(starship.angle), Round(gosu.angleDiff(old(starship.angle) as real, angle as real)),
                    PlayerDeadBand, PlayerTurn)
      ensures starship.pos
        == MoveWithin(old(starship.pos), gosu.offset(starship.angle as real, starship.speed as real), worldSize)
      ensures starship.drawPos == Camera(old(starship.drawPos), starship.pos, starship.oDrawPos, worldSize)
      ensures Navs(enemies) == old(Navs(enemies)) && Counters(enemies) == old(Counters(enemies))
    {
      Fly(starship, angle, trigger, gosu);
      Repr := Repr + starship.Repr;
      forall k | 0 <= k < |enemies|
        ensures unchanged(enemies[k].Repr)
      {
        assert enemies[k].Repr !! old(starship.Repr);
      }
      assert Navs(enemies) == old(Navs(enemies));
      assert Counters(enemies) == old(Counters(enemies));
    }

    /** The enemy loop of `update`: every enemy updates in order, reading
        the player's position and the engagement count of the previous
        tick, and the engaged ones are counted; the count becomes the new
        engagement count. */
    method UpdateEnemies(gosu: Gosu, dice: seq<Dice>)
      requires Valid() && |dice| == |enemies|
      modifies this`engagedCount, this`Repr, Repr - {this}
      ensures Valid() && fresh(Repr - old(Repr))
      ensures enemies == old(enemies)
      ensures starship.angle == old(starship.angle) && starship.pos == old(starship.pos)
      ensures starship.drawPos == old(starship.drawPos)
      ensures Navs(enemies)
        == Fleet(old(Navs(enemies)), old(Counters(enemies)), Speeds(enemies), worldSize,
                 old(engagedCount), engagedCountMax, starship.pos, gosu, dice)
      ensures Counters(enemies) == Ticked(old(Counters(enemies)))
      ensures engagedCount == CountEngaged(enemies)
    {
      var count, before, counters, flags := RunEnemies(gosu, dice);
      Finished(before, counters, flags, gosu, dice);
      SetEngagedCount(count);
    }

    /** The loop itself: every enemy takes its turn in order; `count` is how
        many of them end up engaged. */
    method RunEnemies(gosu: Gosu, dice: seq<Dice>)
      returns (count: nat, ghost before: seq<Helm>, ghost counters: seq<nat>, ghost flags: seq<bool>)
      requires Valid() && |dice| == |enemies|
      modifies this`Repr, Repr - {this}
      ensures Valid() && fresh(Repr - old(Repr))
      ensures starship.angle == old(starship.angle) && starship.pos == old(starship.pos)
      ensures starship.drawPos == old(starship.drawPos)
      ensures before == old(Navs(enemies)) && counters == old(Counters(enemies))
      ensures count == Count(flags)
      ensures Progress(|enemies|, before, counters, flags, gosu, dice)
    {
      before, counters := Navs(enemies), Counters(enemies);
      flags := [];
      count := 0;
      var i := 0;
      while i < |enemies|
        invariant 0 <= i <= |enemies|
        invariant Valid() && fresh(Repr - old(Repr))
        invariant starship.angle == old(starship.angle) && starship.pos == old(starship.pos)
        invariant starship.drawPos == old(starship.drawPos)
        invariant count == Count(flags)
        invariant Progress(i, before, counters, flags, gosu, dice)
      {
        var engaged;
        engaged, count := StepEnemy(i, count, gosu, dice, before, counters, flags);
        flags := flags + [engaged];
        i := i + 1;
      }
    }

    /** `@engagedCount = ...`: the new count; no ship changes. */
    method SetEngagedCount(count: int)
      requires Valid()
      modifies this`engagedCount
      ensures Valid() && engagedCount == count
      ensures Navs(enemies) == old(Navs(enemies)) && Counters(enemies) == old(Counters(enemies))
      ensures Flags(enemies) == old(Flags(enemies))
    {
      engagedCount := count;
    }

    /** The enemy loop has run for the first `i` ships: each of those has
        steered from its helm state and counter at the start of the loop,
        reading this window's engagement count and the player's position,
        and `flags` says which of them are now engaged; the others still
        have their helm state and counter. */
    ghost predicate Progress(i: nat, before: seq<Helm>, counters: seq<nat>, flags: seq<bool>,
                             gosu: Gosu, dice: seq<Dice>)
      reads this, starship, enemies
    {
      && i <= |enemies| && |before| == |enemies| && |counters| == |enemies| && |dice| == |enemies|
      && |flags| == i && worldSize.x > 0.0 && worldSize.y > 0.0
      && (forall k | 0 <= k < i ::
            && enemies[k].Nav()
               == Steered(before[k], counters[k], enemies[k].speed, worldSize,
                          engagedCount, engagedCountMax, starship.pos, gosu, dice[k])
            && enemies[k].counter == counters[k] + 1
            && flags[k] == enemies[k].engaged)
      && (forall k | i <= k < |enemies| ::
            enemies[k].Nav() == before[k] && enemies[k].counter == counters[k])
    }

    /** Once every ship has had its turn, the fleet is the steered fleet and
        `flags` are the ships' engagement flags. */
    lemma Finished(before: seq<Helm>, counters: seq<nat>, flags: seq<bool>, gosu: Gosu, dice: seq<Dice>)
      requires Progress(|enemies|, before, counters, flags, gosu, dice)
      ensures Navs(enemies)
        == Fleet(before, counters, Speeds(enemies), worldSize, engagedCount, engagedCountMax,
                 starship.pos, gosu, dice)
      ensures Counters(enemies) == Ticked(counters)
      ensures Flags(enemies) == flags
    {
    }

    /** One turn of the enemy loop, as the loop sees it, with the running
        count of engaged ships. */
    method StepEnemy(i: nat, count: nat, gosu: Gosu, dice: seq<Dice>, ghost before: seq<Helm>,
                     ghost counters: seq<nat>, ghost flags: seq<bool>) returns (engaged: bool, next: nat)
      requires Valid() && i < |enemies|
      requires Progress(i, before, counters, flags, gosu, dice) && count == Count(flags)
      modifies Repr - {this}, this`Repr
      ensures Valid() && fresh(Repr - old(Repr))
      ensures starship.angle == old(starship.angle) && starship.pos == old(starship.pos)
      ensures starship.drawPos == old(starship.drawPos)
      ensures Progress(i + 1, before, counters, flags + [engaged], gosu, dice)
      ensures next == Count(flags + [engaged])
    {
      engaged := UpdateEnemy(i, gosu, dice[i]);
      next := if engaged then count + 1 else count;
      CountSnoc(flags, engaged);
    }

    /** An enemy's `update` seen from the window: only its steering and
        its counter, which is all the window reads back. */
    static method Sortie(e: EnemyShip, engagedCount: int, engagedCountMax: int, playerPos: Vector,
                         playerDrawPos: Vector, gosu: Gosu, dice: Dice)
      requires e.Valid()
      modifies e.Repr
      ensures e.Valid() && fresh(e.Repr - old(e.Repr))
      ensures e.Nav() == Steered(old(e.Nav()), old(e.counter), e.speed, e.worldSize,
                                 engagedCount, engagedCountMax, playerPos, gosu, dice)
      ensures e.counter == old(e.counter) + 1
    {
      ghost var slot, flying, full, charged :=
        e.Update(engagedCount, engagedCountMax, playerPos, playerDrawPos, gosu, dice);
    }

    /** One turn of the enemy loop of `update`: the `i`th enemy updates,
        reading the player's position and draw position and the engagement
        count of the previous tick; nothing else changes. */
    method UpdateEnemy(i: nat, gosu: Gosu, dice: Dice) returns (engaged: bool)
      requires Valid() && i < |enemies|
      modifies enemies[i].Repr, this`Repr
      ensures Valid() && fresh(Repr - old(Repr))
      ensures enemies[i].Nav()
        == Steered(old(enemies[i].Nav()), old(enemies[i].counter), enemies[i].speed, worldSize,
                   engagedCount, engagedCountMax, starship.pos, gosu, dice)
      ensures enemies[i].counter == old(enemies[i].counter) + 1
      ensures starship.angle == old(starship.angle) && starship.pos == old(starship.pos)
      ensures starship.drawPos == old(starship.drawPos)
      ensures forall k | 0 <= k < |enemies| && k != i ::
        enemies[k].Nav() == old(enemies[k].Nav()) && enemies[k].counter == old(enemies[k].counter)
      ensures engaged == enemies[i].engaged
    {
      var e := enemies[i];
      Sortie(e, engagedCount, engagedCountMax, starship.pos, starship.drawPos, gosu, dice);
      Repr := Repr + e.Repr;
      assert unchanged(starship.Repr);
      forall k | 0 <= k < |enemies| && k != i
        ensures unchanged(enemies[k].Repr)
      {
        assert enemies[k].Repr !! old(e.Repr);
      }
      engaged := e.engaged;
    }
  }
}
