/** The dungeon crawler's hero, Fauna: three hit points, a health state that is
    IDLE, DAMAGE (knocked back, for 250 ms) or DEAD, running with the cursor
    keys at speed 100 along one axis, and knives thrown the way the current
    animation faces. */
module Fauna {
  import opened PlayerTypes

  datatype HealthState = Idle | Damage | Dead

  const FullHealth: int := 3
  const RecoveryTime: int := 250
  const Speed: int := 100
  const KnifeSpeed: int := 300
  const KnifeSpacing: int := 14

  /** The health state together with the time spent in DAMAGE. */
  datatype Recovery = Recovery(state: HealthState, damageTime: int)

  /** One `preUpdate` of `dt` milliseconds: in DAMAGE the time accumulates and,
      once it reaches 250, the state returns to IDLE with the time reset; IDLE
      and DEAD do not change. */
  function Tick(r: Recovery, dt: int): (n: Recovery)
    ensures r.state != Damage ==> n == r
    ensures r.state == Damage && r.damageTime + dt >= RecoveryTime ==> n == Recovery(Idle, 0)
    ensures r.state == Damage && r.damageTime + dt < RecoveryTime ==> n == Recovery(Damage, r.damageTime + dt)
  {
    match r.state
    case Damage =>
      if r.damageTime + dt >= RecoveryTime then Recovery(Idle, 0) else Recovery(Damage, r.damageTime + dt)
    case _ => r
  }

  /** A run of `preUpdate`s. */
  function Ticks(r: Recovery, dts: seq<int>): Recovery
    decreases |dts|
  {
    if |dts| == 0 then r else Ticks(Tick(r, dts[0]), dts[1..])
  }

  function Sum(dts: seq<int>): int
    decreases |dts|
  {
    if |dts| == 0 then 0 else dts[0] + Sum(dts[1..])
  }

  /** DEAD is never left by the timer. */
  lemma {:induction false} DeadStaysDead(dts: seq<int>, damageTime: int)
    ensures Ticks(Recovery(Dead, damageTime), dts) == Recovery(Dead, damageTime)
    decreases |dts|
  {
    if |dts| > 0 {
      DeadStaysDead(dts[1..], damageTime);
    }
  }

  /** Once the frame times since the hit add up to 250 ms (none of them
      negative), the hero is back to IDLE with the timer reset. */
  lemma {:induction false} RecoversAfter(r: Recovery, dts: seq<int>)
    requires r.state == Idle ==> r.damageTime == 0
    requires r.state == Damage ==> r.damageTime < RecoveryTime
    requires r.state != Dead
    requires forall k :: 0 <= k < |dts| ==> dts[k] >= 0
    requires r.damageTime + Sum(dts) >= RecoveryTime
    ensures Ticks(r, dts) == Recovery(Idle, 0)
    decreases |dts|
  {
    if |dts| == 0 {
      assert false;
    } else {
      var next := Tick(r, dts[0]);
      if next.state == Idle {
        IdleStaysIdle(dts[1..]);
      } else {
        RecoversAfter(next, dts[1..]);
      }
    }
  }

  lemma {:induction false} IdleStaysIdle(dts: seq<int>)
    ensures Ticks(Recovery(Idle, 0), dts) == Recovery(Idle, 0)
    decreases |dts|
  {
    if |dts| > 0 {
      IdleStaysIdle(dts[1..]);
    }
  }

  /** Where a knife flies: from segment 2 of the current animation key, up,
      down, or otherwise sideways by the flip. */
  function KnifeDirection(key: string, flipX: bool): (d: (int, int))
    ensures (d.0 == 0) != (d.1 == 0)
    ensures -1 <= d.0 <= 1 && -1 <= d.1 <= 1
  {
    var parts := Split(key);
    var direction := if |parts| > 2 then Some(parts[2]) else None;
    if direction == Some("up") then (0, -1)
    else if direction == Some("down") then (0, 1)
    else if flipX then (-1, 0)
    else (1, 0)
  }

  /** A knife leaves in the direction Fauna faces: for a `fauna-<action>-<dir>`
      animation, up for `up`, down for `down` and, for `side`, left when the
      sprite is flipped and right otherwise. */
  lemma KnifeFollowsFacing(action: string, dir: string, flipX: bool)
    requires NoHyphen(action)
    requires dir in {"up", "down", "side"}
    ensures var d := KnifeDirection(AnimKey("fauna", action + "-" + dir), flipX);
            && (dir == "up" ==> d == (0, -1))
            && (dir == "down" ==> d == (0, 1))
            && (dir == "side" ==> d == (if flipX then -1 else 1, 0))
  {
    var parts := ["fauna", action, dir];
    forall k | 0 <= k < |parts| ensures NoHyphen(parts[k]) {
    }
    assert Join([action, dir]) == action + "-" + dir;
    JoinAppend(["fauna"], [action, dir]);
    assert ["fauna"] + [action, dir] == parts;
    SplitJoin(parts);
  }

  /** What `update` does with the keys: the animation, the velocity and the
      flip, if any. */
  datatype Move = Move(key: string, vx: int, vy: int, flip: Option<bool>)

  /** Left before right before up before down, at speed 100 along one axis;
      with no key, the idle version of the current animation and no speed. */
  function RunMove(keys: CursorKeys, current: string): (m: Move)
    ensures m.vx == 0 || m.vy == 0
    ensures keys.left ==> m == Move("fauna-run-side", -Speed, 0, Some(true))
    ensures !keys.left && keys.right ==> m == Move("fauna-run-side", Speed, 0, Some(false))
    ensures !keys.left && !keys.right && keys.up ==> m == Move("fauna-run-up", 0, -Speed, None)
    ensures !keys.left && !keys.right && !keys.up && keys.down ==> m == Move("fauna-run-down", 0, Speed, None)
    ensures (m.vx, m.vy) == (0, 0) <==> !keys.left && !keys.right && !keys.up && !keys.down
    ensures (m.vx, m.vy) == (0, 0) ==> m.flip.None? && m.key == ReplaceSegment(current, 1, "idle")
  {
    if keys.left then Move("fauna-run-side", -Speed, 0, Some(true))
    else if keys.right then Move("fauna-run-side", Speed, 0, Some(false))
    else if keys.up then Move("fauna-run-up", 0, -Speed, None)
    else if keys.down then Move("fauna-run-down", 0, Speed, None)
    else Move(ReplaceSegment(current, 1, "idle"), 0, 0, None)
  }

  /** A thrown knife: where it starts and how fast it flies. */
  datatype Knife = Knife(x: int, y: int, vx: int, vy: int)

  /** The knife thrown from (x, y) while playing `key` with flip `flipX`: it
      flies along one axis at `KnifeSpeed` and starts `KnifeSpacing` pixels
      out from the thrower on that axis, on the side it flies towards. */
  function ThrownKnife(key: string, flipX: bool, x: int, y: int): (k: Knife)
    ensures (k.vx == 0) != (k.vy == 0)
    ensures k.vx == 0 ==> k.x == x && ((k.vy == KnifeSpeed && k.y == y + KnifeSpacing)
                                       || (k.vy == -KnifeSpeed && k.y == y - KnifeSpacing))
    ensures k.vy == 0 ==> k.y == y && ((k.vx == KnifeSpeed && k.x == x + KnifeSpacing)
                                       || (k.vx == -KnifeSpeed && k.x == x - KnifeSpacing))
  {
    var d := KnifeDirection(key, flipX);
    Knife(x + d.0 * KnifeSpacing, y + d.1 * KnifeSpacing, d.0 * KnifeSpeed, d.1 * KnifeSpeed)
  }

  class Hero {
    var health: int
    var healthState: HealthState
    var damageTime: int
    var x: int
    var y: int
    var vx: int
    var vy: int
    var animKey: string
    var flipX: bool
    var tinted: bool
    var hasKnives: bool
    /** Knives thrown so far, in order. */
    var knives: seq<Knife>

    /** Health stays between 0 and 3, is 0 exactly when DEAD, and the damage
        timer runs only in DAMAGE, where it stays below 250. */
    ghost predicate Valid()
      reads this
    {
      && 0 <= health <= FullHealth
      && (healthState == Dead <==> health == 0)
      && (healthState == Damage ==> damageTime < RecoveryTime)
      && (healthState != Damage ==> damageTime == 0)
    }

    constructor (x: int, y: int)
      ensures Valid()
      ensures health == 3 && healthState == Idle && damageTime == 0
      ensures this.x == x && this.y == y && animKey == "fauna-idle-down"
      ensures !hasKnives && knives == []
    {
      health := FullHealth;
      healthState := Idle;
      damageTime := 0;
      this.x := x;
      this.y := y;
      vx, vy := 0, 0;
      animKey := "fauna-idle-down";
      flipX := false;
      tinted := false;
      hasKnives := false;
      knives := [];
    }

    method SetKnives()
      modifies this
      ensures hasKnives && knives == old(knives)
      ensures health == old(health) && healthState == old(healthState) && damageTime == old(damageTime)
      ensures x == old(x) && y == old(y) && vx == old(vx) && vy == old(vy)
      ensures animKey == old(animKey) && flipX == old(flipX) && tinted == old(tinted)
    {
      hasKnives := true;
    }

    /** A hit pushing along (dx, dy): ignored while dead or already in
        DAMAGE; otherwise costs exactly one hit point and either kills (velocity
        0) or knocks back with the timer restarted. */
    method HandleDamage(dx: int, dy: int)
      requires Valid()
      modifies this
      ensures Valid()
      ensures old(health <= 0 || healthState == Damage) ==> unchanged(this)
      ensures old(health > 0 && healthState != Damage) ==> health == old(health) - 1
      ensures old(health > 0 && healthState != Damage) && health == 0 ==>
                && healthState == Dead && vx == 0 && vy == 0 && animKey == "fauna-faint"
                && damageTime == old(damageTime) && tinted == old(tinted)
      ensures old(health > 0 && healthState != Damage) && health > 0 ==>
                && healthState == Damage && damageTime == 0 && vx == dx && vy == dy && tinted
                && animKey == old(animKey)
      ensures old(healthState) == Dead ==> healthState == Dead
      ensures knives == old(knives) && x == old(x) && y == old(y) && flipX == old(flipX) && hasKnives == old(hasKnives)
    {
      if health <= 0 {
        return;
      }
      if healthState == Damage {
        return;
      }
      health := health - 1;
      if health <= 0 {
        healthState := Dead;
        animKey := "fauna-faint";
        vx, vy := 0, 0;
      } else {
        vx, vy := dx, dy;
        tinted := true;
        healthState := Damage;
        damageTime := 0;
      }
    }

    /** The recovery timer advances by one frame of `dt` milliseconds. */
    method PreUpdate(dt: int)
      requires Valid()
      modifies this
      ensures Valid()
      ensures Recovery(healthState, damageTime) == Tick(Recovery(old(healthState), old(damageTime)), dt)
      ensures old(healthState) == Damage && healthState == Idle ==> !tinted
      ensures health == old(health) && animKey == old(animKey) && vx == old(vx) && vy == old(vy)
      ensures !(old(healthState) == Damage && healthState == Idle) ==> tinted == old(tinted)
      ensures x == old(x) && y == old(y) && flipX == old(flipX) && hasKnives == old(hasKnives) && knives == old(knives)
    {
      match healthState
      case Idle =>
      case Damage =>
        damageTime := damageTime + dt;
        if damageTime >= RecoveryTime {
          healthState := Idle;
          tinted := false;
          damageTime := 0;
        }
      case Dead =>
    }

    /** Throws a knife when Fauna has some, from 14 pixels out in the facing
        direction, at speed 300. */
    method ThrowKnive()
      modifies this
      ensures !hasKnives ==> knives == old(knives)
      ensures hasKnives ==> knives == old(knives) + [ThrownKnife(animKey, flipX, x, y)]
      ensures health == old(health) && healthState == old(healthState) && damageTime == old(damageTime)
      ensures animKey == old(animKey) && flipX == old(flipX) && vx == old(vx) && vy == old(vy)
      ensures x == old(x) && y == old(y) && hasKnives == old(hasKnives) && tinted == old(tinted)
    {
      if !hasKnives {
        return;
      }
      knives := knives + [ThrownKnife(animKey, flipX, x, y)];
    }

    /** Ignores the keys in DAMAGE or DEAD and without keys; a fresh press of
        space throws a knife and nothing else; otherwise runs as `RunMove`
        says. */
    method Update(keys: Option<CursorKeys>, spaceJustDown: bool)
      requires Valid()
      modifies this
      ensures Valid()
      ensures health == old(health) && healthState == old(healthState) && damageTime == old(damageTime)
      ensures x == old(x) && y == old(y) && hasKnives == old(hasKnives) && tinted == old(tinted)
      ensures old(healthState) != Idle || keys.None? ==>
                && animKey == old(animKey) && vx == old(vx) && vy == old(vy) && knives == old(knives)
                && flipX == old(flipX)
      ensures old(healthState) == Idle && keys.Some? && spaceJustDown ==>
                && vx == old(vx) && vy == old(vy) && animKey == old(animKey) && flipX == old(flipX)
                && knives == old(knives) + (if hasKnives then [ThrownKnife(animKey, flipX, x, y)] else [])
      ensures old(healthState) == Idle && keys.Some? && !spaceJustDown ==>
                var m := RunMove(keys.value, old(animKey));
                && animKey == m.key && vx == m.vx && vy == m.vy
                && flipX == (if m.flip.Some? then m.flip.value else old(flipX))
                && knives == old(knives)
    {
      if healthState == Damage || healthState == Dead {
        return;
      }
      if keys.None? {
        return;
      }
      if spaceJustDown {
        ThrowKnive();
        return;
      }
      var m := RunMove(keys.value, animKey);
      animKey := m.key;
      vx, vy := m.vx, m.vy;
      if m.flip.Some? {
        flipX := m.flip.value;
      }
    }
  }
}
