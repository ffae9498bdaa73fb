/** The multiplayer client's LPC character: an avatar that walks with the
    movement flags, fights by firing arrows out of a pooled weapon group, bleeds
    in the direction it was hit from, and plays winner and death animations.

    The pool is a Phaser group the scene creates and hands to players (one group
    of at most five arrows for the local player, one unbounded group shared by
    all the others); `get` on it hands out the first inactive arrow, or a new
    one while the group is below its maximum size. */
module PhaserLpc {
  import opened PlayerTypes

  type PlayerId = string

  /** A pooled arrow: whether it is in use, shown and colliding, where it was
      fired from, which way, and by whom. */
  datatype Arrow = Arrow(
    active: bool, visible: bool, bodyEnabled: bool,
    x: int, y: int, orientation: Orientation, thrownBy: PlayerId)

  /** A pending 2000 ms expiry: the arrow it was scheduled for. */
  datatype Expiry = Expiry(group: WeaponGroup, slot: nat)

  /** Calls made on the health bar, in order. */
  datatype BarCall = Decrease(amount: int) | SetValue(value: int) | SetVisible(shown: bool)

  /** The blood emitter's angle and follow offset. */
  datatype Spray = Spray(angle: int, dx: int, dy: int)

  /** Index of the first inactive arrow at or after `i`, or `|arrows|`. */
  function FirstInactive(arrows: seq<Arrow>, i: nat): (r: nat)
    requires i <= |arrows|
    ensures i <= r <= |arrows|
    ensures r < |arrows| ==> !arrows[r].active
    ensures forall k :: i <= k < r ==> arrows[k].active
    decreases |arrows| - i
  {
    if i == |arrows| || !arrows[i].active then i else FirstInactive(arrows, i + 1)
  }

  /** The arrows after `a` is fired from slot `s`, a new slot being appended. */
  function Launch(arrows: seq<Arrow>, s: nat, a: Arrow): (r: seq<Arrow>)
    requires s <= |arrows|
    ensures |r| == if s < |arrows| then |arrows| else |arrows| + 1
    ensures r[s] == a && forall k :: 0 <= k < |arrows| && k != s ==> r[k] == arrows[k]
  {
    if s < |arrows| then arrows[s := a] else arrows + [a]
  }

  class WeaponGroup {
    var arrows: seq<Arrow>
    /** `None` for a group without a maximum size. */
    const maxSize: Option<nat>

    ghost predicate Valid()
      reads this
    {
      maxSize.Some? ==> |arrows| <= maxSize.value
    }

    constructor (maxSize: Option<nat>)
      ensures Valid() && arrows == [] && this.maxSize == maxSize
    {
      arrows := [];
      this.maxSize := maxSize;
    }

    /** The slot `get` hands out: the first inactive arrow, or a new slot at the
        end while the group is below its maximum size; `None` when every arrow
        is active and the group is full. */
    function FreeSlot(): (r: Option<nat>)
      reads this
      ensures r.Some? ==> r.value <= |arrows|
      ensures r.Some? ==> forall k :: 0 <= k < r.value ==> arrows[k].active
      ensures r.Some? && r.value < |arrows| ==> !arrows[r.value].active
      ensures r.Some? && r.value == |arrows| ==> maxSize.None? || |arrows| < maxSize.value
      ensures r.None? <==>
                (forall k :: 0 <= k < |arrows| ==> arrows[k].active) &&
                maxSize.Some? && |arrows| >= maxSize.value
    {
      var i := FirstInactive(arrows, 0);
      if i < |arrows| || maxSize.None? || |arrows| < maxSize.value then Some(i) else None
    }

    /** The arrow's 2000 ms expiry: kills, hides and disables it if it is still
        active, and does nothing otherwise, so an arrow is never released
        twice. */
    method Expire(slot: nat)
      requires slot < |arrows|
      modifies this
      ensures old(arrows[slot].active) ==>
                arrows == old(arrows)[slot := old(arrows[slot]).(active := false, visible := false, bodyEnabled := false)]
      ensures !old(arrows[slot].active) ==> arrows == old(arrows)
      ensures !arrows[slot].active
    {
      if arrows[slot].active {
        arrows := arrows[slot := arrows[slot].(active := false, visible := false, bodyEnabled := false)];
      }
    }
  }

  /** How many of the arrows are in flight; never more than the group holds,
      and as many as it holds exactly when every arrow is in flight. */
  function ActiveCount(arrows: seq<Arrow>): (n: nat)
    ensures n <= |arrows|
    ensures n == 0 <==> forall k :: 0 <= k < |arrows| ==> !arrows[k].active
    ensures n == |arrows| <==> forall k :: 0 <= k < |arrows| ==> arrows[k].active
  {
    if |arrows| == 0 then 0
    else (if arrows[|arrows| - 1].active then 1 else 0) + ActiveCount(arrows[..|arrows| - 1])
  }

  /** The local player's group is created with a maximum size of five: at most
      five of its arrows are in flight, and a further shot finds no arrow
      exactly when five are. */
  lemma LocalPoolBound(g: WeaponGroup)
    requires g.Valid() && g.maxSize == Some(5)
    ensures ActiveCount(g.arrows) <= 5
    ensures g.FreeSlot().None? <==> ActiveCount(g.arrows) == 5
  {
  }

  /** The three shoot animations of an avatar. */
  function ShootKeys(avatar: string): seq<string>
  {
    [AnimKey(avatar, ShootSide), AnimKey(avatar, ShootUp), AnimKey(avatar, ShootDown)]
  }

  /** Whether the current animation is one of the avatar's shoot animations:
      exactly the side, up and down shots of that avatar, each of which starts
      with the avatar's name. */
  function IsThrowingArrow(avatar: string, key: string): (b: bool)
    ensures b <==> key == AnimKey(avatar, ShootSide) || key == AnimKey(avatar, ShootUp)
                   || key == AnimKey(avatar, ShootDown)
    ensures b ==> |key| > |avatar| && key[..|avatar|] == avatar
  {
    key in ShootKeys(avatar)
  }

  /** The shoot animation for an orientation: the side one for left and right,
      flipped for left only. */
  function ShootAnimation(avatar: string, o: Orientation): (c: AnimChoice)
    ensures IsThrowingArrow(avatar, c.key)
    ensures c.flip == Some(o == Left)
    ensures c.key == AnimKey(avatar, ShootSide) <==> o == Left || o == Right
    ensures c.key == AnimKey(avatar, ShootUp) <==> o == Up
    ensures c.key == AnimKey(avatar, ShootDown) <==> o == Down
  {
    match o
    case Left => AnimChoice(AnimKey(avatar, ShootSide), Some(true))
    case Right => AnimChoice(AnimKey(avatar, ShootSide), Some(false))
    case Up => AnimChoice(AnimKey(avatar, ShootUp), Some(false))
    case Down => AnimChoice(AnimKey(avatar, ShootDown), Some(false))
  }

  /** The segment `update` rewrites to `idle`: the third one when the avatar
      name holds a hyphen, the second otherwise. For a name of one or two
      segments that is the first segment after the name's own. */
  function IdleIndex(avatar: string): (i: nat)
    ensures i == 1 <==> |Split(avatar)| == 1
    ensures |Split(avatar)| <= 2 ==> i == |Split(avatar)|
  {
    JoinSplit(avatar);
    JoinHasHyphen(Split(avatar));
    if NoHyphen(avatar) then 1 else 2
  }

  /** The direction a walk key ends in. */
  function WalkDirection(input: MovementInput): string
  {
    if input.left || input.right then "side" else if input.up then "up" else "down"
  }

  /** For an avatar name of one or two hyphen-free segments, releasing every key
      after walking in a direction plays the idle animation of that direction. */
  lemma {:induction false} StopAfterWalk(segs: seq<string>, input: MovementInput, current: string)
    requires 1 <= |segs| <= 2
    requires forall k :: 0 <= k < |segs| ==> NoHyphen(segs[k])
    requires input != NoInput()
    ensures var avatar := Join(segs);
            var walk := WalkAnimation(avatar, input, current, IdleIndex(avatar)).key;
            WalkAnimation(avatar, NoInput(), walk, IdleIndex(avatar)).key == AnimKey(avatar, "idle-" + WalkDirection(input))
  {
    var avatar := Join(segs);
    JoinHasHyphen(segs);
    assert IdleIndex(avatar) == |segs|;
    var dir := WalkDirection(input);
    assert WalkAnimation(avatar, input, current, IdleIndex(avatar)).key == AnimKey(avatar, "walk" + "-" + dir);
    IdleAfterAction(segs, "walk", dir);
  }

  /** Walking never plays a shoot animation, so a walking character can fire. */
  lemma WalkIsNotShooting(avatar: string, input: MovementInput, current: string, idleIndex: nat)
    requires input != NoInput()
    ensures !IsThrowingArrow(avatar, WalkAnimation(avatar, input, current, idleIndex).key)
  {
    var key := WalkAnimation(avatar, input, current, idleIndex).key;
    assert |key| == |avatar| + 1 + 9 || |key| == |avatar| + 1 + 7;
  }

  /** The blood emitter's setting for the direction of the hit; no direction
      sprays as a hit from the left does. Only a hit from above keeps the
      emitter on the sprite's origin; the others follow 10 pixels lower. */
  function BloodSpray(o: Option<Orientation>): (s: Spray)
    ensures o.None? || o == Some(Left) ==> s == Spray(360 + 20, 5, 10)
    ensures s.dy == (if o == Some(Up) then 0 else 10)
    ensures s.dx == (if o == Some(Up) || o == Some(Down) then 0 else if o == Some(Right) then -5 else 5)
  {
    match o
    case Some(Up) => Spray(50, 0, 0)
    case Some(Down) => Spray(360 - 50, 0, 10)
    case Some(Right) => Spray(360 - 180 + 20, -5, 10)
    case _ => Spray(360 + 20, 5, 10)
  }

  class Lpc {
    const avatar: string
    const playerId: PlayerId
    var x: int
    var y: int
    var orientation: Orientation
    var isDead: bool
    /** The key of the animation playing. */
    var animKey: string
    /** The animation queued to play when the current one repeats. */
    var queued: Option<string>
    var flipX: bool
    var weaponGroup: WeaponGroup?
    /** Expiries scheduled and not yet fired. */
    var expiries: seq<Expiry>
    var enableBlood: bool
    var spray: Option<Spray>
    var healthBar: seq<BarCall>

    /** Places the sprite `errorOffset` (16 by default) pixels right of and
        below the requested spot and starts the avatar's `idle-down`
        animation. */
    constructor (avatar: string, playerId: PlayerId, x: int, y: int, errorOffset: int, enableBlood: bool)
      ensures this.avatar == avatar && this.playerId == playerId
      ensures this.x == x + errorOffset && this.y == y + errorOffset
      ensures animKey == AnimKey(avatar, IdleDown) && !IsThrowingArrow(avatar, animKey)
      ensures !isDead && queued.None? && weaponGroup == null && expiries == []
      ensures this.enableBlood == enableBlood && spray.None? && healthBar == []
    {
      this.avatar := avatar;
      this.playerId := playerId;
      this.x := x + errorOffset;
      this.y := y + errorOffset;
      orientation := Down;
      isDead := false;
      animKey := AnimKey(avatar, IdleDown);
      queued := None;
      flipX := false;
      weaponGroup := null;
      expiries := [];
      this.enableBlood := enableBlood;
      spray := None;
      healthBar := [];
    }

    /** The group the scene hands this player to fire from. */
    method SetThrowableWeapon(group: WeaponGroup)
      modifies this
      ensures weaponGroup == group
      ensures animKey == old(animKey) && isDead == old(isDead) && expiries == old(expiries)
      ensures x == old(x) && y == old(y) && orientation == old(orientation)
      ensures queued == old(queued) && flipX == old(flipX)
      ensures enableBlood == old(enableBlood) && spray == old(spray) && healthBar == old(healthBar)
    {
      weaponGroup := group;
    }

    /** The base class's `update` runs first; its code is not part of this
        model, and where it leaves the player (`baseX`, `baseY`, facing
        `baseOrientation`) is given. Then the animation is left alone while
        dead or shooting; otherwise the walk animation for the flags plays
        (left before right before up before down), or with no flag the idle
        version of the current animation. */
    method Update(input: MovementInput, baseX: int, baseY: int, baseOrientation: Orientation)
      modifies this
      ensures x == baseX && y == baseY && orientation == baseOrientation
      ensures isDead || IsThrowingArrow(avatar, old(animKey)) ==>
                animKey == old(animKey) && flipX == old(flipX)
      ensures !isDead && !IsThrowingArrow(avatar, old(animKey)) ==>
                var c := WalkAnimation(avatar, input, old(animKey), IdleIndex(avatar));
                animKey == c.key && flipX == (if c.flip.Some? then c.flip.value else old(flipX))
      ensures isDead == old(isDead) && queued == old(queued) && weaponGroup == old(weaponGroup)
      ensures expiries == old(expiries) && healthBar == old(healthBar) && spray == old(spray)
      ensures enableBlood == old(enableBlood)
    {
      x, y, orientation := baseX, baseY, baseOrientation;
      if isDead {
        return;
      }
      if IsThrowingArrow(avatar, animKey) {
        return;
      }
      var c := WalkAnimation(avatar, input, animKey, IdleIndex(avatar));
      animKey := c.key;
      if c.flip.Some? {
        flipX := c.flip.value;
      }
    }

    /** Fires an arrow from the pool at the player's position and orientation,
        with the player as thrower, and schedules its expiry. Fires nothing and
        returns false without a group, while a shoot animation plays, or when
        the pool has no free arrow. */
    method ThrowArrow() returns (thrown: bool)
      requires weaponGroup != null ==> weaponGroup.Valid()
      modifies this, weaponGroup
      ensures thrown <==> old(weaponGroup != null && !IsThrowingArrow(avatar, animKey) && weaponGroup.FreeSlot().Some?)
      ensures var g := old(weaponGroup);
              !thrown ==> expiries == old(expiries) && (g != null ==> g.arrows == old(g.arrows))
      ensures var g := old(weaponGroup);
              thrown ==>
                var s := old(g.FreeSlot()).value;
                && g.arrows == Launch(old(weaponGroup.arrows), s, Arrow(true, true, true, x, y, orientation, playerId))
                && expiries == old(expiries) + [Expiry(g, s)]
      ensures weaponGroup == old(weaponGroup) && (weaponGroup != null ==> weaponGroup.Valid())
      ensures animKey == old(animKey) && queued == old(queued) && flipX == old(flipX) && isDead == old(isDead)
      ensures x == old(x) && y == old(y) && orientation == old(orientation)
      ensures enableBlood == old(enableBlood) && spray == old(spray) && healthBar == old(healthBar)
    {
      if weaponGroup == null {
        return false;
      }
      if IsThrowingArrow(avatar, animKey) {
        return false;
      }
      var slot := weaponGroup.FreeSlot();
      if slot.None? {
        return false;
      }
      weaponGroup.arrows := Launch(weaponGroup.arrows, slot.value, Arrow(true, true, true, x, y, orientation, playerId));
      expiries := expiries + [Expiry(weaponGroup, slot.value)];
      return true;
    }

    /** The `k`-th pending expiry fires: the arrow it was scheduled for is
        released if it is still active. */
    method ArrowExpires(k: nat)
      requires k < |expiries| && expiries[k].slot < |expiries[k].group.arrows|
      modifies expiries[k].group, this
      ensures var e := old(expiries[k]);
              && (old(e.group.arrows[e.slot].active) ==>
                    e.group.arrows == old(e.group.arrows)[e.slot := old(e.group.arrows[e.slot]).(active := false, visible := false, bodyEnabled := false)])
              && (!old(e.group.arrows[e.slot].active) ==> e.group.arrows == old(e.group.arrows))
      ensures expiries == old(expiries[..k] + expiries[k + 1..])
      ensures animKey == old(animKey) && weaponGroup == old(weaponGroup) && isDead == old(isDead)
      ensures x == old(x) && y == old(y) && orientation == old(orientation)
      ensures queued == old(queued) && flipX == old(flipX)
      ensures enableBlood == old(enableBlood) && spray == old(spray) && healthBar == old(healthBar)
    {
      var e := expiries[k];
      expiries := expiries[..k] + expiries[k + 1..];
      e.group.Expire(e.slot);
    }

    /** Plays the shoot animation for the orientation, queues the animation that
        was playing to resume after it, and flips for a left shot only. */
    method HandleFightAnimation()
      modifies this
      ensures var c := ShootAnimation(avatar, orientation);
              animKey == c.key && queued == Some(old(animKey)) && flipX == (orientation == Left)
      ensures isDead == old(isDead) && weaponGroup == old(weaponGroup) && expiries == old(expiries)
      ensures x == old(x) && y == old(y) && orientation == old(orientation)
      ensures enableBlood == old(enableBlood) && spray == old(spray) && healthBar == old(healthBar)
    {
      var previous := animKey;
      var c := ShootAnimation(avatar, orientation);
      animKey := c.key;
      queued := Some(previous);
      flipX := c.flip.value;
    }

    /** The current animation repeats and the queued one, if any, takes over. */
    method AnimationRepeats()
      modifies this
      ensures queued.None?
      ensures animKey == if old(queued).Some? then old(queued).value else old(animKey)
      ensures isDead == old(isDead) && weaponGroup == old(weaponGroup) && expiries == old(expiries)
      ensures x == old(x) && y == old(y) && orientation == old(orientation) && flipX == old(flipX)
      ensures enableBlood == old(enableBlood) && spray == old(spray) && healthBar == old(healthBar)
    {
      if queued.Some? {
        animKey := queued.value;
        queued := None;
      }
    }

    /** A fight succeeds only when the base character may fight (`baseFight`)
        and an arrow is fired; the shoot animation then plays, so a second
        fight fails until it is over. */
    method Fight(baseFight: bool) returns (ok: bool)
      requires weaponGroup != null ==> weaponGroup.Valid()
      modifies this, weaponGroup
      ensures ok <==> baseFight && old(weaponGroup != null && !IsThrowingArrow(avatar, animKey) && weaponGroup.FreeSlot().Some?)
      ensures ok ==> IsThrowingArrow(avatar, animKey) && queued == Some(old(animKey)) && flipX == (orientation == Left)
      ensures var g := old(weaponGroup);
              ok ==>
                var s := old(g.FreeSlot()).value;
                && g.arrows == Launch(old(weaponGroup.arrows), s, Arrow(true, true, true, x, y, orientation, playerId))
                && expiries == old(expiries) + [Expiry(g, s)]
      ensures x == old(x) && y == old(y) && orientation == old(orientation) && isDead == old(isDead)
      ensures var g := old(weaponGroup);
              !ok ==> animKey == old(animKey) && expiries == old(expiries) && (g != null ==> g.arrows == old(g.arrows))
      ensures !ok ==> queued == old(queued) && flipX == old(flipX)
      ensures weaponGroup == old(weaponGroup) && (weaponGroup != null ==> weaponGroup.Valid())
      ensures enableBlood == old(enableBlood) && spray == old(spray) && healthBar == old(healthBar)
    {
      if !baseFight {
        return false;
      }
      var thrown := ThrowArrow();
      if thrown {
        HandleFightAnimation();
        return true;
      }
      return false;
    }

    /** After the base character takes the hit (leaving it dead or not), a
        living character's health bar drops by `amount` and, with blood on, the
        emitter sprays according to the direction of the hit. */
    method Hurt(amount: int, from: Option<Orientation>, deadAfterHit: bool)
      modifies this
      ensures isDead == deadAfterHit
      ensures deadAfterHit ==> healthBar == old(healthBar) && spray == old(spray)
      ensures !deadAfterHit ==> healthBar == old(healthBar) + [Decrease(amount)]
      ensures !deadAfterHit && enableBlood ==> spray == Some(BloodSpray(from))
      ensures !enableBlood ==> spray == old(spray)
      ensures enableBlood == old(enableBlood) && animKey == old(animKey) && weaponGroup == old(weaponGroup)
      ensures x == old(x) && y == old(y) && orientation == old(orientation)
      ensures queued == old(queued) && flipX == old(flipX) && expiries == old(expiries)
    {
      isDead := deadAfterHit;
      if isDead {
        return;
      }
      healthBar := healthBar + [Decrease(amount)];
      if !enableBlood {
        return;
      }
      spray := Some(BloodSpray(from));
    }

    /** Plays the winner animation, unless the character is dead. */
    method WinnerAnimation()
      modifies this
      ensures old(isDead) ==> unchanged(this)
      ensures !old(isDead) ==> animKey == AnimKey(avatar, Winner)
      ensures isDead == old(isDead) && healthBar == old(healthBar) && queued == old(queued)
      ensures x == old(x) && y == old(y) && orientation == old(orientation) && flipX == old(flipX)
      ensures weaponGroup == old(weaponGroup) && expiries == old(expiries)
      ensures enableBlood == old(enableBlood) && spray == old(spray)
    {
      if isDead {
        return;
      }
      animKey := AnimKey(avatar, Winner);
    }

    /** Kills a living character: plays the death animation and hides the
        health bar. Killing a dead character does nothing. */
    method Kill()
      modifies this
      ensures isDead
      ensures old(isDead) ==> unchanged(this)
      ensures !old(isDead) ==> animKey == AnimKey(avatar, Die) && healthBar == old(healthBar) + [SetVisible(false)]
      ensures queued == old(queued) && weaponGroup == old(weaponGroup)
      ensures x == old(x) && y == old(y) && orientation == old(orientation) && flipX == old(flipX)
      ensures expiries == old(expiries) && enableBlood == old(enableBlood) && spray == old(spray)
    {
      if isDead {
        return;
      }
      isDead := true;
      animKey := AnimKey(avatar, Die);
      healthBar := healthBar + [SetVisible(false)];
    }

    /** Brings the character back with a full, hidden health bar. */
    method Revive()
      modifies this
      ensures !isDead
      ensures healthBar == old(healthBar) + [SetValue(100), SetVisible(false)]
      ensures animKey == old(animKey) && weaponGroup == old(weaponGroup)
      ensures x == old(x) && y == old(y) && orientation == old(orientation) && flipX == old(flipX)
      ensures queued == old(queued) && expiries == old(expiries)
      ensures enableBlood == old(enableBlood) && spray == old(spray)
    {
      isDead := false;
      healthBar := healthBar + [SetValue(100), SetVisible(false)];
    }
  }
}
