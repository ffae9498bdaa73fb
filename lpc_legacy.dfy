/** The older client's LPC character: a sprite placed 16 pixels off the
    requested spot that walks with the movement flags and, with no flag held,
    rewrites the third segment of its current animation key to `idle`, whatever
    the avatar name looks like. */
module LegacyLpc {
  import opened PlayerTypes

  type PlayerId = string

  const ErrorOffset: int := 16

  /** The segment this character always rewrites to `idle`. */
  const IdleSegment: nat := 2

  /** For an avatar name of two hyphen-free segments (every avatar of the
      avatar list), stopping after a walk plays that direction's idle
      animation. */
  lemma TwoSegmentStop(first: string, last: string, action: string, dir: string)
    requires NoHyphen(first) && NoHyphen(last) && NoHyphen(action) && NoHyphen(dir)
    ensures var avatar := first + "-" + last;
            WalkAnimation(avatar, NoInput(), AnimKey(avatar, action + "-" + dir), IdleSegment).key
            == AnimKey(avatar, "idle-" + dir)
  {
    assert Join([first, last]) == first + "-" + last;
    IdleAfterAction([first, last], action, dir);
  }

  /** For a one-segment avatar name the fixed index hits the direction instead:
      stopping turns `${avatar}-${action}-${dir}` into
      `${avatar}-${action}-idle`. */
  lemma {:induction false} OneSegmentStop(avatar: string, action: string, dir: string)
    requires NoHyphen(avatar) && NoHyphen(action) && NoHyphen(dir)
    ensures WalkAnimation(avatar, NoInput(), AnimKey(avatar, action + "-" + dir), IdleSegment).key
            == AnimKey(avatar, action + "-idle")
  {
    var parts := [avatar, action, dir];
    forall k | 0 <= k < |parts| ensures NoHyphen(parts[k]) {
    }
    assert Join([action, dir]) == action + "-" + dir;
    JoinAppend([avatar], [action, dir]);
    assert [avatar] + [action, dir] == parts;
    SplitJoin(parts);
    assert SetSegment(parts, 2, "idle") == [avatar] + [action, "idle"];
    assert Join([action, "idle"]) == action + "-" + "idle";
    JoinAppend([avatar], [action, "idle"]);
  }

  class Character {
    const avatar: string
    const playerId: PlayerId
    var x: int
    var y: int
    var animKey: string
    var flipX: bool

    /** Places the sprite 16 pixels right of and below the requested spot and
        starts the avatar's `idle-down` animation. */
    constructor (avatar: string, playerId: PlayerId, x: int, y: int)
      ensures this.avatar == avatar && this.playerId == playerId
      ensures this.x == x + ErrorOffset && this.y == y + ErrorOffset
      ensures animKey == AnimKey(avatar, IdleDown) && !flipX
    {
      this.avatar := avatar;
      this.playerId := playerId;
      this.x := x + ErrorOffset;
      this.y := y + ErrorOffset;
      animKey := AnimKey(avatar, IdleDown);
      flipX := false;
    }

    /** The base class's `update` runs first; its code is not part of this
        model, and where it leaves the sprite (`baseX`, `baseY`) is given.
        Then plays the walk animation for the flags, left before right before
        up before down, flipping for left and unflipping for right; with no
        flag held, plays the current key with its third segment set to
        `idle`. */
    method Update(input: MovementInput, baseX: int, baseY: int)
      modifies this
      ensures var c := WalkAnimation(avatar, input, old(animKey), IdleSegment);
              animKey == c.key && flipX == (if c.flip.Some? then c.flip.value else old(flipX))
      ensures x == baseX && y == baseY
    {
      x, y := baseX, baseY;
      var c := WalkAnimation(avatar, input, animKey, IdleSegment);
      animKey := c.key;
      if c.flip.Some? {
        flipX := c.flip.value;
      }
    }
  }
}
