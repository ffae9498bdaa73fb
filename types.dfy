/** Value types shared by the server scene, the client scene and the characters:
    the movement input sent over the network, the four orientations, cursor keys,
    and the hyphen-separated animation keys that the characters take apart with
    `split('-')`, rewrite one segment of, and put back together with `join('-')`. */
module PlayerTypes {

  datatype Option<T> = None | Some(value: T)

  /** The four movement flags a client sends and the server queues. */
  datatype MovementInput = MovementInput(left: bool, right: bool, up: bool, down: bool)

  /** The input with every flag off. */
  function NoInput(): (m: MovementInput)
    ensures !m.left && !m.right && !m.up && !m.down
  {
    MovementInput(false, false, false, false)
  }

  datatype Orientation = Up | Down | Left | Right

  /** Which of the cursor keys are held down in the current frame. */
  datatype CursorKeys = CursorKeys(left: bool, right: bool, up: bool, down: bool)

  /** The `${avatar}-${animation}` key of an avatar's animation. */
  function AnimKey(avatar: string, animation: string): (k: string)
    ensures |k| == |avatar| + 1 + |animation|
    ensures k[..|avatar|] == avatar && k[|avatar|] == '-' && k[|avatar| + 1..] == animation
  {
    avatar + "-" + animation
  }

  predicate NoHyphen(s: string)
  {
    forall i :: 0 <= i < |s| ==> s[i] != '-'
  }

  /** JavaScript's `s.split('-')`: the maximal hyphen-free runs of `s`, in order;
      there is always at least one segment (`"".split('-')` is `[""]`). */
  function Split(s: string): (parts: seq<string>)
    ensures |parts| >= 1
    ensures forall k :: 0 <= k < |parts| ==> NoHyphen(parts[k])
  {
    if |s| == 0 then [""]
    else if s[0] == '-' then [""] + Split(s[1..])
    else
      var rest := Split(s[1..]);
      [[s[0]] + rest[0]] + rest[1..]
  }

  /** JavaScript's `parts.join('-')`. */
  function Join(parts: seq<string>): string
  {
    if |parts| == 0 then ""
    else if |parts| == 1 then parts[0]
    else parts[0] + "-" + Join(parts[1..])
  }

  /** Joining the pieces of a split gives back the string. */
  lemma {:induction false} JoinSplit(s: string)
    ensures Join(Split(s)) == s
  {
    if |s| == 0 {
    } else if s[0] == '-' {
      JoinSplit(s[1..]);
      assert s == "-" + s[1..];
    } else {
      JoinSplit(s[1..]);
      var rest := Split(s[1..]);
      if |rest| == 1 {
        assert Join(Split(s)) == [s[0]] + rest[0];
      } else {
        assert Join(Split(s)) == [s[0]] + rest[0] + "-" + Join(rest[1..]);
        assert Join(rest) == rest[0] + "-" + Join(rest[1..]);
      }
      assert s == [s[0]] + s[1..];
    }
  }

  /** Splitting a join of hyphen-free segments gives back the segments. */
  lemma {:induction false} SplitJoin(parts: seq<string>)
    requires |parts| >= 1
    requires forall k :: 0 <= k < |parts| ==> NoHyphen(parts[k])
    ensures Split(Join(parts)) == parts
  {
    if |parts| == 1 {
      SplitNoHyphen(parts[0]);
    } else {
      SplitJoin(parts[1..]);
      SplitPrefix(parts[0], Join(parts[1..]));
      assert [parts[0]] + parts[1..] == parts;
    }
  }

  lemma {:induction false} SplitNoHyphen(s: string)
    requires NoHyphen(s)
    ensures Split(s) == [s]
  {
    if |s| > 0 {
      SplitNoHyphen(s[1..]);
      assert [s[0]] + s[1..] == s;
    }
  }

  lemma {:induction false} SplitPrefix(a: string, b: string)
    requires NoHyphen(a)
    ensures Split(a + "-" + b) == [a] + Split(b)
  {
    if |a| == 0 {
      assert a + "-" + b == "-" + b;
      assert ("-" + b)[1..] == b;
    } else {
      assert (a + "-" + b)[1..] == a[1..] + "-" + b;
      SplitPrefix(a[1..], b);
      assert [a[0]] + a[1..] == a;
    }
  }

  /** JavaScript's `parts[i] = v` on an array: inside the array it replaces the
      element; past its end it grows the array, and the holes it leaves read as
      empty strings once the array is joined. */
  function SetSegment(parts: seq<string>, i: nat, v: string): (r: seq<string>)
    ensures |r| == if i < |parts| then |parts| else i + 1
    ensures r[i] == v
    ensures forall k :: 0 <= k < |parts| && k != i ==> r[k] == parts[k]
    ensures forall k :: |parts| <= k < i ==> r[k] == ""
  {
    if i < |parts| then parts[i := v]
    else parts + seq(i - |parts|, _ => "") + [v]
  }

  /** `key.split('-')`, segment `i` set to `v`, then `join('-')`: how the
      characters turn a walk animation key into the matching idle one. */
  function ReplaceSegment(key: string, i: nat, v: string): string
  {
    Join(SetSegment(Split(key), i, v))
  }

  /** The rewrite touches only segment `i`: every other segment of the key is kept,
      and segment `i` becomes `v` (for a hyphen-free `v`). */
  lemma ReplaceSegmentSpec(key: string, i: nat, v: string)
    requires NoHyphen(v)
    ensures var r := Split(ReplaceSegment(key, i, v));
            var parts := Split(key);
            && |r| == (if i < |parts| then |parts| else i + 1)
            && r[i] == v
            && (forall k :: 0 <= k < |parts| && k != i ==> r[k] == parts[k])
  {
    var s := SetSegment(Split(key), i, v);
    forall k | 0 <= k < |s| ensures NoHyphen(s[k]) {
    }
    SplitJoin(s);
  }

  /** Joining two non-empty runs of segments puts one hyphen between them. */
  lemma {:induction false} JoinAppend(p: seq<string>, q: seq<string>)
    requires |p| >= 1 && |q| >= 1
    ensures Join(p + q) == Join(p) + "-" + Join(q)
  {
    if |p| == 1 {
      assert p + q == [p[0]] + q;
    } else {
      JoinAppend(p[1..], q);
      assert (p + q)[1..] == p[1..] + q;
    }
  }

  /** `avatar.includes('-')` holds exactly when the avatar name has more than
      one hyphen-free segment. */
  lemma JoinHasHyphen(segs: seq<string>)
    requires |segs| >= 1
    requires forall k :: 0 <= k < |segs| ==> NoHyphen(segs[k])
    ensures NoHyphen(Join(segs)) <==> |segs| == 1
  {
    if |segs| >= 2 {
      assert Join(segs)[|segs[0]|] == '-';
    }
  }

  // The animation names an avatar's keys end in (`${avatar}-${name}`).
  const WalkSide: string := "walk-side"
  const WalkUp: string := "walk-up"
  const WalkDown: string := "walk-down"
  const IdleDown: string := "idle-down"
  const ShootSide: string := "shoot-side"
  const ShootUp: string := "shoot-up"
  const ShootDown: string := "shoot-down"
  const Winner: string := "winner"
  const Die: string := "die"

  /** The animation a character plays in `update`, and the horizontal flip it
      sets, if any. */
  datatype AnimChoice = AnimChoice(key: string, flip: Option<bool>)

  /** The walk animation for the held flags, left before right before up before
      down; with no flag held, the current key with segment `idleIndex`
      rewritten to `idle`. */
  function WalkAnimation(avatar: string, input: MovementInput, current: string, idleIndex: nat): (c: AnimChoice)
    ensures input.left ==> c == AnimChoice(AnimKey(avatar, WalkSide), Some(true))
    ensures !input.left && input.right ==> c == AnimChoice(AnimKey(avatar, WalkSide), Some(false))
    ensures !input.left && !input.right && input.up ==> c == AnimChoice(AnimKey(avatar, WalkUp), None)
    ensures !input.left && !input.right && !input.up && input.down ==>
              c == AnimChoice(AnimKey(avatar, WalkDown), None)
    ensures input == NoInput() ==> c.flip.None? && c.key == ReplaceSegment(current, idleIndex, "idle")
  {
    if input.left then AnimChoice(AnimKey(avatar, WalkSide), Some(true))
    else if input.right then AnimChoice(AnimKey(avatar, WalkSide), Some(false))
    else if input.up then AnimChoice(AnimKey(avatar, WalkUp), None)
    else if input.down then AnimChoice(AnimKey(avatar, WalkDown), None)
    else AnimChoice(ReplaceSegment(current, idleIndex, "idle"), None)
  }

  /** Rewriting the segment right after the avatar's own segments turns an
      `${avatar}-${action}-${direction}` key into `${avatar}-idle-${direction}`. */
  lemma {:induction false} IdleAfterAction(segs: seq<string>, action: string, dir: string)
    requires |segs| >= 1
    requires forall k :: 0 <= k < |segs| ==> NoHyphen(segs[k])
    requires NoHyphen(action) && NoHyphen(dir)
    ensures ReplaceSegment(AnimKey(Join(segs), action + "-" + dir), |segs|, "idle")
            == AnimKey(Join(segs), "idle-" + dir)
  {
    var avatar := Join(segs);
    var parts := segs + [action, dir];
    forall k | 0 <= k < |parts| ensures NoHyphen(parts[k]) {
    }
    assert Join([action, dir]) == action + "-" + dir;
    JoinAppend(segs, [action, dir]);
    assert AnimKey(avatar, action + "-" + dir) == Join(parts);
    SplitJoin(parts);
    assert SetSegment(parts, |segs|, "idle") == segs + ["idle", dir];
    assert Join(["idle", dir]) == "idle" + "-" + dir;
    JoinAppend(segs, ["idle", dir]);
  }
}
