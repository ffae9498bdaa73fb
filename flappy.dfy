/** The flappy-bird game scene: six pairs of pipes 300 pixels apart that are
    moved to the front once they leave the screen on the left, a score that
    wrapping pipes raise while the bird flies and that blinking lowers (never
    below zero), and a heart that, once collected, gives a life back.

    Scores are kept in half-points, so the 0.5 a wrapped pipe is worth is 1
    here and the 1 blinking costs is 2. */
module FlappyGame {

  const PipeDistance: int := 150 * 2
  const Width: int := 800
  const Height: int := 640
  const GroundOffset: int := 112
  const MarginOffset: int := 10
  const PipePairs: nat := 6

  /** A pipe: its position, whether it is the bottom one of its pair, and its
      display width. */
  datatype Pipe = Pipe(x: int, y: int, isBottom: bool, width: int)

  /** The vertical positions of a pair of pipes. */
  datatype Gap = Gap(topY: int, bottomY: int)

  datatype Heart = Heart(x: int, y: int, width: int, visible: bool)

  /** A draw of `Math.random()`: the fraction `num / den`, in [0, 1). */
  datatype Draw = Draw(num: nat, den: nat)

  predicate IsDraw(d: Draw)
  {
    d.num < d.den
  }

  /** `Phaser.Math.Between(lo, hi)`: `floor(random * (hi - lo + 1) + lo)`. */
  function Between(lo: int, hi: int, d: Draw): (r: int)
    requires IsDraw(d)
    ensures lo <= hi ==> lo <= r <= hi
  {
    var n := hi - lo + 1;
    var q := (d.num * n) / d.den;
    assert n >= 1 ==> 0 <= q < n by {
      if n >= 1 {
        ScaledDraw(d.num, d.den, n);
      }
    }
    lo + q
  }

  /** A fraction below one of `n` rounds down into `[0, n)`. */
  lemma ScaledDraw(num: nat, den: nat, n: int)
    requires num < den && n >= 1
    ensures 0 <= (num * n) / den < n
  {
    var q := (num * n) / den;
    assert q * den <= num * n;
    MulStrict(num, den, n);
    if q >= n {
      MulMono(q, n, den);
      assert false;
    }
  }

  lemma MulStrict(a: int, b: int, n: int)
    requires a < b && n >= 1
    ensures a * n < b * n
  {
    assert b * n - a * n == (b - a) * n;
  }

  lemma MulMono(a: int, b: int, c: int)
    requires a >= b && c >= 0
    ensures a * c >= b * c
  {
    assert a * c - b * c == (a - b) * c;
  }

  /** The gap for the next pair: the top pipe at least 10 pixels from the top
      edge, the bottom one at least 10 pixels above the 112-pixel ground, and at
      least twice the bird's height between them. */
  function GenerateGap(playerHeight: int, d1: Draw, d2: Draw): (g: Gap)
    requires IsDraw(d1) && IsDraw(d2)
    ensures 0 <= playerHeight && 2 * playerHeight <= Height - 2 * MarginOffset - GroundOffset ==>
              && MarginOffset <= g.topY <= Height - 2 * playerHeight - MarginOffset - GroundOffset
              && g.topY + 2 * playerHeight <= g.bottomY <= Height - MarginOffset - GroundOffset
              && g.bottomY - g.topY >= 2 * playerHeight
  {
    var playerOffset := 2 * playerHeight;
    var topY := Between(MarginOffset, Height - playerOffset - MarginOffset - GroundOffset, d1);
    var bottomY := Between(topY + playerOffset, Height - MarginOffset - GroundOffset, d2);
    Gap(topY, bottomY)
  }

  /** The largest x of the pipes. */
  function MaxX(s: seq<Pipe>): (m: int)
    requires |s| > 0
    ensures forall k :: 0 <= k < |s| ==> s[k].x <= m
    ensures exists k :: 0 <= k < |s| && s[k].x == m
  {
    if |s| == 1 then s[0].x
    else
      var m := MaxX(s[..|s| - 1]);
      if s[|s| - 1].x > m then s[|s| - 1].x else m
  }

  /** Whether a pipe has left the screen on the left: its centre plus half its
      width is left of the camera. */
  predicate Offscreen(p: Pipe, scrollX: int)
  {
    2 * p.x + p.width < 2 * scrollX
  }

  /** The pipe after one wrap: moved `PipeDistance` right of `maxX` to the new
      gap height when it was off screen, unchanged otherwise. */
  function Wrapped(p: Pipe, scrollX: int, maxX: int, gap: Gap): Pipe
  {
    if Offscreen(p, scrollX) then
      p.(x := maxX + PipeDistance, y := if p.isBottom then gap.bottomY else gap.topY)
    else p
  }

  /** How many pipes are off screen. */
  function OffscreenCount(s: seq<Pipe>, scrollX: int): (n: nat)
    ensures n <= |s|
    ensures n == 0 <==> forall k :: 0 <= k < |s| ==> !Offscreen(s[k], scrollX)
  {
    if |s| == 0 then 0
    else OffscreenCount(s[..|s| - 1], scrollX) + (if Offscreen(s[|s| - 1], scrollX) then 1 else 0)
  }

  /** The scores announced by `n` single half-point gains in a row starting
      from `from`: each one is one more than the last. */
  function Announced(from: int, n: nat): (r: seq<int>)
    ensures |r| == n
    ensures forall k :: 0 <= k < n ==> r[k] == from + k + 1
  {
    if n == 0 then [] else Announced(from, n - 1) + [from + n]
  }

  lemma CountStep(s: seq<Pipe>, i: nat, scrollX: int)
    requires i < |s|
    ensures OffscreenCount(s[..i + 1], scrollX) ==
            OffscreenCount(s[..i], scrollX) + (if Offscreen(s[i], scrollX) then 1 else 0)
  {
    assert s[..i + 1][..i] == s[..i];
  }

  /** The pipes `createPipes` builds: for pair `i` (1 to 6) a bottom and a top
      pipe at x = 300 + 300 i, at the heights of the i-th gap. */
  function InitialPipes(gaps: seq<Gap>, width: int): (s: seq<Pipe>)
    requires |gaps| == PipePairs
    ensures |s| == 2 * PipePairs
  {
    seq(2 * PipePairs, k requires 0 <= k < 2 * PipePairs =>
      Pipe(300 + PipeDistance * (k / 2 + 1), if k % 2 == 0 then gaps[k / 2].bottomY else gaps[k / 2].topY, k % 2 == 0, width))
  }

  /** The pairs start 300 pixels apart and the front one is at 2100. */
  lemma InitialLayout(gaps: seq<Gap>, width: int)
    requires |gaps| == PipePairs
    ensures var s := InitialPipes(gaps, width);
            && MaxX(s) == 300 + PipeDistance * PipePairs
            && (forall k :: 0 <= k < |s| - 2 ==> s[k + 2].x == s[k].x + PipeDistance)
            && (forall k :: 0 <= k < |s| ==> (s[k].isBottom <==> k % 2 == 0))
  {
    var s := InitialPipes(gaps, width);
    assert s[2 * PipePairs - 1].x == 300 + PipeDistance * PipePairs;
    forall k | 0 <= k < |s|
      ensures s[k].x <= 300 + PipeDistance * PipePairs
    {
      assert k / 2 + 1 <= PipePairs;
    }
    MaxIs(s, 300 + PipeDistance * PipePairs, 2 * PipePairs - 1);
    forall k | 0 <= k < |s| - 2
      ensures s[k + 2].x == s[k].x + PipeDistance
    {
      assert (k + 2) / 2 == k / 2 + 1;
    }
  }

  /** Wrapping moves every pipe that left the screen exactly `PipeDistance`
      past the front one, leaves the rest where they were, and so moves the
      front on by `PipeDistance` when anything wrapped. */
  lemma WrapAdvancesFront(s: seq<Pipe>, scrollX: int, gap: Gap)
    requires |s| > 0
    ensures var w := seq(|s|, k requires 0 <= k < |s| => Wrapped(s[k], scrollX, MaxX(s), gap));
            && (forall k :: 0 <= k < |s| && Offscreen(s[k], scrollX) ==> w[k].x == MaxX(s) + PipeDistance && w[k].x > s[k].x)
            && (forall k :: 0 <= k < |s| && !Offscreen(s[k], scrollX) ==> w[k] == s[k])
            && MaxX(w) == if OffscreenCount(s, scrollX) > 0 then MaxX(s) + PipeDistance else MaxX(s)
  {
    var m := MaxX(s);
    var w := seq(|s|, k requires 0 <= k < |s| => Wrapped(s[k], scrollX, m, gap));
    if OffscreenCount(s, scrollX) > 0 {
      var j :| 0 <= j < |s| && Offscreen(s[j], scrollX);
      assert w[j].x == m + PipeDistance;
      forall k | 0 <= k < |s| ensures w[k].x <= m + PipeDistance {
      }
      MaxIs(w, m + PipeDistance, j);
    } else {
      assert w == s;
    }
  }

  /** An attained upper bound is the maximum. */
  lemma MaxIs(s: seq<Pipe>, m: int, j: nat)
    requires j < |s| && s[j].x == m
    requires forall k :: 0 <= k < |s| ==> s[k].x <= m
    ensures MaxX(s) == m
  {
  }

  class Scene {
    /** The score, in half-points. */
    var score: int
    /** The scores announced to the UI, in order. */
    var scoreEvents: seq<int>
    var pipes: array<Pipe>
    var pipesOverlapActive: bool
    var heart: Heart
    var heartOverlapActive: bool
    /** How many lives the heart has given back. */
    var livesGained: nat

    ghost predicate Valid()
      reads this
    {
      score >= 0
    }

    /** The scene starts with a zero score. */
    constructor ()
      ensures Valid() && score == 0 && scoreEvents == []
      ensures pipes.Length == 0 && livesGained == 0
    {
      score := 0;
      scoreEvents := [];
      pipes := new Pipe[0];
      pipesOverlapActive := true;
      heart := Heart(Width, Height / 2, 0, false);
      heartOverlapActive := false;
      livesGained := 0;
    }

    /** `init`: the score goes back to zero. */
    method Init()
      modifies this
      ensures Valid() && score == 0
      ensures pipes == old(pipes) && scoreEvents == old(scoreEvents) && pipesOverlapActive == old(pipesOverlapActive)
      ensures heart == old(heart) && heartOverlapActive == old(heartOverlapActive) && livesGained == old(livesGained)
    {
      score := 0;
    }

    /** Adds `increase` half-points, stopping at zero, and announces the new
        score. */
    method UpdateScore(increase: int)
      modifies this
      ensures score == if old(score) + increase < 0 then 0 else old(score) + increase
      ensures score >= 0
      ensures scoreEvents == old(scoreEvents) + [score]
      ensures pipes == old(pipes) && pipesOverlapActive == old(pipesOverlapActive)
      ensures heart == old(heart) && heartOverlapActive == old(heartOverlapActive) && livesGained == old(livesGained)
    {
      score := score + increase;
      if score < 0 {
        score := 0;
      }
      scoreEvents := scoreEvents + [score];
    }

    /** Builds the twelve pipes from the six gaps drawn, pair by pair. */
    method CreatePipes(gaps: seq<Gap>, width: int)
      requires |gaps| == PipePairs
      modifies this
      ensures fresh(pipes)
      ensures pipes[..] == InitialPipes(gaps, width)
      ensures score == old(score) && scoreEvents == old(scoreEvents) && pipesOverlapActive == old(pipesOverlapActive)
      ensures heart == old(heart) && heartOverlapActive == old(heartOverlapActive) && livesGained == old(livesGained)
    {
      var created := new Pipe[2 * PipePairs];
      ghost var want := InitialPipes(gaps, width);
      for i := 1 to PipePairs + 1
        modifies created
        invariant forall k :: 0 <= k < 2 * (i - 1) ==> created[k] == want[k]
      {
        var x := 300 + PipeDistance * i;
        var gap := gaps[i - 1];
        created[2 * (i - 1)] := Pipe(x, gap.bottomY, true, width);
        created[2 * (i - 1) + 1] := Pipe(x, gap.topY, false, width);
        assert (2 * (i - 1)) / 2 == i - 1 && (2 * (i - 1) + 1) / 2 == i - 1;
        assert created[2 * (i - 1)] == want[2 * (i - 1)];
        assert created[2 * (i - 1) + 1] == want[2 * (i - 1) + 1];
      }
      pipes := created;
      assert pipes[..] == want;
    }

    /** The heart starts hidden, out of reach, at the right edge half-way
        down. */
    method CreateHeart(width: int)
      modifies this
      ensures heart == Heart(Width, Height / 2, width, false) && !heartOverlapActive
      ensures score == old(score) && pipes == old(pipes) && scoreEvents == old(scoreEvents)
      ensures pipesOverlapActive == old(pipesOverlapActive) && livesGained == old(livesGained)
    {
      heart := Heart(Width, Height / 2, width, false);
      heartOverlapActive := false;
    }

    /** The largest x among the pipes, starting from the first pipe. */
    method RightMostPipePosition() returns (maxX: int)
      requires pipes.Length > 0
      ensures maxX == MaxX(pipes[..])
      ensures forall k :: 0 <= k < pipes.Length ==> pipes[k].x <= maxX
      ensures exists k :: 0 <= k < pipes.Length && pipes[k].x == maxX
    {
      maxX := pipes[0].x;
      ghost var at := 0;
      for i := 0 to pipes.Length
        invariant 0 <= at < pipes.Length && pipes[at].x == maxX
        invariant forall k :: 0 <= k < i ==> pipes[k].x <= maxX
      {
        if pipes[i].x > maxX {
          maxX := pipes[i].x;
          at := i;
        }
      }
      MaxIs(pipes[..], maxX, at);
    }

    /** Moves every pipe that left the screen to `PipeDistance` past the pipe
        that was in front when the wrap began, at the new gap's height; each
        one is worth half a point while the bird flies. */
    method WrapPipes(scrollX: int, gap: Gap, isFlying: bool)
      requires Valid() && pipes.Length > 0
      modifies this, pipes
      ensures Valid() && pipes == old(pipes)
      ensures forall k :: 0 <= k < pipes.Length ==>
                pipes[k] == Wrapped(old(pipes[k]), scrollX, MaxX(old(pipes[..])), gap)
      ensures score == old(score) + (if isFlying then OffscreenCount(old(pipes[..]), scrollX) else 0)
      ensures scoreEvents == old(scoreEvents) + Announced(old(score), if isFlying then OffscreenCount(old(pipes[..]), scrollX) else 0)
      ensures pipesOverlapActive == old(pipesOverlapActive) && heart == old(heart)
      ensures heartOverlapActive == old(heartOverlapActive) && livesGained == old(livesGained)
    {
      var maxX := RightMostPipePosition();
      ghost var s := pipes[..];
      ghost var wrapped: nat := 0;
      for i := 0 to pipes.Length
        invariant pipes == old(pipes) && score >= 0
        invariant forall k :: 0 <= k < i ==> pipes[k] == Wrapped(s[k], scrollX, maxX, gap)
        invariant forall k :: i <= k < pipes.Length ==> pipes[k] == s[k]
        invariant wrapped == if isFlying then OffscreenCount(s[..i], scrollX) else 0
        invariant score == old(score) + wrapped
        invariant scoreEvents == old(scoreEvents) + Announced(old(score), wrapped)
        invariant pipesOverlapActive == old(pipesOverlapActive) && heart == old(heart)
        invariant heartOverlapActive == old(heartOverlapActive) && livesGained == old(livesGained)
      {
        CountStep(s, i, scrollX);
        WrapPipe(i, scrollX, maxX, gap, isFlying);
        if isFlying && Offscreen(s[i], scrollX) {
          wrapped := wrapped + 1;
        }
      }
      assert s[..pipes.Length] == s;
    }

    /** One pipe of the wrap: moved past the front and worth half a point while
        the bird flies when it is off screen, left alone otherwise. */
    method WrapPipe(i: nat, scrollX: int, maxX: int, gap: Gap, isFlying: bool)
      requires i < pipes.Length && score >= 0
      modifies this, pipes
      ensures pipes == old(pipes)
      ensures pipes[i] == Wrapped(old(pipes[i]), scrollX, maxX, gap)
      ensures forall k :: 0 <= k < pipes.Length && k != i ==> pipes[k] == old(pipes[k])
      ensures score == old(score) + (if isFlying && Offscreen(old(pipes[i]), scrollX) then 1 else 0)
      ensures scoreEvents == old(scoreEvents) + (if isFlying && Offscreen(old(pipes[i]), scrollX) then [score] else [])
      ensures pipesOverlapActive == old(pipesOverlapActive) && heart == old(heart)
      ensures heartOverlapActive == old(heartOverlapActive) && livesGained == old(livesGained)
    {
      if Offscreen(pipes[i], scrollX) {
        pipes[i] := pipes[i].(x := maxX + PipeDistance, y := if pipes[i].isBottom then gap.bottomY else gap.topY);
        if isFlying {
          UpdateScore(1);
        }
      }
    }

    /** While the bird is hurt, a heart that left the screen reappears half a
        pipe distance past the front pipe, at height `newY`, visible and
        collectable. */
    method WrapHeart(isHurt: bool, scrollX: int, newY: int)
      requires pipes.Length > 0
      modifies this
      ensures pipes == old(pipes)
      ensures !isHurt || old(heart.x + heart.width) >= scrollX ==> unchanged(this)
      ensures isHurt && old(heart.x + heart.width) < scrollX ==>
                heart == old(heart).(x := MaxX(pipes[..]) + PipeDistance / 2, y := newY, visible := true) && heartOverlapActive
      ensures score == old(score) && scoreEvents == old(scoreEvents)
      ensures pipesOverlapActive == old(pipesOverlapActive) && livesGained == old(livesGained)
    {
      if !isHurt {
        return;
      }
      if heart.x + heart.width < scrollX {
        var maxX := RightMostPipePosition();
        heart := heart.(x := maxX + PipeDistance / 2, y := newY, visible := true);
        heartOverlapActive := true;
      }
    }

    /** Blinking starts: the pipes stop hurting and a point is lost, never
        going below zero. */
    method BlinkingStarts()
      requires Valid()
      modifies this
      ensures Valid() && !pipesOverlapActive
      ensures score == if old(score) < 2 then 0 else old(score) - 2
      ensures scoreEvents == old(scoreEvents) + [score]
      ensures pipes == old(pipes) && heart == old(heart) && heartOverlapActive == old(heartOverlapActive)
      ensures livesGained == old(livesGained)
    {
      pipesOverlapActive := false;
      UpdateScore(-2);
    }

    /** Blinking stops: the pipes hurt again. */
    method BlinkingStops()
      modifies this
      ensures pipesOverlapActive
      ensures score == old(score) && pipes == old(pipes) && scoreEvents == old(scoreEvents)
      ensures heart == old(heart) && heartOverlapActive == old(heartOverlapActive) && livesGained == old(livesGained)
    {
      pipesOverlapActive := true;
    }

    /** The bird takes the heart: a life back, the heart hidden and out of
        reach until it wraps again. */
    method HandlePlayerHeartOverlap()
      modifies this
      ensures livesGained == old(livesGained) + 1
      ensures heart == old(heart).(visible := false) && !heartOverlapActive
      ensures score == old(score) && pipes == old(pipes) && pipesOverlapActive == old(pipesOverlapActive)
      ensures scoreEvents == old(scoreEvents)
    {
      livesGained := livesGained + 1;
      heart := heart.(visible := false);
      heartOverlapActive := false;
    }
  }
}
