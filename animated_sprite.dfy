/**
 * The frame clock behind every sprite of the platformer: a horizontal strip
 * of equally wide frames, an index into it, and the rules for advancing the
 * index with elapsed time, looping, finishing, pausing and rewinding.
 *
 * `Clip` is the value of an `AnimatedSprite`; the functions below are the
 * specification of each operation, and the class at the end performs them
 * in place.  The sprite sheet's pixels are not modelled; loading succeeds or
 * fails as a boolean input.
 */
module Animation {
  import opened Geometry

  datatype Clip = Clip(
    frameWidth: int,
    frameHeight: int,
    frameCount: int,
    currentFrame: int,
    elapsed: real,
    frameTime: real,
    playing: bool,
    loop: bool,
    finished: bool)

  /** A sprite as constructed: no frames, ten frames a second, looping, stopped. */
  function NewClip(): (c: Clip)
    ensures c.frameWidth == c.frameHeight == c.frameCount == c.currentFrame == 0
    ensures c.elapsed == 0.0 && c.frameTime == 1.0 / 10.0
    ensures !c.playing && c.loop && !c.finished
  {
    Clip(0, 0, 0, 0, 0.0, 1.0 / 10.0, false, true, false)
  }

  /**
   * `loadSpriteSheet`: when the image loads, the frame geometry is replaced
   * and the clip rewinds; playing, looping and the frame rate are kept.
   * When the image does not load nothing changes.
   */
  function Load(c: Clip, loaded: bool, frameWidth: int, frameHeight: int, frameCount: int): (r: Clip)
    ensures !loaded ==> r == c
    ensures loaded ==> r.frameWidth == frameWidth && r.frameHeight == frameHeight && r.frameCount == frameCount
    ensures loaded ==> r.currentFrame == 0 && r.elapsed == 0.0 && !r.finished
    ensures r.playing == c.playing && r.loop == c.loop && r.frameTime == c.frameTime
  {
    if !loaded then c
    else c.(frameWidth := frameWidth, frameHeight := frameHeight, frameCount := frameCount,
            currentFrame := 0, elapsed := 0.0, finished := false)
  }

  /** Whether an `update(dt)` of this clip moves to another frame. */
  predicate Ticks(c: Clip, dt: real) {
    c.playing && !c.finished && c.elapsed + dt >= c.frameTime
  }

  /**
   * `update(dt)`: a stopped or finished clip is left alone; otherwise time
   * accumulates and, once a whole frame time has passed, the index moves on
   * by one, wrapping to 0 when looping or sticking on the last frame and
   * finishing otherwise.
   */
  function Advance(c: Clip, dt: real): (r: Clip)
    ensures !c.playing || c.finished ==> r == c
    ensures r.frameWidth == c.frameWidth && r.frameHeight == c.frameHeight
    ensures r.frameCount == c.frameCount && r.frameTime == c.frameTime && r.loop == c.loop
  {
    if !c.playing || c.finished then c
    else
      var e := c.elapsed + dt;
      if e < c.frameTime then c.(elapsed := e)
      else if c.currentFrame + 1 < c.frameCount then
        c.(elapsed := e - c.frameTime, currentFrame := c.currentFrame + 1)
      else if c.loop then
        c.(elapsed := e - c.frameTime, currentFrame := 0)
      else
        c.(elapsed := e - c.frameTime, currentFrame := c.frameCount - 1, finished := true, playing := false)
  }

  /** `play`: starts the clip and clears a previous finish; the index is kept. */
  function Played(c: Clip): (r: Clip)
    ensures r.playing && !r.finished
    ensures r.(playing := c.playing, finished := c.finished) == c
  {
    c.(playing := true, finished := false)
  }

  /** `pause`: only stops the clock. */
  function Paused(c: Clip): (r: Clip)
    ensures !r.playing && r.(playing := c.playing) == c
  {
    c.(playing := false)
  }

  /** `reset`: back to the first frame with no time accumulated; playing is kept. */
  function Rewound(c: Clip): (r: Clip)
    ensures r.currentFrame == 0 && r.elapsed == 0.0 && !r.finished
    ensures r.playing == c.playing
    ensures r.(currentFrame := c.currentFrame, elapsed := c.elapsed, finished := c.finished) == c
  {
    c.(currentFrame := 0, elapsed := 0.0, finished := false)
  }

  /** `setFrameRate(fps)`: a frame lasts `1 / fps` seconds. */
  function WithFrameRate(c: Clip, fps: real): (r: Clip)
    requires fps != 0.0
    ensures r.frameTime * fps == 1.0 && r.(frameTime := c.frameTime) == c
  {
    c.(frameTime := 1.0 / fps)
  }

  /** `getCurrentFrame`: the rectangle of the current frame in the sheet. */
  function FrameRect(c: Clip): IntRect {
    IntRect(c.currentFrame * c.frameWidth, 0, c.frameWidth, c.frameHeight)
  }

  /** The index of a clip with at least one frame is a valid frame. */
  predicate InRange(c: Clip) {
    0 <= c.currentFrame < c.frameCount
  }

  /** The clip's state after a sequence of `update` calls. */
  function Run(c: Clip, dts: seq<real>): Clip
    decreases |dts|
  {
    if dts == [] then c else Run(Advance(c, dts[0]), dts[1..])
  }

  /** How many of those `update` calls moved the clip to another frame. */
  function TickCount(c: Clip, dts: seq<real>): nat
    decreases |dts|
  {
    if dts == [] then 0
    else (if Ticks(c, dts[0]) then 1 else 0) + TickCount(Advance(c, dts[0]), dts[1..])
  }

  // ---------------------------------------------------------------------
  // Properties of a single update
  // ---------------------------------------------------------------------

  /**
   * One update moves the index by at most one frame, however large `dt` is:
   * it stays, moves to the next frame, or wraps to 0 from the last frame of
   * a looping clip.  Any time beyond one frame is carried over.
   */
  lemma AdvanceAtMostOneFrame(c: Clip, dt: real)
    requires InRange(c)
    ensures var r := Advance(c, dt);
      if !Ticks(c, dt) then r.currentFrame == c.currentFrame
      else
        r.elapsed == c.elapsed + dt - c.frameTime &&
        (r.currentFrame == c.currentFrame + 1 ||
         (r.currentFrame == 0 && c.loop && c.currentFrame == c.frameCount - 1) ||
         (r.currentFrame == c.currentFrame == c.frameCount - 1 && !c.loop))
  {
  }

  /** Every update keeps a valid index valid, whether or not the clip loops. */
  lemma AdvanceInRange(c: Clip, dt: real)
    requires InRange(c)
    ensures InRange(Advance(c, dt))
  {
  }

  /** A looping clip never finishes. */
  lemma LoopingNeverFinishes(c: Clip, dt: real)
    requires c.loop && !c.finished
    ensures !Advance(c, dt).finished
  {
  }

  /**
   * A non-looping clip that ticks past its last frame stays on the last
   * frame, finishes and stops playing.
   */
  lemma NonLoopingFinishes(c: Clip, dt: real)
    requires !c.loop && Ticks(c, dt) && c.currentFrame + 1 >= c.frameCount
    ensures Advance(c, dt).currentFrame == c.frameCount - 1
    ensures Advance(c, dt).finished && !Advance(c, dt).playing
  {
  }

  /** Rewinding then playing always restarts a clip from its first frame. */
  lemma RestartFromFirstFrame(c: Clip)
    ensures var r := Played(Rewound(c));
      r.currentFrame == 0 && r.elapsed == 0.0 && r.playing && !r.finished
  {
  }

  /** Pausing, unlike rewinding, keeps the frame and the accumulated time. */
  lemma PauseKeepsPosition(c: Clip, dt: real)
    ensures Advance(Paused(c), dt) == Paused(c)
    ensures Paused(c).currentFrame == c.currentFrame && Paused(c).elapsed == c.elapsed
  {
  }

  // ---------------------------------------------------------------------
  // Properties of a run of updates
  // ---------------------------------------------------------------------

  /** A stopped or finished clip stays exactly as it is under any number of updates. */
  lemma {:induction false} StoppedStays(c: Clip, dts: seq<real>)
    requires !c.playing || c.finished
    ensures Run(c, dts) == c && TickCount(c, dts) == 0
    decreases |dts|
  {
    if dts != [] {
      StoppedStays(Advance(c, dts[0]), dts[1..]);
    }
  }

  /** Once finished, a clip stays finished until it is played again. */
  lemma {:induction false} FinishedIsSticky(c: Clip, dts: seq<real>)
    requires c.finished
    ensures Run(c, dts).finished && Run(c, dts).currentFrame == c.currentFrame
  {
    StoppedStays(c, dts);
  }

  /** The index stays valid under any sequence of updates. */
  lemma {:induction false} RunInRange(c: Clip, dts: seq<real>)
    requires InRange(c)
    ensures InRange(Run(c, dts))
    decreases |dts|
  {
    if dts != [] {
      AdvanceInRange(c, dts[0]);
      RunInRange(Advance(c, dts[0]), dts[1..]);
    }
  }

  /**
   * A looping clip that is playing shows frame `(start + ticks) mod
   * frameCount` after any run of updates: it cycles through the strip one
   * frame per tick and never stops.
   */
  lemma {:induction false} LoopingCycles(c: Clip, dts: seq<real>)
    requires c.loop && c.playing && !c.finished && InRange(c)
    ensures Run(c, dts).currentFrame == (c.currentFrame + TickCount(c, dts)) % c.frameCount
    ensures Run(c, dts).playing && !Run(c, dts).finished
    decreases |dts|
  {
    if dts != [] {
      var d := Advance(c, dts[0]);
      LoopingCycles(d, dts[1..]);
      var n, k := c.frameCount, TickCount(d, dts[1..]);
      AdvanceInRange(c, dts[0]);
      if Ticks(c, dts[0]) && c.currentFrame + 1 == n {
        ModPlusN(k, n);
      }
    }
  }

  lemma MulAtLeast(e: int, n: int)
    requires e >= 1 && n > 0
    ensures e * n >= n
  {
    var i := 1;
    while i < e
      invariant 1 <= i <= e && i * n >= n
    {
      assert (i + 1) * n == i * n + n;
      i := i + 1;
    }
  }

  lemma DivModUnique(y: int, d: int, r: int, n: int)
    requires n > 0 && 0 <= r < n && y == d * n + r
    ensures y % n == r
  {
    var q := y / n;
    assert y == q * n + y % n;
    if d > q {
      assert (d - q) * n == d * n - q * n;
      MulAtLeast(d - q, n);
      assert false;
    } else if d < q {
      assert (q - d) * n == q * n - d * n;
      MulAtLeast(q - d, n);
      assert false;
    }
  }

  /** Adding one whole cycle does not change the frame reached. */
  lemma ModPlusN(k: int, n: int)
    requires n > 0
    ensures (n + k) % n == k % n
  {
    var q := k / n;
    assert k == q * n + k % n;
    assert n + k == (q + 1) * n + k % n;
    DivModUnique(n + k, q + 1, k % n, n);
  }
  /** A run of `k` updates moves a clip by at most `k` frames, since each update ticks at most once. */
  lemma {:induction false} TickCountBounded(c: Clip, dts: seq<real>)
    ensures TickCount(c, dts) <= |dts|
    decreases |dts|
  {
    if dts != [] {
      TickCountBounded(Advance(c, dts[0]), dts[1..]);
    }
  }

  // ---------------------------------------------------------------------
  // Frame rectangles
  // ---------------------------------------------------------------------

  /**
   * The rectangle of a valid frame lies within the strip of `frameCount`
   * frames, at the top, and has the frame's size.
   */
  lemma FrameInSheet(c: Clip)
    requires InRange(c) && c.frameWidth >= 0
    ensures var r := FrameRect(c);
      0 <= r.x && r.x + r.w <= c.frameCount * c.frameWidth && r.y == 0 &&
      r.w == c.frameWidth && r.h == c.frameHeight
  {
    var i, w, n := c.currentFrame, c.frameWidth, c.frameCount;
    assert i * w + w == (i + 1) * w;
    MulMonotone(i + 1, n, w);
    MulMonotone(0, i, w);
  }

  lemma MulMonotone(a: int, b: int, w: int)
    requires a <= b && w >= 0
    ensures a * w <= b * w
  {
    assert b * w - a * w == (b - a) * w;
  }

  /** Two different frames of one strip never overlap. */
  lemma FramesDisjoint(c: Clip, i: int, j: int)
    requires c.frameWidth > 0 && i < j
    ensures FrameRect(c.(currentFrame := i)).x + c.frameWidth <= FrameRect(c.(currentFrame := j)).x
  {
    MulMonotone(i + 1, j, c.frameWidth);
    assert (i + 1) * c.frameWidth == i * c.frameWidth + c.frameWidth;
  }

  /** `AnimatedSprite`: the frame clock updated in place. */
  class AnimatedSprite {
    var frameWidth: int
    var frameHeight: int
    var frameCount: int
    var currentFrame: int
    var elapsed: real
    var frameTime: real
    var playing: bool
    var loop: bool
    var finished: bool

    /** The sprite's state as a `Clip` value. */
    function Value(): Clip
      reads this
    {
      Clip(frameWidth, frameHeight, frameCount, currentFrame, elapsed, frameTime, playing, loop, finished)
    }

    constructor()
      ensures Value() == NewClip()
    {
      frameWidth, frameHeight, frameCount, currentFrame := 0, 0, 0, 0;
      elapsed, frameTime := 0.0, 1.0 / 10.0;
      playing, loop, finished := false, true, false;
    }

    /** Puts a whole clip value into the fields. */
    method Set(c: Clip)
      modifies this
      ensures Value() == c
    {
      frameWidth, frameHeight, frameCount, currentFrame := c.frameWidth, c.frameHeight, c.frameCount, c.currentFrame;
      elapsed, frameTime := c.elapsed, c.frameTime;
      playing, loop, finished := c.playing, c.loop, c.finished;
    }

    method LoadSpriteSheet(imageLoaded: bool, w: int, h: int, n: int) returns (ok: bool)
      modifies this
      ensures ok == imageLoaded && Value() == Load(old(Value()), imageLoaded, w, h, n)
    {
      if !imageLoaded {
        return false;
      }
      frameWidth, frameHeight, frameCount := w, h, n;
      currentFrame := 0;
      elapsed := 0.0;
      finished := false;
      return true;
    }

    method Update(dt: real)
      modifies this
      ensures Value() == Advance(old(Value()), dt)
    {
      if !playing || finished {
        return;
      }
      elapsed := elapsed + dt;
      if elapsed >= frameTime {
        elapsed := elapsed - frameTime;
        currentFrame := currentFrame + 1;
        if currentFrame >= frameCount {
          if loop {
            currentFrame := 0;
          } else {
            currentFrame := frameCount - 1;
            finished := true;
            playing := false;
          }
        }
      }
    }

    method GetCurrentFrame() returns (r: IntRect)
      ensures r == FrameRect(Value())
      ensures InRange(Value()) && frameWidth >= 0 ==> 0 <= r.x && r.x + r.w <= frameCount * frameWidth
    {
      r := IntRect(currentFrame * frameWidth, 0, frameWidth, frameHeight);
      if InRange(Value()) && frameWidth >= 0 {
        FrameInSheet(Value());
      }
    }

    method Play()
      modifies this
      ensures Value() == Played(old(Value()))
    {
      playing := true;
      finished := false;
    }

    method Pause()
      modifies this
      ensures Value() == Paused(old(Value()))
    {
      playing := false;
    }

    method Reset()
      modifies this
      ensures Value() == Rewound(old(Value()))
    {
      currentFrame := 0;
      elapsed := 0.0;
      finished := false;
    }

    method SetLoop(b: bool)
      modifies this
      ensures Value() == old(Value()).(loop := b)
    {
      loop := b;
    }

    method SetFrameRate(fps: real)
      requires fps != 0.0
      modifies this
      ensures Value() == WithFrameRate(old(Value()), fps)
    {
      frameTime := 1.0 / fps;
    }
  }
}
