/** The frame counter of `AnimatedSprite` (`animated_sprite.py`): a timer that flips to
    the next frame, cyclically, once a frame's duration has passed. Only the geometry of
    the frames cut from the sheet is kept; the pixels are not part of this model. */
module Sprites {
  import opened Numbers
  import opened Geometry

  /** Whether the frames run down (`'vertical'`) or across (any other layout) the sheet. */
  datatype Layout = Vertical | Horizontal

  /** A frame: the part of the sheet it is copied from. */
  datatype Frame = Frame(source: Rect)

  /** The sheet area of frame i. */
  function FrameAt(i: int, frameWidth: int, frameHeight: int, layout: Layout): (f: Frame)
    ensures f.source.width == frameWidth as real && f.source.height == frameHeight as real
    ensures layout == Vertical ==> f.source.left == 0.0 && f.source.top == (i * frameHeight) as real
    ensures layout == Horizontal ==> f.source.top == 0.0 && f.source.left == (i * frameWidth) as real
  {
    match layout
    case Vertical => Frame(Rect(0.0, (i * frameHeight) as real, frameWidth as real, frameHeight as real))
    case Horizontal => Frame(Rect((i * frameWidth) as real, 0.0, frameWidth as real, frameHeight as real))
  }

  /** One `update(dt)` of the counter: the new (frame, timer). */
  function Advance(frame: int, timer: real, dt: real, duration: real, numFrames: int): (r: (int, real))
    requires numFrames >= 1
    ensures timer + dt >= duration ==> r == ((frame + 1) % numFrames, 0.0)
    ensures timer + dt < duration ==> r == (frame, timer + dt)
    ensures 0 <= frame < numFrames ==> 0 <= r.0 < numFrames
  {
    if timer + dt >= duration then ((frame + 1) % numFrames, 0.0) else (frame, timer + dt)
  }

  /** The counter after `update(dt)` for each dt in `dts`, and how many of them advanced it. */
  function AdvanceAll(frame: int, timer: real, dts: seq<real>, duration: real, numFrames: int): (int, real, nat)
    requires numFrames >= 1
  {
    if |dts| == 0 then (frame, timer, 0)
    else
      var (f, t, k) := AdvanceAll(frame, timer, dts[..|dts| - 1], duration, numFrames);
      var dt := dts[|dts| - 1];
      var (f', t') := Advance(f, t, dt, duration, numFrames);
      (f', t', k + if t + dt >= duration then 1 else 0)
  }

  /** Over any run of updates the frame is the start frame moved on by the number of
      advances, cyclically, at most one per update, and it stays in range. */
  lemma {:induction false} AdvanceAllCycles(frame: int, timer: real, dts: seq<real>, duration: real, numFrames: int)
    requires numFrames >= 1 && 0 <= frame < numFrames
    ensures var (f, _, k) := AdvanceAll(frame, timer, dts, duration, numFrames);
            0 <= f < numFrames && f == (frame + k) % numFrames && k <= |dts|
  {
    if |dts| > 0 {
      var (f, t, k) := AdvanceAll(frame, timer, dts[..|dts| - 1], duration, numFrames);
      AdvanceAllCycles(frame, timer, dts[..|dts| - 1], duration, numFrames);
      var dt := dts[|dts| - 1];
      if t + dt >= duration {
        ModSucc(frame + k, numFrames);
      }
    }
  }

  class AnimatedSprite {
    const frameWidth: int
    const frameHeight: int
    const numFrames: int
    const fps: real
    const layout: Layout
    const frameDuration: real

    var currentFrame: int
    var animationTimer: real
    var frames: seq<Frame>

    /** The counter is always a valid index into the frames cut from the sheet. */
    ghost predicate Valid()
      reads this
    {
      numFrames >= 1 && 0 <= currentFrame < numFrames && |frames| == numFrames
    }

    constructor(frameWidth: int, frameHeight: int, numFrames: int, fps: real, layout: Layout)
      requires fps != 0.0
      ensures this.frameWidth == frameWidth && this.frameHeight == frameHeight
      ensures this.numFrames == numFrames && this.fps == fps && this.layout == layout
      ensures currentFrame == 0 && animationTimer == 0.0
      ensures frameDuration * fps == 1.0
      ensures numFrames >= 1 ==> Valid()
      ensures |frames| == if numFrames < 0 then 0 else numFrames
    {
      this.frameWidth := frameWidth;
      this.frameHeight := frameHeight;
      this.numFrames := numFrames;
      this.fps := fps;
      this.layout := layout;
      currentFrame := 0;
      animationTimer := 0.0;
      frameDuration := 1.0 / fps;
      new;
      frames := LoadFrames();
    }

    /** `load_frames`: one frame per index, cut according to the layout. */
    method LoadFrames() returns (result: seq<Frame>)
      ensures |result| == if numFrames < 0 then 0 else numFrames
      ensures forall i :: 0 <= i < |result| ==> result[i] == FrameAt(i, frameWidth, frameHeight, layout)
    {
      result := [];
      var i := 0;
      while i < numFrames
        invariant 0 <= i && (numFrames >= 0 ==> i <= numFrames) && (numFrames < 0 ==> i == 0)
        invariant |result| == i
        invariant forall j :: 0 <= j < i ==> result[j] == FrameAt(j, frameWidth, frameHeight, layout)
      {
        result := result + [FrameAt(i, frameWidth, frameHeight, layout)];
        i := i + 1;
      }
    }

    method Update(dt: real)
      requires Valid()
      modifies this`currentFrame, this`animationTimer
      ensures Valid()
      ensures (currentFrame, animationTimer)
           == Advance(old(currentFrame), old(animationTimer), dt, frameDuration, numFrames)
    {
      animationTimer := animationTimer + dt;
      if animationTimer >= frameDuration {
        animationTimer := 0.0;
        currentFrame := (currentFrame + 1) % numFrames;
      }
    }

    /** `get_current_frame`: always in range, and the frame cut for the current index. */
    method GetCurrentFrame() returns (f: Frame)
      requires Valid()
      ensures f == frames[currentFrame]
    {
      f := frames[currentFrame];
    }

    method Reset()
      requires Valid()
      modifies this`currentFrame, this`animationTimer
      ensures Valid()
      ensures currentFrame == 0 && animationTimer == 0.0
    {
      currentFrame := 0;
      animationTimer := 0.0;
    }
  }
}
