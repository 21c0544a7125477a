/**
 * The `sprite` base class of js/classes.js: a frame-cycling animation over a
 * sprite sheet, and the switch between the named animation states of a bank.
 * Drawing is not modelled; what remains is the animation state.
 */
module Sprites {
  import opened Common

  /** Frame hold counts are positive: 3 for a plain sprite, 5 for a fighter. */
  type Positive = n: int | n > 0 witness 1

  /**
   * A named animation state of a sprite bank. Only the two fields the code
   * reads are kept; a missing `framesMax` (undefined) is written 0, which
   * both the truthiness test of switchSprite and the comparison of
   * animateFrames treat the same way as undefined.
   */
  datatype SpriteDesc = SpriteDesc(image: Option<ImageRef>, framesMax: int)

  /** The `sprites` field: absent, or a table from state name to descriptor. */
  type Bank = Option<map<string, SpriteDesc>>

  /** The animation state of one sprite object. */
  datatype Frames = Frames(
    image: Option<ImageRef>,
    framesMax: int,
    framesCurrent: nat,
    framesElapsed: nat,
    framesHold: Positive)

  /** The next animateFrames call moves the frame: its new elapsed count is a multiple of the hold. */
  predicate StepsFrame(f: Frames) {
    (f.framesElapsed + 1) % f.framesHold == 0
  }

  /** One animateFrames call (classes.js:46-56). */
  function Animated(f: Frames): (r: Frames)
    ensures r.framesElapsed == f.framesElapsed + 1
    ensures !StepsFrame(f) ==> r.framesCurrent == f.framesCurrent
    ensures StepsFrame(f) && f.framesCurrent + 1 < f.framesMax ==> r.framesCurrent == f.framesCurrent + 1
    ensures StepsFrame(f) && f.framesCurrent + 1 >= f.framesMax ==> r.framesCurrent == 0
    ensures f.framesCurrent < f.framesMax ==> r.framesCurrent < f.framesMax
    ensures r == f.(framesCurrent := r.framesCurrent, framesElapsed := r.framesElapsed)
  {
    var elapsed := f.framesElapsed + 1;
    var current :=
      if elapsed % f.framesHold != 0 then f.framesCurrent
      else if f.framesCurrent < f.framesMax - 1 then f.framesCurrent + 1
      else 0;
    f.(framesCurrent := current, framesElapsed := elapsed)
  }

  /** `n` consecutive animateFrames calls. */
  function AnimatedFor(f: Frames, n: nat): Frames {
    if n == 0 then f else Animated(AnimatedFor(f, n - 1))
  }

  /** How many of the elapsed counts `elapsed + 1 .. elapsed + n` are multiples of `hold`. */
  function FrameSteps(elapsed: nat, n: nat, hold: Positive): nat {
    if n == 0 then 0
    else FrameSteps(elapsed, n - 1, hold) + (if (elapsed + n) % hold == 0 then 1 else 0)
  }

  /** Euclidean division is determined by any quotient/remainder pair with the remainder in range. */
  lemma DivModOf(x: int, q: int, r: int, m: int)
    requires m >= 1 && 0 <= r < m && x == q * m + r
    ensures x / m == q && x % m == r
  {
    var q', r' := x / m, x % m;
    assert q * m + r == q' * m + r';
    if q > q' {
      AtLeastOnce(q - q', m);
    } else if q < q' {
      AtLeastOnce(q' - q, m);
    }
  }

  lemma AtLeastOnce(a: int, m: int)
    requires a >= 1 && m >= 1
    ensures a * m >= m
  {
    assert a * m == (a - 1) * m + m;
  }

  /** Stepping a frame index kept modulo `m` is the same as stepping the count and then reducing. */
  lemma WrapStep(k: nat, m: int)
    requires m >= 1
    ensures (if k % m + 1 < m then k % m + 1 else 0) == (k + 1) % m
    ensures (k + 1) / m == k / m + (if (k + 1) % m == 0 then 1 else 0)
  {
    var q, r := k / m, k % m;
    if r + 1 < m {
      DivModOf(k + 1, q, r + 1, m);
    } else {
      DivModOf(k + 1, q + 1, 0, m);
    }
  }

  /**
   * The animation loops: started on a frame in range, after `n` calls the
   * frame is the start frame advanced once per multiple of the hold count
   * reached, taken modulo `framesMax`; nothing but the two counters moves.
   */
  lemma {:induction false} AnimationLoops(f: Frames, n: nat)
    requires f.framesCurrent < f.framesMax
    ensures AnimatedFor(f, n) == f.(
      framesCurrent := (f.framesCurrent + FrameSteps(f.framesElapsed, n, f.framesHold)) % f.framesMax,
      framesElapsed := f.framesElapsed + n)
  {
    if n == 0 {
      DivModOf(f.framesCurrent, 0, f.framesCurrent, f.framesMax);
    } else {
      AnimationLoops(f, n - 1);
      WrapStep(f.framesCurrent + FrameSteps(f.framesElapsed, n - 1, f.framesHold), f.framesMax);
    }
  }

  /** The number of frame steps in a window is the number of hold boundaries it crosses. */
  lemma {:induction false} FrameStepsCount(elapsed: nat, n: nat, hold: Positive)
    ensures FrameSteps(elapsed, n, hold) == (elapsed + n) / hold - elapsed / hold
  {
    if n > 0 {
      FrameStepsCount(elapsed, n - 1, hold);
      WrapStep(elapsed + n - 1, hold);
    }
  }

  /** A sprite started at frame 0 with no elapsed ticks shows frame `(n / hold) % framesMax` after `n` ticks. */
  lemma FreshAnimation(f: Frames, n: nat)
    requires f.framesCurrent == 0 && f.framesElapsed == 0 && f.framesMax >= 1
    ensures AnimatedFor(f, n).framesCurrent == (n / f.framesHold) % f.framesMax
  {
    AnimationLoops(f, n);
    FrameStepsCount(0, n, f.framesHold);
    DivModOf(0, 0, 0, f.framesHold);
  }

  /** switchSprite(state) (classes.js:63-69). */
  function Switched(f: Frames, bank: Bank, state: string): (r: Frames)
    ensures bank.None? || state !in bank.value ==> r == f
    ensures bank.Some? && state in bank.value ==>
      r == f.(image := r.image, framesMax := r.framesMax, framesCurrent := 0)
    ensures bank.Some? && state in bank.value ==>
      r.image == (if bank.value[state].image.Some? then bank.value[state].image else f.image)
    ensures bank.Some? && state in bank.value ==>
      r.framesMax == (if bank.value[state].framesMax != 0 then bank.value[state].framesMax else f.framesMax)
  {
    if bank.None? || state !in bank.value then f
    else
      var s := bank.value[state];
      f.(image := if s.image.Some? then s.image else f.image,
         framesMax := if s.framesMax != 0 then s.framesMax else f.framesMax,
         framesCurrent := 0)
  }

  /** Switching to the state already switched to changes nothing more. */
  lemma SwitchIdempotent(f: Frames, bank: Bank, state: string)
    ensures Switched(Switched(f, bank, state), bank, state) == Switched(f, bank, state)
  {
  }

  /** The sprite object: its animation fields and its bank of named states. */
  class Sprite {
    var image: Option<ImageRef>
    var framesMax: int
    var framesCurrent: nat
    var framesElapsed: nat
    var framesHold: Positive
    /** Named animation states; a plain sprite has none. */
    var sprites: Bank

    /** The animation state as a value. */
    function Animation(): Frames
      reads this
    {
      Frames(image, framesMax, framesCurrent, framesElapsed, framesHold)
    }

    /** A path source leaves the image unset until setImage; an image object is used at once. */
    constructor (imageSrc: ImageSource, framesMax: int)
      ensures Animation() == Frames(if imageSrc.Handle? then Some(imageSrc.image) else None, framesMax, 0, 0, 3)
      ensures sprites == None
    {
      image := if imageSrc.Handle? then Some(imageSrc.image) else None;
      this.framesMax := framesMax;
      framesCurrent := 0;
      framesElapsed := 0;
      framesHold := 3;
      sprites := None;
    }

    method SetImage(img: Option<ImageRef>)
      modifies this`image
      ensures image == img
    {
      image := img;
    }

    method AnimateFrames()
      modifies this`framesElapsed, this`framesCurrent
      ensures Animation() == Animated(old(Animation()))
    {
      framesElapsed := framesElapsed + 1;
      if framesElapsed % framesHold == 0 {
        if framesCurrent < framesMax - 1 {
          framesCurrent := framesCurrent + 1;
        } else {
          framesCurrent := 0;
        }
      }
    }

    method SwitchSprite(state: string)
      modifies this`image, this`framesMax, this`framesCurrent
      ensures Animation() == Switched(old(Animation()), sprites, state)
    {
      if sprites.None? || state !in sprites.value {
        return;
      }
      var s := sprites.value[state];
      if s.image.Some? {
        image := s.image;
      }
      if s.framesMax != 0 {
        framesMax := s.framesMax;
      }
      framesCurrent := 0;
    }
  }
}
