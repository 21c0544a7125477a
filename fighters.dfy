/**
 * The `Fighter` class of js/classes.js: a sprite with a body that moves under
 * gravity, faces the way it moves, carries an attack box on its facing side
 * and holds the attack and hit flags. The fighter owns its animation as a
 * `Sprite` object instead of inheriting from it.
 */
module Fighters {
  import opened Common
  import opened Stage
  import opened Sprites

  datatype Facing = Left | Right

  /** The melee reach: a rectangle placed beside the body each frame. */
  datatype AttackBox = AttackBox(position: Vec2, offset: Vec2, width: real, height: real)

  const Width: real := 50.0
  const Height: real := 150.0
  const AttackWidth: real := 100.0
  const AttackHeight: real := 50.0
  const StartHealth: int := 100

  /** A fighter holds each animation frame for 5 ticks (a plain sprite for 3). */
  const FighterHold: Positive := 5

  /** Everything the simulation reads or writes of one fighter. */
  datatype FighterState = FighterState(
    frames: Frames,
    sprites: Bank,
    position: Vec2,
    velocity: Vec2,
    facing: Facing,
    lastKey: string,
    attackBox: AttackBox,
    isAttacking: bool,
    isHit: bool,
    health: int)

  /** The two move keys that mean "left": the player's `a` and the enemy's `ArrowLeft`. */
  predicate IsLeftKey(key: string) {
    key == "a" || key == "ArrowLeft"
  }

  /** Facing from the horizontal velocity, falling back to the last move key (classes.js:122-124). */
  function FacingFor(vx: real, lastKey: string, facing: Facing): (r: Facing)
    ensures vx > 0.0 ==> r == Right
    ensures vx < 0.0 ==> r == Left
    ensures vx == 0.0 && lastKey != "" ==> (r == Left <==> IsLeftKey(lastKey))
    ensures vx == 0.0 && lastKey == "" ==> r == facing
  {
    if vx > 0.0 then Right
    else if vx < 0.0 then Left
    else if lastKey != "" then (if IsLeftKey(lastKey) then Left else Right)
    else facing
  }

  function Abs(x: real): (r: real)
    ensures r >= 0.0 && (r == x || r == -x)
  {
    if x < 0.0 then -x else x
  }

  /**
   * The attack box beside a body at `position` (classes.js:127-133): it
   * starts `|offset.x|` to the right of the body's x when facing right, and
   * ends `|offset.x|` to the left of it when facing left.
   */
  function PlacedBox(box: AttackBox, position: Vec2, facing: Facing): (r: AttackBox)
    ensures r == box.(position := r.position)
    ensures r.position.y == position.y
    ensures facing == Right ==> r.position.x >= position.x
    ensures facing == Left ==> r.position.x + r.width <= position.x
    ensures facing == Right ==> r.position.x - position.x == Abs(box.offset.x)
    ensures facing == Left ==> position.x - (r.position.x + r.width) == Abs(box.offset.x)
  {
    var reach := Abs(box.offset.x);
    var x := if facing == Right then position.x + reach else position.x - reach - box.width;
    box.(position := Vec2(x, position.y))
  }

  /** The two placements are mirror images of each other about the body's x. */
  lemma PlacementsMirror(box: AttackBox, position: Vec2)
    ensures PlacedBox(box, position, Right).position.x - position.x
         == position.x - (PlacedBox(box, position, Left).position.x + box.width)
  {
  }

  /** The ground test of update: the feet after this move plus one more step of the old speed reach the line. */
  predicate Grounds(yAfter: real, vy: real) {
    yAfter + Height + vy >= GroundLine
  }

  /**
   * The vertical invariant of a fighter: its speed is never faster upwards
   * than a jump, and one more move at its speed leaves the feet less than one
   * gravity step below the ground line.
   */
  predicate FeetBound(s: FighterState) {
    s.velocity.y >= JumpVelocity && s.position.y + Height + s.velocity.y < GroundLine + Gravity
  }

  /** Fighter.update minus drawing (classes.js:117-142). */
  function Updated(s: FighterState): (r: FighterState)
    ensures r.frames == Animated(s.frames)
    ensures r.facing == FacingFor(s.velocity.x, s.lastKey, s.facing)
    ensures r.attackBox == PlacedBox(s.attackBox, s.position, r.facing)
    ensures r.position == Vec2(s.position.x + s.velocity.x, s.position.y + s.velocity.y)
    ensures r.velocity.x == s.velocity.x
    ensures Grounds(r.position.y, s.velocity.y) ==> r.velocity.y == 0.0
    ensures !Grounds(r.position.y, s.velocity.y) ==> r.velocity.y == s.velocity.y + Gravity
    ensures FeetBound(s) ==> FeetBound(r) && r.position.y + Height < GroundLine + Gravity
    ensures r == s.(frames := r.frames, facing := r.facing, attackBox := r.attackBox,
                    position := r.position, velocity := r.velocity)
  {
    var facing := FacingFor(s.velocity.x, s.lastKey, s.facing);
    var position := Vec2(s.position.x + s.velocity.x, s.position.y + s.velocity.y);
    var vy := if Grounds(position.y, s.velocity.y) then 0.0 else s.velocity.y + Gravity;
    s.(frames := Animated(s.frames),
       facing := facing,
       attackBox := PlacedBox(s.attackBox, s.position, facing),
       position := position,
       velocity := Vec2(s.velocity.x, vy))
  }

  /** `n` consecutive updates with no input in between. */
  function UpdatedFor(s: FighterState, n: nat): FighterState {
    if n == 0 then s else Updated(UpdatedFor(s, n - 1))
  }

  /** Left alone, a fighter never sinks a gravity step below the ground line, however long it falls. */
  lemma {:induction false} FeetNeverSink(s: FighterState, n: nat)
    requires FeetBound(s)
    ensures FeetBound(UpdatedFor(s, n))
    ensures n > 0 ==> UpdatedFor(s, n).position.y + Height < GroundLine + Gravity
  {
    if n > 0 {
      FeetNeverSink(s, n - 1);
    }
  }

  /** A fighter standing still on or below the ground line stays where it is. */
  lemma {:induction false} RestingStaysPut(s: FighterState, n: nat)
    requires s.velocity == Vec2(0.0, 0.0) && s.position.y + Height >= GroundLine
    ensures UpdatedFor(s, n).position == s.position && UpdatedFor(s, n).velocity == s.velocity
  {
    if n > 0 {
      RestingStaysPut(s, n - 1);
    }
  }

  predicate HasAttackSprite(s: FighterState) {
    s.sprites.Some? && "attack" in s.sprites.value
  }

  /** attack() without its timer (classes.js:206-211). */
  function AttackBegun(s: FighterState): (r: FighterState)
    ensures r.isAttacking
    ensures HasAttackSprite(s) ==> r.frames == Switched(s.frames, s.sprites, "attack")
    ensures !HasAttackSprite(s) ==> r.frames == s.frames
    ensures r == s.(isAttacking := true, frames := r.frames)
  {
    s.(isAttacking := true,
       frames := if HasAttackSprite(s) then Switched(s.frames, s.sprites, "attack") else s.frames)
  }

  /** The attack timer's callback: the 300 one returns to idle, the 100 one only ends the attack (classes.js:212-219). */
  function AttackEnded(s: FighterState, withSprite: bool): (r: FighterState)
    ensures !r.isAttacking
    ensures withSprite ==> r.frames == Switched(s.frames, s.sprites, "idle")
    ensures !withSprite ==> r.frames == s.frames
    ensures r == s.(isAttacking := false, frames := r.frames)
  {
    s.(isAttacking := false,
       frames := if withSprite then Switched(s.frames, s.sprites, "idle") else s.frames)
  }

  /** The delay the attack timer is scheduled with. */
  function AttackDelay(withSprite: bool): nat {
    if withSprite then 300 else 100
  }

  /** The delay of the hit-flash timer of takeHit(). */
  const HitDelay: nat := 150

  /** The fighter object. */
  class Fighter {
    const sprite: Sprite
    var position: Vec2
    var velocity: Vec2
    var lastKey: string
    var attackBox: AttackBox
    var isAttacking: bool
    var facing: Facing
    var isHit: bool
    var health: int

    /** The fighter and its animation as a value. */
    function State(): FighterState
      reads this, sprite
    {
      FighterState(sprite.Animation(), sprite.sprites, position, velocity, facing, lastKey,
                   attackBox, isAttacking, isHit, health)
    }

    /** The attack box starts on the body; the fighter faces right with full health. */
    constructor (position: Vec2, velocity: Vec2, imageSrc: ImageSource, framesMax: int, offset: Vec2, sprites: Bank)
      ensures fresh(sprite)
      ensures State() == FighterState(
        Frames(if imageSrc.Handle? then Some(imageSrc.image) else None, framesMax, 0, 0, FighterHold),
        sprites, position, velocity, Right, "",
        AttackBox(position, offset, AttackWidth, AttackHeight), false, false, StartHealth)
    {
      sprite := new Sprite(imageSrc, framesMax);
      this.position := position;
      this.velocity := velocity;
      lastKey := "";
      attackBox := AttackBox(position, offset, AttackWidth, AttackHeight);
      isAttacking := false;
      facing := Right;
      isHit := false;
      health := StartHealth;
      new;
      sprite.framesCurrent := 0;
      sprite.framesElapsed := 0;
      sprite.framesHold := FighterHold;
      sprite.sprites := sprites;
    }

    method Update()
      modifies this, sprite
      ensures State() == Updated(old(State()))
    {
      sprite.AnimateFrames();

      if velocity.x > 0.0 {
        facing := Right;
      } else if velocity.x < 0.0 {
        facing := Left;
      } else if lastKey != "" {
        facing := if lastKey == "a" || lastKey == "ArrowLeft" then Left else Right;
      }

      var attackOffsetX := Abs(attackBox.offset.x);
      if facing == Right {
        attackBox := attackBox.(position := attackBox.position.(x := position.x + attackOffsetX));
      } else {
        attackBox := attackBox.(position := attackBox.position.(x := position.x - attackOffsetX - attackBox.width));
      }
      attackBox := attackBox.(position := attackBox.position.(y := position.y));

      position := Vec2(position.x + velocity.x, position.y + velocity.y);

      if position.y + Height + velocity.y >= GroundLine {
        velocity := velocity.(y := 0.0);
      } else {
        velocity := velocity.(y := velocity.y + Gravity);
      }
    }

    /** Starts an attack; `withSprite` tells which expiry timer the call schedules (see AttackDelay). */
    method Attack() returns (withSprite: bool)
      modifies this, sprite
      ensures withSprite == HasAttackSprite(old(State()))
      ensures State() == AttackBegun(old(State()))
    {
      isAttacking := true;
      withSprite := sprite.sprites.Some? && "attack" in sprite.sprites.value;
      if withSprite {
        sprite.SwitchSprite("attack");
      }
    }

    /** The callback of the timer an Attack call scheduled. */
    method ExpireAttack(withSprite: bool)
      modifies this, sprite
      ensures State() == AttackEnded(old(State()), withSprite)
    {
      isAttacking := false;
      if withSprite {
        sprite.SwitchSprite("idle");
      }
    }

    method TakeHit()
      modifies this
      ensures State() == old(State()).(isHit := true)
    {
      isHit := true;
    }

    /** The callback of the timer a TakeHit call scheduled. */
    method ExpireHit()
      modifies this
      ensures State() == old(State()).(isHit := false)
    {
      isHit := false;
    }
  }
}
