/**
 * The match of index.js: the background, the two fighters and the key table
 * owned at module level, the frame routine animate() (movement, hit
 * resolution, end check), the key handlers, and the pending timer callbacks
 * that attack() and takeHit() schedule.
 */
module Arena {
  import opened Common
  import opened Stage
  import opened Sprites
  import opened Fighters
  import opened Controls

  /** Health a landed hit takes away. */
  const Damage: int := 20

  datatype Side = PlayerSide | EnemySide

  function Other(side: Side): Side {
    if side == PlayerSide then EnemySide else PlayerSide
  }

  /** A scheduled setTimeout callback and the delay it was scheduled with. */
  datatype Timer =
    | AttackEnd(side: Side, withSprite: bool, delay: nat)
    | HitEnd(side: Side, delay: nat)

  /** The module-level state animate() and the handlers work on. */
  datatype MatchState = MatchState(
    background: Frames,
    player: FighterState,
    enemy: FighterState,
    keys: KeyTable,
    pending: seq<Timer>)

  /** rectangularCollision({rectangle1, rectangle2}); its definition is not part of this model. */
  type Collision = (FighterState, FighterState) -> bool

  /** A frame's new state, and whether it called the end-of-game routine. */
  datatype FrameResult = FrameResult(state: MatchState, ended: bool)

  function Of(s: MatchState, side: Side): FighterState {
    if side == PlayerSide then s.player else s.enemy
  }

  function With(s: MatchState, side: Side, f: FighterState): MatchState {
    if side == PlayerSide then s.(player := f) else s.(enemy := f)
  }

  function ControlsOf(s: MatchState): Controls {
    Controls(s.keys, s.player.lastKey, s.enemy.lastKey)
  }

  function WithControls(s: MatchState, c: Controls): MatchState {
    s.(keys := c.keys,
       player := s.player.(lastKey := c.playerLastKey),
       enemy := s.enemy.(lastKey := c.enemyLastKey))
  }

  /** animate()'s inline swap to a bank state: image and framesMax copied unchecked, frame kept. */
  function Shown(f: Frames, bank: Bank, state: string): Frames {
    if bank.Some? && state in bank.value then
      f.(image := bank.value[state].image, framesMax := bank.value[state].framesMax)
    else f
  }

  /**
   * The player after the velocity.x reset and the movement rule, which an
   * attacking player skips; a moving player shows "run", a standing one
   * "idle" (index.js:142, 146-165).
   */
  function PlayerSteered(p: FighterState, keys: KeyTable): (r: FighterState)
    ensures r.velocity == Vec2(if p.isAttacking then 0.0 else Intent(keys.a, keys.d, p.lastKey, "a", "d"), p.velocity.y)
    ensures p.isAttacking ==> r.frames == p.frames
    ensures !p.isAttacking ==> r.frames == Shown(p.frames, p.sprites, if r.velocity.x != 0.0 then "run" else "idle")
    ensures r == p.(velocity := r.velocity, frames := r.frames)
  {
    var p0 := p.(velocity := p.velocity.(x := 0.0));
    if p0.isAttacking then p0
    else
      var vx := Intent(keys.a, keys.d, p0.lastKey, "a", "d");
      p0.(velocity := p0.velocity.(x := vx),
          frames := Shown(p0.frames, p0.sprites, if vx != 0.0 then "run" else "idle"))
  }

  /** The enemy after the velocity.x reset and its movement rule, not gated by attacking (index.js:143, 168-172). */
  function EnemySteered(e: FighterState, keys: KeyTable): (r: FighterState)
    ensures r == e.(velocity := Vec2(Intent(keys.arrowLeft, keys.arrowRight, e.lastKey, "ArrowLeft", "ArrowRight"), e.velocity.y))
  {
    e.(velocity := e.velocity.(x := Intent(keys.arrowLeft, keys.arrowRight, e.lastKey, "ArrowLeft", "ArrowRight")))
  }

  /** Everything animate() does before its collision checks. */
  function Moved(s: MatchState): MatchState {
    s.(background := Animated(s.background),
       player := PlayerSteered(Updated(s.player), s.keys),
       enemy := EnemySteered(Updated(s.enemy), s.keys))
  }

  /** The attacker's box meets the defender (as the collision test decides) while the attacker is attacking. */
  predicate Lands(s: MatchState, side: Side, collides: Collision) {
    collides(Of(s, side), Of(s, Other(side))) && Of(s, side).isAttacking
  }

  /** The defender after a landed hit: 20 health less, no clamp, and takeHit()'s flag set. */
  function Struck(f: FighterState): FighterState {
    f.(health := f.health - Damage, isHit := true)
  }

  /** One hit check of animate() with `side` attacking (index.js:175-183, 185-193). */
  function Strike(s: MatchState, side: Side, collides: Collision): (r: MatchState)
    ensures Of(r, side) == Of(s, side).(isAttacking := Of(s, side).isAttacking && !Lands(s, side, collides))
    ensures Of(r, Other(side)).health == Of(s, Other(side)).health - (if Lands(s, side, collides) then Damage else 0)
    ensures Lands(s, side, collides) ==> Of(r, Other(side)).isHit
    ensures Of(r, Other(side)) == Of(s, Other(side)).(health := Of(r, Other(side)).health, isHit := Of(r, Other(side)).isHit)
    ensures r.pending == s.pending + (if Lands(s, side, collides) then [HitEnd(Other(side), HitDelay)] else [])
    ensures r.background == s.background && r.keys == s.keys
    ensures !Lands(s, side, collides) ==> r == s
  {
    if Lands(s, side, collides) then
      var hit := With(s, side, Of(s, side).(isAttacking := false));
      With(hit, Other(side), Struck(Of(s, Other(side)))).(pending := s.pending + [HitEnd(Other(side), HitDelay)])
    else s
  }

  /**
   * One call of animate() once both fighters exist (index.js:136-198): the
   * player's hit check runs first, the enemy's second on the state the first
   * left, and the end routine is called when either health is at most 0.
   */
  function Frame(s: MatchState, collides: Collision): (r: FrameResult)
    ensures r.ended <==> r.state.enemy.health <= 0 || r.state.player.health <= 0
    ensures r.state.keys == s.keys
    ensures r.state.background == Animated(s.background)
    ensures r.state.player.velocity.x == if s.player.isAttacking then 0.0 else PlayerIntent(ControlsOf(s))
    ensures r.state.enemy.velocity.x == EnemyIntent(ControlsOf(s))
    ensures r.state.player.isAttacking ==> s.player.isAttacking
    ensures r.state.enemy.isAttacking ==> s.enemy.isAttacking
    ensures r.state.enemy.health
         == s.enemy.health - (if s.player.isAttacking && !r.state.player.isAttacking then Damage else 0)
    ensures r.state.player.health
         == s.player.health - (if s.enemy.isAttacking && !r.state.enemy.isAttacking then Damage else 0)
    ensures s.player.isAttacking && !r.state.player.isAttacking <==> Lands(Moved(s), PlayerSide, collides)
    ensures s.enemy.isAttacking && !r.state.enemy.isAttacking
        <==> Lands(Strike(Moved(s), PlayerSide, collides), EnemySide, collides)
    ensures r.state.player.isHit == (s.player.isHit || (s.enemy.isAttacking && !r.state.enemy.isAttacking))
    ensures r.state.enemy.isHit == (s.enemy.isHit || (s.player.isAttacking && !r.state.player.isAttacking))
    ensures r.state.pending
         == s.pending
          + (if s.player.isAttacking && !r.state.player.isAttacking then [HitEnd(EnemySide, HitDelay)] else [])
          + (if s.enemy.isAttacking && !r.state.enemy.isAttacking then [HitEnd(PlayerSide, HitDelay)] else [])
    ensures r.state.player.velocity.y == Updated(s.player).velocity.y
    ensures r.state.enemy.velocity.y == Updated(s.enemy).velocity.y
    ensures s.player.isAttacking ==> r.state.player.frames == Animated(s.player.frames)
    ensures !s.player.isAttacking ==>
      r.state.player.frames
      == Shown(Animated(s.player.frames), s.player.sprites, if r.state.player.velocity.x != 0.0 then "run" else "idle")
    ensures r.state.player == Updated(s.player).(frames := r.state.player.frames, velocity := r.state.player.velocity,
           isAttacking := r.state.player.isAttacking, isHit := r.state.player.isHit, health := r.state.player.health)
    ensures r.state.enemy == Updated(s.enemy).(velocity := r.state.enemy.velocity,
           isAttacking := r.state.enemy.isAttacking, isHit := r.state.enemy.isHit, health := r.state.enemy.health)
  {
    var moved := Moved(s);
    var afterPlayer := Strike(moved, PlayerSide, collides);
    var afterEnemy := Strike(afterPlayer, EnemySide, collides);
    FrameResult(afterEnemy, afterEnemy.enemy.health <= 0 || afterEnemy.player.health <= 0)
  }

  /** Both attacks can land in the same frame: with both attacking and always colliding, both lose 20. */
  lemma BothHitsInOneFrame(s: MatchState, collides: Collision)
    requires s.player.isAttacking && s.enemy.isAttacking
    requires forall a, b :: collides(a, b)
    ensures Frame(s, collides).state.enemy.health == s.enemy.health - Damage
    ensures Frame(s, collides).state.player.health == s.player.health - Damage
  {
    var m := Moved(s);
    assert Lands(m, PlayerSide, collides);
    var a := Strike(m, PlayerSide, collides);
    assert Lands(a, EnemySide, collides);
  }

  /** The jump keys: vertical velocity -20 whether or not the fighter is on the ground. */
  function Jumped(f: FighterState): (r: FighterState)
    ensures r.velocity == Vec2(f.velocity.x, JumpVelocity)
    ensures r == f.(velocity := r.velocity)
  {
    f.(velocity := f.velocity.(y := JumpVelocity))
  }

  /** attack() on one side, with the expiry timer it schedules. */
  function Attacked(s: MatchState, side: Side): (r: MatchState)
    ensures Of(r, side) == AttackBegun(Of(s, side))
    ensures Of(r, Other(side)) == Of(s, Other(side))
    ensures r.pending == s.pending + [AttackEnd(side, HasAttackSprite(Of(s, side)), AttackDelay(HasAttackSprite(Of(s, side))))]
    ensures r.background == s.background && r.keys == s.keys
  {
    var f := Of(s, side);
    With(s, side, AttackBegun(f)).(
      pending := s.pending + [AttackEnd(side, HasAttackSprite(f), AttackDelay(HasAttackSprite(f)))])
  }

  /** The keydown handler once both fighters exist (index.js:201-235). */
  function OnKeyDown(s: MatchState, key: string): (r: MatchState)
    ensures ControlsOf(r) == Pressed(ControlsOf(s), key)
    ensures r.player.health == s.player.health && r.enemy.health == s.enemy.health
    ensures r.player.isAttacking == (s.player.isAttacking || key == " ")
    ensures r.enemy.isAttacking == (s.enemy.isAttacking || key == "ArrowDown")
    ensures key == "w" ==> r.player.velocity == Vec2(s.player.velocity.x, JumpVelocity)
    ensures key == "ArrowUp" ==> r.enemy.velocity == Vec2(s.enemy.velocity.x, JumpVelocity)
    ensures key !in {" ", "ArrowDown"} ==> r.pending == s.pending
    ensures r.background == s.background
    ensures key == " " ==> r == Attacked(s, PlayerSide)
    ensures key == "ArrowDown" ==> r == Attacked(s, EnemySide)
    ensures key == "w" ==> r == s.(player := Jumped(s.player))
    ensures key == "ArrowUp" ==> r == s.(enemy := Jumped(s.enemy))
    ensures key !in {" ", "ArrowDown", "w", "ArrowUp"} ==> r == WithControls(s, Pressed(ControlsOf(s), key))
  {
    var c := WithControls(s, Pressed(ControlsOf(s), key));
    if key == "w" then c.(player := Jumped(c.player))
    else if key == " " then Attacked(c, PlayerSide)
    else if key == "ArrowUp" then c.(enemy := Jumped(c.enemy))
    else if key == "ArrowDown" then Attacked(c, EnemySide)
    else c
  }

  /** The keyup handler (index.js:237-256). */
  function OnKeyUp(s: MatchState, key: string): (r: MatchState)
    ensures ControlsOf(r) == Released(ControlsOf(s), key)
    ensures r == s.(keys := r.keys)
  {
    WithControls(s, Released(ControlsOf(s), key))
  }

  /** A pending timer fires: its callback runs and it leaves the queue (classes.js:212-219, 225-227). */
  function OnTimer(s: MatchState, i: nat): (r: MatchState)
    requires i < |s.pending|
    ensures r.pending == s.pending[..i] + s.pending[i + 1..]
    ensures r.player.health == s.player.health && r.enemy.health == s.enemy.health
    ensures r.player.isAttacking ==> s.player.isAttacking
    ensures r.enemy.isAttacking ==> s.enemy.isAttacking
    ensures s.pending[i].AttackEnd? ==> !Of(r, s.pending[i].side).isAttacking
    ensures s.pending[i].AttackEnd? ==>
      r == With(s, s.pending[i].side, AttackEnded(Of(s, s.pending[i].side), s.pending[i].withSprite)).(pending := r.pending)
    ensures s.pending[i].HitEnd? ==>
      r == With(s, s.pending[i].side, Of(s, s.pending[i].side).(isHit := false)).(pending := r.pending)
  {
    var rest := s.pending[..i] + s.pending[i + 1..];
    match s.pending[i]
    case AttackEnd(side, withSprite, _) => With(s, side, AttackEnded(Of(s, side), withSprite)).(pending := rest)
    case HitEnd(side, _) => With(s, side, Of(s, side).(isHit := false)).(pending := rest)
  }

  /** Health starts at 100 and moves only in steps of 20. */
  predicate HealthForm(h: int) {
    h <= StartHealth && (StartHealth - h) % Damage == 0
  }

  /** The invariant of a running match. */
  predicate Inv(s: MatchState) {
    HealthForm(s.player.health) && HealthForm(s.enemy.health) && FeetBound(s.player) && FeetBound(s.enemy)
  }

  lemma StruckKeepsForm(h: int)
    requires HealthForm(h)
    ensures HealthForm(h - Damage)
  {
  }

  lemma FrameKeepsInv(s: MatchState, collides: Collision)
    requires Inv(s)
    ensures Inv(Frame(s, collides).state)
  {
    var r := Frame(s, collides).state;
    if r.enemy.health != s.enemy.health {
      StruckKeepsForm(s.enemy.health);
    }
    if r.player.health != s.player.health {
      StruckKeepsForm(s.player.health);
    }
  }

  lemma KeyDownKeepsInv(s: MatchState, key: string)
    requires Inv(s)
    ensures Inv(OnKeyDown(s, key))
  {
  }

  lemma TimerKeepsInv(s: MatchState, i: nat)
    requires Inv(s) && i < |s.pending|
    ensures Inv(OnTimer(s, i))
  {
  }

  /** Anything that happens to a running match between or during frames. */
  datatype Event =
    | Tick(collides: Collision)
    | Down(key: string)
    | Up(key: string)
    | Fire(index: nat)

  /** One event; firing an index that names no pending timer does nothing. */
  function Apply(s: MatchState, e: Event): MatchState {
    match e
    case Tick(collides) => Frame(s, collides).state
    case Down(key) => OnKeyDown(s, key)
    case Up(key) => OnKeyUp(s, key)
    case Fire(i) => if i < |s.pending| then OnTimer(s, i) else s
  }

  function Run(s: MatchState, events: seq<Event>): MatchState
    decreases |events|
  {
    if events == [] then s else Run(Apply(s, events[0]), events[1..])
  }

  lemma ApplyKeepsInv(s: MatchState, e: Event)
    requires Inv(s)
    ensures Inv(Apply(s, e))
  {
    match e
    case Tick(collides) => FrameKeepsInv(s, collides);
    case Down(key) => KeyDownKeepsInv(s, key);
    case Up(key) =>
    case Fire(i) => if i < |s.pending| { TimerKeepsInv(s, i); }
  }

  /** Every reachable match keeps the health and feet invariants. */
  lemma {:induction false} RunKeepsInv(s: MatchState, events: seq<Event>)
    requires Inv(s)
    ensures Inv(Run(s, events))
    decreases |events|
  {
    if events != [] {
      ApplyKeepsInv(s, events[0]);
      RunKeepsInv(Apply(s, events[0]), events[1..]);
    }
  }

  function Active(f: FighterState): int {
    if f.isAttacking then 1 else 0
  }

  /** The key that starts `side`'s attack. */
  function AttackKey(side: Side): string {
    if side == PlayerSide then " " else "ArrowDown"
  }

  /** How many presses of `key` the events hold. */
  function Presses(events: seq<Event>, key: string): nat {
    if events == [] then 0
    else Presses(events[1..], key) + (if events[0].Down? && events[0].key == key then 1 else 0)
  }

  /** The defender's health less 20 for an attack of `side` still able to land. */
  function Credit(s: MatchState, side: Side): int {
    Of(s, Other(side)).health - Damage * Active(Of(s, side))
  }

  lemma ApplyCredit(s: MatchState, e: Event, side: Side)
    ensures Credit(Apply(s, e), side)
         >= Credit(s, side) - Damage * (if e.Down? && e.key == AttackKey(side) then 1 else 0)
  {
  }

  /**
   * One hit per activation: over any run, the health a side's attacks take
   * from the other is at most 20 for each attack key press, plus 20 for an
   * attack already active at the start.
   */
  lemma {:induction false} DamageNeedsActivation(s: MatchState, events: seq<Event>, side: Side)
    ensures Of(Run(s, events), Other(side)).health
         >= Of(s, Other(side)).health - Damage * (Active(Of(s, side)) + Presses(events, AttackKey(side)))
  {
    CreditBound(s, events, side);
  }

  lemma {:induction false} CreditBound(s: MatchState, events: seq<Event>, side: Side)
    ensures Credit(Run(s, events), side) >= Credit(s, side) - Damage * Presses(events, AttackKey(side))
    decreases |events|
  {
    if events != [] {
      ApplyCredit(s, events[0], side);
      CreditBound(Apply(s, events[0]), events[1..], side);
    }
  }

  /**
   * Timers are never cancelled: after two attack presses, the first press's
   * expiry ends the attack while the second press's timer is still pending.
   */
  lemma StaleExpiryEndsNewAttack(s: MatchState)
    ensures var t := Run(s, [Down(" "), Down(" "), Fire(|s.pending|)]);
            !t.player.isAttacking && |t.pending| == |s.pending| + 1
            && t.pending[|s.pending|] == AttackEnd(PlayerSide, HasAttackSprite(s.player), AttackDelay(HasAttackSprite(s.player)))
  {
    var events := [Down(" "), Down(" "), Fire(|s.pending|)];
    var a := Apply(s, events[0]);
    var b := Apply(a, events[1]);
    var c := Apply(b, events[2]);
    assert Run(s, events) == Run(a, events[1..]);
    assert Run(a, events[1..]) == Run(b, events[1..][1..]);
    assert Run(b, events[1..][1..]) == Run(c, []);
    assert b.pending == s.pending + [a.pending[|s.pending|]] + [b.pending[|s.pending| + 1]];
    assert c.pending == s.pending + [b.pending[|s.pending| + 1]];
  }

  const BackgroundImage: ImageRef := ImageRef("./img/background.png")
  const IdleImage: ImageRef := ImageRef("./img/samuraiMack/Idle.png")
  const WalkImage: ImageRef := ImageRef("./img/samuraiMack/Walk.png")
  const AttackImage: ImageRef := ImageRef("./img/samuraiMack/Attack.png")

  /** The samurai bank both fighters get once the images are loaded (the enemy's is an equal copy). */
  const SamuraiBank: Bank := Some(map[
    "idle" := SpriteDesc(Some(IdleImage), 4),
    "run" := SpriteDesc(Some(WalkImage), 10),
    "attack" := SpriteDesc(Some(AttackImage), 6)])

  /** The state index.js builds once the images are loaded (index.js:61-121). */
  function Start(): (r: MatchState)
    ensures Inv(r)
  {
    MatchState(
      Frames(Some(BackgroundImage), 1, 0, 0, 3),
      FighterState(Frames(Some(IdleImage), 4, 0, 0, FighterHold), SamuraiBank, Vec2(0.0, 0.0), Vec2(0.0, 0.0),
                   Right, "", AttackBox(Vec2(0.0, 0.0), Vec2(10.0, 61.0), AttackWidth, AttackHeight), false, false, StartHealth),
      FighterState(Frames(Some(IdleImage), 4, 0, 0, FighterHold), SamuraiBank, Vec2(400.0, 100.0), Vec2(0.0, 0.0),
                   Right, "", AttackBox(Vec2(400.0, 100.0), Vec2(-60.0, 61.0), AttackWidth, AttackHeight), false, false, StartHealth),
      KeyTable(false, false, false, false),
      [])
  }

  /** animate()'s inline sprite swap on a sprite object. */
  method Show(sprite: Sprite, state: string)
    modifies sprite
    ensures sprite.Animation() == Shown(old(sprite.Animation()), old(sprite.sprites), state)
    ensures sprite.sprites == old(sprite.sprites)
  {
    if sprite.sprites.Some? && state in sprite.sprites.value {
      sprite.image := sprite.sprites.value[state].image;
      sprite.framesMax := sprite.sprites.value[state].framesMax;
    }
  }

  /** The module-level game objects of index.js. */
  class Game {
    const background: Sprite
    const player: Fighter
    const enemy: Fighter
    var keys: KeyTable
    var pending: seq<Timer>

    function State(): MatchState
      reads this, background, player, enemy, player.sprite, enemy.sprite
    {
      MatchState(background.Animation(), player.State(), enemy.State(), keys, pending)
    }

    /** No two of the game objects are the same object. */
    ghost predicate Distinct() {
      player != enemy && player.sprite != enemy.sprite
      && background != player.sprite && background != enemy.sprite
    }

    /** The objects are distinct and the match invariant holds. */
    ghost predicate Valid()
      reads this, background, player, enemy, player.sprite, enemy.sprite
    {
      Distinct() && Inv(State())
    }

    constructor ()
      ensures Valid() && State() == Start()
    {
      background := new Sprite(Path("./img/background.png"), 1);
      player := new Fighter(Vec2(0.0, 0.0), Vec2(0.0, 0.0), Path("./img/samuraiMack/Idle.png"), 4,
                            Vec2(10.0, 61.0), SamuraiBank);
      enemy := new Fighter(Vec2(400.0, 100.0), Vec2(0.0, 0.0), Path("./img/samuraiMack/Idle.png"), 4,
                           Vec2(-60.0, 61.0), None);
      keys := KeyTable(false, false, false, false);
      pending := [];
      new;
      background.SetImage(Some(BackgroundImage));
      player.sprite.SetImage(Some(IdleImage));
      enemy.sprite.sprites := SamuraiBank;
      enemy.sprite.SetImage(Some(IdleImage));
    }

    /** One frame; `ended` is whether the frame called the end-of-game routine. */
    method Animate(collides: Collision) returns (ended: bool)
      requires Valid()
      modifies this, background, player, enemy, player.sprite, enemy.sprite
      ensures Valid()
      ensures FrameResult(State(), ended) == Frame(old(State()), collides)
    {
      ghost var s := State();
      background.AnimateFrames();
      player.Update();
      enemy.Update();
      SteerPlayer();
      SteerEnemy();
      assert State() == Moved(s);
      LandHit(PlayerSide, collides);
      LandHit(EnemySide, collides);
      ended := enemy.health <= 0 || player.health <= 0;
      FrameKeepsInv(s, collides);
    }

    /** The player's velocity.x reset and gated movement rule. */
    method SteerPlayer()
      requires Distinct()
      modifies player, player.sprite
      ensures player.State() == PlayerSteered(old(player.State()), keys)
    {
      player.velocity := player.velocity.(x := 0.0);
      if !player.isAttacking {
        if keys.a && player.lastKey == "a" {
          player.velocity := player.velocity.(x := -MoveSpeed);
          Show(player.sprite, "run");
        } else if keys.d && player.lastKey == "d" {
          player.velocity := player.velocity.(x := MoveSpeed);
          Show(player.sprite, "run");
        } else {
          Show(player.sprite, "idle");
        }
      }
    }

    /** The enemy's velocity.x reset and movement rule. */
    method SteerEnemy()
      modifies enemy
      ensures enemy.State() == EnemySteered(old(enemy.State()), keys)
    {
      enemy.velocity := enemy.velocity.(x := 0.0);
      if keys.arrowLeft && enemy.lastKey == "ArrowLeft" {
        enemy.velocity := enemy.velocity.(x := -MoveSpeed);
      } else if keys.arrowRight && enemy.lastKey == "ArrowRight" {
        enemy.velocity := enemy.velocity.(x := MoveSpeed);
      }
    }

    /** One hit check, with `side` attacking. */
    method LandHit(side: Side, collides: Collision)
      requires Distinct()
      modifies this, player, enemy
      ensures State() == Strike(old(State()), side, collides)
    {
      var attacker := if side == PlayerSide then player else enemy;
      var defender := if side == PlayerSide then enemy else player;
      if collides(attacker.State(), defender.State()) && attacker.isAttacking {
        attacker.isAttacking := false;
        defender.health := defender.health - Damage;
        defender.TakeHit();
        pending := pending + [HitEnd(Other(side), HitDelay)];
      }
    }

    method KeyDown(key: string)
      requires Valid()
      modifies this, player, enemy, player.sprite, enemy.sprite
      ensures Valid()
      ensures State() == OnKeyDown(old(State()), key)
    {
      ghost var s := State();
      if key == "d" {
        keys := keys.(d := true);
        player.lastKey := "d";
      } else if key == "a" {
        keys := keys.(a := true);
        player.lastKey := "a";
      } else if key == "w" {
        player.velocity := player.velocity.(y := JumpVelocity);
      } else if key == " " {
        var withSprite := player.Attack();
        pending := pending + [AttackEnd(PlayerSide, withSprite, AttackDelay(withSprite))];
      } else if key == "ArrowRight" {
        keys := keys.(arrowRight := true);
        enemy.lastKey := "ArrowRight";
      } else if key == "ArrowLeft" {
        keys := keys.(arrowLeft := true);
        enemy.lastKey := "ArrowLeft";
      } else if key == "ArrowUp" {
        enemy.velocity := enemy.velocity.(y := JumpVelocity);
      } else if key == "ArrowDown" {
        var withSprite := enemy.Attack();
        pending := pending + [AttackEnd(EnemySide, withSprite, AttackDelay(withSprite))];
      }
      KeyDownKeepsInv(s, key);
    }

    method KeyUp(key: string)
      requires Valid()
      modifies this
      ensures Valid()
      ensures State() == OnKeyUp(old(State()), key)
    {
      if key == "d" {
        keys := keys.(d := false);
      } else if key == "a" {
        keys := keys.(a := false);
      }
      if key == "ArrowRight" {
        keys := keys.(arrowRight := false);
      } else if key == "ArrowLeft" {
        keys := keys.(arrowLeft := false);
      }
    }

    /** The event loop runs the callback of pending timer `i`. */
    method FireTimer(i: nat)
      requires Valid() && i < |pending|
      modifies this, player, enemy, player.sprite, enemy.sprite
      ensures Valid()
      ensures State() == OnTimer(old(State()), i)
    {
      ghost var s := State();
      var t := pending[i];
      pending := pending[..i] + pending[i + 1..];
      var f := if t.side == PlayerSide then player else enemy;
      match t
      case AttackEnd(_, withSprite, _) => f.ExpireAttack(withSprite);
      case HitEnd(_, _) => f.ExpireHit();
      TimerKeepsInv(s, i);
    }
  }
}
