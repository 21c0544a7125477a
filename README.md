# Fighting-Game: fighter simulation and combat rules in Dafny

This project models the per-frame simulation of a two-fighter canvas game.
Two fighters share one keyboard. Each has an animated sprite, falls under
gravity onto a ground line, and faces the way it moves or the last way it was
steered. Each carries an attack box on its facing side and loses 20 health
for every attack of the other fighter that lands.

The model follows the game's two core source files:

- `sprites.dfy`, module `Sprites`: the `sprite` class of `js/classes.js`. It
  holds the frame-cycling animation (`framesCurrent`, `framesElapsed`,
  `framesHold`, `framesMax`), `animateFrames`, `switchSprite` and `setImage`.
- `fighters.dfy`, module `Fighters`: the `Fighter` class of `js/classes.js`.
  It covers facing, attack-box placement, motion under gravity with the ground
  test, and `attack`/`takeHit` with their timer callbacks. The fighter owns
  its animation as a `Sprite` object instead of inheriting it.
- `controls.dfy`, module `Controls`: the `keys` table of `index.js`, the
  `lastKey` field the keydown handler writes, and the held-key + last-key
  movement rule.
- `arena.dfy`, module `Arena`: the module-level game state of `index.js`.
  It covers one call of `animate()` (update, velocity reset, movement, both
  hit checks, end check), the key handlers, and the pending timer callbacks.
  It ends with the class `Game`, whose methods change the objects in place.
- `common.dfy` and `stage.dfy`: shared value types, and the constants of
  `index.js` (canvas height, gravity 0.7, jump velocity -20, move speed 5).

Every class has a value view: `Sprite.Animation()`, `Fighter.State()` and
`Game.State()`. Each method states its new view as a pure function of the old
one: `Animated`, `Switched`, `Updated`, `AttackBegun`, `AttackEnded`,
`Frame`, `OnKeyDown`, `OnKeyUp` and `OnTimer`. The lemmas are stated about
those functions:

- the animation loops modulo `framesMax`;
- the feet never sink a gravity step below the ground line;
- the `keys` table and `lastKey` always equal "latest event was a press" and
  "latest move key pressed";
- health stays `100 - 20k`;
- one attack activation damages at most once.

Timer callbacks (`setTimeout`) are explicit: `attack()` and `takeHit()` append
a `Timer` to `pending`, and `Game.FireTimer(i)` runs one of them. The
collision test `rectangularCollision` is a function parameter of `Animate`.
The code does not clamp health at 0, and a new `attack()` does not cancel an
older attack timer. The model follows the code on both points.

## Model

| member | source | states |
|---|---|---|
| `Sprites.Sprite.constructor` | Fighting-Game/js/classes.js:2-20 | a path source leaves the image unset, an image object is used directly; frame 0, nothing elapsed, hold 3, no bank |
| `Sprites.Sprite.SetImage` | Fighting-Game/js/classes.js:22-24 | the image becomes the given one and nothing else changes |
| `Sprites.Animated` | Fighting-Game/js/classes.js:46-56 | `framesElapsed` grows by exactly 1; the frame changes only when the new elapsed count is a multiple of the hold; then it steps by one below `framesMax-1`, else resets to 0; a frame in range stays in range and one out of range is reset |
| `Sprites.Sprite.AnimateFrames` | Fighting-Game/js/classes.js:46-61 | the sprite's animation state becomes `Animated` of the old one |
| `Sprites.AnimationLoops` | Fighting-Game/js/classes.js:46-56 | after n calls from a frame in range, the frame is the start frame plus the number of hold boundaries crossed, modulo `framesMax`; only the two counters change |
| `Sprites.FrameStepsCount` | Fighting-Game/js/classes.js:49 | the number of frame steps in n calls is `(elapsed+n)/hold - elapsed/hold` |
| `Sprites.FreshAnimation` | Fighting-Game/js/classes.js:16-18 | a sprite started at frame 0 shows frame `(n / hold) % framesMax` after n calls: it loops, it does not bounce |
| `Sprites.Switched` | Fighting-Game/js/classes.js:63-69 | no change when the bank or the state is missing; otherwise frame 0, image and `framesMax` replaced only when the descriptor supplies them, counters and hold kept |
| `Sprites.SwitchIdempotent` | Fighting-Game/js/classes.js:63-69 | switching twice to the same state is the same as switching once |
| `Sprites.Sprite.SwitchSprite` | Fighting-Game/js/classes.js:63-69 | the animation state becomes `Switched` of the old one; the bank is untouched |
| `Fighters.Fighter.constructor` | Fighting-Game/js/classes.js:73-115 | facing right, empty last key, not attacking, not hit, health 100, hold 5, a 100x50 attack box at the start position with the given offset |
| `Fighters.FacingFor` | Fighting-Game/js/classes.js:122-124 | moving right faces right, moving left faces left; when still, a non-empty last key gives left exactly for `a`/`ArrowLeft`, and an empty one keeps the facing |
| `Fighters.PlacedBox` | Fighting-Game/js/classes.js:127-133 | facing right the box starts `abs(offset.x)` right of the body's x; facing left it ends `abs(offset.x)` left of it; y is the body's y; size and offset kept |
| `Fighters.PlacementsMirror` | Fighting-Game/js/classes.js:127-133 | the left and right placements are mirror images about the body's x |
| `Fighters.Updated` | Fighting-Game/js/classes.js:117-142 | the frame animates; facing and box are recomputed from the pre-move position; position moves by exactly the velocity; `velocity.x` is kept; `velocity.y` becomes 0 when the ground test hits, else grows by exactly gravity; the feet bound is preserved |
| `Fighters.Fighter.Update` | Fighting-Game/js/classes.js:117-142 | the fighter's state becomes `Updated` of the old one |
| `Fighters.FeetNeverSink` | Fighting-Game/js/classes.js:135-142 | over any number of updates a fighter that starts within the bound never ends more than one gravity step below the ground line, nor moves up faster than a jump |
| `Fighters.RestingStaysPut` | Fighting-Game/js/classes.js:135-142 | a fighter at rest on or below the ground line stays there, however many updates run |
| `Fighters.AttackBegun` | Fighting-Game/js/classes.js:206-211 | `isAttacking` becomes true; the attack sprite is switched to exactly when the bank has one; nothing else changes |
| `Fighters.Fighter.Attack` | Fighting-Game/js/classes.js:206-221 | the state becomes `AttackBegun` of the old one; the result tells whether the 300 timer (attack sprite) or the 100 timer was scheduled |
| `Fighters.AttackEnded` | Fighting-Game/js/classes.js:212-219 | `isAttacking` becomes false; the 300 callback also switches to idle, the 100 one changes nothing else |
| `Fighters.Fighter.ExpireAttack` | Fighting-Game/js/classes.js:212-219 | the state becomes `AttackEnded` of the old one |
| `Fighters.Fighter.TakeHit` | Fighting-Game/js/classes.js:223-224 | only `isHit` changes, to true |
| `Fighters.Fighter.ExpireHit` | Fighting-Game/js/classes.js:225-227 | only `isHit` changes, to false |
| `Controls.Pressed` | Fighting-Game/index.js:205-227 | a move key becomes held and becomes its fighter's last key; other keys leave both the table and the last keys alone |
| `Controls.Released` | Fighting-Game/index.js:237-256 | exactly the released key stops being held; no last key changes |
| `Controls.Intent` | Fighting-Game/index.js:146-172 | -5 exactly when the left key is held and was the last pressed, +5 exactly when the right key is, 0 otherwise |
| `Controls.ReleasingLastKeyStops` | Fighting-Game/index.js:237-256 | releasing the last pressed move key stops that fighter even while its other move key is held |
| `Controls.ReplayTracksKeys` | Fighting-Game/index.js:201-256 | after any key history, each pressed flag says whether that key's latest event was a press, and each last key is the latest press among that fighter's move keys |
| `Controls.MovementFollowsLatestHeldPress` | Fighting-Game/index.js:146-172 | after any key history, a fighter moves left exactly when its latest move press was its left key and that key is still held, and right likewise |
| `Arena.Show` | Fighting-Game/index.js:149-163 | the bank state's image and `framesMax` are copied without truthiness checks and the frame is kept; nothing happens without a bank or state |
| `Arena.PlayerSteered` | Fighting-Game/index.js:142-165 | `velocity.x` is the held-key rule on `a`/`d`, or 0 while attacking; an attacking player keeps its frames, any other shows the bank's `run` state when moving and `idle` when standing; nothing but velocity and frames changes |
| `Arena.Game.SteerPlayer` | Fighting-Game/index.js:142-165 | the player's state becomes `PlayerSteered` of the old one |
| `Arena.EnemySteered` | Fighting-Game/index.js:143-172 | `velocity.x` is the held-key rule on `ArrowLeft`/`ArrowRight`, whether or not the enemy attacks |
| `Arena.Game.SteerEnemy` | Fighting-Game/index.js:143-172 | the enemy's state becomes `EnemySteered` of the old one |
| `Arena.Strike` | Fighting-Game/index.js:175-193 | when the attacker collides and is attacking, its attack is consumed, the defender loses exactly 20 with no clamp and is marked hit, and a 150 hit timer is queued; otherwise the state is exactly the old one |
| `Arena.Game.LandHit` | Fighting-Game/index.js:175-193 | the game state becomes `Strike` of the old one |
| `Arena.Frame` | Fighting-Game/index.js:132-198 | both fighters are `Updated` with the previous frame's velocity (position, facing, attack box, `velocity.y`, animation); `velocity.x` then comes from the input rules only and the player's sprite swaps to run/idle unless attacking; no attack starts; the player's attack is consumed exactly when it lands on the moved state, the enemy's exactly when it lands on the state the player's check left; each consumed attack takes 20 from the other fighter, marks it hit and queues its 150 hit timer, player's first; the end routine is called exactly when either health is at most 0 |
| `Arena.Game.Animate` | Fighting-Game/index.js:132-198 | the game state and the end flag are `Frame` of the old state; the invariant is kept |
| `Arena.BothHitsInOneFrame` | Fighting-Game/index.js:175-193 | both attacks can land in one frame, each taking 20 |
| `Arena.OnKeyDown` | Fighting-Game/index.js:201-235 | controls follow `Pressed`; `w`/`ArrowUp` only set vertical velocity -20, even mid-air; space/`ArrowDown` only run `attack()`: the attack sprite switch and an `AttackEnd` timer of 300 (with an attack sprite) or 100 for that side; any other key changes only the controls; health never changes |
| `Arena.Game.KeyDown` | Fighting-Game/index.js:201-235 | the game state becomes `OnKeyDown` of the old one |
| `Arena.OnKeyUp` | Fighting-Game/index.js:237-256 | only the key table changes, as `Released` says |
| `Arena.Game.KeyUp` | Fighting-Game/index.js:237-256 | the game state becomes `OnKeyUp` of the old one |
| `Arena.OnTimer` | Fighting-Game/js/classes.js:212-227 | the fired timer leaves the queue; an attack expiry runs `AttackEnded` on its side (idle switch for the 300 one), a hit expiry clears its side's `isHit`; the other fighter, health and the rest are untouched |
| `Arena.Game.FireTimer` | Fighting-Game/js/classes.js:212-227 | the game state becomes `OnTimer` of the old one |
| `Arena.StaleExpiryEndsNewAttack` | Fighting-Game/js/classes.js:206-221 | timers are not cancelled: after two attack presses, the first press's expiry ends the attack while the second press's player `AttackEnd` timer, with the same delay, is still pending |
| `Arena.FrameKeepsInv` | Fighting-Game/index.js:175-193 | a frame keeps health at `100 - 20k` and keeps the feet bound |
| `Arena.RunKeepsInv` | Fighting-Game/js/classes.js:108 | over any run of frames, key events and timers, both healths stay of the form `100 - 20k` and both fighters keep the feet bound |
| `Arena.DamageNeedsActivation` | Fighting-Game/index.js:175-193 | over any run, a side's attacks take at most 20 per attack-key press, plus 20 for an attack already active: one hit per activation |
| `Arena.Start` | Fighting-Game/index.js:61-121 | the state built at start-up satisfies the match invariant |
| `Arena.Game.constructor` | Fighting-Game/index.js:61-121 | the objects are distinct, the invariant holds, and the state is the start-up state: two samurai fighters at (0,0) and (400,100) with equal, independent banks |

## Left out

- Drawing: `draw()` in both classes, the attack-box and hit-flash rectangles, and the black clear. They only produce pixels. So do the fields only drawing reads: `scale`, `offset` for drawing, sprite `width`/`height`, `color` and the descriptors' `imageSrc`/`offset`/`scale`.
- Image preloading and the image cache: asynchronous browser I/O. The model starts from the state after every image has loaded. An image is named by its path.
- Frames and key presses before both fighters exist (the `!player || !enemy` guards): the model starts at the initialised match.
- `rectangularCollision`, `determineWinner`, `decreaseTimer` and `timerId` are not part of this model. The collision test is an arbitrary function parameter, called on the states the code passes it. The winner routine is reduced to the `ended` flag.
- DOM health-bar writes and `requestAnimationFrame` scheduling: browser I/O.
- Timer timing: delays of 300, 100 and 150 are recorded in each `Timer`, but any pending timer may fire next. The model does not enforce deadline order.
- Floating point: positions and velocities are exact reals. The game's doubles round when sums of 0.7 build up, and its frame counters lose precision beyond 2^53.
- A sprite descriptor without `framesMax` (undefined) is written as 0. Undefined and 0 act the same in `switchSprite` and `animateFrames`, but the model does not keep `undefined` as a separate value.
- The `JSON.parse(JSON.stringify(...))` clone of the sprite bank: datatype values are copies, so the enemy gets an equal bank and nothing is shared.
