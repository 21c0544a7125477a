/**
 * The keyboard half of index.js: the `keys` table of held move keys, the
 * `lastKey` field of each fighter that the keydown handler writes, and the
 * held-key + last-key rule that animate() turns into a horizontal velocity.
 */
module Controls {
  import opened Stage

  /** The pressed flags of the four move keys. */
  datatype KeyTable = KeyTable(a: bool, d: bool, arrowRight: bool, arrowLeft: bool)

  /** The key table and the two fighters' `lastKey` fields. */
  datatype Controls = Controls(keys: KeyTable, playerLastKey: string, enemyLastKey: string)

  /** No key held, no key pressed yet. */
  const Initial: Controls := Controls(KeyTable(false, false, false, false), "", "")

  const PlayerMoveKeys: set<string> := {"a", "d"}
  const EnemyMoveKeys: set<string> := {"ArrowLeft", "ArrowRight"}

  /** Whether the table marks `key` as held; keys outside the table never are. */
  predicate IsDown(t: KeyTable, key: string) {
    (key == "a" && t.a) || (key == "d" && t.d)
    || (key == "ArrowRight" && t.arrowRight) || (key == "ArrowLeft" && t.arrowLeft)
  }

  /** The keydown handler's effect on the table and on `lastKey`. */
  function Pressed(c: Controls, key: string): (r: Controls)
    ensures forall k :: IsDown(r.keys, k) <==> IsDown(c.keys, k) || (k == key && k in PlayerMoveKeys + EnemyMoveKeys)
    ensures r.playerLastKey == if key in PlayerMoveKeys then key else c.playerLastKey
    ensures r.enemyLastKey == if key in EnemyMoveKeys then key else c.enemyLastKey
  {
    if key == "d" then c.(keys := c.keys.(d := true), playerLastKey := "d")
    else if key == "a" then c.(keys := c.keys.(a := true), playerLastKey := "a")
    else if key == "ArrowRight" then c.(keys := c.keys.(arrowRight := true), enemyLastKey := "ArrowRight")
    else if key == "ArrowLeft" then c.(keys := c.keys.(arrowLeft := true), enemyLastKey := "ArrowLeft")
    else c
  }

  /** The keyup handler: clears the pressed flag and never touches `lastKey`. */
  function Released(c: Controls, key: string): (r: Controls)
    ensures forall k :: IsDown(r.keys, k) <==> IsDown(c.keys, k) && k != key
    ensures r.playerLastKey == c.playerLastKey && r.enemyLastKey == c.enemyLastKey
  {
    if key == "d" then c.(keys := c.keys.(d := false))
    else if key == "a" then c.(keys := c.keys.(a := false))
    else if key == "ArrowRight" then c.(keys := c.keys.(arrowRight := false))
    else if key == "ArrowLeft" then c.(keys := c.keys.(arrowLeft := false))
    else c
  }

  /**
   * The held-key + last-key rule: move left only while the left key is held
   * and was the last one pressed, right likewise, otherwise stand.
   */
  function Intent(leftHeld: bool, rightHeld: bool, lastKey: string, leftKey: string, rightKey: string): (r: real)
    requires leftKey != rightKey
    ensures r == -MoveSpeed <==> leftHeld && lastKey == leftKey
    ensures r == MoveSpeed <==> rightHeld && lastKey == rightKey
    ensures r == 0.0 <==> !(leftHeld && lastKey == leftKey) && !(rightHeld && lastKey == rightKey)
  {
    if leftHeld && lastKey == leftKey then -MoveSpeed
    else if rightHeld && lastKey == rightKey then MoveSpeed
    else 0.0
  }

  /** The player's rule on `a`/`d` (index.js:147-153). */
  function PlayerIntent(c: Controls): real {
    Intent(c.keys.a, c.keys.d, c.playerLastKey, "a", "d")
  }

  /** The enemy's rule on `ArrowLeft`/`ArrowRight` (index.js:168-172). */
  function EnemyIntent(c: Controls): real {
    Intent(c.keys.arrowLeft, c.keys.arrowRight, c.enemyLastKey, "ArrowLeft", "ArrowRight")
  }

  /** Releasing the last pressed move key stops the fighter even while its other move key is held. */
  lemma ReleasingLastKeyStops(c: Controls)
    ensures c.playerLastKey in PlayerMoveKeys ==> PlayerIntent(Released(c, c.playerLastKey)) == 0.0
    ensures c.enemyLastKey in EnemyMoveKeys ==> EnemyIntent(Released(c, c.enemyLastKey)) == 0.0
  {
  }

  datatype KeyEvent = KeyDown(key: string) | KeyUp(key: string)

  function Applied(c: Controls, e: KeyEvent): Controls {
    match e
    case KeyDown(k) => Pressed(c, k)
    case KeyUp(k) => Released(c, k)
  }

  /** The controls after a sequence of key events, oldest first. */
  function Replay(events: seq<KeyEvent>): Controls {
    if events == [] then Initial
    else Applied(Replay(events[..|events| - 1]), events[|events| - 1])
  }

  /** A key is held when its latest event, down or up, was a down. */
  function Held(events: seq<KeyEvent>, key: string): bool {
    if events == [] then false
    else if events[|events| - 1].key == key then events[|events| - 1].KeyDown?
    else Held(events[..|events| - 1], key)
  }

  /** The latest key of `group` that went down, or the empty string if none has. */
  function LatestPress(events: seq<KeyEvent>, group: set<string>): string {
    if events == [] then ""
    else if events[|events| - 1].KeyDown? && events[|events| - 1].key in group then events[|events| - 1].key
    else LatestPress(events[..|events| - 1], group)
  }

  /** The handlers keep the table equal to "held" and each `lastKey` equal to the latest press of that fighter's keys. */
  lemma {:induction false} ReplayTracksKeys(events: seq<KeyEvent>)
    ensures Replay(events).keys
         == KeyTable(Held(events, "a"), Held(events, "d"), Held(events, "ArrowRight"), Held(events, "ArrowLeft"))
    ensures Replay(events).playerLastKey == LatestPress(events, PlayerMoveKeys)
    ensures Replay(events).enemyLastKey == LatestPress(events, EnemyMoveKeys)
  {
    if events != [] {
      ReplayTracksKeys(events[..|events| - 1]);
    }
  }

  /**
   * Over any key history, a fighter moves left exactly when its latest
   * move-key press was its left key and that key is still held, and right
   * likewise; otherwise it stands.
   */
  lemma MovementFollowsLatestHeldPress(events: seq<KeyEvent>)
    ensures PlayerIntent(Replay(events)) == -MoveSpeed <==> LatestPress(events, PlayerMoveKeys) == "a" && Held(events, "a")
    ensures PlayerIntent(Replay(events)) == MoveSpeed <==> LatestPress(events, PlayerMoveKeys) == "d" && Held(events, "d")
    ensures EnemyIntent(Replay(events)) == -MoveSpeed
        <==> LatestPress(events, EnemyMoveKeys) == "ArrowLeft" && Held(events, "ArrowLeft")
    ensures EnemyIntent(Replay(events)) == MoveSpeed
        <==> LatestPress(events, EnemyMoveKeys) == "ArrowRight" && Held(events, "ArrowRight")
  {
    ReplayTracksKeys(events);
  }
}
