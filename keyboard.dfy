/** The keyboard router of the controller page (src/pages/index.tsx, the
    `keydown`/`keyup` listeners): a key-to-action map, and a single boolean
    latch, shared by all keys, that ignores every key press after the first
    until some key is released. */
module Keyboard {
  import opened Options
  import opened Commands
  import opened HeadAngle

  /** A logical user action, before it is encoded as a command. The
      on-screen buttons are bound to the same seven actions as the keys. */
  datatype Action = DriveAction(dir: Direction) | FireAction | HeadAction(offset: int)

  /** The keys the `keydown` switch handles. */
  const BOUND_KEYS: set<string> := {"w", "s", "a", "d", "f", "t", "g"}

  /** The `switch (e.key)` of the `keydown` listener; keys are compared
      exactly, so `W` is not `w`. */
  function KeyAction(key: string): (a: Option<Action>)
    ensures a.Some? <==> key in BOUND_KEYS
  {
    if key == "w" then Some(DriveAction(Forward))
    else if key == "s" then Some(DriveAction(Backward))
    else if key == "a" then Some(DriveAction(Left))
    else if key == "d" then Some(DriveAction(Right))
    else if key == "f" then Some(FireAction)
    else if key == "t" then Some(HeadAction(HEAD_STEP))
    else if key == "g" then Some(HeadAction(-HEAD_STEP))
    else None
  }

  /** The key table: which action each bound key triggers. */
  lemma KeyTable()
    ensures KeyAction("w") == Some(DriveAction(Forward))
    ensures KeyAction("s") == Some(DriveAction(Backward))
    ensures KeyAction("a") == Some(DriveAction(Left))
    ensures KeyAction("d") == Some(DriveAction(Right))
    ensures KeyAction("f") == Some(FireAction)
    ensures KeyAction("t") == Some(HeadAction(20))
    ensures KeyAction("g") == Some(HeadAction(-20))
  {
  }

  /** Different bound keys trigger different actions, and every action a
      key triggers is one of the seven the on-screen buttons offer. */
  lemma KeyActionInjective(k1: string, k2: string)
    requires KeyAction(k1).Some? && KeyAction(k1) == KeyAction(k2)
    ensures k1 == k2
    ensures KeyAction(k1).value.HeadAction? ==> KeyAction(k1).value.offset in {HEAD_STEP, -HEAD_STEP}
  {
  }

  /** A keyboard notification: the key pressed or released. */
  datatype KeyEvent = KeyDown(key: string) | KeyUp(key: string)

  /** One listener call: the latch afterwards and the action dispatched. */
  function LatchStep(latched: bool, ev: KeyEvent): (r: (bool, Option<Action>))
    ensures ev.KeyUp? ==> r == (false, None)
    ensures ev.KeyDown? ==> r.0
    ensures r.1.Some? <==> ev.KeyDown? && !latched && ev.key in BOUND_KEYS
    ensures r.1.Some? ==> r.1 == KeyAction(ev.key)
  {
    match ev
    case KeyUp(_) => (false, None)
    case KeyDown(key) => if latched then (true, None) else (true, KeyAction(key))
  }

  /** The latch and the actions dispatched, in order, after the listeners
      see `events` one after the other. */
  function Replay(latched: bool, events: seq<KeyEvent>): (r: (bool, seq<Action>))
    decreases |events|
  {
    if events == [] then (latched, [])
    else
      var (next, action) := LatchStep(latched, events[0]);
      var (last, rest) := Replay(next, events[1..]);
      (last, (if action.Some? then [action.value] else []) + rest)
  }

  /** The number of key releases in `events`. */
  function Releases(events: seq<KeyEvent>): (n: nat)
    ensures n <= |events|
    decreases |events|
  {
    if events == [] then 0 else (if events[0].KeyUp? then 1 else 0) + Releases(events[1..])
  }

  /** Key-repeat suppression: however many key presses arrive, the number
      of dispatched actions is at most one per release, plus one when the
      latch starts open. */
  lemma {:induction false} ActionsBoundedByReleases(latched: bool, events: seq<KeyEvent>)
    ensures |Replay(latched, events).1| <= Releases(events) + (if latched then 0 else 1)
    decreases |events|
  {
    if events != [] {
      var (next, _) := LatchStep(latched, events[0]);
      ActionsBoundedByReleases(next, events[1..]);
    }
  }

  /** While a key is held, repeated presses of any keys dispatch nothing
      and leave the latch set. */
  lemma {:induction false} HeldLatchIgnoresPresses(events: seq<KeyEvent>)
    requires forall i :: 0 <= i < |events| ==> events[i].KeyDown?
    ensures Replay(true, events) == (true, [])
    decreases |events|
  {
    if events != [] {
      assert LatchStep(true, events[0]) == (true, None);
      HeldLatchIgnoresPresses(events[1..]);
      assert Replay(true, events).1 == [] + [];
    }
  }

  /** A release followed by a press of a bound key dispatches exactly that
      key's action, whatever the latch was and whichever key was released. */
  lemma ReleaseThenPress(latched: bool, released: string, pressed: string)
    requires pressed in BOUND_KEYS
    ensures Replay(latched, [KeyUp(released), KeyDown(pressed)]) == (true, [KeyAction(pressed).value])
  {
    var events := [KeyUp(released), KeyDown(pressed)];
    assert events[1..] == [KeyDown(pressed)];
    assert [KeyDown(pressed)][1..] == [];
    assert Replay(true, []) == (true, []);
    assert Replay(false, [KeyDown(pressed)]) == (true, [KeyAction(pressed).value] + []);
    assert Replay(latched, events) == (true, [] + ([KeyAction(pressed).value] + []));
    assert [] + ([KeyAction(pressed).value] + []) == [KeyAction(pressed).value];
  }
}
