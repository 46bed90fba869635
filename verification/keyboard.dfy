/**
  The 16-key CHIP-8 keypad: a fixed map from host key codes (`event.which`) to the
  logical keys 0x0..0xF, a pressed-state vector, and a one-shot "next key press"
  handler slot.

  The handler is a closure in the JavaScript; here it is an opaque value of type `H`
  held in an `Option`, and invoking it is reported as an `Invocation` output.

  Two evident slips are read as intended: `isKeyPressed` calls the state array as a
  function, and `onKeyDown` stores into a misspelled `keyPressed`. The model reads and
  writes one state vector in both places.
 */
module Keyboard {
  import opened Wrappers

  /** A logical CHIP-8 key. */
  type Key = k: nat | k < 16

  /** Pressed state of the 16 logical keys. */
  type KeyStates = s: seq<bool> | |s| == 16 witness seq(16, _ => false)

  /** The keypad: pressed states and the pending next-key handler, if any. */
  datatype KeyState<H> = KeyState(pressed: KeyStates, onNextKeyPress: Option<H>)

  /** A call of the next-key handler with the logical key that triggered it. */
  datatype Invocation<H> = Invocation(handler: H, key: Key)

  /** What a keydown leaves behind: the new keypad and the handler call it made, if any. */
  datatype KeyDownResult<H> = KeyDownResult(keyboard: KeyState<H>, fired: Option<Invocation<H>>)

  /** The host-key-code to logical-key table (the left four columns of a QWERTY board). */
  const KeyMap: map<int, Key> := map[
    49 := 0x1, 50 := 0x2, 51 := 0x3, 52 := 0xC,
    81 := 0x4, 87 := 0x5, 69 := 0x6, 82 := 0xD,
    65 := 0x7, 83 := 0x8, 68 := 0x9, 70 := 0xE,
    90 := 0xA, 88 := 0x0, 67 := 0xB, 86 := 0xF
  ]

  /** The host key code bound to each logical key: the inverse of `KeyMap`. */
  function CodeOf(k: Key): (code: int)
  {
    match k
    case 0x0 => 88 case 0x1 => 49 case 0x2 => 50 case 0x3 => 51
    case 0x4 => 81 case 0x5 => 87 case 0x6 => 69 case 0x7 => 65
    case 0x8 => 83 case 0x9 => 68 case 0xA => 90 case 0xB => 67
    case 0xC => 52 case 0xD => 82 case 0xE => 70 case _ => 86
  }

  /** `KEYMAP[code]`: `None` stands for the `undefined` of an unmapped code. */
  function Lookup(code: int): (r: Option<Key>)
    ensures r.Some? <==> code in KeyMap
    ensures r.Some? ==> CodeOf(r.value) == code
  {
    if code in KeyMap then Some(KeyMap[code]) else None
  }

  /** Every logical key is the image of exactly the code `CodeOf` names. */
  lemma KeyMapOnto()
    ensures forall k: Key :: CodeOf(k) in KeyMap && KeyMap[CodeOf(k)] == k
    ensures forall k: Key :: k in KeyMap.Values
  {
    forall k: Key ensures CodeOf(k) in KeyMap && KeyMap[CodeOf(k)] == k && k in KeyMap.Values {
      assert KeyMap[CodeOf(k)] == k;
    }
  }

  /** `CodeOf` undoes `KeyMap`, so no two codes share a logical key: together with
      `KeyMapOnto`, `KeyMap` is a bijection from its 16 codes onto the keys 0x0..0xF. */
  lemma KeyMapInjective()
    ensures forall code :: code in KeyMap ==> CodeOf(KeyMap[code]) == code
    ensures forall c1, c2 :: c1 in KeyMap && c2 in KeyMap && KeyMap[c1] == KeyMap[c2] ==> c1 == c2
  {
    forall code | code in KeyMap ensures CodeOf(KeyMap[code]) == code {
    }
  }

  /** A keypad with no key pressed and no pending handler. */
  function NewKeyboard<H>(): (kb: KeyState<H>)
    ensures forall k: Key :: !IsKeyPressed(kb, k)
    ensures kb.onNextKeyPress.None?
  {
    KeyState(seq(16, _ => false), None)
  }

  /** Whether logical key `k` is held, read from the vector keydown and keyup write. */
  predicate IsKeyPressed<H>(kb: KeyState<H>, k: Key)
  {
    kb.pressed[k]
  }

  /** Installs a one-shot handler for the next nonzero key press. */
  function AwaitNextKey<H>(kb: KeyState<H>, handler: H): (r: KeyState<H>)
    ensures r.pressed == kb.pressed
    ensures r.onNextKeyPress == Some(handler)
  {
    kb.(onNextKeyPress := Some(handler))
  }

  /** Records the state of the key a host code maps to; an unmapped code changes nothing. */
  function Mark(pressed: KeyStates, code: int, down: bool): (r: KeyStates)
    ensures code in KeyMap ==> r[KeyMap[code]] == down
    ensures forall k: Key :: (code !in KeyMap || k != KeyMap[code]) ==> r[k] == pressed[k]
  {
    match Lookup(code)
    case Some(k) => pressed[k := down]
    case None => pressed
  }

  /** Keydown: marks the key pressed, then fires and clears a pending handler unless the
      key is unmapped or is logical key 0 (both falsy in the source's `&& key` test). */
  function OnKeyDown<H>(kb: KeyState<H>, code: int): (r: KeyDownResult<H>)
    ensures code in KeyMap ==> IsKeyPressed(r.keyboard, KeyMap[code])
    ensures forall k: Key :: (code !in KeyMap || k != KeyMap[code]) ==>
      (IsKeyPressed(r.keyboard, k) <==> IsKeyPressed(kb, k))
    ensures r.fired.Some? <==> kb.onNextKeyPress.Some? && code in KeyMap && KeyMap[code] != 0
    ensures r.fired.Some? ==>
      r.fired.value == Invocation(kb.onNextKeyPress.value, KeyMap[code]) && r.keyboard.onNextKeyPress.None?
    ensures r.fired.None? ==> r.keyboard.onNextKeyPress == kb.onNextKeyPress
  {
    var pressed := Mark(kb.pressed, code, true);
    match (kb.onNextKeyPress, Lookup(code))
    case (Some(h), Some(k)) =>
      if k != 0 then KeyDownResult(KeyState(pressed, None), Some(Invocation(h, k)))
      else KeyDownResult(KeyState(pressed, kb.onNextKeyPress), None)
    case _ => KeyDownResult(KeyState(pressed, kb.onNextKeyPress), None)
  }

  /** Keyup: marks the key released; never touches the handler slot. */
  function OnKeyUp<H>(kb: KeyState<H>, code: int): (r: KeyState<H>)
    ensures code in KeyMap ==> !IsKeyPressed(r, KeyMap[code])
    ensures forall k: Key :: (code !in KeyMap || k != KeyMap[code]) ==>
      (IsKeyPressed(r, k) <==> IsKeyPressed(kb, k))
    ensures r.onNextKeyPress == kb.onNextKeyPress
  {
    KeyState(Mark(kb.pressed, code, false), kb.onNextKeyPress)
  }

  /** Pressing then releasing a key restores its state to released; pressing a key
      already held, or releasing one already up, changes no key state. */
  lemma KeyUpUndoesKeyDown<H>(kb: KeyState<H>, code: int)
    requires code in KeyMap
    ensures !IsKeyPressed(OnKeyUp(OnKeyDown(kb, code).keyboard, code), KeyMap[code])
    ensures !IsKeyPressed(kb, KeyMap[code]) ==>
      OnKeyUp(OnKeyDown(kb, code).keyboard, code).pressed == kb.pressed
  {
    var k := KeyMap[code];
    var r := OnKeyUp(OnKeyDown(kb, code).keyboard, code);
    if !IsKeyPressed(kb, k) {
      assert forall j: Key :: r.pressed[j] == kb.pressed[j];
    }
  }

  /** For every logical key, `IsKeyPressed` reads back what keydown and keyup of the
      key's host code wrote. */
  lemma KeyStateReadBack<H>(kb: KeyState<H>, k: Key)
    ensures IsKeyPressed(OnKeyDown(kb, CodeOf(k)).keyboard, k)
    ensures !IsKeyPressed(OnKeyUp(kb, CodeOf(k)), k)
  {
    KeyMapOnto();
  }

  /** A host input event. */
  datatype KeyEvent = KeyDown(code: int) | KeyUp(code: int)

  /** Delivers a run of events in order; returns the final keypad and every handler call made. */
  function Deliver<H>(kb: KeyState<H>, events: seq<KeyEvent>): (r: (KeyState<H>, seq<Invocation<H>>))
    decreases |events|
  {
    if |events| == 0 then (kb, [])
    else
      var (kb1, fired1) := match events[0]
        case KeyDown(code) =>
          var d := OnKeyDown(kb, code);
          (d.keyboard, if d.fired.Some? then [d.fired.value] else [])
        case KeyUp(code) => (OnKeyUp(kb, code), []);
      var (kb2, fired2) := Deliver(kb1, events[1..]);
      (kb2, fired1 + fired2)
  }

  /** One-shot: over any run of events the handler is called at most once, only the
      handler that was pending is called, and once it has fired the slot stays empty. */
  lemma {:induction false} DeliverFiresAtMostOnce<H>(kb: KeyState<H>, events: seq<KeyEvent>)
    ensures kb.onNextKeyPress.None? ==> |Deliver(kb, events).1| == 0 && Deliver(kb, events).0.onNextKeyPress.None?
    ensures |Deliver(kb, events).1| <= 1
    ensures |Deliver(kb, events).1| == 1 ==>
      kb.onNextKeyPress.Some? && Deliver(kb, events).1[0].handler == kb.onNextKeyPress.value
      && Deliver(kb, events).0.onNextKeyPress.None?
    ensures |Deliver(kb, events).1| == 0 ==> Deliver(kb, events).0.onNextKeyPress == kb.onNextKeyPress
    decreases |events|
  {
    if |events| > 0 {
      var kb1 := match events[0]
        case KeyDown(code) => OnKeyDown(kb, code).keyboard
        case KeyUp(code) => OnKeyUp(kb, code);
      DeliverFiresAtMostOnce(kb1, events[1..]);
    }
  }

  /** With a handler pending, pressing any nonzero key calls it once with that key; a
      second press of any key then calls nothing. */
  lemma HandlerFiresOnce<H>(kb: KeyState<H>, h: H, code1: int, code2: int)
    requires code1 in KeyMap && KeyMap[code1] != 0
    ensures OnKeyDown(AwaitNextKey(kb, h), code1).fired == Some(Invocation(h, KeyMap[code1]))
    ensures OnKeyDown(OnKeyDown(AwaitNextKey(kb, h), code1).keyboard, code2).fired.None?
  {
  }

  /** Logical key 0 and unmapped codes never fire the handler and leave it pending. */
  lemma KeyZeroKeepsHandler<H>(kb: KeyState<H>, code: int)
    requires kb.onNextKeyPress.Some?
    requires code !in KeyMap || KeyMap[code] == 0
    ensures OnKeyDown(kb, code).fired.None?
    ensures OnKeyDown(kb, code).keyboard.onNextKeyPress == kb.onNextKeyPress
  {
  }
}
