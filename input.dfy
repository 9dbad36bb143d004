/**
 * The input system: current and previous keyboard and mouse state, updated by
 * the platform layer, with an event fired whenever a key, a button or the mouse
 * position actually changes. The events go to EventFire in C; here they are
 * appended, in order, to the `fired` log.
 */
module Input {
  import opened Defines
  import Event

  /** The size of `keyboard_state.keys`. */
  const KeyCount: nat := 256

  /** A `keyboard_state`: is each key down. */
  datatype KeyboardState = KeyboardState(keys: seq<bool>)

  /** A `mouse_state`: the position and is each button down. */
  datatype MouseState = MouseState(x: s16, y: s16, buttons: seq<bool>)

  /** One EventFire call made by the input system (sender 0). */
  datatype Fired = Fired(code: u16, context: Event.EventContext)

  /** The code fired for a key that went down or up. */
  function KeyCode(pressed: bool): (code: u16)
  {
    if pressed then Event.CodeKeyPressed else Event.CodeKeyReleased
  }

  /** The code fired for a mouse button that went down or up. */
  function ButtonCode(pressed: bool): (code: u16)
  {
    if pressed then Event.CodeButtonPressed else Event.CodeButtonReleased
  }

  /**
   * A listener can tell from the code alone what happened: a press is never
   * reported as a release, and a key event never as a button event.
   */
  lemma CodesDistinguishEvents(p: bool, q: bool)
    ensures KeyCode(p) == KeyCode(q) <==> p == q
    ensures ButtonCode(p) == ButtonCode(q) <==> p == q
    ensures KeyCode(p) != ButtonCode(q)
  {
  }

  /** The input state. `buttonCount` is BUTTON_MAX_BUTTONS. */
  class InputSystem {
    const buttonCount: nat
    var initialized: bool
    var keyboardCurrent: KeyboardState
    var keyboardPrevious: KeyboardState
    var mouseCurrent: MouseState
    var mousePrevious: MouseState
    var fired: seq<Fired>

    ghost predicate Valid()
      reads this
    {
      |keyboardCurrent.keys| == KeyCount && |keyboardPrevious.keys| == KeyCount &&
      |mouseCurrent.buttons| == buttonCount && |mousePrevious.buttons| == buttonCount
    }

    /** The zeroed static state, before InputInitialize. */
    constructor (buttonCount: nat)
      ensures Valid() && this.buttonCount == buttonCount && !initialized && fired == []
      ensures keyboardCurrent == keyboardPrevious == KeyboardState(seq(KeyCount, _ => false))
      ensures mouseCurrent == mousePrevious == MouseState(0, 0, seq(buttonCount, _ => false))
    {
      this.buttonCount := buttonCount;
      initialized := false;
      keyboardCurrent := KeyboardState(seq(KeyCount, _ => false));
      keyboardPrevious := KeyboardState(seq(KeyCount, _ => false));
      mouseCurrent := MouseState(0, 0, seq(buttonCount, _ => false));
      mousePrevious := MouseState(0, 0, seq(buttonCount, _ => false));
      fired := [];
    }

    /** InputIsKeyDown: false while not initialised. */
    function IsKeyDown(key: nat): (down: bool)
      requires Valid() && key < KeyCount
      reads this
      ensures down ==> initialized
    {
      initialized && keyboardCurrent.keys[key]
    }

    /** InputIsKeyUp: true while not initialised. */
    function IsKeyUp(key: nat): (up: bool)
      requires Valid() && key < KeyCount
      reads this
      ensures !initialized ==> up
    {
      !initialized || !keyboardCurrent.keys[key]
    }

    /** InputWasKeyDown: the key as of the last InputUpdate; false while not initialised. */
    function WasKeyDown(key: nat): (down: bool)
      requires Valid() && key < KeyCount
      reads this
      ensures down ==> initialized
    {
      initialized && keyboardPrevious.keys[key]
    }

    /** InputWasKeyUp: true while not initialised. */
    function WasKeyUp(key: nat): (up: bool)
      requires Valid() && key < KeyCount
      reads this
      ensures !initialized ==> up
    {
      !initialized || !keyboardPrevious.keys[key]
    }

    /** InputIsButtonDown: false while not initialised. */
    function IsButtonDown(button: nat): (down: bool)
      requires Valid() && button < buttonCount
      reads this
      ensures down ==> initialized
    {
      initialized && mouseCurrent.buttons[button]
    }

    /** InputIsButtonUp: true while not initialised. */
    function IsButtonUp(button: nat): (up: bool)
      requires Valid() && button < buttonCount
      reads this
      ensures !initialized ==> up
    {
      !initialized || !mouseCurrent.buttons[button]
    }

    /** InputWasButtonDown: false while not initialised. */
    function WasButtonDown(button: nat): (down: bool)
      requires Valid() && button < buttonCount
      reads this
      ensures down ==> initialized
    {
      initialized && mousePrevious.buttons[button]
    }

    /** InputWasButtonUp: true while not initialised. */
    function WasButtonUp(button: nat): (up: bool)
      requires Valid() && button < buttonCount
      reads this
      ensures !initialized ==> up
    {
      !initialized || !mousePrevious.buttons[button]
    }

    /** InputGetMousePosition: (0, 0) while not initialised. */
    function MousePosition(): (position: (int, int))
      reads this
      ensures !initialized ==> position == (0, 0)
      ensures initialized ==> position == (mouseCurrent.x, mouseCurrent.y)
    {
      if !initialized then (0, 0) else (mouseCurrent.x, mouseCurrent.y)
    }

    /** InputGetPreviousMousePosition: (0, 0) while not initialised. */
    function PreviousMousePosition(): (position: (int, int))
      reads this
      ensures !initialized ==> position == (0, 0)
      ensures initialized ==> position == (mousePrevious.x, mousePrevious.y)
    {
      if !initialized then (0, 0) else (mousePrevious.x, mousePrevious.y)
    }

    /** InputInitialize: zero all state and mark the system initialised. */
    method Initialize()
      requires Valid()
      modifies this
      ensures Valid() && initialized && fired == old(fired)
      ensures keyboardCurrent == keyboardPrevious == KeyboardState(seq(KeyCount, _ => false))
      ensures mouseCurrent == mousePrevious == MouseState(0, 0, seq(buttonCount, _ => false))
      ensures forall key :: 0 <= key < KeyCount ==> IsKeyUp(key) && WasKeyUp(key)
      ensures forall b :: 0 <= b < buttonCount ==> IsButtonUp(b) && WasButtonUp(b)
    {
      keyboardCurrent := KeyboardState(seq(KeyCount, _ => false));
      keyboardPrevious := KeyboardState(seq(KeyCount, _ => false));
      mouseCurrent := MouseState(0, 0, seq(buttonCount, _ => false));
      mousePrevious := MouseState(0, 0, seq(buttonCount, _ => false));
      initialized := true;
    }

    /** InputShutdown: only clears the initialised flag; the state is kept. */
    method Shutdown()
      modifies this`initialized
      ensures !initialized
    {
      initialized := false;
    }

    /**
     * InputUpdate: the current state becomes the previous state. Does nothing
     * while not initialised. The frame time it takes is unused.
     */
    method Update()
      requires Valid()
      modifies this`keyboardPrevious, this`mousePrevious
      ensures Valid()
      ensures !initialized ==> keyboardPrevious == old(keyboardPrevious) && mousePrevious == old(mousePrevious)
      ensures initialized ==> keyboardPrevious == keyboardCurrent && mousePrevious == mouseCurrent
      ensures forall key :: 0 <= key < KeyCount ==> WasKeyDown(key) == IsKeyDown(key)
      ensures forall b :: 0 <= b < buttonCount ==> WasButtonDown(b) == IsButtonDown(b)
      ensures PreviousMousePosition() == MousePosition()
    {
      if !initialized {
        return;
      }
      keyboardPrevious := keyboardCurrent;
      mousePrevious := mouseCurrent;
    }

    /**
     * InputProcessKey: records the key state and, only if it changed, fires
     * KEY_PRESSED or KEY_RELEASED with the key code in the first u16 word.
     * There is no initialised check.
     */
    method ProcessKey(key: nat, pressed: bool)
      requires Valid() && key < KeyCount
      modifies this`keyboardCurrent, this`fired
      ensures Valid()
      ensures keyboardCurrent.keys == old(keyboardCurrent.keys)[key := pressed]
      ensures old(keyboardCurrent.keys[key]) != pressed ==>
        fired == old(fired) + [Fired(KeyCode(pressed), Event.U16Data([key]))]
      ensures old(keyboardCurrent.keys[key]) == pressed ==> fired == old(fired)
      ensures initialized ==> IsKeyDown(key) == pressed && IsKeyUp(key) == !pressed
    {
      if keyboardCurrent.keys[key] != pressed {
        keyboardCurrent := keyboardCurrent.(keys := keyboardCurrent.keys[key := pressed]);
        fired := fired + [Fired(KeyCode(pressed), Event.U16Data([key]))];
      }
    }

    /**
     * InputProcessButton: records the button state and, only if it changed,
     * fires BUTTON_PRESSED or BUTTON_RELEASED with the button in the first u16 word.
     */
    method ProcessButton(button: nat, pressed: bool)
      requires Valid() && button < buttonCount
      modifies this`mouseCurrent, this`fired
      ensures Valid()
      ensures mouseCurrent == old(mouseCurrent).(buttons := old(mouseCurrent.buttons)[button := pressed])
      ensures old(mouseCurrent.buttons[button]) != pressed ==>
        fired == old(fired) + [Fired(ButtonCode(pressed), Event.U16Data([Truncate(button, U16Limit)]))]
      ensures old(mouseCurrent.buttons[button]) == pressed ==> fired == old(fired)
      ensures initialized ==> IsButtonDown(button) == pressed && IsButtonUp(button) == !pressed
    {
      if mouseCurrent.buttons[button] != pressed {
        mouseCurrent := mouseCurrent.(buttons := mouseCurrent.buttons[button := pressed]);
        fired := fired + [Fired(ButtonCode(pressed), Event.U16Data([Truncate(button, U16Limit)]))];
      }
    }

    /**
     * InputProcessMouseMove: records a new position and, only if it moved,
     * fires MOUSE_MOVED with x and y cast to u16 in the first two words.
     */
    method ProcessMouseMove(x: s16, y: s16)
      requires Valid()
      modifies this`mouseCurrent, this`fired
      ensures Valid()
      ensures mouseCurrent == old(mouseCurrent).(x := x, y := y)
      ensures (old(mouseCurrent.x) != x || old(mouseCurrent.y) != y) ==>
        fired == old(fired) + [Fired(Event.CodeMouseMoved, Event.U16Data([Truncate(x, U16Limit), Truncate(y, U16Limit)]))]
      ensures old(mouseCurrent.x) == x && old(mouseCurrent.y) == y ==> fired == old(fired)
      ensures initialized ==> MousePosition() == (x, y)
    {
      if mouseCurrent.x != x || mouseCurrent.y != y {
        mouseCurrent := mouseCurrent.(x := x, y := y);
        fired := fired + [Fired(Event.CodeMouseMoved, Event.U16Data([Truncate(x, U16Limit), Truncate(y, U16Limit)]))];
      }
    }

    /** InputProcessMouseWheel: no state; always fires MOUSE_WHEEL with the delta cast to u8. */
    method ProcessMouseWheel(zDelta: s8)
      modifies this`fired
      ensures fired == old(fired) + [Fired(Event.CodeMouseWheel, Event.U8Data([Truncate(zDelta, U8Limit)]))]
    {
      fired := fired + [Fired(Event.CodeMouseWheel, Event.U8Data([Truncate(zDelta, U8Limit)]))];
    }
  }

  /** For every key, "up" is exactly "not down", now and as of the last update, initialised or not. */
  lemma KeyUpIsNotDown(input: InputSystem, key: nat)
    requires input.Valid() && key < KeyCount
    ensures input.IsKeyUp(key) == !input.IsKeyDown(key)
    ensures input.WasKeyUp(key) == !input.WasKeyDown(key)
  {
  }

  /** For every button, "up" is exactly "not down", now and as of the last update. */
  lemma ButtonUpIsNotDown(input: InputSystem, button: nat)
    requires input.Valid() && button < input.buttonCount
    ensures input.IsButtonUp(button) == !input.IsButtonDown(button)
    ensures input.WasButtonUp(button) == !input.WasButtonDown(button)
  {
  }

  /**
   * A mouse position cast to u16 for MOUSE_MOVED keeps non-negative
   * coordinates and wraps negative ones by 65536.
   */
  lemma MouseMovePayload(x: s16)
    ensures 0 <= x ==> Truncate(x, U16Limit) == x
    ensures x < 0 ==> Truncate(x, U16Limit) == x + U16Limit
  {
  }
}
