/**
 * The part of the platform layer's interface the input code reads: the
 * keyboard and mouse enumerations, and one frame's worth of answers from
 * the platform's keyboard and mouse queries.
 */
module Platform {

  /** `Key::KeyCount`: 10 digits, 26 letters, 10 keypad digits, F1-F24 and 21 named keys. */
  const KEY_COUNT: nat := 91
  /** The three `MouseButton` values: Left, Middle, Right. */
  const MOUSE_BUTTON_COUNT: nat := 3

  /** A `Key` enumerator, by its position in the enumeration. */
  type Key = k: nat | k < KEY_COUNT

  const KEY_F1: Key := 46
  const KEY_F11: Key := 56
  const KEY_RCTRL: Key := 74
  const KEY_LCTRL: Key := 75
  const KEY_LSHIFT: Key := 76
  const KEY_RSHIFT: Key := 77
  const KEY_ESCAPE: Key := 78
  const KEY_LALT: Key := 81
  const KEY_RALT: Key := 82
  const KEY_LGUI: Key := 89
  const KEY_RGUI: Key := 90

  /** A `MouseButton` enumerator: 0 Left, 1 Middle, 2 Right. */
  type MouseButton = b: nat | b < MOUSE_BUTTON_COUNT

  /**
   * What `getKeyDown`, `getMouseDown` and `getMousePosition` answer during
   * one frame: a flag per key, a flag per mouse button, and the cursor
   * position relative to the window.
   */
  datatype InputSnapshot = InputSnapshot(keysDown: seq<bool>, mouseDown: seq<bool>, mouseX: int, mouseY: int)
  {
    predicate WellFormed()
    {
      |keysDown| == KEY_COUNT && |mouseDown| == MOUSE_BUTTON_COUNT
    }
  }
}
