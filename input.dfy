/**
 * The engine's input manager: two key buffers and two mouse states, one
 * holding the previous frame and one the current frame, with the roles
 * swapped at the end of every frame so that "pressed this frame" can be
 * told apart from "held since an earlier frame".
 */
module Input {
  import opened Platform

  /** One key or mouse button: down in the current frame, and down in the frame before. */
  datatype ButtonState = ButtonState(isDown: bool, wasDown: bool)

  /** A mouse button set and the cursor position relative to the window. */
  datatype MouseState = MouseState(buttons: seq<ButtonState>, x: int, y: int)

  /**
   * The new frame's buttons, from the previous frame's buffer and the
   * platform's answers: each entry's `isDown` is the platform's flag and
   * its `wasDown` is the previous frame's `isDown`.
   */
  function Advance(previous: seq<ButtonState>, down: seq<bool>): (r: seq<ButtonState>)
    requires |previous| == |down|
    ensures |r| == |down|
  {
    seq(|down|, i requires 0 <= i < |down| => ButtonState(down[i], previous[i].isDown))
  }

  /** The key flags of every frame in `frames`, oldest first. */
  function KeyHistory(frames: seq<InputSnapshot>): (r: seq<seq<bool>>)
    ensures |r| == |frames|
  {
    seq(|frames|, i requires 0 <= i < |frames| => frames[i].keysDown)
  }

  /** The mouse button flags of every frame in `frames`, oldest first. */
  function MouseHistory(frames: seq<InputSnapshot>): (r: seq<seq<bool>>)
    ensures |r| == |frames|
  {
    seq(|frames|, i requires 0 <= i < |frames| => frames[i].mouseDown)
  }

  /**
   * `view` agrees with the platform's answers `downs` (oldest first): its
   * `isDown` flags are the latest answers and its `wasDown` flags the ones
   * before. Nothing is claimed about a flag no frame has written yet.
   */
  ghost predicate ButtonsReflect(view: seq<ButtonState>, downs: seq<seq<bool>>)
    requires forall i :: 0 <= i < |downs| ==> |downs[i]| == |view|
  {
    |downs| > 0 ==>
      forall k :: 0 <= k < |view| ==>
        view[k].isDown == downs[|downs| - 1][k] &&
        (|downs| > 1 ==> view[k].wasDown == downs[|downs| - 2][k])
  }

  /** Processing one more frame keeps a buffer in step with the platform's answers. */
  lemma AdvanceReflects(previous: seq<ButtonState>, down: seq<bool>, downs: seq<seq<bool>>)
    requires |previous| == |down|
    requires forall i :: 0 <= i < |downs| ==> |downs[i]| == |previous|
    requires ButtonsReflect(previous, downs)
    ensures ButtonsReflect(Advance(previous, down), downs + [down])
  {
    var next := downs + [down];
    assert next[|next| - 1] == down;
    if |downs| > 0 {
      assert next[|next| - 2] == downs[|downs| - 1];
    }
  }

  ghost predicate AllWellFormed(frames: seq<InputSnapshot>)
  {
    forall i :: 0 <= i < |frames| ==> frames[i].WellFormed()
  }

  /** A key buffer and a mouse state that agree with the platform's answers in `frames`. */
  ghost predicate Reflects(keys: seq<ButtonState>, mouse: MouseState, frames: seq<InputSnapshot>)
    requires |keys| == KEY_COUNT && |mouse.buttons| == MOUSE_BUTTON_COUNT && AllWellFormed(frames)
  {
    ButtonsReflect(keys, KeyHistory(frames)) &&
    ButtonsReflect(mouse.buttons, MouseHistory(frames)) &&
    (|frames| > 0 ==> mouse.x == frames[|frames| - 1].mouseX && mouse.y == frames[|frames| - 1].mouseY)
  }

  class InputManager {
    /** `buttons[2][KeyCount]`: row `oldButtons` is the previous frame, row `newButtons` the current one. */
    const buttons: array2<ButtonState>
    var oldButtons: nat
    var newButtons: nat
    /** `mouse_states[2]`, with `oldMouse` and `newMouse` in the roles of the two pointers. */
    const mouseStates: array<MouseState>
    var oldMouse: nat
    var newMouse: nat

    /** The platform's answers for every frame processed so far, oldest first. */
    ghost var frames: seq<InputSnapshot>
    /** The current frame has been processed and not yet ended. */
    ghost var inFrame: bool

    ghost predicate Valid()
      reads this, mouseStates
    {
      buttons.Length0 == 2 && buttons.Length1 == KEY_COUNT && mouseStates.Length == 2 &&
      oldButtons < 2 && newButtons == 1 - oldButtons &&
      oldMouse < 2 && newMouse == 1 - oldMouse &&
      |mouseStates[0].buttons| == MOUSE_BUTTON_COUNT && |mouseStates[1].buttons| == MOUSE_BUTTON_COUNT &&
      AllWellFormed(frames)
    }

    ghost function Row(r: nat): (keys: seq<ButtonState>)
      reads this, buttons, mouseStates
      requires Valid() && r < 2
      ensures |keys| == KEY_COUNT
    {
      seq(KEY_COUNT, k requires 0 <= k < KEY_COUNT reads buttons => buttons[r, k])
    }

    /** The previous frame's key buffer. */
    ghost function OldKeys(): (keys: seq<ButtonState>)
      reads this, buttons, mouseStates
      requires Valid()
      ensures |keys| == KEY_COUNT
    {
      Row(oldButtons)
    }

    /** The current frame's key buffer. */
    ghost function NewKeys(): (keys: seq<ButtonState>)
      reads this, buttons, mouseStates
      requires Valid()
      ensures |keys| == KEY_COUNT
    {
      Row(newButtons)
    }

    ghost function OldMouse(): (m: MouseState)
      reads this, mouseStates
      requires Valid()
      ensures |m.buttons| == MOUSE_BUTTON_COUNT
    {
      mouseStates[oldMouse]
    }

    ghost function NewMouse(): (m: MouseState)
      reads this, mouseStates
      requires Valid()
      ensures |m.buttons| == MOUSE_BUTTON_COUNT
    {
      mouseStates[newMouse]
    }

    /**
     * The buffers agree with the frames processed so far. During a frame the
     * current buffers reflect every frame and the previous buffers every
     * frame but the last; between frames the previous buffers reflect them all.
     */
    ghost predicate Tracking()
      reads this, buttons, mouseStates
      requires Valid()
    {
      if inFrame then
        |frames| > 0 &&
        Reflects(NewKeys(), NewMouse(), frames) &&
        Reflects(OldKeys(), OldMouse(), frames[..|frames| - 1])
      else
        Reflects(OldKeys(), OldMouse(), frames)
    }

    /**
     * Row 0 and mouse state 0 start as the previous frame. C++ leaves the
     * contents of both buffers indeterminate, and so does this contract:
     * the key rows are left at whatever Dafny allocates, and the mouse states
     * get three released buttons at (0, 0) only because a `MouseState` needs
     * a button list; no ensures clause mentions either.
     */
    constructor ()
      ensures Valid() && Tracking()
      ensures oldButtons == 0 && newButtons == 1 && oldMouse == 0 && newMouse == 1
      ensures frames == [] && !inFrame
      ensures fresh(buttons) && fresh(mouseStates)
    {
      buttons := new ButtonState[2, KEY_COUNT];
      mouseStates := new MouseState[2](_ => MouseState([ButtonState(false, false), ButtonState(false, false), ButtonState(false, false)], 0, 0));
      oldButtons, newButtons := 0, 1;
      oldMouse, newMouse := 0, 1;
      frames, inFrame := [], false;
    }

    /** Whether `key` is down in the current frame. */
    function IsKeyDown(key: Key): (r: bool)
      reads this, buttons, mouseStates
      requires Valid()
      ensures r == NewKeys()[key].isDown
      ensures Tracking() && inFrame ==> (r <==> frames[|frames| - 1].keysDown[key])
    {
      buttons[newButtons, key].isDown
    }

    /**
     * Whether `key` went down in the current frame. From the second frame on
     * this is "down now and up in the previous frame"; in the first frame
     * the previous-frame flag is whatever the buffer held.
     */
    function IsKeyDownOnce(key: Key): (r: bool)
      reads this, buttons, mouseStates
      requires Valid()
      ensures r == (NewKeys()[key].isDown && !NewKeys()[key].wasDown)
      ensures Tracking() && inFrame && |frames| > 1 ==>
        (r <==> frames[|frames| - 1].keysDown[key] && !frames[|frames| - 2].keysDown[key])
    {
      assert |frames| > 1 ==> KeyHistory(frames)[|frames| - 2] == frames[|frames| - 2].keysDown;
      assert Tracking() && inFrame ==> ButtonsReflect(NewKeys(), KeyHistory(frames));
      assert NewKeys()[key] == buttons[newButtons, key];
      buttons[newButtons, key].isDown && !buttons[newButtons, key].wasDown
    }

    /** The cursor position reported for the current frame. */
    function GetMousePosition(): (r: (int, int))
      reads this, mouseStates
      requires Valid()
      ensures r == (NewMouse().x, NewMouse().y)
      ensures Tracking() && inFrame ==> r == (frames[|frames| - 1].mouseX, frames[|frames| - 1].mouseY)
    {
      (mouseStates[newMouse].x, mouseStates[newMouse].y)
    }

    /** How far the cursor moved since the previous frame. */
    function GetMouseDelta(): (r: (int, int))
      reads this, mouseStates
      requires Valid()
      ensures r == (NewMouse().x - OldMouse().x, NewMouse().y - OldMouse().y)
      ensures Tracking() && inFrame && |frames| > 1 ==>
        r == (frames[|frames| - 1].mouseX - frames[|frames| - 2].mouseX,
              frames[|frames| - 1].mouseY - frames[|frames| - 2].mouseY)
    {
      var (x, y) := GetMousePosition();
      (x - mouseStates[oldMouse].x, y - mouseStates[oldMouse].y)
    }

    /** Whether mouse button `button` is down in the current frame. */
    function IsMouseButtonDown(button: MouseButton): (r: bool)
      reads this, mouseStates
      requires Valid()
      ensures r == NewMouse().buttons[button].isDown
      ensures Tracking() && inFrame ==> (r <==> frames[|frames| - 1].mouseDown[button])
    {
      mouseStates[newMouse].buttons[button].isDown
    }

    /** Whether mouse button `button` went down in the current frame. */
    function IsMouseButtonDownOnce(button: MouseButton): (r: bool)
      reads this, mouseStates
      requires Valid()
      ensures r == (NewMouse().buttons[button].isDown && !NewMouse().buttons[button].wasDown)
      ensures Tracking() && inFrame && |frames| > 1 ==>
        (r <==> frames[|frames| - 1].mouseDown[button] && !frames[|frames| - 2].mouseDown[button])
    {
      mouseStates[newMouse].buttons[button].isDown && !mouseStates[newMouse].buttons[button].wasDown
    }

    /**
     * Fills the current frame's buffers from the platform's answers `s`:
     * every key, then the cursor position, then the three mouse buttons,
     * each button taking its `wasDown` from the previous frame's buffer.
     */
    method ProcessKeys(s: InputSnapshot)
      requires Valid() && s.WellFormed()
      modifies this, buttons, mouseStates
      ensures Valid()
      ensures oldButtons == old(oldButtons) && newButtons == old(newButtons)
      ensures oldMouse == old(oldMouse) && newMouse == old(newMouse)
      ensures NewKeys() == Advance(old(OldKeys()), s.keysDown) && OldKeys() == old(OldKeys())
      ensures NewMouse() == MouseState(Advance(old(OldMouse()).buttons, s.mouseDown), s.mouseX, s.mouseY)
      ensures OldMouse() == old(OldMouse())
      ensures frames == old(frames) + [s] && inFrame
      ensures old(!inFrame && Tracking()) ==> Tracking()
    {
      for i := 0 to KEY_COUNT
        modifies buttons
        invariant forall k :: 0 <= k < i ==> buttons[newButtons, k] == ButtonState(s.keysDown[k], old(buttons[oldButtons, k]).isDown)
        invariant forall k :: 0 <= k < KEY_COUNT ==> buttons[oldButtons, k] == old(buttons[oldButtons, k])
      {
        buttons[newButtons, i] := ButtonState(s.keysDown[i], buttons[oldButtons, i].isDown);
      }
      mouseStates[newMouse] := mouseStates[newMouse].(x := s.mouseX, y := s.mouseY);
      for i := 0 to MOUSE_BUTTON_COUNT
        modifies mouseStates
        invariant mouseStates[newMouse].x == s.mouseX && mouseStates[newMouse].y == s.mouseY
        invariant |mouseStates[newMouse].buttons| == MOUSE_BUTTON_COUNT
        invariant forall b :: 0 <= b < i ==>
          mouseStates[newMouse].buttons[b] == ButtonState(s.mouseDown[b], old(mouseStates[oldMouse]).buttons[b].isDown)
        invariant mouseStates[oldMouse] == old(mouseStates[oldMouse])
      {
        var m := mouseStates[newMouse];
        mouseStates[newMouse] := m.(buttons := m.buttons[i := ButtonState(s.mouseDown[i], mouseStates[oldMouse].buttons[i].isDown)]);
      }
      ghost var before := frames;
      frames, inFrame := frames + [s], true;
      if old(!inFrame && Tracking()) {
        assert KeyHistory(frames) == KeyHistory(before) + [s.keysDown];
        assert MouseHistory(frames) == MouseHistory(before) + [s.mouseDown];
        AdvanceReflects(old(OldKeys()), s.keysDown, KeyHistory(before));
        AdvanceReflects(old(OldMouse()).buttons, s.mouseDown, MouseHistory(before));
        assert frames[..|frames| - 1] == before;
      }
    }

    /** Swaps the roles of the two key buffers and of the two mouse states. */
    method EndFrame()
      requires Valid()
      modifies this
      ensures Valid()
      ensures oldButtons == old(newButtons) && newButtons == old(oldButtons)
      ensures oldMouse == old(newMouse) && newMouse == old(oldMouse)
      ensures OldKeys() == old(NewKeys()) && NewKeys() == old(OldKeys())
      ensures OldMouse() == old(NewMouse()) && NewMouse() == old(OldMouse())
      ensures frames == old(frames) && !inFrame
      ensures old(inFrame && Tracking()) ==> Tracking()
    {
      oldButtons, newButtons := newButtons, oldButtons;
      oldMouse, newMouse := newMouse, oldMouse;
      inFrame := false;
    }
  }

  /** Two `endFrame`s in a row give both buffers back their original roles. */
  method EndFrameTwice(input: InputManager)
    requires input.Valid()
    modifies input
    ensures input.Valid()
    ensures input.oldButtons == old(input.oldButtons) && input.newButtons == old(input.newButtons)
    ensures input.oldMouse == old(input.oldMouse) && input.newMouse == old(input.newMouse)
  {
    input.EndFrame();
    input.EndFrame();
  }
}
