/**
 * Input handling of the edit program's 3D canvas (World3dCanvas): the set of
 * held key codes, the mouse lock and pointer positions, the movement produced
 * by each input tick, the camera move speed adjusted by the mouse wheel and
 * the aspect ratio set on resize.
 *
 * `Step` is the reference definition of how one event changes the canvas
 * state; the class `World3dCanvas` updates its fields in place and each of
 * its methods is proved to agree with `Step`.
 */
module Canvas {

  // wxWidgets key codes the canvas compares against
  const WXK_NONE: int := 0
  const WXK_ESCAPE: int := 27
  const WXK_SPACE: int := 32
  const WXK_SHIFT: int := 306

  // the navigation key map
  const KEY_UP: int := WXK_SPACE
  const KEY_DOWN: int := WXK_SHIFT
  const KEY_FORWARDS: int := 87
  const KEY_BACKWARDS: int := 83
  const KEY_LEFT: int := 65
  const KEY_RIGHT: int := 68

  const LOOK_SENSITIVITY: real := 0.07
  const WHEEL_STEP: real := 0.2
  const MIN_MOVE_SPEED: real := 0.1

  datatype Pointer = Pointer(x: real, y: real)

  /** Everything the canvas's input handlers read or write. `moveSpeed` and
      `aspectRatio` are the render world's camera speed and aspect ratio. */
  datatype CanvasState = CanvasState(
    keys: set<int>,
    mouseLock: bool,
    mouse: Pointer,
    lastMouse: Pointer,
    moveSpeed: real,
    aspectRatio: real,
    width: int,
    height: int)

  datatype Event =
    | KeyPress(unicodeKey: int, keyCode: int)
    | KeyRelease(unicodeKey: int, keyCode: int)
    | FocusLost
    | MiddleClick(at: Pointer)
    | MouseMotion(at: Pointer)
    | InputTick
    | Wheel(rotation: int, wheelDelta: int)
    | Resize(width: int, height: int)

  /** The arguments handed to the render world's camera each tick. */
  datatype Movement = Movement(forward: int, up: int, right: int, pitch: real, yaw: real)

  /** A key event's code: its Unicode key, or its raw key code when it has none. */
  function EventKey(unicodeKey: int, keyCode: int): int {
    if unicodeKey == WXK_NONE then keyCode else unicodeKey
  }

  /** One movement axis from a pair of opposing keys. */
  function Axis(keys: set<int>, plus: int, minus: int): (r: int)
    ensures -1 <= r <= 1
    ensures r == 1 <==> plus in keys && minus !in keys
    ensures r == -1 <==> minus in keys && plus !in keys
    ensures r == 0 <==> (plus in keys <==> minus in keys)
  {
    (if plus in keys then 1 else 0) - (if minus in keys then 1 else 0)
  }

  function Centre(width: int, height: int): Pointer {
    Pointer(width as real / 2.0, height as real / 2.0)
  }

  /** The movement one input tick hands to the camera: each axis is a unit step or
      none, and the camera only turns while the mouse is locked and has moved. */
  function TickMovement(v: CanvasState): (m: Movement)
    ensures -1 <= m.forward <= 1 && -1 <= m.up <= 1 && -1 <= m.right <= 1
    ensures m.forward == 0 <==> (KEY_FORWARDS in v.keys <==> KEY_BACKWARDS in v.keys)
    ensures m.up == 0 <==> (KEY_UP in v.keys <==> KEY_DOWN in v.keys)
    ensures m.right == 0 <==> (KEY_RIGHT in v.keys <==> KEY_LEFT in v.keys)
    ensures !v.mouseLock || v.mouse == v.lastMouse ==> m.pitch == 0.0 && m.yaw == 0.0
  {
    Movement(
      Axis(v.keys, KEY_FORWARDS, KEY_BACKWARDS),
      Axis(v.keys, KEY_UP, KEY_DOWN),
      Axis(v.keys, KEY_RIGHT, KEY_LEFT),
      if v.mouseLock then (v.mouse.y - v.lastMouse.y) * LOOK_SENSITIVITY else 0.0,
      if v.mouseLock then (v.mouse.x - v.lastMouse.x) * LOOK_SENSITIVITY else 0.0)
  }

  /** Camera speed after one wheel event: the step is added, then the floor applied. */
  function WheelSpeed(speed: real, rotation: int, wheelDelta: int): (r: real)
    requires wheelDelta != 0
    ensures r >= MIN_MOVE_SPEED
    ensures r >= speed + WHEEL_STEP * rotation as real / wheelDelta as real
    ensures speed + WHEEL_STEP * rotation as real / wheelDelta as real >= MIN_MOVE_SPEED ==>
              r == speed + WHEEL_STEP * rotation as real / wheelDelta as real
    ensures speed + WHEEL_STEP * rotation as real / wheelDelta as real < MIN_MOVE_SPEED ==> r == MIN_MOVE_SPEED
  {
    var adjusted := speed + WHEEL_STEP * rotation as real / wheelDelta as real;
    if adjusted < MIN_MOVE_SPEED then MIN_MOVE_SPEED else adjusted
  }

  /** Aspect ratio after a resize: width over height, 1 when the height is not positive. */
  function AspectFor(width: int, height: int): (r: real)
    ensures height > 0 ==> r * height as real == width as real
    ensures height <= 0 ==> r == 1.0
    ensures width > 0 ==> r > 0.0
  {
    if height > 0 then width as real / height as real else 1.0
  }

  function ReleasedMouse(v: CanvasState): CanvasState {
    v.(mouseLock := false)
  }

  function Escaped(v: CanvasState): CanvasState {
    ReleasedMouse(v.(keys := {}))
  }

  /** The reference definition of one input event. Only a key press adds a held key,
      only a middle click locks the mouse, only a wheel event changes the camera speed
      (never below the floor) and only a resize changes the size and aspect ratio. */
  function Step(v: CanvasState, e: Event): (r: CanvasState)
    ensures r.keys <= v.keys + (if e.KeyPress? then {EventKey(e.unicodeKey, e.keyCode)} else {})
    ensures r.mouseLock && !v.mouseLock ==> e.MiddleClick?
    ensures e.FocusLost? || (e.KeyPress? && EventKey(e.unicodeKey, e.keyCode) == WXK_ESCAPE) ==>
              r.keys == {} && !r.mouseLock
    ensures !e.Wheel? ==> r.moveSpeed == v.moveSpeed
    ensures e.Wheel? && e.wheelDelta != 0 ==> r.moveSpeed >= MIN_MOVE_SPEED
    ensures !e.Resize? ==> r.aspectRatio == v.aspectRatio && r.width == v.width && r.height == v.height
  {
    match e
    case KeyPress(u, c) =>
      var key := EventKey(u, c);
      var pressed := v.(keys := v.keys + {key});
      if key == WXK_ESCAPE then Escaped(pressed) else pressed
    case KeyRelease(u, c) =>
      var key := EventKey(u, c);
      if key in v.keys then v.(keys := v.keys - {key}) else v
    case FocusLost => Escaped(v)
    case MiddleClick(at) =>
      if v.mouseLock then ReleasedMouse(v) else v.(mouse := at, lastMouse := at, mouseLock := true)
    case MouseMotion(at) =>
      if v.mouseLock then v.(mouse := at) else v
    case InputTick =>
      if v.mouseLock then v.(mouse := Centre(v.width, v.height), lastMouse := Centre(v.width, v.height)) else v
    case Wheel(rotation, wheelDelta) =>
      // a zero wheel delta raises ZeroDivisionError before anything is assigned
      if wheelDelta == 0 then v else v.(moveSpeed := WheelSpeed(v.moveSpeed, rotation, wheelDelta))
    case Resize(w, h) =>
      v.(aspectRatio := AspectFor(w, h), width := w, height := h)
  }

  function Replay(v: CanvasState, evs: seq<Event>): CanvasState
    decreases |evs|
  {
    if evs == [] then v else Replay(Step(v, evs[0]), evs[1..])
  }

  /** The key codes that the key-press events of `evs` put into the set. */
  function PressedKeys(evs: seq<Event>): set<int>
    decreases |evs|
  {
    if evs == [] then {}
    else (if evs[0].KeyPress? then {EventKey(evs[0].unicodeKey, evs[0].keyCode)} else {}) + PressedKeys(evs[1..])
  }

  // ---- properties of single events ----

  /** Pressing a key other than Escape adds exactly that key and touches nothing else. */
  lemma PressAddsKey(v: CanvasState, unicodeKey: int, keyCode: int)
    requires EventKey(unicodeKey, keyCode) != WXK_ESCAPE
    ensures Step(v, KeyPress(unicodeKey, keyCode)) == v.(keys := v.keys + {EventKey(unicodeKey, keyCode)})
  {
  }

  /** Releasing a key removes it (when held) and leaves every other key as it was. */
  lemma ReleaseRemovesOnlyThatKey(v: CanvasState, unicodeKey: int, keyCode: int)
    ensures Step(v, KeyRelease(unicodeKey, keyCode)) == v.(keys := v.keys - {EventKey(unicodeKey, keyCode)})
  {
  }

  /** Releasing a key undoes pressing it, as far as the held set is concerned. */
  lemma PressThenRelease(v: CanvasState, unicodeKey: int, keyCode: int)
    requires EventKey(unicodeKey, keyCode) != WXK_ESCAPE
    ensures Step(Step(v, KeyPress(unicodeKey, keyCode)), KeyRelease(unicodeKey, keyCode)).keys
              == v.keys - {EventKey(unicodeKey, keyCode)}
  {
  }

  /** Escape and loss of focus empty the held set and unlock the mouse. */
  lemma EscapeResets(v: CanvasState, e: Event)
    requires e.FocusLost? || (e.KeyPress? && EventKey(e.unicodeKey, e.keyCode) == WXK_ESCAPE)
    ensures Step(v, e).keys == {} && !Step(v, e).mouseLock
    ensures Step(v, e).moveSpeed == v.moveSpeed && Step(v, e).aspectRatio == v.aspectRatio
  {
  }

  /** After a locked tick the pointer sits at the centre, so a tick with no motion in between looks nowhere. */
  lemma LockedTickRecentres(v: CanvasState)
    requires v.mouseLock
    ensures Step(v, InputTick).mouse == Centre(v.width, v.height)
    ensures TickMovement(Step(v, InputTick)).pitch == 0.0 && TickMovement(Step(v, InputTick)).yaw == 0.0
  {
  }

  // ---- properties of event sequences ----

  /** No event takes a camera speed that is at or above the floor below it. */
  lemma {:induction false} FloorKept(v: CanvasState, evs: seq<Event>)
    requires v.moveSpeed >= MIN_MOVE_SPEED
    ensures Replay(v, evs).moveSpeed >= MIN_MOVE_SPEED
    decreases |evs|
  {
    if evs != [] {
      FloorKept(Step(v, evs[0]), evs[1..]);
    }
  }

  /** Once any wheel event has been handled, the camera speed is at least the floor for good. */
  lemma {:induction false} FloorAfterWheel(v: CanvasState, evs: seq<Event>, i: nat)
    requires i < |evs| && evs[i].Wheel? && evs[i].wheelDelta != 0
    ensures Replay(v, evs).moveSpeed >= MIN_MOVE_SPEED
    decreases i
  {
    if i == 0 {
      FloorKept(Step(v, evs[0]), evs[1..]);
    } else {
      FloorAfterWheel(Step(v, evs[0]), evs[1..], i - 1);
    }
  }

  /** Every held key was held at the start or has been pressed since. */
  lemma {:induction false} HeldKeysWerePressed(v: CanvasState, evs: seq<Event>)
    ensures Replay(v, evs).keys <= v.keys + PressedKeys(evs)
    decreases |evs|
  {
    if evs != [] {
      HeldKeysWerePressed(Step(v, evs[0]), evs[1..]);
    }
  }

  /** The canvas (World3dCanvas): its input fields are updated in place by the event handlers. */
  class World3dCanvas {
    var keysPressed: set<int>
    var mouseLock: bool
    var mouseX: real
    var mouseY: real
    var lastMouseX: real
    var lastMouseY: real
    var cameraMoveSpeed: real
    var aspectRatio: real
    var width: int
    var height: int

    function State(): CanvasState
      reads this
    {
      CanvasState(keysPressed, mouseLock, Pointer(mouseX, mouseY), Pointer(lastMouseX, lastMouseY),
                  cameraMoveSpeed, aspectRatio, width, height)
    }

    /** The speed and aspect ratio belong to the render world, so they are given. */
    constructor (width: int, height: int, cameraMoveSpeed: real, aspectRatio: real)
      ensures State() == CanvasState({}, false, Pointer(0.0, 0.0), Pointer(0.0, 0.0),
                                     cameraMoveSpeed, aspectRatio, width, height)
    {
      keysPressed := {};
      mouseX, mouseY := 0.0, 0.0;
      lastMouseX, lastMouseY := 0.0, 0.0;
      mouseLock := false;
      this.cameraMoveSpeed := cameraMoveSpeed;
      this.aspectRatio := aspectRatio;
      this.width, this.height := width, height;
    }

    method MouseWheel(rotation: int, wheelDelta: int)
      modifies this
      ensures State() == Step(old(State()), Wheel(rotation, wheelDelta))
      ensures wheelDelta != 0 ==> cameraMoveSpeed >= MIN_MOVE_SPEED
    {
      if wheelDelta == 0 {
        return;
      }
      cameraMoveSpeed := cameraMoveSpeed + WHEEL_STEP * rotation as real / wheelDelta as real;
      if cameraMoveSpeed < MIN_MOVE_SPEED {
        cameraMoveSpeed := MIN_MOVE_SPEED;
      }
    }

    method ProcessInputs() returns (m: Movement)
      modifies this
      ensures m == TickMovement(old(State()))
      ensures State() == Step(old(State()), InputTick)
    {
      var forward, up, right := 0, 0, 0;
      var pitch, yaw := 0.0, 0.0;
      if KEY_UP in keysPressed {
        up := up + 1;
      }
      if KEY_DOWN in keysPressed {
        up := up - 1;
      }
      if KEY_FORWARDS in keysPressed {
        forward := forward + 1;
      }
      if KEY_BACKWARDS in keysPressed {
        forward := forward - 1;
      }
      if KEY_LEFT in keysPressed {
        right := right - 1;
      }
      if KEY_RIGHT in keysPressed {
        right := right + 1;
      }
      if mouseLock {
        pitch := (mouseY - lastMouseY) * LOOK_SENSITIVITY;
        yaw := (mouseX - lastMouseX) * LOOK_SENSITIVITY;
        var centre := Centre(width, height);
        mouseX, mouseY := centre.x, centre.y;
        lastMouseX, lastMouseY := centre.x, centre.y;
      } else {
        pitch := 0.0;
        yaw := 0.0;
      }
      m := Movement(forward, up, right, pitch, yaw);
    }

    method ToggleMouseLock(at: Pointer)
      modifies this
      ensures State() == Step(old(State()), MiddleClick(at))
    {
      if mouseLock {
        ReleaseMouse();
      } else {
        mouseX, mouseY := at.x, at.y;
        lastMouseX, lastMouseY := at.x, at.y;
        mouseLock := true;
      }
    }

    method ReleaseMouse()
      modifies this
      ensures State() == ReleasedMouse(old(State()))
    {
      mouseLock := false;
    }

    method OnMouseMotion(at: Pointer)
      modifies this
      ensures State() == Step(old(State()), MouseMotion(at))
    {
      if mouseLock {
        mouseX, mouseY := at.x, at.y;
      }
    }

    method OnKeyRelease(unicodeKey: int, keyCode: int)
      modifies this
      ensures State() == Step(old(State()), KeyRelease(unicodeKey, keyCode))
    {
      var key := unicodeKey;
      if key == WXK_NONE {
        key := keyCode;
      }
      if key in keysPressed {
        keysPressed := keysPressed - {key};
      }
    }

    method OnKeyPress(unicodeKey: int, keyCode: int)
      modifies this
      ensures State() == Step(old(State()), KeyPress(unicodeKey, keyCode))
    {
      var key := unicodeKey;
      if key == WXK_NONE {
        key := keyCode;
      }
      keysPressed := keysPressed + {key};
      if key == WXK_ESCAPE {
        Escape();
      }
    }

    method OnLossFocus()
      modifies this
      ensures State() == Step(old(State()), FocusLost)
    {
      Escape();
    }

    method Escape()
      modifies this
      ensures State() == Escaped(old(State()))
    {
      keysPressed := {};
      ReleaseMouse();
    }

    method SetSize(width: int, height: int)
      modifies this
      ensures State() == Step(old(State()), Resize(width, height))
    {
      if height > 0 {
        aspectRatio := width as real / height as real;
      } else {
        aspectRatio := 1.0;
      }
      this.width, this.height := width, height;
    }
  }
}
