/** The page-side engine (injected.js): a virtual gamepad in the W3C
    Gamepad "standard" layout (17 buttons, 4 axes), the key and mouse state
    the input handlers keep, the per-frame update that turns that state into
    button and axis values, the `navigator.getGamepads` override and the
    configuration messages. */
module Gamepad {
  import opened Wrappers
  import opened Strings
  import opened Settings

  // ---------------------------------------------------------------------
  // Configuration and configuration messages
  // ---------------------------------------------------------------------

  /** The live configuration object. */
  datatype Config = Config(enabled: bool, mouseSensitivity: real, invertY: bool, keyBindings: Bindings)

  /** `DEFAULT_CONFIG` */
  const DefaultConfig := Config(true, 5.0, false, DefaultBindings)

  /** `{ ...DEFAULT_CONFIG, ...patch }`: each field present in the patch wins,
      each absent one takes its default, whatever the previous configuration was. */
  function Overlay(patch: Option<ConfigPatch>): (c: Config)
    ensures patch.None? ==> c == DefaultConfig
    ensures patch.Some? ==>
      && (patch.value.enabled.Some? ==> c.enabled == patch.value.enabled.value)
      && (patch.value.enabled.None? ==> c.enabled == DefaultConfig.enabled)
      && (patch.value.mouseSensitivity.Some? ==> c.mouseSensitivity == patch.value.mouseSensitivity.value)
      && (patch.value.mouseSensitivity.None? ==> c.mouseSensitivity == DefaultConfig.mouseSensitivity)
      && (patch.value.invertY.Some? ==> c.invertY == patch.value.invertY.value)
      && (patch.value.invertY.None? ==> c.invertY == DefaultConfig.invertY)
      && (patch.value.keyBindings.Some? ==> c.keyBindings == patch.value.keyBindings.value)
      && (patch.value.keyBindings.None? ==> c.keyBindings == DefaultConfig.keyBindings)
  {
    match patch
    case None => DefaultConfig
    case Some(p) =>
      Config(
        p.enabled.GetOr(DefaultConfig.enabled),
        p.mouseSensitivity.GetOr(DefaultConfig.mouseSensitivity),
        p.invertY.GetOr(DefaultConfig.invertY),
        p.keyBindings.GetOr(DefaultConfig.keyBindings))
  }

  /** The `window` messages the engine reacts to. */
  datatype PageMessage =
    | ConfigMessage(config: Option<ConfigPatch>, keyBindings: Option<Bindings>)        // XCLOUD_KBM_CONFIG
    | UpdateConfigMessage(config: Option<ConfigPatch>, keyBindings: Option<Bindings>)  // XCLOUD_KBM_UPDATE_CONFIG
    | ToggleMessage(enabled: Option<bool>)                                              // XCLOUD_KBM_TOGGLE
    | OtherMessage(kind: string)

  /** The configuration after one `message` event; `fromWindow` says whether
      the event's source is the page's own window. */
  function AfterMessage(cfg: Config, msg: PageMessage, fromWindow: bool): (r: Config)
    ensures !fromWindow || msg.OtherMessage? ==> r == cfg
    ensures fromWindow && msg.ToggleMessage? ==>
      r.enabled == !cfg.enabled && r == cfg.(enabled := r.enabled)
    ensures fromWindow && msg.ConfigMessage? && msg.config.None? ==> r == cfg
    ensures fromWindow && ((msg.ConfigMessage? && msg.config.Some?) || msg.UpdateConfigMessage?) ==>
      r == Overlay(msg.config)
  {
    if !fromWindow then cfg
    else
      match msg
      case ConfigMessage(patch, _) => if patch.Some? then Overlay(patch) else cfg
      case UpdateConfigMessage(patch, _) => Overlay(patch)
      case ToggleMessage(_) => cfg.(enabled := !cfg.enabled)
      case OtherMessage(_) => cfg
  }

  /** An update message does not look at the configuration it replaces, nor
      at its own separate `keyBindings` field: fields it leaves out fall back
      to their defaults rather than keeping their previous values. */
  lemma UpdateForgetsPreviousConfig(c1: Config, c2: Config, patch: Option<ConfigPatch>, kb1: Option<Bindings>, kb2: Option<Bindings>)
    ensures AfterMessage(c1, UpdateConfigMessage(patch, kb1), true)
         == AfterMessage(c2, UpdateConfigMessage(patch, kb2), true)
         == Overlay(patch)
  {
  }

  /** A configuration message that carries a configuration replaces the
      current one outright, like an update: neither the previous configuration
      nor the message's separate `keyBindings` field plays any part. */
  lemma ConfigForgetsPreviousConfig(c1: Config, c2: Config, p: ConfigPatch, kb1: Option<Bindings>, kb2: Option<Bindings>)
    ensures AfterMessage(c1, ConfigMessage(Some(p), kb1), true)
         == AfterMessage(c2, ConfigMessage(Some(p), kb2), true)
         == Overlay(Some(p))
  {
  }

  /** A toggle flips `enabled` whatever flag it carries, so two toggles cancel. */
  lemma ToggleTwiceRestores(cfg: Config, e1: Option<bool>, e2: Option<bool>)
    ensures AfterMessage(AfterMessage(cfg, ToggleMessage(e1), true), ToggleMessage(e2), true) == cfg
  {
  }

  // ---------------------------------------------------------------------
  // Keyboard
  // ---------------------------------------------------------------------

  /** `!!keyState[bindings[action]]`: the key bound to `action` is held.
      An action with no binding is never held. */
  predicate IsActive(keyState: map<string, bool>, bindings: Bindings, action: string) {
    action in bindings && bindings[action] in keyState && keyState[bindings[action]]
  }

  /** `isTypingInInput`: an `input` or `textarea` element, in any letter case,
      or an editable element. */
  predicate IsTypingTarget(tagName: string, contentEditable: bool) {
    ToLower(tagName) == "input" || ToLower(tagName) == "textarea" || contentEditable
  }

  lemma TypingTargetIgnoresCase(tagName: string, contentEditable: bool)
    ensures IsTypingTarget(ToUpper(tagName), contentEditable) == IsTypingTarget(tagName, contentEditable)
  {
    LowerOfUpper(tagName);
  }

  /** A key event's default action is prevented exactly when the engine is
      enabled, some action is bound to the key, and the user is not typing. */
  function KeySuppressed(cfg: Config, code: string, tagName: string, contentEditable: bool): (r: bool)
    ensures r <==> (cfg.enabled
                    && (exists action :: action in cfg.keyBindings && cfg.keyBindings[action] == code)
                    && !IsTypingTarget(tagName, contentEditable))
  {
    cfg.enabled && code in cfg.keyBindings.Values && !IsTypingTarget(tagName, contentEditable)
  }

  /** Key state after a key goes down (`down`) or up: nothing changes while
      disabled; otherwise exactly that key takes the new state. */
  function AfterKey(cfg: Config, keyState: map<string, bool>, code: string, down: bool): (r: map<string, bool>)
    ensures !cfg.enabled ==> r == keyState
    ensures cfg.enabled ==> code in r && r[code] == down
    ensures cfg.enabled ==> r.Keys == keyState.Keys + {code}
    ensures forall k :: k in keyState && k != code ==> r[k] == keyState[k]
  {
    if cfg.enabled then keyState[code := down] else keyState
  }

  /** Auto-repeat: a second keydown of a held key changes nothing. */
  lemma KeyDownIdempotent(cfg: Config, keyState: map<string, bool>, code: string)
    ensures AfterKey(cfg, AfterKey(cfg, keyState, code, true), code, true) == AfterKey(cfg, keyState, code, true)
  {
  }

  // ---------------------------------------------------------------------
  // Mouse
  // ---------------------------------------------------------------------

  predicate InUnit(v: real) { -1.0 <= v <= 1.0 }

  function Abs(v: real): real { if v < 0.0 then -v else v }

  /** `Math.max(-1, Math.min(1, v))` */
  function Clamp(v: real): (r: real)
    ensures InUnit(r)
    ensures InUnit(v) ==> r == v
    ensures v > 1.0 ==> r == 1.0
    ensures v < -1.0 ==> r == -1.0
  {
    if v < -1.0 then -1.0 else if v > 1.0 then 1.0 else v
  }

  /** The record `mouseState`: the accumulated right-stick position and
      whether the pointer is locked. */
  datatype MouseState = MouseState(x: real, y: real, locked: bool)

  /** Right-stick travel per pixel of mouse motion. */
  function Sensitivity(cfg: Config): real {
    cfg.mouseSensitivity * 0.002
  }

  /** `handleMouseMove`: only an enabled engine with a locked pointer moves
      the accumulator, and the result is always back inside [-1, 1]. */
  function AfterMouseMove(cfg: Config, m: MouseState, movementX: real, movementY: real): (r: MouseState)
    ensures r.locked == m.locked
    ensures !(cfg.enabled && m.locked) ==> r == m
    ensures cfg.enabled && m.locked ==> InUnit(r.x) && InUnit(r.y)
    ensures cfg.enabled && m.locked ==> r.x == Clamp(m.x + movementX * Sensitivity(cfg))
    ensures cfg.enabled && m.locked && !cfg.invertY ==> r.y == Clamp(m.y + movementY * Sensitivity(cfg))
    ensures cfg.enabled && m.locked && cfg.invertY ==> r.y == Clamp(m.y - movementY * Sensitivity(cfg))
  {
    if !cfg.enabled || !m.locked then m
    else
      var s := Sensitivity(cfg);
      var x := m.x + movementX * s;
      var y := m.y + movementY * s * (if cfg.invertY then -1.0 else 1.0);
      MouseState(Clamp(x), Clamp(y), m.locked)
  }

  /** `handlePointerLockChange`: losing the lock recentres at once; gaining
      it keeps the position. */
  function AfterPointerLockChange(m: MouseState, lockedNow: bool): (r: MouseState)
    ensures r.locked == lockedNow
    ensures !lockedNow ==> r.x == 0.0 && r.y == 0.0
    ensures lockedNow ==> r.x == m.x && r.y == m.y
  {
    if lockedNow then m.(locked := true) else MouseState(0.0, 0.0, false)
  }

  /** Per-frame decay factor: 0.95 while locked, 0.8 otherwise. */
  function DecayFactor(locked: bool): real {
    if locked then 0.95 else 0.8
  }

  /** The accumulator after one frame's decay: same sign, strictly smaller
      magnitude unless already zero, never leaving [-1, 1]. */
  function Decayed(m: MouseState): (r: MouseState)
    ensures r.locked == m.locked
    ensures Abs(r.x) <= Abs(m.x) && Abs(r.y) <= Abs(m.y)
    ensures m.x != 0.0 ==> Abs(r.x) < Abs(m.x)
    ensures m.y != 0.0 ==> Abs(r.y) < Abs(m.y)
    ensures r.x * m.x >= 0.0 && r.y * m.y >= 0.0
    ensures InUnit(m.x) ==> InUnit(r.x)
    ensures InUnit(m.y) ==> InUnit(r.y)
  {
    var f := DecayFactor(m.locked);
    MouseState(m.x * f, m.y * f, m.locked)
  }

  /** `handleMouseDown` on a left click asks for pointer lock when the
      target is the stream: a VIDEO or CANVAS element or something inside a
      known stream container. */
  predicate IsStreamSurface(tagName: string, insideStreamContainer: bool) {
    tagName == "VIDEO" || tagName == "CANVAS" || insideStreamContainer
  }

  // ---------------------------------------------------------------------
  // Buttons and sticks
  // ---------------------------------------------------------------------

  datatype Button = Button(pressed: bool, touched: bool, value: int)

  const Unpressed := Button(false, false, 0)

  /** What `setButton(i, p)` writes. */
  function ButtonState(p: bool): Button {
    Button(p, p, if p then 1 else 0)
  }

  /** A button whose three fields agree, as `setButton` always leaves them. */
  predicate Consistent(b: Button) {
    b.touched == b.pressed && b.value == (if b.pressed then 1 else 0)
  }

  /** `BUTTONS`: slot of each button in the standard layout. */
  const A := 0
  const B := 1
  const X := 2
  const Y := 3
  const LB := 4
  const RB := 5
  const LT := 6
  const RT := 7
  const VIEW := 8
  const MENU := 9
  const LS := 10
  const RS := 11
  const DPAD_UP := 12
  const DPAD_DOWN := 13
  const DPAD_LEFT := 14
  const DPAD_RIGHT := 15

  /** The action that drives each of the slots 0 to 15; slot 16 is never written. */
  const ButtonActions: seq<string> := [
    "actionA", "actionB", "actionX", "actionY",
    "leftBumper", "rightBumper", "leftTrigger", "rightTrigger",
    "view", "menu", "leftStickClick", "rightStickClick",
    "dpadUp", "dpadDown", "dpadLeft", "dpadRight"
  ]

  /** Sixteen different actions drive the sixteen slots, none of them a
      movement action, so no action drives two slots. */
  lemma ButtonActionsDistinct()
    ensures |ButtonActions| == 16
    ensures forall i, j :: 0 <= i < j < 16 ==> ButtonActions[i] != ButtonActions[j]
    ensures forall i :: 0 <= i < 16 ==> ButtonActions[i] in Actions[4..]
  {
  }

  /** The buttons after an enabled frame. */
  function FrameButtons(prev: seq<Button>, bindings: Bindings, keyState: map<string, bool>): (r: seq<Button>)
    requires |prev| == 17
    ensures |r| == 17 && r[16] == prev[16]
    ensures forall i :: 0 <= i < 16 ==> r[i] == ButtonState(IsActive(keyState, bindings, ButtonActions[i]))
  {
    seq(17, i requires 0 <= i < 17 =>
      if i < 16 then ButtonState(IsActive(keyState, bindings, ButtonActions[i])) else prev[16])
  }

  /** `Math.sqrt(2)`: the IEEE double nearest the square root of 2, a little above it. */
  const Sqrt2: real := 1.4142135623730951454746218587388284504413604736328125

  /** `Math.sqrt` on the only arguments the stick computation gives it. */
  function Sqrt(sq: real): (r: real)
    requires sq == 0.0 || sq == 1.0 || sq == 2.0
    ensures r >= 0.0
    ensures r > 1.0 <==> sq > 1.0
    ensures sq <= 1.0 ==> r * r == sq
    ensures sq == 2.0 ==> 2.0 <= r * r < 2.000000000000001
  {
    if sq == 2.0 then Sqrt2 else sq
  }

  /** One raw stick component from two opposite digital directions. */
  function RawAxis(negative: bool, positive: bool): (r: real)
    ensures r == -1.0 || r == 0.0 || r == 1.0
    ensures r == 0.0 <==> negative == positive
    ensures r == -1.0 <==> negative && !positive
  {
    (if negative then -1.0 else 0.0) + (if positive then 1.0 else 0.0)
  }

  /** The left stick from the four movement directions, after diagonal
      normalisation: never longer than 1, exactly one unit along an axis
      for a single direction, equal components on a diagonal. */
  function LeftStick(left: bool, right: bool, forward: bool, backward: bool): (r: (real, real))
    ensures r.0 * r.0 + r.1 * r.1 <= 1.0
    ensures InUnit(r.0) && InUnit(r.1)
    ensures (r.0 < 0.0 <==> left && !right) && (r.0 > 0.0 <==> right && !left)
    ensures (r.1 < 0.0 <==> forward && !backward) && (r.1 > 0.0 <==> backward && !forward)
    ensures left != right && forward == backward ==> Abs(r.0) == 1.0 && r.1 == 0.0
    ensures forward != backward && left == right ==> Abs(r.1) == 1.0 && r.0 == 0.0
    ensures left != right && forward != backward ==>
      Abs(r.0) == Abs(r.1) && r.0 * r.0 + r.1 * r.1 > 0.999999999999999
  {
    var x := RawAxis(left, right);
    var y := RawAxis(forward, backward);
    SquaredLength(x, y);
    var magnitude := Sqrt(x * x + y * y);
    if magnitude > 1.0 then
      DiagonalPair(x, y, magnitude);
      (x / magnitude, y / magnitude)
    else (x, y)
  }

  /** The squared length of a raw stick vector counts its non-zero components. */
  lemma SquaredLength(x: real, y: real)
    requires x == -1.0 || x == 0.0 || x == 1.0
    requires y == -1.0 || y == 0.0 || y == 1.0
    ensures x * x + y * y == (if x != 0.0 then 1.0 else 0.0) + (if y != 0.0 then 1.0 else 0.0)
  {
  }

  /** A unit component divided by `Math.sqrt(2)` squares to just under one half. */
  lemma DiagonalScale(v: real, magnitude: real)
    requires v == 1.0 || v == -1.0
    requires 2.0 <= magnitude * magnitude < 2.000000000000001 && magnitude > 1.0
    ensures var q := v / magnitude; 0.4999999999999995 < q * q <= 0.5
    ensures v < 0.0 ==> v / magnitude < 0.0
    ensures v > 0.0 ==> v / magnitude > 0.0
    ensures -1.0 <= v / magnitude <= 1.0
  {
    var q := v / magnitude;
    assert q * magnitude == v;
    assert q * q * (magnitude * magnitude) == 1.0;
    var qq := q * q;
    var mm := magnitude * magnitude;
    assert qq * mm == 1.0;
    assert qq > 0.0;
    assert qq * mm < qq * 2.000000000000001;
    assert 1.0 < qq * 2.000000000000001;
    assert qq > 0.4999999999999995;
    assert (v / magnitude) * (v / magnitude) == qq;
    assert (v / magnitude) * (v / magnitude) > 0.4999999999999995;
  }

  /** Both components of a diagonal, divided by `Math.sqrt(2)`: the same
      length, the same signs, and together just under one unit long. */
  lemma DiagonalPair(x: real, y: real, magnitude: real)
    requires x == 1.0 || x == -1.0
    requires y == 1.0 || y == -1.0
    requires 2.0 <= magnitude * magnitude < 2.000000000000001 && magnitude > 1.0
    ensures InUnit(x / magnitude) && InUnit(y / magnitude)
    ensures (x / magnitude < 0.0 <==> x < 0.0) && (x / magnitude > 0.0 <==> x > 0.0)
    ensures (y / magnitude < 0.0 <==> y < 0.0) && (y / magnitude > 0.0 <==> y > 0.0)
    ensures Abs(x / magnitude) == Abs(y / magnitude)
    ensures var s := (x / magnitude) * (x / magnitude) + (y / magnitude) * (y / magnitude);
      0.999999999999999 < s <= 1.0
  {
    DiagonalScale(x, magnitude);
    DiagonalScale(y, magnitude);
    assert (-1.0) / magnitude == -(1.0 / magnitude);
  }

  // ---------------------------------------------------------------------
  // The gamepad and its snapshot
  // ---------------------------------------------------------------------

  /** `createGamepadSnapshot()`: an immutable point-in-time copy. */
  datatype GamepadSnapshot = GamepadSnapshot(
    id: string,
    index: int,
    connected: bool,
    timestamp: real,
    mapping: string,
    axes: seq<real>,
    buttons: seq<Button>)

  /** The engine: the virtual gamepad plus the input state and configuration
      its handlers share. */
  class Engine {
    const id: string
    const index: int
    const connected: bool
    const mapping: string
    var timestamp: real
    /** [leftX, leftY, rightX, rightY] */
    const axes: array<real>
    const buttons: array<Button>

    var config: Config
    var keyState: map<string, bool>
    var mouseX: real
    var mouseY: real
    var locked: bool

    ghost predicate Valid()
      reads this, axes, buttons
    {
      && axes.Length == 4
      && buttons.Length == 17
      && InUnit(mouseX) && InUnit(mouseY)
      && (forall i :: 0 <= i < 4 ==> InUnit(axes[i]))
      && (forall i :: 0 <= i < 17 ==> Consistent(buttons[i]))
    }

    function Mouse(): MouseState
      reads this
    {
      MouseState(mouseX, mouseY, locked)
    }

    /** `createGamepadSnapshot`: the identity fields and copies of the axes
        and of each button, as they are at the time of the call. */
    function Snapshot(): (s: GamepadSnapshot)
      reads this, axes, buttons
      ensures s.axes == axes[..] && s.buttons == buttons[..]
      ensures s.timestamp == timestamp && s.index == index && s.id == id
      ensures s.mapping == mapping && s.connected == connected
    {
      GamepadSnapshot(id, index, connected, timestamp, mapping, axes[..], buttons[..])
    }

    /** Start-up: default configuration, no keys held, mouse centred and
        unlocked, 17 released buttons and 4 centred axes. */
    constructor (now: real)
      ensures Valid() && fresh(axes) && fresh(buttons)
      ensures id == "Xbox 360 Controller (XInput STANDARD GAMEPAD)" && index == 0
      ensures connected && mapping == "standard" && timestamp == now
      ensures axes[..] == [0.0, 0.0, 0.0, 0.0]
      ensures forall i :: 0 <= i < 17 ==> buttons[i] == Unpressed
      ensures config == DefaultConfig && keyState == map[]
      ensures Mouse() == MouseState(0.0, 0.0, false)
    {
      id := "Xbox 360 Controller (XInput STANDARD GAMEPAD)";
      index := 0;
      connected := true;
      timestamp := now;
      mapping := "standard";
      var bs := new Button[17];
      for i := 0 to 17
        invariant forall j :: 0 <= j < i ==> bs[j] == Unpressed
      {
        bs[i] := Unpressed;
      }
      buttons := bs;
      axes := new real[] [0.0, 0.0, 0.0, 0.0];
      config := DefaultConfig;
      keyState := map[];
      mouseX, mouseY, locked := 0.0, 0.0, false;
    }

    /** `setButton(index, pressed)`: slot `slot` only. */
    method SetButton(slot: nat, pressed: bool)
      requires slot < buttons.Length
      modifies buttons
      ensures Consistent(buttons[slot])
      ensures buttons[slot].pressed == pressed && buttons[slot].touched == pressed
      ensures buttons[slot].value == (if pressed then 1 else 0)
      ensures buttons[slot] == ButtonState(pressed)
      ensures forall j :: 0 <= j < buttons.Length && j != slot ==> buttons[j] == old(buttons[j])
    {
      buttons[slot] := ButtonState(pressed);
    }

    /** `handleKeyDown`; returns whether the default action is prevented. */
    method HandleKeyDown(code: string, tagName: string, contentEditable: bool) returns (suppress: bool)
      requires Valid()
      modifies this`keyState
      ensures Valid()
      ensures suppress == KeySuppressed(config, code, tagName, contentEditable)
      ensures keyState == AfterKey(config, old(keyState), code, true)
    {
      if !config.enabled {
        return false;
      }
      suppress := code in config.keyBindings.Values && !IsTypingTarget(tagName, contentEditable);
      if code in keyState && keyState[code] {
        return;
      }
      keyState := keyState[code := true];
    }

    /** `handleKeyUp`; returns whether the default action is prevented. */
    method HandleKeyUp(code: string, tagName: string, contentEditable: bool) returns (suppress: bool)
      requires Valid()
      modifies this`keyState
      ensures Valid()
      ensures suppress == KeySuppressed(config, code, tagName, contentEditable)
      ensures keyState == AfterKey(config, old(keyState), code, false)
    {
      if !config.enabled {
        return false;
      }
      suppress := code in config.keyBindings.Values && !IsTypingTarget(tagName, contentEditable);
      keyState := keyState[code := false];
    }

    /** `handleMouseMove` */
    method HandleMouseMove(movementX: real, movementY: real)
      requires Valid()
      modifies this`mouseX, this`mouseY
      ensures Valid()
      ensures Mouse() == AfterMouseMove(config, old(Mouse()), movementX, movementY)
    {
      if !config.enabled || !locked {
        return;
      }
      ghost var before := Mouse();
      var sensitivity := Sensitivity(config);
      var x := mouseX + movementX * sensitivity;
      var y := mouseY + movementY * sensitivity * (if config.invertY then -1.0 else 1.0);
      assert AfterMouseMove(config, before, movementX, movementY) == MouseState(Clamp(x), Clamp(y), locked);
      mouseX, mouseY := Clamp(x), Clamp(y);
    }

    /** `handleMouseDown`; returns whether pointer lock is requested and
        whether the default action is prevented. Right (2) and middle (1)
        buttons are held as `MouseRight` and `MouseMiddle`. */
    method HandleMouseDown(button: int, tagName: string, insideStreamContainer: bool)
      returns (requestLock: bool, suppress: bool)
      requires Valid()
      modifies this`keyState
      ensures Valid()
      ensures requestLock <==> config.enabled && button == 0 && !locked && IsStreamSurface(tagName, insideStreamContainer)
      ensures suppress <==> config.enabled && (button == 1 || button == 2)
      ensures !config.enabled || (button != 1 && button != 2) ==> keyState == old(keyState)
      ensures config.enabled && button == 2 ==> keyState == old(keyState)["MouseRight" := true]
      ensures config.enabled && button == 1 ==> keyState == old(keyState)["MouseMiddle" := true]
    {
      requestLock, suppress := false, false;
      if !config.enabled {
        return;
      }
      if button == 0 && !locked {
        if IsStreamSurface(tagName, insideStreamContainer) {
          requestLock := true;
        }
      }
      if button == 2 {
        keyState := keyState["MouseRight" := true];
        suppress := true;
      }
      if button == 1 {
        keyState := keyState["MouseMiddle" := true];
        suppress := true;
      }
    }

    /** `handleMouseUp`: releases `MouseRight` / `MouseMiddle` even while disabled. */
    method HandleMouseUp(button: int)
      requires Valid()
      modifies this`keyState
      ensures Valid()
      ensures button == 2 ==> keyState == old(keyState)["MouseRight" := false]
      ensures button == 1 ==> keyState == old(keyState)["MouseMiddle" := false]
      ensures button != 1 && button != 2 ==> keyState == old(keyState)
    {
      if button == 2 {
        keyState := keyState["MouseRight" := false];
      }
      if button == 1 {
        keyState := keyState["MouseMiddle" := false];
      }
    }

    /** `handlePointerLockChange`; `lockedNow` is whether a pointer-lock element exists. */
    method HandlePointerLockChange(lockedNow: bool)
      requires Valid()
      modifies this`locked, this`mouseX, this`mouseY
      ensures Valid()
      ensures Mouse() == AfterPointerLockChange(old(Mouse()), lockedNow)
    {
      locked := lockedNow;
      if !locked {
        mouseX := 0.0;
        mouseY := 0.0;
      }
    }

    /** `handleContextMenu`: the menu is suppressed exactly when the engine
        is enabled and the right trigger is bound to the right mouse button. */
    method HandleContextMenu() returns (suppress: bool)
      ensures suppress <==> config.enabled && "rightTrigger" in config.keyBindings
                            && config.keyBindings["rightTrigger"] == "MouseRight"
    {
      suppress := config.enabled && "rightTrigger" in config.keyBindings
                  && config.keyBindings["rightTrigger"] == "MouseRight";
    }

    /** One run of `updateGamepad` at time `now`. A disabled frame changes
        nothing. An enabled frame drives slots 0 to 15 from the bound keys,
        leaves slot 16 alone, sets the left stick from the movement keys and
        the right stick from the mouse accumulator, then decays the accumulator. */
    method UpdateGamepad(now: real)
      requires Valid()
      modifies buttons, axes, this`mouseX, this`mouseY, this`timestamp
      ensures Valid()
      ensures !config.enabled ==>
        buttons[..] == old(buttons[..]) && axes[..] == old(axes[..]) &&
        Mouse() == old(Mouse()) && timestamp == old(timestamp)
      ensures config.enabled ==>
        && buttons[..] == FrameButtons(old(buttons[..]), config.keyBindings, keyState)
        && (axes[0], axes[1]) == LeftStick(
             IsActive(keyState, config.keyBindings, "moveLeft"),
             IsActive(keyState, config.keyBindings, "moveRight"),
             IsActive(keyState, config.keyBindings, "moveForward"),
             IsActive(keyState, config.keyBindings, "moveBackward"))
        && axes[2] == old(mouseX) && axes[3] == old(mouseY)
        && Mouse() == Decayed(old(Mouse()))
        && timestamp == now
    {
      if !config.enabled {
        return;
      }
      UpdateButtons();
      UpdateLeftStick();
      UpdateRightStick();
      timestamp := now;
      assert buttons[..] == FrameButtons(old(buttons[..]), config.keyBindings, keyState);
    }

    /** Slots `lo` to `hi` - 1 show whether the key bound to their action is held. */
    ghost predicate Driven(lo: nat, hi: nat)
      requires lo <= hi <= 16 && buttons.Length == 17
      reads this, buttons
    {
      forall i :: lo <= i < hi ==> buttons[i] == ButtonState(IsActive(keyState, config.keyBindings, ButtonActions[i]))
    }

    /** The button part of an enabled frame: every slot but the last follows
        its bound key. */
    method UpdateButtons()
      requires Valid()
      modifies buttons
      ensures Valid()
      ensures buttons[16] == old(buttons[16])
      ensures Driven(0, 16)
    {
      UpdateFaceButtons();
      UpdateBumpersAndTriggers();
      UpdateSpecialButtons();
      UpdateDpad();
    }

    /** Face buttons A, B, X and Y. */
    method UpdateFaceButtons()
      requires Valid()
      modifies buttons
      ensures Valid()
      ensures Driven(0, 4)
      ensures forall j :: 0 <= j < 17 && !(0 <= j < 4) ==> buttons[j] == old(buttons[j])
    {
      var bindings := config.keyBindings;
      SetButton(A, IsActive(keyState, bindings, ButtonActions[A]));
      SetButton(B, IsActive(keyState, bindings, ButtonActions[B]));
      SetButton(X, IsActive(keyState, bindings, ButtonActions[X]));
      SetButton(Y, IsActive(keyState, bindings, ButtonActions[Y]));
    }

    /** Bumpers and triggers. */
    method UpdateBumpersAndTriggers()
      requires Valid()
      modifies buttons
      ensures Valid()
      ensures Driven(4, 8)
      ensures forall j :: 0 <= j < 17 && !(4 <= j < 8) ==> buttons[j] == old(buttons[j])
    {
      var bindings := config.keyBindings;
      SetButton(LB, IsActive(keyState, bindings, ButtonActions[LB]));
      SetButton(RB, IsActive(keyState, bindings, ButtonActions[RB]));
      SetButton(LT, IsActive(keyState, bindings, ButtonActions[LT]));
      SetButton(RT, IsActive(keyState, bindings, ButtonActions[RT]));
    }

    /** View, menu and the two stick clicks. */
    method UpdateSpecialButtons()
      requires Valid()
      modifies buttons
      ensures Valid()
      ensures Driven(8, 12)
      ensures forall j :: 0 <= j < 17 && !(8 <= j < 12) ==> buttons[j] == old(buttons[j])
    {
      var bindings := config.keyBindings;
      SetButton(VIEW, IsActive(keyState, bindings, ButtonActions[VIEW]));
      SetButton(MENU, IsActive(keyState, bindings, ButtonActions[MENU]));
      SetButton(LS, IsActive(keyState, bindings, ButtonActions[LS]));
      SetButton(RS, IsActive(keyState, bindings, ButtonActions[RS]));
    }

    /** The four d-pad directions. */
    method UpdateDpad()
      requires Valid()
      modifies buttons
      ensures Valid()
      ensures Driven(12, 16)
      ensures forall j :: 0 <= j < 17 && !(12 <= j < 16) ==> buttons[j] == old(buttons[j])
    {
      var bindings := config.keyBindings;
      SetButton(DPAD_UP, IsActive(keyState, bindings, ButtonActions[DPAD_UP]));
      SetButton(DPAD_DOWN, IsActive(keyState, bindings, ButtonActions[DPAD_DOWN]));
      SetButton(DPAD_LEFT, IsActive(keyState, bindings, ButtonActions[DPAD_LEFT]));
      SetButton(DPAD_RIGHT, IsActive(keyState, bindings, ButtonActions[DPAD_RIGHT]));
    }

    /** The left stick from the movement keys, with diagonal normalisation. */
    method UpdateLeftStick()
      requires Valid()
      modifies axes
      ensures Valid()
      ensures (axes[0], axes[1]) == LeftStick(
             IsActive(keyState, config.keyBindings, "moveLeft"),
             IsActive(keyState, config.keyBindings, "moveRight"),
             IsActive(keyState, config.keyBindings, "moveForward"),
             IsActive(keyState, config.keyBindings, "moveBackward"))
      ensures axes[2] == old(axes[2]) && axes[3] == old(axes[3])
    {
      var bindings := config.keyBindings;
      var leftX, leftY := 0.0, 0.0;
      if IsActive(keyState, bindings, "moveLeft") { leftX := leftX - 1.0; }
      if IsActive(keyState, bindings, "moveRight") { leftX := leftX + 1.0; }
      if IsActive(keyState, bindings, "moveForward") { leftY := leftY - 1.0; }
      if IsActive(keyState, bindings, "moveBackward") { leftY := leftY + 1.0; }
      assert leftX == RawAxis(IsActive(keyState, bindings, "moveLeft"), IsActive(keyState, bindings, "moveRight"));
      assert leftY == RawAxis(IsActive(keyState, bindings, "moveForward"), IsActive(keyState, bindings, "moveBackward"));

      SquaredLength(leftX, leftY);
      var magnitude := Sqrt(leftX * leftX + leftY * leftY);
      if magnitude > 1.0 {
        leftX := leftX / magnitude;
        leftY := leftY / magnitude;
      }
      axes[0] := leftX;
      axes[1] := leftY;
    }

    /** The right stick from the mouse accumulator, which then decays. */
    method UpdateRightStick()
      requires Valid()
      modifies axes, this`mouseX, this`mouseY
      ensures Valid()
      ensures axes[0] == old(axes[0]) && axes[1] == old(axes[1])
      ensures axes[2] == old(mouseX) && axes[3] == old(mouseY)
      ensures Mouse() == Decayed(old(Mouse()))
    {
      axes[2] := mouseX;
      axes[3] := mouseY;
      if !locked {
        mouseX := mouseX * 0.8;
        mouseY := mouseY * 0.8;
      } else {
        mouseX := mouseX * 0.95;
        mouseY := mouseY * 0.95;
      }
    }

    /** The `navigator.getGamepads` override: while disabled, whatever the
        browser's own implementation returns (`original`); while enabled, four
        slots with a fresh snapshot in the first. */
    method GetGamepads(now: real, original: seq<Option<GamepadSnapshot>>) returns (pads: seq<Option<GamepadSnapshot>>)
      modifies this`timestamp
      ensures !config.enabled ==> pads == original && timestamp == old(timestamp)
      ensures config.enabled ==> timestamp == now && pads == [Some(Snapshot()), None, None, None]
    {
      if !config.enabled {
        return original;
      }
      timestamp := now;
      pads := [Some(Snapshot()), None, None, None];
    }

    /** The `message` listener. */
    method HandleMessage(msg: PageMessage, fromWindow: bool)
      modifies this`config
      ensures config == AfterMessage(old(config), msg, fromWindow)
    {
      if !fromWindow {
        return;
      }
      if msg.ConfigMessage? && msg.config.Some? {
        config := Overlay(msg.config);
      }
      if msg.UpdateConfigMessage? {
        config := Overlay(msg.config);
      }
      if msg.ToggleMessage? {
        config := config.(enabled := !config.enabled);
      }
    }
  }
}
