/** Data shared by the page engine, the background worker and the content
    script: key bindings, the stored configuration object and profiles. */
module Settings {
  import opened Wrappers

  /** Action name (`moveForward`, `actionA`, ...) to physical input code
      (`KeyW`, `Space`, `MouseRight`, ...); one code per action. */
  type Bindings = map<string, string>

  /** The 20 logical actions, in the order the default bindings list them. */
  const Actions: seq<string> := [
    "moveForward", "moveBackward", "moveLeft", "moveRight",
    "actionA", "actionB", "actionX", "actionY",
    "leftBumper", "rightBumper", "leftTrigger", "rightTrigger",
    "dpadUp", "dpadRight", "dpadDown", "dpadLeft",
    "view", "menu", "leftStickClick", "rightStickClick"
  ]

  /** The default bindings; the page engine and the background worker each
      carry an identical copy of this table. */
  const DefaultBindings: Bindings := map[
    "moveForward" := "KeyW",
    "moveBackward" := "KeyS",
    "moveLeft" := "KeyA",
    "moveRight" := "KeyD",
    "actionA" := "Space",
    "actionB" := "KeyE",
    "actionX" := "KeyQ",
    "actionY" := "KeyR",
    "leftBumper" := "KeyF",
    "rightBumper" := "KeyC",
    "leftTrigger" := "ShiftLeft",
    "rightTrigger" := "MouseRight",
    "dpadUp" := "Digit1",
    "dpadRight" := "Digit2",
    "dpadDown" := "Digit3",
    "dpadLeft" := "Digit4",
    "view" := "Tab",
    "menu" := "Escape",
    "leftStickClick" := "KeyV",
    "rightStickClick" := "MouseMiddle"
  ]

  /** A configuration object as stored or sent in a message: every field may
      be missing. */
  datatype ConfigPatch = ConfigPatch(
    enabled: Option<bool>,
    mouseSensitivity: Option<real>,
    invertY: Option<bool>,
    keyBindings: Option<Bindings>)

  /** `{}` */
  const EmptyPatch := ConfigPatch(None, None, None, None)

  /** A stored profile; `keyBindings` may be missing from one saved by hand. */
  datatype Profile = Profile(
    id: string,
    name: string,
    keyBindings: Option<Bindings>,
    mouseSensitivity: real,
    invertY: bool)
}
