/**
 * The older, global light switches: four flags that start on, a key
 * callback that flips one of them on a press, and the ambient light record
 * refreshed after every event.
 */
module GlobalLights {
  import opened Vectors

  /** `GLFW_RELEASE`, `GLFW_PRESS` and `GLFW_REPEAT`, as GLFW's public header defines them. */
  const GLFW_RELEASE: int := 0
  const GLFW_PRESS: int := 1
  const GLFW_REPEAT: int := 2

  /** `GLFW_KEY_1` to `GLFW_KEY_4`: the key codes of the digits, their ASCII codes. */
  const GLFW_KEY_1: int := 49
  const GLFW_KEY_2: int := 50
  const GLFW_KEY_3: int := 51
  const GLFW_KEY_4: int := 52

  datatype Flags = Flags(
    luzAmbienteAtiva: bool,
    luzDirecionalAtiva: bool,
    luzPontualAtiva: bool,
    luzConicaAtiva: bool)

  /** The `AmbientLight` struct. */
  datatype AmbientLight = AmbientLight(color: Vec3, intensity: real)

  /** The program-wide state the callbacks touch. */
  datatype Globals = Globals(flags: Flags, ambientLight: AmbientLight)

  /** White at half intensity, what an active ambient light is set to. */
  const LitAmbient := AmbientLight(Vec3(1.0, 1.0, 1.0), 0.5)

  /** Start-up: all flags on; `ambientLight` has static storage and so starts zeroed. */
  const Initial := Globals(Flags(true, true, true, true), AmbientLight(Vec3(0.0, 0.0, 0.0), 0.0))

  /** The flag selected by the digit keys 1 to 4 (`GLFW_KEY_1 + i - 1`). */
  function Flag(f: Flags, i: int): bool
    requires 1 <= i <= 4
  {
    if i == 1 then f.luzAmbienteAtiva
    else if i == 2 then f.luzDirecionalAtiva
    else if i == 3 then f.luzPontualAtiva
    else f.luzConicaAtiva
  }

  function KeyOf(i: int): int
    requires 1 <= i <= 4
  {
    GLFW_KEY_1 + i - 1
  }

  /** The `switch` of `HandleKeyboardInput`, taken only on a press; there is no default case. */
  function ApplyKey(f: Flags, key: int, action: int): (r: Flags)
    ensures action != GLFW_PRESS ==> r == f
    ensures forall i | 1 <= i <= 4 ::
      Flag(r, i) == (if action == GLFW_PRESS && key == KeyOf(i) then !Flag(f, i) else Flag(f, i))
  {
    if action != GLFW_PRESS then f
    else if key == GLFW_KEY_1 then f.(luzAmbienteAtiva := !f.luzAmbienteAtiva)
    else if key == GLFW_KEY_2 then f.(luzDirecionalAtiva := !f.luzDirecionalAtiva)
    else if key == GLFW_KEY_3 then f.(luzPontualAtiva := !f.luzPontualAtiva)
    else if key == GLFW_KEY_4 then f.(luzConicaAtiva := !f.luzConicaAtiva)
    else f
  }

  /** `UpdateLightSources`: only an active ambient light writes the record; an inactive one leaves it. */
  function UpdateLightSources(g: Globals): (r: Globals)
    ensures r.flags == g.flags
    ensures g.flags.luzAmbienteAtiva ==> r.ambientLight == LitAmbient
    ensures !g.flags.luzAmbienteAtiva ==> r.ambientLight == g.ambientLight
  {
    if g.flags.luzAmbienteAtiva then g.(ambientLight := AmbientLight(Vec3(1.0, 1.0, 1.0), 0.5))
    else g
  }

  /** `HandleKeyboardInput`: the switch, then `UpdateLightSources` whatever the event. */
  function HandleKeyboardInput(g: Globals, key: int, action: int): (r: Globals)
    ensures r.flags == ApplyKey(g.flags, key, action)
    ensures r.flags.luzAmbienteAtiva ==> r.ambientLight == LitAmbient
    ensures !r.flags.luzAmbienteAtiva ==> r.ambientLight == g.ambientLight
  {
    UpdateLightSources(g.(flags := ApplyKey(g.flags, key, action)))
  }

  /** Only a press can change a flag. */
  lemma OnlyPressToggles(g: Globals, key: int, action: int)
    requires action != GLFW_PRESS
    ensures HandleKeyboardInput(g, key, action).flags == g.flags
  {
  }

  /** A key other than the four digits changes no flag, even on a press. */
  lemma OtherKeysIgnored(g: Globals, key: int, action: int)
    requires key < GLFW_KEY_1 || key > GLFW_KEY_4
    ensures HandleKeyboardInput(g, key, action).flags == g.flags
  {
  }

  /** Pressing the digit `i` flips flag `i` and no other. */
  lemma PressFlipsOne(g: Globals, i: int)
    requires 1 <= i <= 4
    ensures forall j | 1 <= j <= 4 ::
      Flag(HandleKeyboardInput(g, KeyOf(i), GLFW_PRESS).flags, j) == (if j == i then !Flag(g.flags, j) else Flag(g.flags, j))
  {
  }

  /** A run of keyboard events `(key, action)`, handled in order. */
  function HandleAll(g: Globals, events: seq<(int, int)>): Globals
    decreases |events|
  {
    if events == [] then g else HandleAll(HandleKeyboardInput(g, events[0].0, events[0].1), events[1..])
  }

  /**
   * Once at least one event has been handled, an active ambient flag always
   * comes with the lit ambient record, and the record is either still the
   * one the run started from or the lit one: an inactive light is never
   * switched off in the record.
   */
  lemma {:induction false} AmbientFollowsFlag(g: Globals, events: seq<(int, int)>)
    requires events != []
    ensures var r := HandleAll(g, events);
      && (r.flags.luzAmbienteAtiva ==> r.ambientLight == LitAmbient)
      && (r.ambientLight == g.ambientLight || r.ambientLight == LitAmbient)
    decreases |events|
  {
    var g1 := HandleKeyboardInput(g, events[0].0, events[0].1);
    if |events| > 1 {
      AmbientFollowsFlag(g1, events[1..]);
    }
  }

  /** All four global flags start on, yet before any event the ambient record is still unlit. */
  lemma StartUnlit()
    ensures forall i | 1 <= i <= 4 :: Flag(Initial.flags, i)
    ensures Initial.ambientLight != LitAmbient
  {
  }
}
