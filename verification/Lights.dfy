/**
 * The `Lights` class: four enable flags, all off at construction, each
 * flipped by one of the keys 1 to 4.
 */
module LightToggles {

  datatype Lights = Lights(
    isAmbientLightEnabled: bool,
    isDirectionalLightEnabled: bool,
    isPointLightEnabled: bool,
    isSpotLightEnabled: bool)

  /** The keys `ToggleLight` reacts to, one per flag. */
  predicate IsLightKey(key: int) {
    1 <= key <= 4
  }

  /** The flag key `k` selects: 1 ambient, 2 directional, 3 point, 4 spot. */
  function Flag(l: Lights, k: int): bool
    requires IsLightKey(k)
  {
    match k
    case 1 => l.isAmbientLightEnabled
    case 2 => l.isDirectionalLightEnabled
    case 3 => l.isPointLightEnabled
    case _ => l.isSpotLightEnabled
  }

  /** Two states with the same four flags are the same state. */
  lemma FlagsDetermineState(a: Lights, b: Lights)
    requires forall k | IsLightKey(k) :: Flag(a, k) == Flag(b, k)
    ensures a == b
  {
    assert Flag(a, 1) == Flag(b, 1) && Flag(a, 2) == Flag(b, 2);
    assert Flag(a, 3) == Flag(b, 3) && Flag(a, 4) == Flag(b, 4);
  }

  /** `Lights::Lights()`. */
  function NewLights(): (l: Lights)
    ensures forall k | IsLightKey(k) :: !Flag(l, k)
  {
    Lights(false, false, false, false)
  }

  /** `Lights::ToggleLight` without its console output. */
  function ToggleLight(l: Lights, key: int): (r: Lights)
    ensures forall k | IsLightKey(k) :: Flag(r, k) == (if k == key then !Flag(l, k) else Flag(l, k))
    ensures !IsLightKey(key) ==> r == l
  {
    match key
    case 1 => l.(isAmbientLightEnabled := !l.isAmbientLightEnabled)
    case 2 => l.(isDirectionalLightEnabled := !l.isDirectionalLightEnabled)
    case 3 => l.(isPointLightEnabled := !l.isPointLightEnabled)
    case 4 => l.(isSpotLightEnabled := !l.isSpotLightEnabled)
    case _ => l
  }

  /** Pressing the same key twice restores the flags. */
  lemma ToggleTwice(l: Lights, key: int)
    ensures ToggleLight(ToggleLight(l, key), key) == l
  {
    FlagsDetermineState(ToggleLight(ToggleLight(l, key), key), l);
  }

  /** The order of two presses does not matter. */
  lemma ToggleCommutes(l: Lights, a: int, b: int)
    ensures ToggleLight(ToggleLight(l, a), b) == ToggleLight(ToggleLight(l, b), a)
  {
    FlagsDetermineState(ToggleLight(ToggleLight(l, a), b), ToggleLight(ToggleLight(l, b), a));
  }

  /** A run of key presses, handled in order. */
  function ToggleAll(l: Lights, keys: seq<int>): Lights
    decreases |keys|
  {
    if keys == [] then l else ToggleAll(ToggleLight(l, keys[0]), keys[1..])
  }

  function Occurrences(keys: seq<int>, k: int): nat
    decreases |keys|
  {
    if keys == [] then 0 else (if keys[0] == k then 1 else 0) + Occurrences(keys[1..], k)
  }

  /**
   * After any run of presses each flag has been flipped once per press of
   * its key: it differs from where it started exactly when its key was
   * pressed an odd number of times.
   */
  lemma {:induction false} ToggleAllParity(l: Lights, keys: seq<int>, k: int)
    requires IsLightKey(k)
    ensures Flag(ToggleAll(l, keys), k) == (Flag(l, k) != (Occurrences(keys, k) % 2 == 1))
    decreases |keys|
  {
    if keys != [] {
      ToggleAllParity(ToggleLight(l, keys[0]), keys[1..], k);
    }
  }

  /** Starting from a fresh `Lights`, a light is on exactly when its key was pressed an odd number of times. */
  lemma FromStartParity(keys: seq<int>, k: int)
    requires IsLightKey(k)
    ensures Flag(ToggleAll(NewLights(), keys), k) <==> Occurrences(keys, k) % 2 == 1
  {
    ToggleAllParity(NewLights(), keys, k);
  }
}
