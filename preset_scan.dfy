/** The preset-selector scan of the dimmer's control loop.
    Each loop iteration reads the five active-low selector pins 15..19 in
    order; every pin that reads low overwrites `speed` with its preset
    `base_speed * (pin - 15)`. There is no early exit, so the last active pin
    in scan order (the highest-numbered one) decides the result. */
module PresetScan {

  datatype Option<T> = None | Some(value: T)

  /** `base_speed`: the speed step, also the initial value of `speed`. */
  const BaseSpeed: int := 320

  /** The selector pins, in the order the loop visits them. */
  const SelectorPins: seq<int> := [15, 16, 17, 18, 19]

  /** One reading of the selector pins: `levels[i]` is what
      `gpio_get_level` returned for `SelectorPins[i]`. */
  type PinLevels = s: seq<int> | |s| == 5 witness [1, 1, 1, 1, 1]

  /** The C test `!level`: a selector pin is active when it reads 0. */
  predicate Active(level: int)
  {
    level == 0
  }

  /** The speed that selector position `k` assigns. */
  function PresetSpeed(k: nat): int
    requires k < |SelectorPins|
  {
    BaseSpeed * (SelectorPins[k] - 15)
  }

  /** Speeds the control loop can hold: a multiple of `BaseSpeed` between
      preset 0 and preset 4. */
  predicate ValidSpeed(speed: int)
  {
    0 <= speed <= 4 * BaseSpeed && speed % BaseSpeed == 0
  }

  /** `speed` after the first `k` iterations of the scan loop. */
  function ScanPrefix(levels: PinLevels, k: nat, speed: int): int
    requires k <= |levels|
  {
    if k == 0 then speed
    else if Active(levels[k - 1]) then PresetSpeed(k - 1)
    else ScanPrefix(levels, k - 1, speed)
  }

  /** `speed` after the whole scan. */
  function Scan(levels: PinLevels, speed: int): int
  {
    ScanPrefix(levels, |levels|, speed)
  }

  /** Reference definition of the winner: the last active position below `k`,
      or None when no position below `k` is active. */
  function LastActive(levels: PinLevels, k: nat): (r: Option<nat>)
    requires k <= |levels|
    ensures r.Some? ==> r.value < k && Active(levels[r.value])
    ensures r.Some? ==> forall j :: r.value < j < k ==> !Active(levels[j])
    ensures r.None? <==> forall j :: 0 <= j < k ==> !Active(levels[j])
  {
    if k == 0 then None
    else if Active(levels[k - 1]) then Some(k - 1)
    else LastActive(levels, k - 1)
  }

  /** The value `printf` shows: C's `speed / base_speed`, which truncates
      toward zero (Dafny's `/` is Euclidean). */
  function PrintedIndex(speed: int): (r: int)
    ensures speed >= 0 ==> r * BaseSpeed <= speed < (r + 1) * BaseSpeed
    ensures speed < 0 ==> (r - 1) * BaseSpeed < speed <= r * BaseSpeed
  {
    if speed >= 0 then speed / BaseSpeed else -((-speed) / BaseSpeed)
  }

  /** Every preset is a valid speed, and its printed index is its position. */
  lemma PresetSpeedValid(k: nat)
    requires k < |SelectorPins|
    ensures ValidSpeed(PresetSpeed(k))
    ensures PrintedIndex(PresetSpeed(k)) == k
  {
    assert PresetSpeed(k) == BaseSpeed * k;
  }

  /** A valid speed prints an index in [0, 4] that gives the speed back. */
  lemma ValidSpeedIndex(speed: int)
    requires ValidSpeed(speed)
    ensures 0 <= PrintedIndex(speed) <= 4
    ensures PrintedIndex(speed) * BaseSpeed == speed
  {
  }

  /** No active pin among the first `k`: the scan leaves `speed` alone. */
  lemma {:induction false} ScanPrefixNoneActive(levels: PinLevels, k: nat, speed: int)
    requires k <= |levels|
    requires forall j :: 0 <= j < k ==> !Active(levels[j])
    ensures ScanPrefix(levels, k, speed) == speed
  {
    if k > 0 {
      ScanPrefixNoneActive(levels, k - 1, speed);
    }
  }

  /** Position `p` is active and nothing after it (below `k`) is: `p`'s
      preset is the result, whatever `speed` and the earlier pins were. */
  lemma {:induction false} ScanPrefixLastActiveWins(levels: PinLevels, k: nat, p: nat, speed: int)
    requires p < k <= |levels|
    requires Active(levels[p])
    requires forall j :: p < j < k ==> !Active(levels[j])
    ensures ScanPrefix(levels, k, speed) == PresetSpeed(p)
  {
    if k - 1 > p {
      ScanPrefixLastActiveWins(levels, k - 1, p, speed);
    }
  }

  /** The scan agrees with the reference definition: the last active pin's
      preset, or the old speed when no pin is active. */
  lemma ScanIsLastActive(levels: PinLevels, speed: int)
    ensures Scan(levels, speed) ==
      match LastActive(levels, |levels|)
      case None => speed
      case Some(p) => PresetSpeed(p)
  {
    match LastActive(levels, |levels|)
    case None =>
      ScanPrefixNoneActive(levels, |levels|, speed);
    case Some(p) =>
      ScanPrefixLastActiveWins(levels, |levels|, p, speed);
  }

  /** All pins inactive: `speed` keeps its old value. */
  lemma ScanNoneActive(levels: PinLevels, speed: int)
    requires forall j :: 0 <= j < |levels| ==> !Active(levels[j])
    ensures Scan(levels, speed) == speed
  {
    ScanPrefixNoneActive(levels, |levels|, speed);
  }

  /** Some pin active: the result is `320 * (p - 15)` for the last active pin
      `p` in scan order, i.e. the highest-numbered active pin. */
  lemma ScanHighestActivePin(levels: PinLevels, speed: int, p: nat)
    requires p < |levels| && Active(levels[p])
    requires forall j :: p < j < |levels| ==> !Active(levels[j])
    ensures Scan(levels, speed) == 320 * (SelectorPins[p] - 15)
    ensures forall j :: 0 <= j < |levels| && Active(levels[j]) ==> SelectorPins[j] <= SelectorPins[p]
  {
    ScanPrefixLastActiveWins(levels, |levels|, p, speed);
  }

  /** With at least one pin active the old speed does not matter. */
  lemma ScanForgetsOldSpeed(levels: PinLevels, speed1: int, speed2: int)
    requires exists j :: 0 <= j < |levels| && Active(levels[j])
    ensures Scan(levels, speed1) == Scan(levels, speed2)
  {
    ScanIsLastActive(levels, speed1);
    ScanIsLastActive(levels, speed2);
  }

  /** Scanning twice with the same readings gives what scanning once gives. */
  lemma ScanIdempotent(levels: PinLevels, speed: int)
    ensures Scan(levels, Scan(levels, speed)) == Scan(levels, speed)
  {
    ScanIsLastActive(levels, speed);
    ScanIsLastActive(levels, Scan(levels, speed));
  }

  /** The scan keeps `speed` valid. */
  lemma {:induction false} ScanPrefixValid(levels: PinLevels, k: nat, speed: int)
    requires k <= |levels|
    requires ValidSpeed(speed)
    ensures ValidSpeed(ScanPrefix(levels, k, speed))
  {
    if k > 0 {
      if Active(levels[k - 1]) {
        PresetSpeedValid(k - 1);
      } else {
        ScanPrefixValid(levels, k - 1, speed);
      }
    }
  }

  lemma ScanValid(levels: PinLevels, speed: int)
    requires ValidSpeed(speed)
    ensures ValidSpeed(Scan(levels, speed))
    ensures 0 <= PrintedIndex(Scan(levels, speed)) <= 4
  {
    ScanPrefixValid(levels, |levels|, speed);
    ValidSpeedIndex(Scan(levels, speed));
  }
}
