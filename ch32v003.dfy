/**
 * CH32V003 board support (firmware/src/ch32v003_hardware.rs): polled
 * paddles with level-change debouncing, an optionally active-low key
 * output, and the hardware bundle built from a configuration.
 */
module Ch32v003 {
  import opened Wrappers
  import Hal

  /** Whether a changed level read at `now` is taken: always for the first change, else once the window has passed. */
  predicate AcceptsChange(lastEdge: Option<nat>, debounceMs: nat, now: nat) {
    lastEdge.None? || Hal.DurationSince(now, lastEdge.value) >= debounceMs
  }

  /** Within the window after an accepted change, a further change is refused. */
  lemma BounceRefused(edge: nat, debounceMs: nat, now: nat)
    requires edge <= now < edge + debounceMs
    ensures !AcceptsChange(Some(edge), debounceMs, now)
  {
  }

  /** The first change ever seen, and any change after the window, is taken. */
  lemma ChangeAccepted(edge: nat, debounceMs: nat, now: nat)
    requires edge + debounceMs <= now
    ensures AcceptsChange(None, debounceMs, now)
    ensures AcceptsChange(Some(edge), debounceMs, now)
  {
  }

  /** `u32::clamp(1, 100)`. */
  function ClampDebounce(t: nat): (c: nat)
    ensures 1 <= c <= 100
    ensures 1 <= t <= 100 ==> c == t
    ensures t < 1 ==> c == 1
    ensures t > 100 ==> c == 100
  {
    if t < 1 then 1 else if t > 100 then 100 else t
  }

  lemma {:induction false} ClampIdempotent(t: nat)
    ensures ClampDebounce(ClampDebounce(t)) == ClampDebounce(t)
  {
  }

  /** A paddle on an active-low input pin, debounced on level changes. */
  class Paddle {
    /** The last stable pin level (true = high = released). */
    var lastState: bool
    var lastEdgeTime: Option<nat>
    var debounceMs: nat

    constructor ()
      ensures !lastState && lastEdgeTime.None? && debounceMs == 10
    {
      lastState := false;
      lastEdgeTime := None;
      debounceMs := 10;
    }

    /**
     * Reads the pin (`pinHigh`, whose failure is a `GpioError` that changes
     * nothing) at `now`: a changed level is taken when the debounce window
     * allows it, otherwise the last stable level is reported.
     */
    method ReadDebounced(pinHigh: Result<bool, Unit>, now: nat) returns (r: Result<bool, Hal.HalError>)
      modifies this
      ensures debounceMs == old(debounceMs)
      ensures pinHigh.Err? ==> r == Err(Hal.GpioError) && lastState == old(lastState) && lastEdgeTime == old(lastEdgeTime)
      ensures pinHigh.Ok? && (pinHigh.value == old(lastState) || !AcceptsChange(old(lastEdgeTime), debounceMs, now)) ==>
                r == Ok(old(lastState)) && lastState == old(lastState) && lastEdgeTime == old(lastEdgeTime)
      ensures pinHigh.Ok? && pinHigh.value != old(lastState) && AcceptsChange(old(lastEdgeTime), debounceMs, now) ==>
                r == Ok(pinHigh.value) && lastState == pinHigh.value && lastEdgeTime == Some(now)
    {
      if pinHigh.Err? {
        return Err(Hal.GpioError);
      }
      var current := pinHigh.value;
      if current != lastState {
        if lastEdgeTime.Some? {
          var elapsed := Hal.DurationSince(now, lastEdgeTime.value);
          if elapsed < debounceMs {
            return Ok(lastState);
          }
        }
        lastState := current;
        lastEdgeTime := Some(now);
      }
      r := Ok(lastState);
    }

    /** Pressed is the debounced level being low. */
    method IsPressed(pinHigh: Result<bool, Unit>, now: nat) returns (r: Result<bool, Hal.HalError>)
      modifies this
      ensures debounceMs == old(debounceMs)
      ensures pinHigh.Err? ==> r == Err(Hal.GpioError) && lastState == old(lastState) && lastEdgeTime == old(lastEdgeTime)
      ensures pinHigh.Ok? && (pinHigh.value == old(lastState) || !AcceptsChange(old(lastEdgeTime), debounceMs, now)) ==>
                r == Ok(!old(lastState)) && lastState == old(lastState) && lastEdgeTime == old(lastEdgeTime)
      ensures pinHigh.Ok? && pinHigh.value != old(lastState) && AcceptsChange(old(lastEdgeTime), debounceMs, now) ==>
                r == Ok(!pinHigh.value) && lastState == pinHigh.value && lastEdgeTime == Some(now)
    {
      var level := ReadDebounced(pinHigh, now);
      match level
      case Ok(high) => r := Ok(!high);
      case Err(e) => r := Err(e);
    }

    function LastEdgeTime(): Option<nat>
      reads this
    {
      lastEdgeTime
    }

    /** Any request succeeds; the stored value is clamped to 1..100 ms. */
    method SetDebounceTime(timeMs: nat) returns (r: Result<Unit, Hal.HalError>)
      modifies this
      ensures r.Ok? && debounceMs == ClampDebounce(timeMs)
      ensures lastState == old(lastState) && lastEdgeTime == old(lastEdgeTime)
    {
      debounceMs := ClampDebounce(timeMs);
      r := Ok(Unit);
    }

    /** The interrupt hooks are not implemented and report success. */
    function EnableInterrupt(): (r: Result<Unit, Hal.HalError>)
      ensures r.Ok?
    {
      Ok(Unit)
    }

    function DisableInterrupt(): (r: Result<Unit, Hal.HalError>)
      ensures r.Ok?
    {
      Ok(Unit)
    }
  }

  /** The key output; `activeLow` inverts the level. */
  class KeyOutput {
    const activeLow: bool
    /** The level last driven onto the pin. */
    var pinHigh: bool

    /** `new` only keeps the pin as handed over; `pinHigh` is the level it already had. */
    constructor (activeLow: bool, pinHigh: bool)
      ensures this.activeLow == activeLow && this.pinHigh == pinHigh
    {
      this.activeLow := activeLow;
      this.pinHigh := pinHigh;
    }

    method SetState(state: bool) returns (r: Result<Unit, Hal.HalError>)
      modifies this
      ensures r.Ok?
      ensures pinHigh == Hal.DriveLevel(state, activeLow)
    {
      var outputLevel := if activeLow then !state else state;
      pinHigh := outputLevel;
      r := Ok(Unit);
    }

    /** The output cannot be read back. */
    function GetState(): (r: Result<bool, Hal.HalError>)
      ensures r == Err(Hal.GpioError)
    {
      Err(Hal.GpioError)
    }
  }

  /** The hardware bundle: two paddles and the key output. */
  class KeyerHal {
    const ditPaddle: Paddle
    const dahPaddle: Paddle
    const keyOutput: KeyOutput

    constructor (keyActiveLow: bool, keyPinHigh: bool)
      ensures fresh(ditPaddle) && fresh(dahPaddle) && fresh(keyOutput) && ditPaddle != dahPaddle
      ensures ditPaddle.debounceMs == 10 && dahPaddle.debounceMs == 10
      ensures !ditPaddle.lastState && ditPaddle.lastEdgeTime.None? && !dahPaddle.lastState && dahPaddle.lastEdgeTime.None?
      ensures keyOutput.activeLow == keyActiveLow && keyOutput.pinHigh == keyPinHigh
    {
      ditPaddle := new Paddle();
      dahPaddle := new Paddle();
      keyOutput := new KeyOutput(keyActiveLow, keyPinHigh);
    }

    /** Sets the same clamped debounce on both paddles. */
    method SetDebounceTime(timeMs: nat) returns (r: Result<Unit, Hal.HalError>)
      requires ditPaddle != dahPaddle
      modifies ditPaddle, dahPaddle
      ensures r.Ok?
      ensures ditPaddle.debounceMs == ClampDebounce(timeMs) && dahPaddle.debounceMs == ClampDebounce(timeMs)
      ensures ditPaddle.lastState == old(ditPaddle.lastState) && ditPaddle.lastEdgeTime == old(ditPaddle.lastEdgeTime)
      ensures dahPaddle.lastState == old(dahPaddle.lastState) && dahPaddle.lastEdgeTime == old(dahPaddle.lastEdgeTime)
    {
      // Both calls always succeed, so the early returns of `?` are never taken.
      var _ := ditPaddle.SetDebounceTime(timeMs);
      var _ := dahPaddle.SetDebounceTime(timeMs);
      r := Ok(Unit);
    }

    function EnablePaddleInterrupts(): (r: Result<Unit, Hal.HalError>)
      reads this
      ensures r.Ok?
    {
      if ditPaddle.EnableInterrupt().Err? then ditPaddle.EnableInterrupt()
      else if dahPaddle.EnableInterrupt().Err? then dahPaddle.EnableInterrupt()
      else Ok(Unit)
    }

    function DisablePaddleInterrupts(): (r: Result<Unit, Hal.HalError>)
      reads this
      ensures r.Ok?
    {
      if ditPaddle.DisableInterrupt().Err? then ditPaddle.DisableInterrupt()
      else if dahPaddle.DisableInterrupt().Err? then dahPaddle.DisableInterrupt()
      else Ok(Unit)
    }
  }

  datatype Config = Config(debounceTimeMs: nat, keyActiveLow: bool, useInterrupts: bool)

  /** `Default`: 10 ms debounce, active-low key, interrupts on. */
  function DefaultConfig(): (c: Config)
    ensures c.debounceTimeMs == 10 == ClampDebounce(c.debounceTimeMs)
    ensures c.keyActiveLow && c.useInterrupts
  {
    Config(10, true, true)
  }

  /**
   * Builds the hardware and applies the configuration; every step succeeds.
   * `keyPinHigh` is the level of the key pin as handed over, which is left alone.
   */
  method InitHardware(config: Config, keyPinHigh: bool) returns (r: Result<KeyerHal, Hal.HalError>)
    ensures r.Ok?
    ensures fresh(r.value) && fresh(r.value.ditPaddle) && fresh(r.value.dahPaddle) && r.value.ditPaddle != r.value.dahPaddle
    ensures !r.value.ditPaddle.lastState && r.value.ditPaddle.lastEdgeTime.None?
    ensures !r.value.dahPaddle.lastState && r.value.dahPaddle.lastEdgeTime.None?
    ensures r.value.ditPaddle.debounceMs == ClampDebounce(config.debounceTimeMs)
    ensures r.value.dahPaddle.debounceMs == ClampDebounce(config.debounceTimeMs)
    ensures r.value.keyOutput.activeLow == config.keyActiveLow && r.value.keyOutput.pinHigh == keyPinHigh
  {
    var hardware := new KeyerHal(config.keyActiveLow, keyPinHigh);
    // Neither step can fail, so the early returns of `?` are never taken.
    var _ := hardware.SetDebounceTime(config.debounceTimeMs);
    if config.useInterrupts {
      var _ := hardware.EnablePaddleInterrupts();
    }
    r := Ok(hardware);
  }
}
