/**
 * CH32V203 board support (firmware/src/ch32v203_hardware.rs): paddles
 * updated from edge interrupts with microsecond stamps, a key output that
 * remembers its state, and the unit length for a given speed.
 */
module Ch32v203 {
  import opened Wrappers
  import opened Types
  import Hal
  import Arith

  /**
   * A paddle input pin; the Dit (PA0) and Dah (PA1) pins have identical
   * code. The last edge is `as_micros() as u32`, and 0 means "no edge".
   */
  class InputPin {
    var pressed: bool
    var lastEdgeUs: nat
    var debounceMs: nat

    constructor ()
      ensures !pressed && lastEdgeUs == 0 && debounceMs == 10
    {
      pressed := false;
      lastEdgeUs := 0;
      debounceMs := 10;
    }

    /** GPIO set-up is not implemented and succeeds. */
    function Init(): (r: Result<Unit, Unit>)
      ensures r.Ok?
    {
      Ok(Unit)
    }

    /** The edge interrupt at `nowUs`: stores the new level and the truncated stamp, with no debouncing. */
    method OnInterrupt(isPressed: bool, nowUs: nat)
      modifies this
      ensures pressed == isPressed && lastEdgeUs == nowUs % U32_MODULUS
      ensures debounceMs == old(debounceMs)
    {
      pressed := isPressed;
      var stamp := nowUs % U32_MODULUS;
      lastEdgeUs := stamp;
    }

    function IsPressed(): (r: Result<bool, Hal.HalError>)
      reads this
      ensures r == Ok(pressed)
    {
      Ok(pressed)
    }

    /** The stored stamp in microseconds, with 0 read as "no edge yet". */
    function LastEdgeTime(): (r: Option<nat>)
      reads this
      ensures r.None? <==> lastEdgeUs == 0
      ensures r.Some? ==> r.value == lastEdgeUs
    {
      if lastEdgeUs == 0 then None else Some(lastEdgeUs)
    }

    /** Any value is stored, without a range check. */
    method SetDebounceTime(timeMs: nat) returns (r: Result<Unit, Hal.HalError>)
      modifies this
      ensures r.Ok? && debounceMs == timeMs
      ensures pressed == old(pressed) && lastEdgeUs == old(lastEdgeUs)
    {
      debounceMs := timeMs;
      r := Ok(Unit);
    }

    function EnableInterrupt(): (r: Result<Unit, Hal.HalError>)
      ensures r.Ok?
    {
      Ok(Unit)
    }

    function DisableInterrupt(): (r: Result<Unit, Hal.HalError>)
      ensures r.Ok?
    {
      Ok(Unit)
    }
  }

  /**
   * After an interrupt the pin reports the new level and the edge time; an
   * edge stamped at a multiple of 2^32 us reads back as no edge at all.
   */
  method EdgeReadBack(pin: InputPin, isPressed: bool, nowUs: nat) returns (edge: Option<nat>)
    modifies pin
    ensures pin.IsPressed() == Ok(isPressed)
    ensures nowUs % U32_MODULUS != 0 ==> edge == Some(nowUs % U32_MODULUS)
    ensures nowUs % U32_MODULUS == 0 ==> edge.None?
  {
    pin.OnInterrupt(isPressed, nowUs);
    edge := pin.LastEdgeTime();
  }

  /** The key output pin (PA2); it stores the requested state. */
  class KeyOutputPin {
    var state: bool

    constructor ()
      ensures !state
    {
      state := false;
    }

    function Init(): (r: Result<Unit, Unit>)
      ensures r.Ok?
    {
      Ok(Unit)
    }

    method SetState(s: bool) returns (r: Result<Unit, Hal.HalError>)
      modifies this
      ensures r.Ok? && state == s
    {
      state := s;
      r := Ok(Unit);
    }

    function GetState(): (r: Result<bool, Hal.HalError>)
      reads this
      ensures r.Ok? && r.value == state
    {
      Ok(state)
    }
  }

  /** Setting the key and reading it back gives the value set. */
  method KeyRoundTrip(key: KeyOutputPin, s: bool) returns (readBack: Result<bool, Hal.HalError>)
    modifies key
    ensures readBack == Ok(s)
  {
    var _ := key.SetState(s);
    readBack := key.GetState();
  }

  /** The board's hardware bundle; `lastUpdate` is the instant it was built. */
  class KeyerHal {
    const ditPin: InputPin
    const dahPin: InputPin
    const keyOutput: KeyOutputPin
    const interruptCtrl: Hal.NoOpInterruptController
    const lastUpdate: nat

    constructor (now: nat)
      ensures fresh(ditPin) && fresh(dahPin) && fresh(keyOutput) && ditPin != dahPin
      ensures !ditPin.pressed && !dahPin.pressed && !keyOutput.state
      ensures ditPin.lastEdgeUs == 0 && dahPin.lastEdgeUs == 0 && ditPin.debounceMs == 10 && dahPin.debounceMs == 10
      ensures lastUpdate == now
    {
      ditPin := new InputPin();
      dahPin := new InputPin();
      keyOutput := new KeyOutputPin();
      interruptCtrl := new Hal.NoOpInterruptController();
      lastUpdate := now;
    }

    /** Every pin's set-up succeeds, so initialisation does too. */
    function Initialize(): (r: Result<Unit, Hal.HalError>)
      reads this
      ensures r.Ok?
    {
      if ditPin.Init().Err? then Err(Hal.GpioError)
      else if dahPin.Init().Err? then Err(Hal.GpioError)
      else if keyOutput.Init().Err? then Err(Hal.GpioError)
      else Ok(Unit)
    }

    function Shutdown(): (r: Result<Unit, Hal.HalError>)
      ensures r.Ok?
    {
      Ok(Unit)
    }
  }

  /** `timing::wpm_to_unit_duration`: the PARIS word is 50 units, so a unit is 60000 / (50 wpm) ms. */
  function WpmToUnitDuration(wpm: nat): (unitMs: nat)
    requires 0 < wpm < 0x1_0000
    ensures unitMs * (50 * wpm) <= 60000 < (unitMs + 1) * (50 * wpm)
  {
    Arith.DivBound(60000, 50 * wpm);
    60000 / (50 * wpm)
  }

  /** The board's speed formula agrees with the unit `KeyerConfig::new` derives from the same speed. */
  lemma {:induction false} UnitDurationMatchesConfig(mode: KeyerMode, cs: bool, wpm: nat, deb: nat, qs: nat)
    requires NewConfig(mode, cs, wpm, deb, qs).Ok?
    ensures WpmToUnitDuration(wpm) == NewConfig(mode, cs, wpm, deb, qs).value.unitMs
  {
    var q := NewConfig(mode, cs, wpm, deb, qs).value.unitMs;
    assert q * wpm <= 1200 < (q + 1) * wpm;
    assert q * (50 * wpm) == 50 * (q * wpm);
    assert (q + 1) * (50 * wpm) == 50 * ((q + 1) * wpm);
    Arith.DivAtLeast(60000, 50 * wpm, q);
    Arith.DivAtMost(60000, 50 * wpm, q);
  }
}
