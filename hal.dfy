/**
 * The hardware abstraction layer of keyer-core/src/hal.rs: the millisecond
 * mock of `Instant`/`Duration`, the generic embedded-hal paddle and key output,
 * the no-op interrupt controller and the test mocks. Pins are foreign; a pin's
 * level is a field or a parameter here.
 */
module Hal {
  import opened Wrappers
  import opened Types
  import Arith

  const U64_MODULUS: nat := 0x1_0000_0000_0000_0000

  /** `Instant::from_millis(ms: i64)`: the cast to `u64` keeps the two's complement bits of a negative count. */
  function InstantFromMillis(ms: int): (t: nat)
    requires -0x8000_0000_0000_0000 <= ms < 0x8000_0000_0000_0000
    ensures t < U64_MODULUS
    ensures ms >= 0 ==> t == ms
    ensures ms < 0 ==> t + (-ms) == U64_MODULUS
  {
    ms % U64_MODULUS
  }

  /** `Instant::duration_since`: saturating, an earlier `later` gives zero. */
  function DurationSince(later: nat, earlier: nat): (d: nat)
    ensures later <= earlier ==> d == 0
    ensures earlier <= later ==> earlier + d == later
  {
    if later >= earlier then later - earlier else 0
  }

  /** `Duration / k`, on milliseconds; dividing by zero is a panic, so `k` is non-zero. */
  function DurationDiv(d: nat, k: nat): (q: nat)
    requires k != 0
    ensures q * k <= d < (q + 1) * k
  {
    d / k
  }

  /** `Duration * k`, on milliseconds. */
  function DurationMul(d: nat, k: nat): (p: nat)
    ensures k != 0 ==> DurationDiv(p, k) == d
    ensures k == 0 ==> p == 0
  {
    MulThenDiv(d, k);
    d * k
  }

  lemma MulThenDiv(d: nat, k: nat)
    ensures k != 0 ==> (d * k) / k == d
  {
    if k != 0 {
      Arith.DivAtLeast(d * k, k, d);
      Arith.DivAtMost(d * k, k, d);
    }
  }

  /** Scaling up and dividing back: `(d * 2) / 4 == d / 2`. */
  lemma {:induction false} DoubleThenQuarter(d: nat)
    ensures DurationDiv(DurationMul(d, 2), 4) == DurationDiv(d, 2)
  {
    var q := d / 2;
    Arith.DivBound(d, 2);
    Arith.DivAtLeast(d * 2, 4, q);
    Arith.DivAtMost(d * 2, 4, q);
  }

  datatype HalError = GpioError | TimingError | InterruptError | NotInitialized | InvalidConfig

  /** Largest debounce the generic paddle accepts, in ms. */
  const MAX_DEBOUNCE_MS: nat := 100

  /** `EmbeddedHalPaddle`: an active-low input pin with an edge time and a debounce setting. */
  class EmbeddedHalPaddle {
    var lastEdge: Option<nat>
    var debounceMs: nat

    constructor ()
      ensures lastEdge == None && debounceMs == 10
    {
      lastEdge := None;
      debounceMs := 10;
    }

    /** Records an edge seen by the interrupt handler. */
    method UpdateEdgeTime(time: nat)
      modifies this
      ensures lastEdge == Some(time) && debounceMs == old(debounceMs)
    {
      lastEdge := Some(time);
    }

    /**
     * Pressed means the pin reads low. `pinLow` is the pin driver's answer;
     * its failure becomes `GpioError`.
     */
    method IsPressed(pinLow: Result<bool, Unit>) returns (r: Result<bool, HalError>)
      ensures r.Ok? <==> pinLow.Ok?
      ensures r.Ok? ==> r.value == pinLow.value
      ensures r.Err? ==> r.error == GpioError
    {
      match pinLow
      case Ok(low) => r := Ok(low);
      case Err(_) => r := Err(GpioError);
    }

    function LastEdgeTime(): Option<nat>
      reads this
    {
      lastEdge
    }

    /** Values above 100 ms are refused and leave the setting as it was. */
    method SetDebounceTime(timeMs: nat) returns (r: Result<Unit, HalError>)
      modifies this
      ensures r.Err? <==> timeMs > MAX_DEBOUNCE_MS
      ensures r.Err? ==> r.error == InvalidConfig && debounceMs == old(debounceMs)
      ensures r.Ok? ==> debounceMs == timeMs
      ensures lastEdge == old(lastEdge)
    {
      if timeMs > MAX_DEBOUNCE_MS {
        return Err(InvalidConfig);
      }
      debounceMs := timeMs;
      r := Ok(Unit);
    }

    /** Interrupt control needs a platform implementation; the generic paddle refuses it. */
    function EnableInterrupt(): (r: Result<Unit, HalError>)
      ensures r == Err(InterruptError)
    {
      Err(InterruptError)
    }

    function DisableInterrupt(): (r: Result<Unit, HalError>)
      ensures r == Err(InterruptError)
    {
      Err(InterruptError)
    }
  }

  /** The pin level that makes the key `state` for an output wired `inverted`. */
  function DriveLevel(state: bool, inverted: bool): (high: bool)
    ensures high == (state != inverted)
  {
    if inverted then !state else state
  }

  /** Key-down and key-up never share a level, and the key state can be recovered from the level and the wiring flag. */
  lemma DriveLevelDecodes(state: bool, inverted: bool)
    ensures DriveLevel(state, inverted) != DriveLevel(!state, inverted)
    ensures (DriveLevel(state, inverted) != inverted) == state
  {
  }

  /** `EmbeddedHalKeyOutput`: drives a pin, optionally inverted; it cannot read its state back. */
  class EmbeddedHalKeyOutput {
    const inverted: bool
    /** The level last driven onto the pin. */
    var pinHigh: bool

    constructor (inverted: bool, initialLevel: bool)
      ensures this.inverted == inverted && pinHigh == initialLevel
    {
      this.inverted := inverted;
      pinHigh := initialLevel;
    }

    method SetState(state: bool) returns (r: Result<Unit, HalError>)
      modifies this
      ensures r.Ok?
      ensures pinHigh == DriveLevel(state, inverted)
    {
      pinHigh := DriveLevel(state, inverted);
      r := Ok(Unit);
    }

    function GetState(): (r: Result<bool, HalError>)
      ensures r == Err(GpioError)
    {
      Err(GpioError)
    }

    /** The trait's default toggle: the failed read-back aborts it before any write. */
    method Toggle() returns (r: Result<Unit, HalError>)
      modifies this
      ensures r == Err(GpioError)
      ensures pinHigh == old(pinHigh)
    {
      var current := GetState();
      match current
      case Err(e) =>
        r := Err(e);
      case Ok(_) =>
        // get_state never succeeds for this output
        assert false;
    }
  }

  /** Interrupt configuration that accepts every request and does nothing. */
  class NoOpInterruptController {
    constructor () {}

    function ConfigurePaddleInterrupt(side: PaddleSide, rising: bool, falling: bool): (r: Result<Unit, HalError>)
      ensures r.Ok?
    {
      Ok(Unit)
    }

    function SetInterruptPriority(side: PaddleSide, priority: nat): (r: Result<Unit, HalError>)
      requires priority < 256
      ensures r.Ok?
    {
      Ok(Unit)
    }

    function EnablePaddleInterrupt(side: PaddleSide, enable: bool): (r: Result<Unit, HalError>)
      ensures r.Ok?
    {
      Ok(Unit)
    }
  }

  /** Test paddle: pressing stamps the edge time, releasing keeps the previous one. */
  class MockPaddle {
    var pressed: bool
    var lastEdge: Option<nat>
    var debounceMs: nat

    /** `Default`: released, no edge, zero debounce. */
    constructor ()
      ensures !pressed && lastEdge == None && debounceMs == 0
    {
      pressed := false;
      lastEdge := None;
      debounceMs := 0;
    }

    method SetPressed(p: bool, now: nat)
      modifies this
      ensures pressed == p
      ensures lastEdge == if p then Some(now) else old(lastEdge)
      ensures debounceMs == old(debounceMs)
    {
      pressed := p;
      if p {
        lastEdge := Some(now);
      }
    }

    function IsPressed(): (r: Result<bool, HalError>)
      reads this
      ensures r == Ok(pressed)
    {
      Ok(pressed)
    }

    function LastEdgeTime(): Option<nat>
      reads this
    {
      lastEdge
    }

    /** The mock stores any value. */
    method SetDebounceTime(timeMs: nat) returns (r: Result<Unit, HalError>)
      modifies this
      ensures r.Ok? && debounceMs == timeMs
      ensures pressed == old(pressed) && lastEdge == old(lastEdge)
    {
      debounceMs := timeMs;
      r := Ok(Unit);
    }

    function EnableInterrupt(): (r: Result<Unit, HalError>)
      ensures r.Ok?
    {
      Ok(Unit)
    }

    function DisableInterrupt(): (r: Result<Unit, HalError>)
      ensures r.Ok?
    {
      Ok(Unit)
    }
  }

  /** Test key output that remembers its state. */
  class MockKeyOutput {
    var state: bool

    constructor ()
      ensures !state
    {
      state := false;
    }

    function IsActive(): bool
      reads this
    {
      state
    }

    method SetState(s: bool) returns (r: Result<Unit, HalError>)
      modifies this
      ensures r.Ok? && state == s
    {
      state := s;
      r := Ok(Unit);
    }

    function GetState(): (r: Result<bool, HalError>)
      reads this
      ensures r == Ok(IsActive())
    {
      Ok(state)
    }

    /** The trait's default toggle: read the state, write its negation. */
    method Toggle() returns (r: Result<Unit, HalError>)
      modifies this
      ensures r.Ok?
      ensures GetState() == Ok(!old(state))
    {
      var current := GetState();
      match current
      case Ok(v) =>
        r := SetState(!v);
      case Err(_) =>
        // get_state never fails for the mock
        assert false;
    }
  }

  /** Two toggles of the mock key restore its state. */
  method ToggleTwice(key: MockKeyOutput) returns (r: Result<Unit, HalError>)
    modifies key
    ensures r.Ok?
    ensures key.GetState() == Ok(old(key.state))
  {
    r := key.Toggle();
    r := key.Toggle();
  }
}
