/**
 * Shared value types of the keyer core (keyer-core/src/types.rs): keying
 * elements, keyer modes, paddle sides, the FSM state and the validated
 * configuration. Durations and instants are whole milliseconds.
 */
module Types {
  import opened Wrappers
  import Arith

  /** A Morse keying element. */
  datatype Element = Dit | Dah | CharSpace {

    /** Length of the element in timing units. */
    function DurationUnits(): (n: nat)
      ensures n == 1 <==> this == Dit
      ensures n == 3 <==> this != Dit
    {
      match this
      case Dit => 1
      case Dah => 3
      case CharSpace => 3
    }

    /** True for the elements that close the key. */
    predicate IsKeyed() {
      match this
      case Dit => true
      case Dah => true
      case CharSpace => false
    }

    /** Dit and Dah swap; CharSpace has no opposite and is returned as is. */
    function Opposite(): (e: Element)
      ensures e.IsKeyed() == IsKeyed()
      ensures IsKeyed() ==> e != this
      ensures !IsKeyed() ==> e == this
    {
      match this
      case Dit => Dah
      case Dah => Dit
      case CharSpace => CharSpace
    }
  }

  lemma OppositeIsInvolution(e: Element)
    ensures e.Opposite().Opposite() == e
  {
  }

  lemma KeyedElements(e: Element)
    ensures e.IsKeyed() <==> (e == Dit || e == Dah)
  {
  }

  datatype KeyerMode = ModeA | ModeB | SuperKeyer {

    /** Whether a squeeze release is followed by a remembered element. */
    predicate HasMemory() {
      match this
      case ModeA => false
      case ModeB => true
      case SuperKeyer => true
    }

    /** Whether the press-time priority rule is used. */
    predicate HasPriority() {
      match this
      case ModeA => false
      case ModeB => false
      case SuperKeyer => true
    }
  }

  /** Only Mode A lacks memory, only SuperKeyer has priority. */
  lemma ModeCapabilities(m: KeyerMode)
    ensures !m.HasMemory() <==> m == ModeA
    ensures m.HasPriority() <==> m == SuperKeyer
    ensures m.HasPriority() ==> m.HasMemory()
  {
  }

  datatype PaddleSide = DitSide | DahSide {

    function ToElement(): (e: Element)
      ensures e.IsKeyed()
    {
      match this
      case DitSide => Dit
      case DahSide => Dah
    }

    function Opposite(): (s: PaddleSide)
      ensures s != this
    {
      match this
      case DitSide => DahSide
      case DahSide => DitSide
    }
  }

  /** Side opposite is an involution and commutes with the element mapping. */
  lemma SideOppositeProperties(s: PaddleSide)
    ensures s.Opposite().Opposite() == s
    ensures s.Opposite().ToElement() == s.ToElement().Opposite()
  {
  }

  /** The six states of the keyer state machine; `start` is an instant in ms. */
  datatype FsmState =
    | Idle
    | DitHold
    | DahHold
    | Squeeze(last: Element)
    | MemoryPending(element: Element)
    | CharSpacePending(start: nat)
  {
    /** True while a paddle is being acted upon. */
    predicate HasPaddleInput() {
      match this
      case DitHold => true
      case DahHold => true
      case Squeeze(_) => true
      case _ => false
    }

    /** The element the state is sending, if any. */
    function CurrentElement(): (r: Option<Element>)
      ensures r.None? <==> (Idle? || CharSpacePending?)
      ensures DitHold? ==> r == Some(Dit)
      ensures DahHold? ==> r == Some(Dah)
      ensures Squeeze? ==> r == Some(last)
      ensures MemoryPending? ==> r == Some(element)
    {
      match this
      case DitHold => Some(Dit)
      case DahHold => Some(Dah)
      case Squeeze(e) => Some(e)
      case MemoryPending(e) => Some(e)
      case Idle => None
      case CharSpacePending(_) => None
    }
  }

  /** Paddle input is reported exactly for the hold and squeeze states, all of which send an element. */
  lemma PaddleInputStates(s: FsmState)
    ensures s.HasPaddleInput() <==> (s.DitHold? || s.DahHold? || s.Squeeze?)
    ensures s.HasPaddleInput() ==> s.CurrentElement().Some?
  {
  }

  /** `unitMs` and `debounceMs` are milliseconds; `queueSize` the element queue capacity. */
  datatype KeyerConfig = KeyerConfig(
    mode: KeyerMode,
    charSpaceEnabled: bool,
    unitMs: nat,
    debounceMs: nat,
    queueSize: nat)

  /** The three rejections of `KeyerConfig::new`, in the order they are checked. */
  datatype ConfigError = InvalidWpm | InvalidDebounce | InvalidQueueSize

  /** `Default for KeyerConfig`: Mode B, character space on, 60 ms unit (20 WPM), 10 ms debounce, 64 slots. */
  function DefaultConfig(): KeyerConfig {
    KeyerConfig(ModeB, true, 60, 10, 64)
  }

  /** Validating constructor: unit = 1200 / wpm milliseconds (PARIS, 50 units per word). */
  function NewConfig(mode: KeyerMode, charSpaceEnabled: bool, wpm: nat, debounceMs: nat, queueSize: nat)
    : (r: Result<KeyerConfig, ConfigError>)
    ensures r == Err(InvalidWpm) <==> (wpm == 0 || wpm > 100)
    ensures r == Err(InvalidDebounce) <==> (1 <= wpm <= 100 && debounceMs > 100)
    ensures r == Err(InvalidQueueSize) <==> (1 <= wpm <= 100 && debounceMs <= 100 && (queueSize < 8 || queueSize > 1024))
    ensures r.Ok? ==>
      && r.value.mode == mode && r.value.charSpaceEnabled == charSpaceEnabled
      && r.value.debounceMs == debounceMs && r.value.queueSize == queueSize
      && r.value.unitMs * wpm <= 1200 < (r.value.unitMs + 1) * wpm
  {
    if wpm == 0 || wpm > 100 then Err(InvalidWpm)
    else if debounceMs > 100 then Err(InvalidDebounce)
    else if queueSize < 8 || queueSize > 1024 then Err(InvalidQueueSize)
    else Ok(KeyerConfig(mode, charSpaceEnabled, 1200 / wpm, debounceMs, queueSize))
  }

  const U32_MODULUS: nat := 0x1_0000_0000

  /**
   * `KeyerConfig::wpm`: 1200 / unit, at least 1. The millisecond count is cast
   * to `u32` first, and a unit whose low 32 bits are zero divides by zero.
   */
  function Wpm(c: KeyerConfig): (w: nat)
    requires c.unitMs % U32_MODULUS != 0
    ensures w >= 1
    ensures w * (c.unitMs % U32_MODULUS) <= 1200 || w == 1
    ensures c.unitMs % U32_MODULUS <= 1200 ==> w * (c.unitMs % U32_MODULUS) <= 1200 < (w + 1) * (c.unitMs % U32_MODULUS)
    ensures c.unitMs % U32_MODULUS > 1200 ==> w == 1
  {
    var u := c.unitMs % U32_MODULUS;
    Arith.DivBound(1200, u);
    if 1200 / u >= 1 then 1200 / u else 1
  }

  /** The gap between elements is one unit. */
  function InterElementSpace(c: KeyerConfig): (d: nat)
    ensures d == c.unitMs
  {
    c.unitMs
  }

  /** The character space lasts three units. */
  function CharSpaceDuration(c: KeyerConfig): (d: nat)
    ensures d == Dah.DurationUnits() * c.unitMs
  {
    c.unitMs * 3
  }

  /** For a validated configuration the unit is between 12 and 1200 ms. */
  lemma {:induction false} ConfigUnitRange(mode: KeyerMode, cs: bool, wpm: nat, deb: nat, qs: nat)
    requires NewConfig(mode, cs, wpm, deb, qs).Ok?
    ensures 12 <= NewConfig(mode, cs, wpm, deb, qs).value.unitMs <= 1200
  {
    Arith.DivAtLeast(1200, wpm, 12);
    Arith.DivAtMost(1200, wpm, 1200);
  }

  /**
   * The speed read back from a validated configuration is never below the
   * requested one, and equals it when the requested speed divides 1200.
   */
  lemma {:induction false} WpmRoundTrip(mode: KeyerMode, cs: bool, wpm: nat, deb: nat, qs: nat)
    requires NewConfig(mode, cs, wpm, deb, qs).Ok?
    ensures NewConfig(mode, cs, wpm, deb, qs).value.unitMs % U32_MODULUS != 0
    ensures Wpm(NewConfig(mode, cs, wpm, deb, qs).value) >= wpm
    ensures 1200 % wpm == 0 ==> Wpm(NewConfig(mode, cs, wpm, deb, qs).value) == wpm
  {
    var c := NewConfig(mode, cs, wpm, deb, qs).value;
    ConfigUnitRange(mode, cs, wpm, deb, qs);
    var u := c.unitMs;
    assert u % U32_MODULUS == u;
    Arith.DivAtLeast(1200, u, wpm);
    if 1200 % wpm == 0 {
      Arith.DivBound(1200, wpm);
      assert u * wpm == 1200;
      Arith.DivAtMost(1200, u, wpm);
    }
  }

  /** The default configuration is the one `KeyerConfig::new(ModeB, true, 20, 10, 64)` builds. */
  lemma DefaultIsTwentyWpm()
    ensures NewConfig(ModeB, true, 20, 10, 64) == Ok(DefaultConfig())
    ensures Wpm(DefaultConfig()) == 20
    ensures CharSpaceDuration(DefaultConfig()) == 180
  {
  }
}
