/**
 * Paddle state with per-side hold-off debounce, and the SuperKeyer
 * controller with first-press timestamps and a one-element memory
 * (keyer-core/src/controller.rs).
 */
module Controller {
  import opened Wrappers
  import opened Types
  import Hal

  /** `Instant::now().as_millis() as u32`: the millisecond count keeps its low 32 bits. */
  function MillisU32(now: nat): (m: nat)
    ensures m < U32_MODULUS
    ensures now < U32_MODULUS ==> m == now
  {
    now % U32_MODULUS
  }

  /**
   * The hold-off test of `PaddleInput::update`: an edge at `now` is taken when
   * at least `debounceMs` ms have passed since the side's last accepted edge,
   * measured with `u32::saturating_sub` on the truncated clock.
   */
  predicate EdgeAccepted(lastEdge: nat, debounceMs: nat, now: nat) {
    Hal.DurationSince(MillisU32(now), lastEdge) >= debounceMs
  }

  /**
   * Within the debounce window of an accepted edge every further edge on that
   * side is dropped, also across a wrap of the 32-bit millisecond counter.
   */
  lemma {:induction false} BounceSuppressed(debounceMs: nat, now1: nat, now2: nat)
    requires now1 <= now2 < now1 + debounceMs
    ensures !EdgeAccepted(MillisU32(now1), debounceMs, now2)
  {
    var a, b := now1 % U32_MODULUS, now2 % U32_MODULUS;
    var q1, q2 := now1 / U32_MODULUS, now2 / U32_MODULUS;
    assert now1 == q1 * U32_MODULUS + a;
    assert now2 == q2 * U32_MODULUS + b;
    if b >= a {
      assert q2 >= q1;
      assert b - a <= now2 - now1;
    }
  }

  /** Once the window has passed, an edge is taken again (no counter wrap in between). */
  lemma {:induction false} EdgeAcceptedAfterWindow(debounceMs: nat, now1: nat, now2: nat)
    requires now1 + debounceMs <= now2
    requires now1 / U32_MODULUS == now2 / U32_MODULUS
    ensures EdgeAccepted(MillisU32(now1), debounceMs, now2)
  {
    var q := now1 / U32_MODULUS;
    assert now1 == q * U32_MODULUS + now1 % U32_MODULUS;
    assert now2 == q * U32_MODULUS + now2 % U32_MODULUS;
  }

  /**
   * After the 32-bit millisecond counter wraps, the saturating difference is
   * zero: an edge 105 ms after one accepted 5 ms before the wrap is dropped.
   */
  lemma RejectedAcrossCounterWrap()
    ensures !EdgeAccepted(MillisU32(U32_MODULUS - 5), 10, U32_MODULUS + 100)
  {
  }

  /** The edge-notification side: pressed flag and last accepted edge (u32 ms) per paddle. */
  class PaddleInput {
    var ditPressed: bool
    var dahPressed: bool
    var ditLastEdge: nat
    var dahLastEdge: nat

    constructor ()
      ensures !ditPressed && !dahPressed && ditLastEdge == 0 && dahLastEdge == 0
    {
      ditPressed, dahPressed := false, false;
      ditLastEdge, dahLastEdge := 0, 0;
    }

    function Pressed(side: PaddleSide): bool
      reads this
    {
      match side
      case DitSide => ditPressed
      case DahSide => dahPressed
    }

    function LastEdge(side: PaddleSide): nat
      reads this
    {
      match side
      case DitSide => ditLastEdge
      case DahSide => dahLastEdge
    }

    /**
     * Edge notification for one side at time `now`, with hold-off window
     * `debounceMs`: an accepted edge stores both the new state and `now`; an
     * edge inside the window is discarded. The other side is never touched.
     */
    method Update(side: PaddleSide, state: bool, debounceMs: nat, now: nat)
      modifies this
      ensures EdgeAccepted(old(LastEdge(side)), debounceMs, now) ==>
                Pressed(side) == state && LastEdge(side) == MillisU32(now)
      ensures !EdgeAccepted(old(LastEdge(side)), debounceMs, now) ==>
                Pressed(side) == old(Pressed(side)) && LastEdge(side) == old(LastEdge(side))
      ensures Pressed(side.Opposite()) == old(Pressed(side.Opposite()))
      ensures LastEdge(side.Opposite()) == old(LastEdge(side.Opposite()))
    {
      var nowMs := MillisU32(now);
      match side
      case DitSide =>
        var last := ditLastEdge;
        if Hal.DurationSince(nowMs, last) >= debounceMs {
          ditPressed := state;
          ditLastEdge := nowMs;
        }
      case DahSide =>
        var last := dahLastEdge;
        if Hal.DurationSince(nowMs, last) >= debounceMs {
          dahPressed := state;
          dahLastEdge := nowMs;
        }
    }

    function Dit(): bool
      reads this
    {
      ditPressed
    }

    function Dah(): bool
      reads this
    {
      dahPressed
    }

    /** The squeeze condition. */
    function BothPressed(): (b: bool)
      reads this
      ensures b <==> Pressed(DitSide) && Pressed(DahSide)
    {
      Dit() && Dah()
    }

    function BothReleased(): (b: bool)
      reads this
      ensures b <==> !Pressed(DitSide) && !Pressed(DahSide)
    {
      !Dit() && !Dah()
    }

    /** Edge times of the pressed sides, for priority decisions. */
    function GetPressTimes(): (r: (Option<nat>, Option<nat>))
      reads this
      ensures r.0.Some? <==> Pressed(DitSide)
      ensures r.1.Some? <==> Pressed(DahSide)
      ensures r.0.Some? ==> r.0.value == LastEdge(DitSide)
      ensures r.1.Some? ==> r.1.value == LastEdge(DahSide)
    {
      (if Dit() then Some(ditLastEdge) else None,
       if Dah() then Some(dahLastEdge) else None)
    }

    /** The element of the one pressed side, when exactly one is pressed. */
    function CurrentSingleElement(): (r: Option<Element>)
      reads this
      ensures r.Some? <==> Pressed(DitSide) != Pressed(DahSide)
      ensures r.Some? ==> Pressed(DitSide) == (r.value == Element.Dit) && r.value.IsKeyed()
    {
      if ditPressed && !dahPressed then Some(Element.Dit)
      else if dahPressed && !ditPressed then Some(Element.Dah)
      else None
    }

    method Reset()
      modifies this
      ensures !ditPressed && !dahPressed && ditLastEdge == 0 && dahLastEdge == 0
    {
      ditPressed, dahPressed := false, false;
      ditLastEdge, dahLastEdge := 0, 0;
    }
  }

  /** Every paddle reading is exactly one of: squeeze, nothing pressed, one side pressed. */
  lemma PaddleReadingsPartition(p: PaddleInput)
    ensures p.BothPressed() || p.BothReleased() || p.CurrentSingleElement().Some?
    ensures !(p.BothPressed() && p.BothReleased())
    ensures !(p.BothPressed() && p.CurrentSingleElement().Some?)
    ensures !(p.BothReleased() && p.CurrentSingleElement().Some?)
  {
  }

  /** The SuperKeyer controller's three fields, as a value. */
  datatype PressHistory = PressHistory(ditTime: Option<nat>, dahTime: Option<nat>, memory: Option<Element>) {

    /**
     * `record_press`: a side pressed with no recorded time is stamped `now`;
     * a side still pressed keeps its first time; a released side is cleared.
     */
    function AfterPress(dit: bool, dah: bool, now: nat): (h: PressHistory)
      ensures h.memory == memory
      ensures !dit ==> h.ditTime == None
      ensures !dah ==> h.dahTime == None
      ensures dit ==> h.ditTime == (if ditTime.Some? then ditTime else Some(now))
      ensures dah ==> h.dahTime == (if dahTime.Some? then dahTime else Some(now))
    {
      var d := if dit && ditTime.None? then Some(now) else ditTime;
      var h := if dah && dahTime.None? then Some(now) else dahTime;
      PressHistory(if !dit then None else d, if !dah then None else h, memory)
    }

    /**
     * `determine_priority`: of two recorded presses the earlier wins and Dah
     * wins a tie; a single recorded press wins; none gives no element.
     */
    function Priority(): (r: Option<Element>)
      ensures r.None? <==> ditTime.None? && dahTime.None?
      ensures r != Some(CharSpace)
      ensures r == Some(Dah) <==> dahTime.Some? && (ditTime.Some? ==> dahTime.value <= ditTime.value)
      ensures r == Some(Dit) <==> ditTime.Some? && (dahTime.Some? ==> ditTime.value < dahTime.value)
    {
      match (ditTime, dahTime)
      case (Some(dit), Some(dah)) => if dah <= dit then Some(Dah) else Some(Dit)
      case (Some(_), None) => Some(Dit)
      case (None, Some(_)) => Some(Dah)
      case (None, None) => None
    }

    /** `handle_squeeze_release`: remember the opposite of the last element unless it is CharSpace. */
    function AfterSqueezeRelease(last: Element): (h: PressHistory)
      ensures h.ditTime == ditTime && h.dahTime == dahTime
      ensures last.IsKeyed() ==> h.memory == Some(last.Opposite())
      ensures !last.IsKeyed() ==> h.memory == memory
    {
      var opposite := last.Opposite();
      if opposite != CharSpace then this.(memory := Some(opposite)) else this
    }
  }

  /** The state of a new or cleared controller. */
  const NoHistory := PressHistory(None, None, None)

  /** A paddle that stays pressed keeps the time of its first press, whatever the other side does. */
  lemma {:induction false} HeldPaddleKeepsFirstPress(h: PressHistory, dah1: bool, dah2: bool, now1: nat, now2: nat)
    ensures h.AfterPress(true, dah1, now1).AfterPress(true, dah2, now2).ditTime
         == h.AfterPress(true, dah1, now1).ditTime
    ensures h.AfterPress(dah1, true, now1).AfterPress(dah2, true, now2).dahTime
         == h.AfterPress(dah1, true, now1).dahTime
  {
  }

  /** Pressing both paddles at the same instant from a clean history gives Dah. */
  lemma SimultaneousPressGivesDah(h: PressHistory, now: nat)
    requires h.ditTime.None? && h.dahTime.None?
    ensures h.AfterPress(true, true, now).Priority() == Some(Dah)
  {
  }

  /**
   * With Dit pressed first at `t1` and held, a later Dah press at `t2` never
   * takes priority while both stay held.
   */
  lemma {:induction false} FirstPressKeepsPriority(h: PressHistory, t1: nat, t2: nat, t3: nat)
    requires h.ditTime.None? && h.dahTime.None?
    requires t1 < t2
    ensures h.AfterPress(true, false, t1).AfterPress(true, true, t2).Priority() == Some(Dit)
    ensures h.AfterPress(true, false, t1).AfterPress(true, true, t2).AfterPress(true, true, t3).Priority() == Some(Dit)
  {
  }

  /** The SuperKeyer controller with Dah priority and a single memory slot. */
  class SuperKeyerController {
    var ditTime: Option<nat>
    var dahTime: Option<nat>
    var memoryElement: Option<Element>

    function History(): PressHistory
      reads this
    {
      PressHistory(ditTime, dahTime, memoryElement)
    }

    constructor ()
      ensures History() == NoHistory
    {
      ditTime, dahTime, memoryElement := None, None, None;
    }

    /** `record_press` at time `now`. */
    method RecordPress(ditPressed: bool, dahPressed: bool, now: nat)
      modifies this
      ensures History() == old(History()).AfterPress(ditPressed, dahPressed, now)
    {
      if ditPressed && ditTime.None? {
        ditTime := Some(now);
      }
      if dahPressed && dahTime.None? {
        dahTime := Some(now);
      }
      if !ditPressed {
        ditTime := None;
      }
      if !dahPressed {
        dahTime := None;
      }
    }

    function DeterminePriority(): Option<Element>
      reads this
    {
      History().Priority()
    }

    /** Overwrites any unsent memory. */
    method SetMemory(element: Element)
      modifies this
      ensures History() == old(History()).(memory := Some(element))
    {
      memoryElement := Some(element);
    }

    /** Returns the memory and empties the slot. */
    method TakeMemory() returns (m: Option<Element>)
      modifies this
      ensures m == old(memoryElement)
      ensures History() == old(History()).(memory := None)
    {
      m := memoryElement;
      memoryElement := None;
    }

    function ShouldSendMemory(): (b: bool)
      reads this
      ensures b <==> History().memory.Some?
    {
      memoryElement.Some?
    }

    method ClearHistory()
      modifies this
      ensures History() == NoHistory
    {
      ditTime, dahTime, memoryElement := None, None, None;
    }

    /** Records the paddle's current state at time `now`. */
    method Update(paddle: PaddleInput, now: nat)
      modifies this
      ensures History() == old(History()).AfterPress(paddle.Dit(), paddle.Dah(), now)
    {
      RecordPress(paddle.Dit(), paddle.Dah(), now);
    }

    /**
     * In a squeeze the priority element; otherwise the memory, consumed, or
     * failing that the priority element. The last element is not consulted.
     */
    method NextElement(squeeze: bool, lastElement: Option<Element>) returns (r: Option<Element>)
      modifies this
      ensures squeeze ==> r == old(History()).Priority() && History() == old(History())
      ensures !squeeze && old(memoryElement).Some? ==>
                r == old(memoryElement) && History() == old(History()).(memory := None)
      ensures !squeeze && old(memoryElement).None? ==>
                r == old(History()).Priority() && History() == old(History())
    {
      if squeeze {
        r := DeterminePriority();
      } else {
        var memory := TakeMemory();
        if memory.Some? {
          r := memory;
        } else {
          r := DeterminePriority();
        }
      }
    }

    method HandleSqueezeRelease(lastSent: Element)
      modifies this
      ensures History() == old(History()).AfterSqueezeRelease(lastSent)
    {
      var opposite := lastSent.Opposite();
      if opposite != CharSpace {
        SetMemory(opposite);
      }
    }

    method Reset()
      modifies this
      ensures History() == NoHistory
    {
      ClearHistory();
    }

    function PeekMemory(): Option<Element>
      reads this
    {
      memoryElement
    }

    function PressTimes(): (Option<nat>, Option<nat>)
      reads this
    {
      (ditTime, dahTime)
    }
  }

  /** The memory is one slot: a second set replaces the first, and a take empties it. */
  method MemoryIsSingleSlot(c: SuperKeyerController, first: Element, second: Element)
    returns (taken: Option<Element>, again: Option<Element>)
    modifies c
    ensures taken == Some(second) && again == None
    ensures !c.ShouldSendMemory()
  {
    c.SetMemory(first);
    c.SetMemory(second);
    taken := c.TakeMemory();
    again := c.TakeMemory();
  }
}
