/**
 * What the keyer state machine promises, stated about the one-tick
 * specification `Fsm.Step` and about runs of ticks.
 */
module FsmProperties {
  import opened Wrappers
  import opened Types
  import Hal
  import opened Controller
  import opened Fsm

  /**
   * Between ticks a Squeeze or MemoryPending state carries a keyed element
   * and the controller's memory slot is empty (it is set and taken within
   * the same tick).
   */
  ghost predicate Inv(st: FsmState, h: PressHistory) {
    && (st.Squeeze? ==> st.last.IsKeyed())
    && (st.MemoryPending? ==> st.element.IsKeyed())
    && h.memory.None?
  }

  lemma InitialStateSatisfiesInv()
    ensures Inv(Idle, NoHistory)
  {
  }

  /** One tick keeps the invariant and only ever enqueues Dit or Dah, never CharSpace. */
  lemma StepPreservesInv(cfg: KeyerConfig, st: FsmState, h: PressHistory, dit: bool, dah: bool, now: nat, room: bool)
    requires Inv(st, h)
    ensures var r := Step(cfg, st, h, dit, dah, now, room);
            Inv(r.state, r.history) && (r.out.Some? ==> r.out.value.IsKeyed())
  {
    var h' := Recorded(cfg, h, dit, dah, now);
    if st.Squeeze? && !dit && !dah && cfg.mode == SuperKeyer {
      assert h'.AfterSqueezeRelease(st.last).memory == Some(st.last.Opposite());
    }
  }

  /**
   * A full queue loses nothing: the tick that cannot enqueue leaves the
   * state unchanged (so the next tick retries), and a tick that enqueues
   * nothing behaves the same with or without room.
   */
  lemma FullQueueDefersElement(cfg: KeyerConfig, st: FsmState, h: PressHistory, dit: bool, dah: bool, now: nat)
    ensures var withRoom := Step(cfg, st, h, dit, dah, now, true);
            Step(cfg, st, h, dit, dah, now, false)
              == if withRoom.out.Some? then StepResult(st, Recorded(cfg, h, dit, dah, now), None) else withRoom
  {
  }

  /**
   * The first decision from Idle: a single paddle sends its own element and
   * holds it; both paddles send the squeeze start element (Dit in Modes A
   * and B) and enter Squeeze; without room nothing changes.
   */
  lemma IdlePressStartsElement(cfg: KeyerConfig, h: PressHistory, dit: bool, dah: bool, now: nat, room: bool)
    ensures var r := Step(cfg, Idle, h, dit, dah, now, room);
            var h' := Recorded(cfg, h, dit, dah, now);
            && r.history == h'
            && (!room || (!dit && !dah) ==> r.state == Idle && r.out.None?)
            && (room && dit && !dah ==> r.state == DitHold && r.out == Some(Dit))
            && (room && !dit && dah ==> r.state == DahHold && r.out == Some(Dah))
            && (room && dit && dah ==> r.state == Squeeze(SqueezeStart(cfg, h')) && r.out == Some(SqueezeStart(cfg, h')))
            && (room && dit && dah && cfg.mode != SuperKeyer ==> r.out == Some(Dit))
  {
  }

  /**
   * Releasing the held paddle while the other one is pressed ends the
   * element run without sending; the other paddle then starts afresh from
   * Idle or the character space.
   */
  lemma HoldReleaseWithOtherPressed(cfg: KeyerConfig, side: PaddleSide, h: PressHistory, now: nat, room: bool)
    ensures var r := Step(cfg, HoldState(side), h, side == DahSide, side == DitSide, now, room);
            r.state == AfterElement(cfg, now) && r.out.None?
  {
  }

  /**
   * Letting go of one paddle in a squeeze sends the element of the paddle
   * still pressed and holds it; without room the squeeze stays as it was.
   */
  lemma SqueezeToSinglePaddle(cfg: KeyerConfig, last: Element, h: PressHistory, side: PaddleSide, now: nat, room: bool)
    ensures var r := Step(cfg, Squeeze(last), h, side == DitSide, side == DahSide, now, room);
            && (room ==> r.state == HoldState(side) && r.out == Some(side.ToElement()))
            && (!room ==> r.state == Squeeze(last) && r.out.None?)
  {
  }

  /** A held paddle repeats its element every tick, and a release ends the run (after a character space when enabled). */
  lemma HoldRepeatsUntilRelease(cfg: KeyerConfig, side: PaddleSide, h: PressHistory, now: nat)
    ensures var held := Step(cfg, HoldState(side), h, side == DitSide, side == DahSide, now, true);
            held.out == Some(side.ToElement()) && held.state == HoldState(side)
    ensures var released := Step(cfg, HoldState(side), h, false, false, now, true);
            released.out.None? && released.state == AfterElement(cfg, now)
  {
  }

  /** Pressing the second paddle while one is held enters a squeeze from the held element without sending. */
  lemma HoldThenSqueeze(cfg: KeyerConfig, side: PaddleSide, h: PressHistory, now: nat, room: bool)
    ensures var r := Step(cfg, HoldState(side), h, true, true, now, room);
            r.state == Squeeze(side.ToElement()) && r.out.None?
  {
  }

  /**
   * Releasing both paddles in a squeeze: Mode A stops at once; Mode B and
   * SuperKeyer go to MemoryPending with the element opposite to the last one
   * (SuperKeyer also forgets both press times).
   */
  lemma SqueezeReleaseByMode(cfg: KeyerConfig, last: Element, h: PressHistory, now: nat, room: bool)
    requires last.IsKeyed()
    ensures var r := Step(cfg, Squeeze(last), h, false, false, now, room);
            && r.out.None?
            && (cfg.mode == ModeA ==> r.state == AfterElement(cfg, now) && r.history == h)
            && (cfg.mode == ModeB ==> r.state == MemoryPending(last.Opposite()) && r.history == h)
            && (cfg.mode == SuperKeyer ==>
                  r.state == MemoryPending(last.Opposite())
                  && r.history == PressHistory(None, None, None))
  {
    if cfg.mode == SuperKeyer {
      assert h.AfterPress(false, false, now).AfterSqueezeRelease(last).memory == Some(last.Opposite());
    }
  }

  /** The memory element is sent exactly once, whatever the paddles do, and then the element run ends. */
  lemma MemorySentOnce(cfg: KeyerConfig, element: Element, h: PressHistory, dit: bool, dah: bool, now: nat)
    ensures var r := Step(cfg, MemoryPending(element), h, dit, dah, now, true);
            r.out == Some(element) && r.state == AfterElement(cfg, now) && !r.state.MemoryPending?
  {
  }

  /** In CharSpacePending, nothing happens until three units have passed since `start`. */
  lemma CharSpaceHoldsOff(cfg: KeyerConfig, h: PressHistory, start: nat, dit: bool, dah: bool, now: nat, room: bool)
    requires start <= now < start + 3 * cfg.unitMs
    ensures var r := Step(cfg, CharSpacePending(start), h, dit, dah, now, room);
            r.state == CharSpacePending(start) && r.out.None?
  {
  }

  /**
   * After three units CharSpacePending behaves as Idle: with no paddle it
   * becomes Idle, with a paddle it sends what Idle sends (staying put when
   * the queue is full).
   */
  lemma {:induction false} CharSpaceEndsAsIdle(cfg: KeyerConfig, h: PressHistory, start: nat, dit: bool, dah: bool, now: nat, room: bool)
    requires start + 3 * cfg.unitMs <= now
    ensures var r := Step(cfg, CharSpacePending(start), h, dit, dah, now, room);
            var fromIdle := Step(cfg, Idle, h, dit, dah, now, room);
            && r.out == fromIdle.out
            && r.history == fromIdle.history
            && (r.out.Some? || !(dit || dah) ==> r.state == fromIdle.state)
            && (r.out.None? && (dit || dah) ==> r.state == CharSpacePending(start))
  {
    assert Hal.DurationSince(now, start) >= CharSpaceDuration(cfg);
  }

  /** One evaluation tick's paddle reading. */
  datatype Tick = Tick(dit: bool, dah: bool, now: nat)

  /**
   * Successive ticks with a queue that always has room: the final state,
   * the controller history and every element enqueued, in order.
   */
  function Run(cfg: KeyerConfig, st: FsmState, h: PressHistory, ticks: seq<Tick>): (r: (FsmState, PressHistory, seq<Element>))
    ensures |r.2| <= |ticks|
    decreases |ticks|
  {
    if ticks == [] then (st, h, [])
    else
      var s := Step(cfg, st, h, ticks[0].dit, ticks[0].dah, ticks[0].now, true);
      var rest := Run(cfg, s.state, s.history, ticks[1..]);
      (rest.0, rest.1, Outputs(s.out) + rest.2)
  }

  /** Over any run from a state satisfying the invariant, only Dit and Dah are ever sent. */
  lemma {:induction false} RunSendsOnlyKeyedElements(cfg: KeyerConfig, st: FsmState, h: PressHistory, ticks: seq<Tick>)
    requires Inv(st, h)
    ensures var r := Run(cfg, st, h, ticks);
            Inv(r.0, r.1) && forall i :: 0 <= i < |r.2| ==> r.2[i].IsKeyed()
    decreases |ticks|
  {
    if ticks != [] {
      var s := Step(cfg, st, h, ticks[0].dit, ticks[0].dah, ticks[0].now, true);
      StepPreservesInv(cfg, st, h, ticks[0].dit, ticks[0].dah, ticks[0].now, true);
      RunSendsOnlyKeyedElements(cfg, s.state, s.history, ticks[1..]);
    }
  }

  /** `first`, its opposite, `first` again, ... : `n` elements. */
  function Alternation(first: Element, n: nat): (s: seq<Element>)
    ensures |s| == n
    decreases n
  {
    if n == 0 then [] else [first] + Alternation(first.Opposite(), n - 1)
  }

  predicate AllSqueezed(ticks: seq<Tick>) {
    forall i :: 0 <= i < |ticks| ==> ticks[i].dit && ticks[i].dah
  }

  /**
   * Modes A and B: while both paddles stay pressed, a squeeze sends Dit and
   * Dah alternately, starting with the opposite of the element last sent.
   */
  lemma {:induction false} SqueezeAlternates(cfg: KeyerConfig, last: Element, h: PressHistory, ticks: seq<Tick>)
    requires cfg.mode != SuperKeyer
    requires last.IsKeyed()
    requires AllSqueezed(ticks)
    ensures Run(cfg, Squeeze(last), h, ticks).2 == Alternation(last.Opposite(), |ticks|)
    ensures Run(cfg, Squeeze(last), h, ticks).0.Squeeze?
    decreases |ticks|
  {
    if ticks != [] {
      OppositeIsInvolution(last);
      SqueezeAlternates(cfg, last.Opposite(), h, ticks[1..]);
    }
  }

  /** `n` copies of `e`. */
  function Repeat(e: Element, n: nat): (s: seq<Element>)
    ensures |s| == n
    ensures forall i :: 0 <= i < n ==> s[i] == e
    decreases n
  {
    if n == 0 then [] else [e] + Repeat(e, n - 1)
  }

  /**
   * SuperKeyer: once both presses are recorded, a held squeeze repeats the
   * priority element (the earlier press, Dah on a tie) instead of alternating.
   */
  lemma {:induction false} SuperKeyerSqueezeRepeatsPriority(cfg: KeyerConfig, last: Element, h: PressHistory, ticks: seq<Tick>)
    requires cfg.mode == SuperKeyer
    requires h.ditTime.Some? && h.dahTime.Some?
    requires AllSqueezed(ticks)
    ensures Run(cfg, Squeeze(last), h, ticks).2 == Repeat(h.Priority().value, |ticks|)
    decreases |ticks|
  {
    if ticks != [] {
      var h' := h.AfterPress(true, true, ticks[0].now);
      assert h' == h;
      SuperKeyerSqueezeRepeatsPriority(cfg, h.Priority().value, h, ticks[1..]);
    }
  }

  const Squeezing := [Tick(true, false, 0), Tick(true, true, 10), Tick(true, true, 20), Tick(false, false, 30), Tick(false, false, 40)]

  /**
   * Mode B: Dit pressed, Dah added and held, then both released gives
   * Dit, Dah and the memory Dit; Mode A sends Dit, Dah only.
   */
  lemma ModeBSendsMemoryElement(cfg: KeyerConfig)
    requires cfg.mode == ModeB && !cfg.charSpaceEnabled
    ensures Run(cfg, Idle, NoHistory, Squeezing).2 == [Dit, Dah, Dit]
    ensures Run(cfg.(mode := ModeA), Idle, NoHistory, Squeezing).2 == [Dit, Dah]
    ensures Run(cfg, Idle, NoHistory, Squeezing).0 == Idle
  {
    assert Squeezing[1..] == [Tick(true, true, 10), Tick(true, true, 20), Tick(false, false, 30), Tick(false, false, 40)];
    assert Squeezing[1..][1..] == [Tick(true, true, 20), Tick(false, false, 30), Tick(false, false, 40)];
    assert Squeezing[1..][1..][1..] == [Tick(false, false, 30), Tick(false, false, 40)];
    assert Squeezing[1..][1..][1..][1..] == [Tick(false, false, 40)];
  }

  /** SuperKeyer: pressing both paddles at once from Idle starts the squeeze with Dah. */
  lemma SuperKeyerSimultaneousStartIsDah(cfg: KeyerConfig, now: nat)
    requires cfg.mode == SuperKeyer
    ensures Step(cfg, Idle, NoHistory, true, true, now, true).out == Some(Dah)
    ensures Step(cfg, Idle, NoHistory, true, true, now, true).state == Squeeze(Dah)
  {
  }
}
