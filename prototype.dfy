/**
 * The single-file prototype keyer (keyer.rs): its own two-element alphabet,
 * an unsaturated 10 ms debounce, a SuperKeyer controller that overwrites
 * press times, and an evaluator loop that ignores failed enqueues.
 */
module Prototype {
  import opened Wrappers
  import Types
  import Hal
  import opened Queue
  import Fsm
  import Controller

  /** The prototype's elements: there is no CharSpace. */
  datatype Element = Dit | Dah {
    function Opposite(): (e: Element)
      ensures e != this
    {
      if this == Dit then Dah else Dit
    }

    /** The same element in the core's alphabet. */
    function ToCore(): (e: Types.Element)
      ensures e.IsKeyed()
      ensures (this == Dit) <==> (e == Types.Dit)
    {
      if this == Dit then Types.Dit else Types.Dah
    }
  }

  datatype FsmState =
    | Idle
    | DitHold
    | DahHold
    | Squeeze(last: Element)
    | MemoryPending(element: Element)
    | CharSpacePending(start: nat)

  /** `unitMs` is the unit in milliseconds. */
  datatype KeyerConfig = KeyerConfig(mode: Types.KeyerMode, charSpaceEnabled: bool, unitMs: nat)

  const DEBOUNCE_MS: nat := 10

  /** The prototype's paddle state; edge times are u64 milliseconds. */
  class PaddleInput {
    var ditPressed: bool
    var dahPressed: bool
    var ditLastEdge: nat
    var dahLastEdge: nat

    constructor ()
      ensures !ditPressed && !dahPressed && ditLastEdge == 0 && dahLastEdge == 0
    {
      ditPressed, dahPressed := false, false;
      ditLastEdge, dahLastEdge := 0, 0;
    }

    function Pressed(side: Types.PaddleSide): bool
      reads this
    {
      match side
      case DitSide => ditPressed
      case DahSide => dahPressed
    }

    function LastEdge(side: Types.PaddleSide): nat
      reads this
    {
      match side
      case DitSide => ditLastEdge
      case DahSide => dahLastEdge
    }

    /**
     * Edge notification at `now`: taken when at least 10 ms have passed since
     * the side's last accepted edge. The subtraction is unsaturated, so the
     * clock must not be behind the stored edge.
     */
    method Update(side: Types.PaddleSide, state: bool, now: nat)
      requires now >= LastEdge(side)
      modifies this
      ensures now - old(LastEdge(side)) >= DEBOUNCE_MS ==> Pressed(side) == state && LastEdge(side) == now
      ensures now - old(LastEdge(side)) < DEBOUNCE_MS ==>
                Pressed(side) == old(Pressed(side)) && LastEdge(side) == old(LastEdge(side))
      ensures Pressed(side.Opposite()) == old(Pressed(side.Opposite()))
      ensures LastEdge(side.Opposite()) == old(LastEdge(side.Opposite()))
    {
      match side
      case DitSide =>
        var last := ditLastEdge;
        if now - last >= DEBOUNCE_MS {
          ditPressed := state;
          ditLastEdge := now;
        }
      case DahSide =>
        var last := dahLastEdge;
        if now - last >= DEBOUNCE_MS {
          dahPressed := state;
          dahLastEdge := now;
        }
    }

    function Dit(): bool
      reads this
    {
      ditPressed
    }

    function Dah(): bool
      reads this
    {
      dahPressed
    }
  }

  /** The prototype controller's press times, as a value. */
  datatype Presses = Presses(ditTime: Option<nat>, dahTime: Option<nat>) {

    /** `record_press`: every pressed side is stamped `now`, even if already stamped; nothing is ever cleared. */
    function AfterRecord(dit: bool, dah: bool, now: nat): (p: Presses)
      ensures p.ditTime == if dit then Some(now) else ditTime
      ensures p.dahTime == if dah then Some(now) else dahTime
    {
      Presses(if dit then Some(now) else ditTime, if dah then Some(now) else dahTime)
    }

    /** `evaluate_priority`: the earlier press wins and Dah wins a tie. */
    function Priority(): (r: Option<Element>)
      ensures r.None? <==> ditTime.None? && dahTime.None?
      ensures r == Some(Dah) <==> dahTime.Some? && (ditTime.Some? ==> dahTime.value <= ditTime.value)
      ensures r == Some(Dit) <==> ditTime.Some? && (dahTime.Some? ==> ditTime.value < dahTime.value)
    {
      match (ditTime, dahTime)
      case (Some(dt), Some(ht)) => if ht <= dt then Some(Dah) else Some(Dit)
      case (Some(_), None) => Some(Dit)
      case (None, Some(_)) => Some(Dah)
      case (None, None) => None
    }
  }

  const NoPresses := Presses(None, None)

  class SuperKeyerController {
    var ditTime: Option<nat>
    var dahTime: Option<nat>

    function Model(): Presses
      reads this
    {
      Presses(ditTime, dahTime)
    }

    constructor ()
      ensures Model() == NoPresses
    {
      ditTime, dahTime := None, None;
    }

    method RecordPress(dit: bool, dah: bool, now: nat)
      modifies this
      ensures Model() == old(Model()).AfterRecord(dit, dah, now)
    {
      if dit {
        ditTime := Some(now);
      }
      if dah {
        dahTime := Some(now);
      }
    }

    function EvaluatePriority(): Option<Element>
      reads this
    {
      Model().Priority()
    }

    method Clear()
      modifies this
      ensures Model() == NoPresses
    {
      ditTime, dahTime := None, None;
    }
  }

  /** Stamping both sides at the same instant, as a held squeeze does on every pass, makes Dah the priority. */
  lemma {:induction false} RecordBothGivesDah(p: Presses, now: nat)
    ensures p.AfterRecord(true, true, now).Priority() == Some(Dah)
  {
  }

  datatype ProtoResult = ProtoResult(state: FsmState, presses: Presses, out: Option<Element>)

  function AfterElement(cfg: KeyerConfig, now: nat): FsmState {
    if cfg.charSpaceEnabled then CharSpacePending(now) else Idle
  }

  /** An ignored enqueue: the element goes out only when there is room. */
  function Enq(room: bool, e: Element): (r: Option<Element>)
    ensures room <==> r == Some(e)
    ensures !room <==> r.None?
  {
    if room then Some(e) else None
  }

  function Outputs(out: Option<Element>): (s: seq<Element>)
    ensures out.Some? ==> s == [out.value]
    ensures out.None? ==> s == []
  {
    if out.Some? then [out.value] else []
  }

  /** The hold state of a side: a release goes straight to Idle, a press of the other side starts a squeeze. */
  function HoldStep(held: bool, other: bool, heldElement: Element, holdState: FsmState, p: Presses, room: bool): (r: ProtoResult)
    ensures r.out.Some? <==> held && room
    ensures other ==> r.state == Squeeze(heldElement)
    ensures !other ==> r.state == if held then holdState else Idle
    ensures r.out.Some? ==> r.out.value == heldElement
    ensures r.presses == p
  {
    var s1 := if !held then Idle else holdState;
    var out := if held then Enq(room, heldElement) else None;
    ProtoResult(if other then Squeeze(heldElement) else s1, p, out)
  }

  /** One pass of the `evaluator_fsm` loop with paddle reading (`dit`, `dah`) at `now`. */
  function ProtoStep(cfg: KeyerConfig, st: FsmState, p: Presses, dit: bool, dah: bool, now: nat, room: bool): (r: ProtoResult)
    ensures r.out.Some? ==> room
  {
    match st
    case Idle =>
      if dit && dah then
        var start := if cfg.mode == Types.SuperKeyer then p.Priority().GetOr(Dit) else Dit;
        ProtoResult(Squeeze(start), p, Enq(room, start))
      else if dit then ProtoResult(DitHold, p, Enq(room, Dit))
      else if dah then ProtoResult(DahHold, p, Enq(room, Dah))
      else ProtoResult(Idle, p, None)
    case DitHold => HoldStep(dit, dah, Dit, DitHold, p, room)
    case DahHold => HoldStep(dah, dit, Dah, DahHold, p, room)
    case Squeeze(last) =>
      if dit && dah then
        if cfg.mode == Types.SuperKeyer then
          var p' := p.AfterRecord(dit, dah, now);
          var next := p'.Priority().GetOr(last);
          ProtoResult(Squeeze(next), p', Enq(room, next))
        else
          ProtoResult(Squeeze(last.Opposite()), p, Enq(room, last.Opposite()))
      else if dit then ProtoResult(DitHold, p, Enq(room, Dit))
      else if dah then ProtoResult(DahHold, p, Enq(room, Dah))
      else if cfg.mode == Types.ModeA then ProtoResult(AfterElement(cfg, now), p, None)
      else ProtoResult(MemoryPending(last.Opposite()), p, None)
    case MemoryPending(mem) =>
      ProtoResult(AfterElement(cfg, now), NoPresses, Enq(room, mem))
    case CharSpacePending(start) =>
      var done := Hal.DurationSince(now, start) >= Hal.DurationMul(cfg.unitMs, 3);
      if dit || dah then
        if done then
          var next := if dah then Dah else Dit;
          var s := if dit && dah then Squeeze(next) else if dit then DitHold else DahHold;
          ProtoResult(s, p, Enq(room, next))
        else ProtoResult(st, p, None)
      else if done then ProtoResult(Idle, p, None)
      else ProtoResult(st, p, None)
  }

  /** The loop-carried state of `evaluator_fsm`: the FSM state and its controller. */
  class Evaluator {
    var state: FsmState
    const superkeyer: SuperKeyerController

    constructor ()
      ensures state == Idle && fresh(superkeyer) && superkeyer.Model() == NoPresses
    {
      state := Idle;
      superkeyer := new SuperKeyerController();
    }

    method Enqueue(queue: BoundedQueue<Element>, e: Element)
      modifies queue
      ensures queue.items == old(queue.items) + Outputs(Enq(old(queue.HasRoom()), e))
    {
      var _ := queue.Enqueue(e);
    }

    /** One pass of the loop body at time `now` (the timer wait at its end is not modelled). */
    method EvaluateOnce(paddle: PaddleInput, queue: BoundedQueue<Element>, cfg: KeyerConfig, now: nat)
      modifies this, superkeyer, queue
      ensures var r := ProtoStep(cfg, old(state), old(superkeyer.Model()), paddle.Dit(), paddle.Dah(), now, old(queue.HasRoom()));
              && state == r.state
              && superkeyer.Model() == r.presses
              && queue.items == old(queue.items) + Outputs(r.out)
    {
      var ditNow := paddle.Dit();
      var dahNow := paddle.Dah();
      match state
      case Idle =>
        if ditNow && dahNow {
          var start := if cfg.mode == Types.SuperKeyer then superkeyer.EvaluatePriority().GetOr(Dit) else Dit;
          Enqueue(queue, start);
          state := Squeeze(start);
        } else if ditNow {
          Enqueue(queue, Dit);
          state := DitHold;
        } else if dahNow {
          Enqueue(queue, Dah);
          state := DahHold;
        }
      case DitHold =>
        if !ditNow {
          state := Idle;
        } else {
          Enqueue(queue, Dit);
        }
        if dahNow {
          state := Squeeze(Dit);
        }
      case DahHold =>
        if !dahNow {
          state := Idle;
        } else {
          Enqueue(queue, Dah);
        }
        if ditNow {
          state := Squeeze(Dah);
        }
      case Squeeze(last) =>
        if ditNow && dahNow {
          var next;
          if cfg.mode == Types.SuperKeyer {
            superkeyer.RecordPress(ditNow, dahNow, now);
            next := superkeyer.EvaluatePriority().GetOr(last);
          } else {
            next := if last == Dit then Dah else Dit;
          }
          Enqueue(queue, next);
          state := Squeeze(next);
        } else if ditNow {
          Enqueue(queue, Dit);
          state := DitHold;
        } else if dahNow {
          Enqueue(queue, Dah);
          state := DahHold;
        } else if cfg.mode == Types.ModeA {
          state := if cfg.charSpaceEnabled then CharSpacePending(now) else Idle;
        } else {
          state := MemoryPending(if last == Dit then Dah else Dit);
        }
      case MemoryPending(mem) =>
        Enqueue(queue, mem);
        superkeyer.Clear();
        state := if cfg.charSpaceEnabled then CharSpacePending(now) else Idle;
      case CharSpacePending(start) =>
        if ditNow || dahNow {
          var elapsed := Hal.DurationSince(now, start);
          if elapsed >= Hal.DurationMul(cfg.unitMs, 3) {
            var next := if dahNow then Dah else Dit;
            Enqueue(queue, next);
            state := if ditNow && dahNow then Squeeze(next) else if ditNow then DitHold else DahHold;
          }
        } else if Hal.DurationSince(now, start) >= Hal.DurationMul(cfg.unitMs, 3) {
          state := Idle;
        }
    }
  }

  /** `sender_task`: how long the key is held for an element; the gap after it is one unit. */
  function OnTime(e: Element, unitMs: nat): (d: nat)
    ensures d == e.ToCore().DurationUnits() * unitMs
  {
    match e
    case Dit => unitMs
    case Dah => Hal.DurationMul(unitMs, 3)
  }

  /**
   * A failed enqueue is dropped: the state moves on exactly as if the
   * element had been sent (the core instead stays put and retries).
   */
  lemma FullQueueDropsElement(cfg: KeyerConfig, st: FsmState, p: Presses, dit: bool, dah: bool, now: nat)
    ensures var full := ProtoStep(cfg, st, p, dit, dah, now, false);
            var roomy := ProtoStep(cfg, st, p, dit, dah, now, true);
            full.state == roomy.state && full.presses == roomy.presses && full.out.None?
  {
  }

  /** The same tick in the core and the prototype: the core keeps Idle on a full queue, the prototype moves to DitHold. */
  lemma FullQueueDiffersFromCore(cfg: Types.KeyerConfig, pcfg: KeyerConfig, h: Controller.PressHistory, p: Presses, now: nat)
    ensures Fsm.Step(cfg, Types.Idle, h, true, false, now, false).state == Types.Idle
    ensures ProtoStep(pcfg, Idle, p, true, false, now, false).state == DitHold
  {
  }

  /**
   * In SuperKeyer mode a held squeeze always sends Dah: both sides are
   * restamped at the same instant each pass, and Dah wins a tie.
   */
  lemma SuperKeyerSqueezeAlwaysDah(cfg: KeyerConfig, last: Element, p: Presses, now: nat)
    requires cfg.mode == Types.SuperKeyer
    ensures var r := ProtoStep(cfg, Squeeze(last), p, true, true, now, true);
            r.out == Some(Dah) && r.state == Squeeze(Dah)
  {
    RecordBothGivesDah(p, now);
  }

  datatype Tick = Tick(dit: bool, dah: bool, now: nat)

  /** Successive loop passes with a queue that always has room. */
  function ProtoRun(cfg: KeyerConfig, st: FsmState, p: Presses, ticks: seq<Tick>): (r: (FsmState, seq<Element>))
    ensures |r.1| <= |ticks|
    decreases |ticks|
  {
    if ticks == [] then (st, [])
    else
      var s := ProtoStep(cfg, st, p, ticks[0].dit, ticks[0].dah, ticks[0].now, true);
      var rest := ProtoRun(cfg, s.state, s.presses, ticks[1..]);
      (rest.0, Outputs(s.out) + rest.1)
  }

  /** SuperKeyer: however long the squeeze is held, every element it sends is Dah. */
  lemma {:induction false} SuperKeyerSqueezeRunIsAllDah(cfg: KeyerConfig, last: Element, p: Presses, ticks: seq<Tick>)
    requires cfg.mode == Types.SuperKeyer
    requires forall i :: 0 <= i < |ticks| ==> ticks[i].dit && ticks[i].dah
    ensures var r := ProtoRun(cfg, Squeeze(last), p, ticks);
            |r.1| == |ticks| && forall i :: 0 <= i < |r.1| ==> r.1[i] == Dah
    decreases |ticks|
  {
    if ticks != [] {
      var s := ProtoStep(cfg, Squeeze(last), p, ticks[0].dit, ticks[0].dah, ticks[0].now, true);
      SuperKeyerSqueezeAlwaysDah(cfg, last, p, ticks[0].now);
      SuperKeyerSqueezeRunIsAllDah(cfg, Dah, s.presses, ticks[1..]);
    }
  }

  /**
   * A hold state that sees both paddles sends its own element once more
   * before squeezing; a hold state whose paddle was released while the other
   * is pressed squeezes without sending. The core sends nothing in both.
   */
  lemma HoldWithOtherPaddle(cfg: KeyerConfig, p: Presses, now: nat)
    ensures ProtoStep(cfg, DitHold, p, true, true, now, true) == ProtoResult(Squeeze(Dit), p, Some(Dit))
    ensures ProtoStep(cfg, DitHold, p, false, true, now, true) == ProtoResult(Squeeze(Dit), p, None)
    ensures ProtoStep(cfg, DahHold, p, true, true, now, true) == ProtoResult(Squeeze(Dah), p, Some(Dah))
    ensures ProtoStep(cfg, DahHold, p, true, false, now, true) == ProtoResult(Squeeze(Dah), p, None)
  {
  }

  /** Releasing a held paddle returns straight to Idle, without a character space. */
  lemma HoldReleaseSkipsCharSpace(cfg: KeyerConfig, p: Presses, now: nat, room: bool)
    ensures ProtoStep(cfg, DitHold, p, false, false, now, room) == ProtoResult(Idle, p, None)
    ensures ProtoStep(cfg, DahHold, p, false, false, now, room) == ProtoResult(Idle, p, None)
  {
  }

  /** Squeeze release: Mode A ends the run; Modes B and SuperKeyer send the opposite element once. */
  lemma SqueezeReleaseByMode(cfg: KeyerConfig, last: Element, p: Presses, now: nat, room: bool)
    ensures var r := ProtoStep(cfg, Squeeze(last), p, false, false, now, room);
            && r.out.None?
            && (cfg.mode == Types.ModeA ==> r.state == AfterElement(cfg, now))
            && (cfg.mode != Types.ModeA ==> r.state == MemoryPending(last.Opposite()))
  {
  }

  /** After a character space, a squeeze starts with Dah in every mode (the core starts Modes A and B with Dit). */
  lemma CharSpaceSqueezeStartsWithDah(cfg: KeyerConfig, p: Presses, start: nat, now: nat)
    requires start + 3 * cfg.unitMs <= now
    ensures ProtoStep(cfg, CharSpacePending(start), p, true, true, now, true) == ProtoResult(Squeeze(Dah), p, Some(Dah))
  {
    assert Hal.DurationMul(cfg.unitMs, 3) == 3 * cfg.unitMs;
  }

  /**
   * The prototype's Idle decision: a single paddle queues its element and
   * holds it, both paddles queue the squeeze start element (Dit outside
   * SuperKeyer) and squeeze. Unlike the core, the state moves on even when
   * the queue is full.
   */
  lemma IdleTransitions(cfg: KeyerConfig, p: Presses, dit: bool, dah: bool, now: nat, room: bool)
    ensures var r := ProtoStep(cfg, Idle, p, dit, dah, now, room);
            && r.presses == p
            && (!dit && !dah ==> r.state == Idle && r.out.None?)
            && (dit && !dah ==> r.state == DitHold && r.out == Enq(room, Dit))
            && (!dit && dah ==> r.state == DahHold && r.out == Enq(room, Dah))
            && (dit && dah && cfg.mode != Types.SuperKeyer ==> r.state == Squeeze(Dit) && r.out == Enq(room, Dit))
            && (dit && dah && cfg.mode == Types.SuperKeyer ==>
                  r.state == Squeeze(p.Priority().GetOr(Dit)) && r.out == Enq(room, p.Priority().GetOr(Dit)))
  {
  }

  /** A paddle held alone repeats its element on every pass and stays in its hold state. */
  lemma HeldAloneRepeats(cfg: KeyerConfig, p: Presses, now: nat, room: bool)
    ensures ProtoStep(cfg, DitHold, p, true, false, now, room) == ProtoResult(DitHold, p, Enq(room, Dit))
    ensures ProtoStep(cfg, DahHold, p, false, true, now, room) == ProtoResult(DahHold, p, Enq(room, Dah))
  {
  }

  /**
   * CharSpacePending: before three units have passed every pass is a no-op;
   * afterwards a single paddle restarts into its hold state with its own
   * element, and no paddle returns to Idle.
   */
  lemma CharSpaceRestart(cfg: KeyerConfig, p: Presses, start: nat, dit: bool, dah: bool, now: nat, room: bool)
    ensures var r := ProtoStep(cfg, CharSpacePending(start), p, dit, dah, now, room);
            && r.presses == p
            && (start <= now < start + 3 * cfg.unitMs ==> r == ProtoResult(CharSpacePending(start), p, None))
            && (start + 3 * cfg.unitMs <= now ==>
                  && (!dit && !dah ==> r.state == Idle && r.out.None?)
                  && (dit && !dah ==> r.state == DitHold && r.out == Enq(room, Dit))
                  && (!dit && dah ==> r.state == DahHold && r.out == Enq(room, Dah)))
  {
    assert Hal.DurationMul(cfg.unitMs, 3) == 3 * cfg.unitMs;
  }

  /** Modes A and B alternate under a held squeeze, as in the core. */
  lemma {:induction false} SqueezeAlternates(cfg: KeyerConfig, last: Element, p: Presses, ticks: seq<Tick>)
    requires cfg.mode != Types.SuperKeyer
    requires forall i :: 0 <= i < |ticks| ==> ticks[i].dit && ticks[i].dah
    ensures var r := ProtoRun(cfg, Squeeze(last), p, ticks);
            |r.1| == |ticks| && forall i :: 0 <= i < |r.1| ==> (r.1[i] == last <==> i % 2 == 1)
    decreases |ticks|
  {
    if ticks != [] {
      var s := ProtoStep(cfg, Squeeze(last), p, ticks[0].dit, ticks[0].dah, ticks[0].now, true);
      assert s.out == Some(last.Opposite()) && s.state == Squeeze(last.Opposite());
      SqueezeAlternates(cfg, last.Opposite(), s.presses, ticks[1..]);
      var rest := ProtoRun(cfg, s.state, s.presses, ticks[1..]);
      assert ProtoRun(cfg, Squeeze(last), p, ticks).1 == [last.Opposite()] + rest.1;
      assert last.Opposite().Opposite() == last;
    }
  }
}
