/**
 * The keyer finite state machine (keyer-core/src/fsm.rs): one `Update` per
 * evaluation tick reads the paddles and enqueues at most one element.
 *
 * `Step` is the value-level specification of one tick; `KeyerFsm.Update` is
 * proved to realise it, and the keyer's promises are lemmas about `Step`.
 */
module Fsm {
  import opened Wrappers
  import opened Types
  import Hal
  import opened Controller
  import opened Queue

  /** What one tick produces: the next state, the controller history, and the element enqueued if any. */
  datatype StepResult = StepResult(state: FsmState, history: PressHistory, out: Option<Element>)

  function Outputs(out: Option<Element>): (s: seq<Element>)
    ensures out.Some? ==> s == [out.value]
    ensures out.None? ==> s == []
  {
    if out.Some? then [out.value] else []
  }

  /**
   * An enqueue whose success moves the machine to `next`: with room the
   * element goes out, otherwise nothing changes and the next tick retries.
   */
  function Emit(room: bool, e: Element, next: FsmState, current: FsmState, h: PressHistory): (r: StepResult)
    ensures r.history == h
    ensures room ==> r.state == next && r.out == Some(e)
    ensures !room ==> r.state == current && r.out.None?
  {
    if room then StepResult(next, h, Some(e)) else StepResult(current, h, None)
  }

  /** `transition_to_idle_or_char_space_at_time`. */
  function AfterElement(cfg: KeyerConfig, now: nat): (s: FsmState)
    ensures cfg.charSpaceEnabled <==> s == CharSpacePending(now)
    ensures !cfg.charSpaceEnabled <==> s == Idle
  {
    if cfg.charSpaceEnabled then CharSpacePending(now) else Idle
  }

  /** `determine_squeeze_start`: the controller's priority in SuperKeyer mode, otherwise Dit. */
  function SqueezeStart(cfg: KeyerConfig, h: PressHistory): (e: Element)
    ensures e.IsKeyed()
    ensures cfg.mode != SuperKeyer ==> e == Dit
    ensures cfg.mode == SuperKeyer && h.Priority().Some? ==> e == h.Priority().value
  {
    if cfg.mode == SuperKeyer then h.Priority().GetOr(Dit) else Dit
  }

  /** `determine_next_squeeze_element`: alternation in Modes A and B, the priority element in SuperKeyer. */
  function NextSqueezeElement(cfg: KeyerConfig, h: PressHistory, last: Element): (e: Element)
    ensures last.IsKeyed() ==> e.IsKeyed()
    ensures cfg.mode != SuperKeyer ==> e == last.Opposite()
    ensures cfg.mode == SuperKeyer && h.Priority().Some? ==> e == h.Priority().value
  {
    if cfg.mode == SuperKeyer then h.Priority().GetOr(last.Opposite()) else last.Opposite()
  }

  /**
   * `handle_idle_state`, also used from CharSpacePending: on a failed enqueue
   * the machine stays in `current`.
   */
  function IdleStep(cfg: KeyerConfig, current: FsmState, h: PressHistory, dit: bool, dah: bool, room: bool): (r: StepResult)
    ensures r.history == h
    ensures !dit && !dah ==> r == StepResult(current, h, None)
    ensures !room ==> r == StepResult(current, h, None)
    ensures room && dit && !dah ==> r == StepResult(DitHold, h, Some(Dit))
    ensures room && !dit && dah ==> r == StepResult(DahHold, h, Some(Dah))
    ensures room && dit && dah ==> r == StepResult(Squeeze(SqueezeStart(cfg, h)), h, Some(SqueezeStart(cfg, h)))
  {
    if dit && dah then
      var e := SqueezeStart(cfg, h);
      Emit(room, e, Squeeze(e), current, h)
    else if dit then Emit(room, Dit, DitHold, current, h)
    else if dah then Emit(room, Dah, DahHold, current, h)
    else StepResult(current, h, None)
  }

  function HoldState(side: PaddleSide): (s: FsmState)
    ensures s.CurrentElement() == Some(side.ToElement())
    ensures s.DitHold? || s.DahHold?
  {
    match side
    case DitSide => DitHold
    case DahSide => DahHold
  }

  /**
   * `handle_dit_hold_state` / `handle_dah_hold_state`: a squeeze starts from
   * the held element without sending, a release ends the element run, and a
   * held paddle repeats its element.
   */
  function HoldStep(cfg: KeyerConfig, side: PaddleSide, h: PressHistory, dit: bool, dah: bool, now: nat, room: bool): (r: StepResult)
    ensures r.history == h
    ensures dit && dah ==> r == StepResult(Squeeze(side.ToElement()), h, None)
    ensures !(if side == DitSide then dit else dah) ==> r == StepResult(AfterElement(cfg, now), h, None)
    ensures (if side == DitSide then dit && !dah else dah && !dit) ==>
              r == StepResult(HoldState(side), h, if room then Some(side.ToElement()) else None)
  {
    var held := if side == DitSide then dit else dah;
    if dit && dah then StepResult(Squeeze(side.ToElement()), h, None)
    else if !held then StepResult(AfterElement(cfg, now), h, None)
    else Emit(room, side.ToElement(), HoldState(side), HoldState(side), h)
  }

  /** `handle_squeeze_release`, by mode. */
  function ReleaseStep(cfg: KeyerConfig, h: PressHistory, last: Element, now: nat): (r: StepResult)
    ensures r.out.None?
  {
    match cfg.mode
    case ModeA => StepResult(AfterElement(cfg, now), h, None)
    case ModeB => StepResult(MemoryPending(last.Opposite()), h, None)
    case SuperKeyer =>
      var withMemory := h.AfterSqueezeRelease(last);
      var taken := withMemory.(memory := None);
      if withMemory.memory.Some? then StepResult(MemoryPending(withMemory.memory.value), taken, None)
      else StepResult(AfterElement(cfg, now), taken, None)
  }

  /** `handle_squeeze_state`. */
  function SqueezeStep(cfg: KeyerConfig, h: PressHistory, last: Element, dit: bool, dah: bool, now: nat, room: bool): (r: StepResult)
    ensures r.out.Some? ==> room && (dit || dah)
    ensures !dit && !dah ==> r == ReleaseStep(cfg, h, last, now)
    ensures dit && !dah ==> r == if room then StepResult(DitHold, h, Some(Dit)) else StepResult(Squeeze(last), h, None)
    ensures !dit && dah ==> r == if room then StepResult(DahHold, h, Some(Dah)) else StepResult(Squeeze(last), h, None)
    ensures dit && dah ==> r == if room then StepResult(Squeeze(NextSqueezeElement(cfg, h, last)), h, Some(NextSqueezeElement(cfg, h, last)))
                                else StepResult(Squeeze(last), h, None)
  {
    if dit && dah then
      var e := NextSqueezeElement(cfg, h, last);
      Emit(room, e, Squeeze(e), Squeeze(last), h)
    else if dit then Emit(room, Dit, DitHold, Squeeze(last), h)
    else if dah then Emit(room, Dah, DahHold, Squeeze(last), h)
    else ReleaseStep(cfg, h, last, now)
  }

  /** `handle_memory_pending_state`: a sent memory element also clears the SuperKeyer history. */
  function MemoryStep(cfg: KeyerConfig, h: PressHistory, element: Element, now: nat, room: bool): (r: StepResult)
    ensures room ==> r.out == Some(element) && r.state == AfterElement(cfg, now)
    ensures !room ==> r == StepResult(MemoryPending(element), h, None)
  {
    if room then StepResult(AfterElement(cfg, now), if cfg.mode == SuperKeyer then NoHistory else h, Some(element))
    else StepResult(MemoryPending(element), h, None)
  }

  /** `handle_char_space_pending_state`: nothing happens until three units have passed since `start`. */
  function CharSpaceStep(cfg: KeyerConfig, h: PressHistory, start: nat, dit: bool, dah: bool, now: nat, room: bool): (r: StepResult)
    ensures r.history == h
  {
    var done := Hal.DurationSince(now, start) >= CharSpaceDuration(cfg);
    if dit || dah then
      if done then IdleStep(cfg, CharSpacePending(start), h, dit, dah, room)
      else StepResult(CharSpacePending(start), h, None)
    else if done then StepResult(Idle, h, None)
    else StepResult(CharSpacePending(start), h, None)
  }

  /** The controller history after `update` records the paddles (SuperKeyer mode only). */
  function Recorded(cfg: KeyerConfig, h: PressHistory, dit: bool, dah: bool, now: nat): (h': PressHistory)
    ensures cfg.mode != SuperKeyer ==> h' == h
    ensures h'.memory == h.memory
  {
    if cfg.mode == SuperKeyer then h.AfterPress(dit, dah, now) else h
  }

  /** One call of `KeyerFSM::update` with paddle reading (`dit`, `dah`) at `now`; `room` says whether the queue has space. */
  function Step(cfg: KeyerConfig, st: FsmState, h: PressHistory, dit: bool, dah: bool, now: nat, room: bool): (r: StepResult)
    ensures r.out.Some? ==> room
    ensures !dit && !dah ==> r.out.None? || st.MemoryPending?
  {
    var h' := Recorded(cfg, h, dit, dah, now);
    match st
    case Idle => IdleStep(cfg, Idle, h', dit, dah, room)
    case DitHold => HoldStep(cfg, DitSide, h', dit, dah, now, room)
    case DahHold => HoldStep(cfg, DahSide, h', dit, dah, now, room)
    case Squeeze(last) => SqueezeStep(cfg, h', last, dit, dah, now, room)
    case MemoryPending(e) => MemoryStep(cfg, h', e, now, room)
    case CharSpacePending(start) => CharSpaceStep(cfg, h', start, dit, dah, now, room)
  }

  /** The keyer FSM: its state, configuration and the SuperKeyer controller it owns. */
  class KeyerFsm {
    var state: FsmState
    var config: KeyerConfig
    const superkeyer: SuperKeyerController

    constructor (config: KeyerConfig)
      ensures state == Idle && this.config == config
      ensures fresh(superkeyer) && superkeyer.History() == NoHistory
    {
      state := Idle;
      this.config := config;
      superkeyer := new SuperKeyerController();
    }

    function CurrentState(): FsmState
      reads this
    {
      state
    }

    /** The new state, history and queue contents are those `r` describes, and `sent` counts the enqueued element. */
    twostate predicate Realises(queue: BoundedQueue<Element>, sent: nat, r: StepResult)
      reads this, superkeyer, queue
    {
      && state == r.state
      && superkeyer.History() == r.history
      && queue.items == old(queue.items) + Outputs(r.out)
      && sent == |Outputs(r.out)|
    }

    /** One evaluation tick at time `now`. */
    method Update(paddle: PaddleInput, queue: BoundedQueue<Element>, now: nat) returns (sent: nat)
      modifies this, superkeyer, queue
      ensures config == old(config)
      ensures Realises(queue, sent, Step(config, old(state), old(superkeyer.History()), paddle.Dit(), paddle.Dah(), now, old(queue.HasRoom())))
    {
      var ditNow := paddle.Dit();
      var dahNow := paddle.Dah();
      var bothPressed := ditNow && dahNow;
      if config.mode == SuperKeyer {
        superkeyer.Update(paddle, now);
      }
      match state
      case Idle =>
        sent := HandleIdle(ditNow, dahNow, bothPressed, queue);
      case DitHold =>
        sent := HandleHold(DitSide, ditNow, dahNow, bothPressed, now, queue);
      case DahHold =>
        sent := HandleHold(DahSide, ditNow, dahNow, bothPressed, now, queue);
      case Squeeze(last) =>
        sent := HandleSqueeze(ditNow, dahNow, bothPressed, last, now, queue);
      case MemoryPending(element) =>
        sent := HandleMemoryPending(element, now, queue);
      case CharSpacePending(start) =>
        sent := HandleCharSpacePending(ditNow, dahNow, bothPressed, start, now, queue);
    }

    method HandleIdle(ditNow: bool, dahNow: bool, bothPressed: bool, queue: BoundedQueue<Element>) returns (sent: nat)
      requires bothPressed == (ditNow && dahNow)
      modifies this, queue
      ensures config == old(config)
      ensures Realises(queue, sent, IdleStep(config, old(state), superkeyer.History(), ditNow, dahNow, old(queue.HasRoom())))
    {
      sent := 0;
      if bothPressed {
        var start := SqueezeStart(config, superkeyer.History());
        var r := queue.Enqueue(start);
        if r.Ok? {
          state := Squeeze(start);
          sent := 1;
        }
      } else if ditNow {
        var r := queue.Enqueue(Dit);
        if r.Ok? {
          state := DitHold;
          sent := 1;
        }
      } else if dahNow {
        var r := queue.Enqueue(Dah);
        if r.Ok? {
          state := DahHold;
          sent := 1;
        }
      }
    }

    /** The DitHold and DahHold handlers, which differ only in the side they hold. */
    method HandleHold(side: PaddleSide, ditNow: bool, dahNow: bool, bothPressed: bool, now: nat, queue: BoundedQueue<Element>)
      returns (sent: nat)
      requires bothPressed == (ditNow && dahNow)
      requires state == HoldState(side)
      modifies this, queue
      ensures config == old(config)
      ensures Realises(queue, sent, HoldStep(config, side, superkeyer.History(), ditNow, dahNow, now, old(queue.HasRoom())))
    {
      var held := if side == DitSide then ditNow else dahNow;
      sent := 0;
      if bothPressed {
        state := Squeeze(side.ToElement());
      } else if !held {
        TransitionToIdleOrCharSpace(now);
      } else {
        var r := queue.Enqueue(side.ToElement());
        if r.Ok? {
          sent := 1;
        }
      }
    }

    method HandleSqueeze(ditNow: bool, dahNow: bool, bothPressed: bool, last: Element, now: nat, queue: BoundedQueue<Element>)
      returns (sent: nat)
      requires bothPressed == (ditNow && dahNow)
      requires state == Squeeze(last)
      modifies this, superkeyer, queue
      ensures config == old(config)
      ensures Realises(queue, sent, SqueezeStep(config, old(superkeyer.History()), last, ditNow, dahNow, now, old(queue.HasRoom())))
    {
      sent := 0;
      if bothPressed {
        var next := DetermineNextSqueezeElement(last);
        var r := queue.Enqueue(next);
        if r.Ok? {
          state := Squeeze(next);
          sent := 1;
        }
      } else if ditNow {
        var r := queue.Enqueue(Dit);
        if r.Ok? {
          state := DitHold;
          sent := 1;
        }
      } else if dahNow {
        var r := queue.Enqueue(Dah);
        if r.Ok? {
          state := DahHold;
          sent := 1;
        }
      } else {
        HandleSqueezeRelease(last, now);
      }
    }

    method HandleMemoryPending(element: Element, now: nat, queue: BoundedQueue<Element>) returns (sent: nat)
      requires state == MemoryPending(element)
      modifies this, superkeyer, queue
      ensures config == old(config)
      ensures Realises(queue, sent, MemoryStep(config, old(superkeyer.History()), element, now, old(queue.HasRoom())))
    {
      var r := queue.Enqueue(element);
      if r.Ok? {
        if config.mode == SuperKeyer {
          superkeyer.ClearHistory();
        }
        TransitionToIdleOrCharSpace(now);
        sent := 1;
      } else {
        sent := 0;
      }
    }

    method HandleCharSpacePending(ditNow: bool, dahNow: bool, bothPressed: bool, start: nat, now: nat, queue: BoundedQueue<Element>)
      returns (sent: nat)
      requires bothPressed == (ditNow && dahNow)
      requires state == CharSpacePending(start)
      modifies this, queue
      ensures config == old(config)
      ensures Realises(queue, sent, CharSpaceStep(config, superkeyer.History(), start, ditNow, dahNow, now, old(queue.HasRoom())))
    {
      var elapsed := Hal.DurationSince(now, start);
      var charSpace := CharSpaceDuration(config);
      sent := 0;
      if ditNow || dahNow {
        if elapsed >= charSpace {
          sent := HandleIdle(ditNow, dahNow, bothPressed, queue);
        }
      } else if elapsed >= charSpace {
        state := Idle;
      }
    }

    method DetermineNextSqueezeElement(last: Element) returns (e: Element)
      modifies superkeyer
      ensures e == NextSqueezeElement(config, old(superkeyer.History()), last)
      ensures superkeyer.History() == old(superkeyer.History())
    {
      if config.mode == SuperKeyer {
        var priority := superkeyer.NextElement(true, Some(last));
        e := priority.GetOr(last.Opposite());
      } else {
        e := last.Opposite();
      }
    }

    method HandleSqueezeRelease(last: Element, now: nat)
      modifies this, superkeyer
      ensures config == old(config)
      ensures var r := ReleaseStep(config, old(superkeyer.History()), last, now);
              state == r.state && superkeyer.History() == r.history
    {
      match config.mode
      case ModeA =>
        TransitionToIdleOrCharSpace(now);
      case ModeB =>
        state := MemoryPending(last.Opposite());
      case SuperKeyer =>
        superkeyer.HandleSqueezeRelease(last);
        var memory := superkeyer.TakeMemory();
        if memory.Some? {
          state := MemoryPending(memory.value);
        } else {
          TransitionToIdleOrCharSpace(now);
        }
    }

    method TransitionToIdleOrCharSpace(time: nat)
      modifies this
      ensures config == old(config)
      ensures state == AfterElement(config, time)
    {
      if config.charSpaceEnabled {
        state := CharSpacePending(time);
      } else {
        state := Idle;
      }
    }

    method Reset()
      modifies this, superkeyer
      ensures config == old(config)
      ensures state == Idle && superkeyer.History() == NoHistory
    {
      state := Idle;
      superkeyer.ClearHistory();
    }

    /** Replaces the configuration; leaving SuperKeyer mode forgets the press history. */
    method SetConfig(newConfig: KeyerConfig)
      modifies this, superkeyer
      ensures config == newConfig && state == old(state)
      ensures newConfig.mode != SuperKeyer ==> superkeyer.History() == NoHistory
      ensures newConfig.mode == SuperKeyer ==> superkeyer.History() == old(superkeyer.History())
    {
      config := newConfig;
      if newConfig.mode != SuperKeyer {
        superkeyer.ClearHistory();
      }
    }
  }
}
