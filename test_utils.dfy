/**
 * The test harness's deterministic helpers (keyer-core/src/test_utils.rs):
 * virtual time with a queue of scheduled events, paddle patterns and their
 * composition, and capture of keyed output.
 */
module TestUtils {
  import opened Wrappers
  import opened Types
  import Hal

  function Min(a: nat, b: nat): nat {
    if a <= b then a else b
  }

  /** The first `n` elements of `s`, or all of them. */
  function Take<T>(s: seq<T>, n: nat): (r: seq<T>)
    ensures |r| == Min(|s|, n)
    ensures r <= s
  {
    s[..Min(|s|, n)]
  }

  /** Pushing onto a bounded vector that ignores pushes beyond its capacity `n`. */
  lemma TakeAppend<T>(s: seq<T>, x: T, n: nat)
    ensures Take(s + [x], n) == if |Take(s, n)| < n then Take(s, n) + [x] else Take(s, n)
  {
    if |s| < n {
      assert Take(s + [x], n) == s + [x];
    } else {
      assert Take(s + [x], n) == (s + [x])[..n] == s[..n];
    }
  }

  // ---------------------------------------------------------------- virtual time

  /** Events are ordered by time, then by id. */
  datatype ScheduledEvent = ScheduledEvent(time: nat, id: nat)

  predicate Before(a: ScheduledEvent, b: ScheduledEvent) {
    a.time < b.time || (a.time == b.time && a.id < b.id)
  }

  /** Where the earliest event sits: what a min-heap pops. */
  function MinIndex(s: seq<ScheduledEvent>): (i: nat)
    requires |s| > 0
    ensures i < |s|
    ensures forall j :: 0 <= j < |s| ==> !Before(s[j], s[i])
    decreases |s|
  {
    if |s| == 1 then 0
    else
      var k := MinIndex(s[1..]) + 1;
      assert forall j :: 1 <= j < |s| ==> s[j] == s[1..][j - 1];
      if Before(s[0], s[k]) then 0 else k
  }

  /** `VirtualTime`: a millisecond clock and the pending events (a heap, kept here as a sequence). */
  class VirtualTime {
    var currentTime: nat
    var scheduled: seq<ScheduledEvent>

    constructor ()
      ensures currentTime == 0 && scheduled == []
    {
      currentTime := 0;
      scheduled := [];
    }

    function Now(): nat
      reads this
    {
      currentTime
    }

    method Advance(durationMs: nat)
      modifies this
      ensures currentTime == old(currentTime) + durationMs
      ensures scheduled == old(scheduled)
    {
      currentTime := currentTime + durationMs;
    }

    /** Schedules an event `delayMs` from now; its id is the number of events pending before it. */
    method ScheduleEvent(delayMs: nat) returns (id: nat)
      modifies this
      ensures id == |old(scheduled)|
      ensures multiset(scheduled) == multiset(old(scheduled)) + multiset{ScheduledEvent(currentTime + delayMs, id)}
      ensures currentTime == old(currentTime)
    {
      id := |scheduled|;
      scheduled := scheduled + [ScheduledEvent(currentTime + delayMs, id)];
    }

    /** Time until the earliest event; the unsigned subtraction needs it not to be in the past. */
    function NextEventTime(): (r: Option<nat>)
      reads this
      requires scheduled != [] ==> scheduled[MinIndex(scheduled)].time >= currentTime
      ensures r.None? <==> scheduled == []
      ensures r.Some? ==> currentTime + r.value == scheduled[MinIndex(scheduled)].time
    {
      if scheduled == [] then None
      else Some(scheduled[MinIndex(scheduled)].time - currentTime)
    }

    /** Pops the earliest event, moves the clock to its time and returns its id. */
    method AdvanceToNextEvent() returns (r: Option<nat>)
      modifies this
      ensures old(scheduled) == [] ==> r.None? && scheduled == [] && currentTime == old(currentTime)
      ensures old(scheduled) != [] ==>
                exists e :: e in old(scheduled)
                  && (forall f :: f in old(scheduled) ==> !Before(f, e))
                  && r == Some(e.id) && currentTime == e.time
                  && multiset(scheduled) == multiset(old(scheduled)) - multiset{e}
    {
      if scheduled == [] {
        return None;
      }
      var i := MinIndex(scheduled);
      var e := scheduled[i];
      assert scheduled == scheduled[..i] + [e] + scheduled[i + 1..];
      scheduled := scheduled[..i] + scheduled[i + 1..];
      currentTime := e.time;
      r := Some(e.id);
    }
  }

  /** Ids are the heap's length at scheduling time, so an id is handed out again once its event is popped. */
  method IdReusedAfterPop(vt: VirtualTime) returns (first: nat, popped: Option<nat>, second: nat)
    requires vt.scheduled == []
    modifies vt
    ensures first == 0 && popped == Some(0) && second == 0
  {
    first := vt.ScheduleEvent(5);
    popped := vt.AdvanceToNextEvent();
    second := vt.ScheduleEvent(5);
  }

  // ---------------------------------------------------------------- paddle patterns

  /** A paddle edge `time` ms into a pattern. */
  datatype PaddleEvent = PaddleEvent(time: nat, side: PaddleSide, pressed: bool)

  datatype PaddlePattern = PaddlePattern(events: seq<PaddleEvent>, description: string)

  function DitPattern(unitMs: nat): PaddlePattern {
    PaddlePattern([PaddleEvent(0, DitSide, true), PaddleEvent(unitMs, DitSide, false)], "Dit")
  }

  function DahPattern(unitMs: nat): PaddlePattern {
    PaddlePattern([PaddleEvent(0, DahSide, true), PaddleEvent(Hal.DurationMul(unitMs, 3), DahSide, false)], "Dah")
  }

  /** Dit at 0, Dah 10 ms later, Dit released at `durationMs`, Dah 10 ms after that. */
  function SqueezePattern(unitMs: nat, durationMs: nat): PaddlePattern {
    PaddlePattern(
      [PaddleEvent(0, DitSide, true), PaddleEvent(10, DahSide, true),
       PaddleEvent(durationMs, DitSide, false), PaddleEvent(durationMs + 10, DahSide, false)],
      "Squeeze")
  }

  /** Letter A: a Dit, one unit of space, a Dah. */
  function LetterAPattern(unitMs: nat): PaddlePattern {
    var interElement := unitMs;
    PaddlePattern(
      [PaddleEvent(0, DitSide, true), PaddleEvent(unitMs, DitSide, false),
       PaddleEvent(unitMs + interElement, DahSide, true),
       PaddleEvent(unitMs + interElement + Hal.DurationMul(unitMs, 3), DahSide, false)],
      "Letter A (Dit-Dah)")
  }

  predicate Chronological(events: seq<PaddleEvent>) {
    forall i, j :: 0 <= i < j < |events| ==> events[i].time <= events[j].time
  }

  /** The paddle levels after replaying `events` from index `i` on, starting at (`dit`, `dah`), without debouncing. */
  function Replay(events: seq<PaddleEvent>, i: nat, dit: bool, dah: bool): (bool, bool)
    requires i <= |events|
    decreases |events| - i
  {
    if i == |events| then (dit, dah)
    else
      var e := events[i];
      Replay(events, i + 1, if e.side == DitSide then e.pressed else dit, if e.side == DahSide then e.pressed else dah)
  }

  /** Both paddles are released once the whole pattern has been replayed from rest. */
  predicate EndsReleased(p: PaddlePattern) {
    Replay(p.events, 0, false, false) == (false, false)
  }

  /** A press followed by a release of the same side, then nothing more, ends released. */
  lemma {:induction false} PressReleaseEndsReleased(events: seq<PaddleEvent>, i: nat, dit: bool, dah: bool)
    requires i + 2 == |events|
    requires events[i].side == events[i + 1].side && !events[i + 1].pressed
    requires events[i].side == DitSide ==> !dah
    requires events[i].side == DahSide ==> !dit
    ensures Replay(events, i, dit, dah) == (false, false)
  {
    var e := events[i];
    var d1 := if e.side == DitSide then e.pressed else dit;
    var h1 := if e.side == DahSide then e.pressed else dah;
    var f := events[i + 1];
    var d2 := if f.side == DitSide then f.pressed else d1;
    var h2 := if f.side == DahSide then f.pressed else h1;
    assert Replay(events, i, dit, dah) == Replay(events, i + 1, d1, h1) == Replay(events, i + 2, d2, h2);
  }

  /**
   * Every elementary pattern is in time order and leaves both paddles
   * released; the squeeze pattern is in time order exactly when it lasts at
   * least the 10 ms offset of its Dah press.
   */
  lemma {:induction false} PatternsAreWellFormed(unitMs: nat, durationMs: nat)
    ensures Chronological(DitPattern(unitMs).events) && EndsReleased(DitPattern(unitMs))
    ensures Chronological(DahPattern(unitMs).events) && EndsReleased(DahPattern(unitMs))
    ensures Chronological(LetterAPattern(unitMs).events) && EndsReleased(LetterAPattern(unitMs))
    ensures EndsReleased(SqueezePattern(unitMs, durationMs))
    ensures Chronological(SqueezePattern(unitMs, durationMs).events) <==> durationMs >= 10
  {
    PressReleaseEndsReleased(DitPattern(unitMs).events, 0, false, false);
    PressReleaseEndsReleased(DahPattern(unitMs).events, 0, false, false);
    var a := LetterAPattern(unitMs).events;
    assert Replay(a, 0, false, false) == Replay(a, 1, true, false) == Replay(a, 2, false, false);
    PressReleaseEndsReleased(a, 2, false, false);
    var sq := SqueezePattern(unitMs, durationMs).events;
    assert Replay(sq, 0, false, false) == Replay(sq, 1, true, false) == Replay(sq, 2, true, true)
        == Replay(sq, 3, false, true) == Replay(sq, 4, false, false);
    if durationMs < 10 {
      assert sq[1].time > sq[2].time;
    }
  }

  function ShiftEvent(e: PaddleEvent, offset: nat): PaddleEvent {
    e.(time := offset + e.time)
  }

  function Shift(events: seq<PaddleEvent>, offset: nat): (r: seq<PaddleEvent>)
    ensures |r| == |events|
    ensures forall k :: 0 <= k < |events| ==> r[k] == ShiftEvent(events[k], offset)
  {
    seq(|events|, k requires 0 <= k < |events| => ShiftEvent(events[k], offset))
  }

  /** The delays of all the given patterns, added up. */
  function SumDelays(patterns: seq<(PaddlePattern, nat)>): nat
    decreases |patterns|
  {
    if patterns == [] then 0 else SumDelays(patterns[..|patterns| - 1]) + patterns[|patterns| - 1].1
  }

  /** How many events the given patterns hold altogether. */
  function CountEvents(patterns: seq<(PaddlePattern, nat)>): nat
    decreases |patterns|
  {
    if patterns == [] then 0 else CountEvents(patterns[..|patterns| - 1]) + |patterns[|patterns| - 1].0.events|
  }

  /** Each pattern's events, shifted by the delays of the patterns before it, one pattern after another. */
  function Flatten(patterns: seq<(PaddlePattern, nat)>): (r: seq<PaddleEvent>)
    decreases |patterns|
  {
    if patterns == [] then []
    else
      var init := patterns[..|patterns| - 1];
      Flatten(init) + Shift(patterns[|patterns| - 1].0.events, SumDelays(init))
  }

  /**
   * Event `k` of pattern `i` is placed after all the events of patterns
   * 0..i-1, moved later by the sum of their delays.
   */
  lemma {:induction false} FlattenPlacesEvent(patterns: seq<(PaddlePattern, nat)>, i: nat, k: nat)
    requires i < |patterns| && k < |patterns[i].0.events|
    ensures |Flatten(patterns)| == CountEvents(patterns)
    ensures CountEvents(patterns[..i]) + k < |Flatten(patterns)|
    ensures Flatten(patterns)[CountEvents(patterns[..i]) + k] == ShiftEvent(patterns[i].0.events[k], SumDelays(patterns[..i]))
    decreases |patterns|
  {
    var n := |patterns| - 1;
    var init := patterns[..n];
    FlattenLength(patterns);
    if i == n {
      assert patterns[..i] == init;
      FlattenLength(init);
    } else {
      assert init[..i] == patterns[..i];
      FlattenPlacesEvent(init, i, k);
    }
  }

  lemma {:induction false} FlattenLength(patterns: seq<(PaddlePattern, nat)>)
    ensures |Flatten(patterns)| == CountEvents(patterns)
    decreases |patterns|
  {
    if patterns != [] {
      FlattenLength(patterns[..|patterns| - 1]);
    }
  }

  /**
   * `PaddlePattern::sequence`: concatenates the patterns, each shifted by
   * the running sum of delays; events beyond the 64-slot vector are dropped.
   */
  method Sequence(patterns: seq<(PaddlePattern, nat)>) returns (p: PaddlePattern)
    ensures p.events == Take(Flatten(patterns), 64)
    ensures p.description == "Sequence"
  {
    var events: seq<PaddleEvent> := [];
    var offset := 0;
    var i := 0;
    while i < |patterns|
      invariant 0 <= i <= |patterns|
      invariant offset == SumDelays(patterns[..i])
      invariant events == Take(Flatten(patterns[..i]), 64)
    {
      var pattern := patterns[i].0;
      var delay := patterns[i].1;
      var j := 0;
      while j < |pattern.events|
        invariant 0 <= j <= |pattern.events|
        invariant events == Take(Flatten(patterns[..i]) + Shift(pattern.events[..j], offset), 64)
      {
        var event := pattern.events[j];
        TakeAppend(Flatten(patterns[..i]) + Shift(pattern.events[..j], offset), ShiftEvent(event, offset), 64);
        assert Shift(pattern.events[..j + 1], offset) == Shift(pattern.events[..j], offset) + [ShiftEvent(event, offset)];
        if |events| < 64 {
          events := events + [PaddleEvent(offset + event.time, event.side, event.pressed)];
        }
        j := j + 1;
      }
      assert pattern.events[..j] == pattern.events;
      assert patterns[..i + 1][..i] == patterns[..i];
      offset := offset + delay;
      i := i + 1;
    }
    assert patterns[..i] == patterns;
    p := PaddlePattern(events, "Sequence");
  }

  // ---------------------------------------------------------------- output capture

  /** A keyed element that started at `startTime` and lasted `duration` ms. */
  datatype OutputEvent = OutputEvent(element: Element, startTime: nat, duration: nat)

  /** The character `to_morse_string` writes for an element. */
  function MorseChar(e: Element): (c: char)
    ensures c == '.' <==> e == Dit
    ensures c == '-' <==> e == Dah
    ensures c == ' ' <==> e == CharSpace
  {
    match e
    case Dit => '.'
    case Dah => '-'
    case CharSpace => ' '
  }

  /** Different elements are written differently, so the Morse string determines the elements. */
  lemma MorseCharInjective(a: Element, b: Element)
    ensures MorseChar(a) == MorseChar(b) ==> a == b
  {
  }

  class OutputCapture {
    var events: seq<OutputEvent>
    var currentElement: Option<Element>
    var elementStart: Option<nat>

    constructor ()
      ensures events == [] && currentElement.None? && elementStart.None?
    {
      events := [];
      currentElement := None;
      elementStart := None;
    }

    /**
     * Closes the element in progress at `time` (a no-op when there is none);
     * both slots end up empty.
     */
    method KeyUp(time: nat)
      requires currentElement.Some? && elementStart.Some? ==> time >= elementStart.value
      modifies this
      ensures currentElement.None? && elementStart.None?
      ensures old(currentElement).Some? && old(elementStart).Some? ==>
                events == old(events) + [OutputEvent(old(currentElement).value, old(elementStart).value, time - old(elementStart).value)]
      ensures !(old(currentElement).Some? && old(elementStart).Some?) ==> events == old(events)
    {
      var element := currentElement;
      var start := elementStart;
      currentElement, elementStart := None, None;
      if element.Some? && start.Some? {
        var duration := time - start.value;
        events := events + [OutputEvent(element.value, start.value, duration)];
      }
    }

    /** Starts `element` at `time`, first closing any element still in progress. */
    method KeyDown(element: Element, time: nat)
      requires currentElement.Some? && elementStart.Some? ==> time >= elementStart.value
      modifies this
      ensures currentElement == Some(element) && elementStart == Some(time)
      ensures old(events) <= events && |events| <= |old(events)| + 1
      ensures old(currentElement).Some? && old(elementStart).Some? ==>
                events == old(events) + [OutputEvent(old(currentElement).value, old(elementStart).value, time - old(elementStart).value)]
      ensures old(currentElement).None? ==> events == old(events)
    {
      if currentElement.Some? {
        KeyUp(time);
      }
      currentElement := Some(element);
      elementStart := Some(time);
    }

    function Events(): seq<OutputEvent>
      reads this
    {
      events
    }

    method Clear()
      modifies this
      ensures events == [] && currentElement.None? && elementStart.None?
    {
      events := [];
      currentElement := None;
      elementStart := None;
    }

    /** The captured elements in order, at most 32 of them. */
    method ToElementSequence() returns (r: seq<Element>)
      ensures |r| == Min(|events|, 32)
      ensures forall k :: 0 <= k < |r| ==> r[k] == events[k].element
    {
      r := [];
      var i := 0;
      while i < |events|
        invariant 0 <= i <= |events|
        invariant |r| == Min(i, 32)
        invariant forall k :: 0 <= k < |r| ==> r[k] == events[k].element
      {
        if |r| < 32 {
          r := r + [events[i].element];
        }
        i := i + 1;
      }
    }

    /** The captured elements as '.', '-' and ' ', at most 32 characters. */
    method ToMorseString() returns (r: string)
      ensures |r| == Min(|events|, 32)
      ensures forall k :: 0 <= k < |r| ==> r[k] == MorseChar(events[k].element)
    {
      r := [];
      var i := 0;
      while i < |events|
        invariant 0 <= i <= |events|
        invariant |r| == Min(i, 32)
        invariant forall k :: 0 <= k < |r| ==> r[k] == MorseChar(events[k].element)
      {
        if |r| < 32 {
          r := r + [MorseChar(events[i].element)];
        }
        i := i + 1;
      }
    }
  }

  /** A Dit keyed from 0 to 60 ms and a Dah from 120 to 300 ms are captured as ".-". */
  method CaptureLetterA(c: OutputCapture) returns (morse: string)
    requires c.events == [] && c.currentElement.None? && c.elementStart.None?
    modifies c
    ensures c.events == [OutputEvent(Dit, 0, 60), OutputEvent(Dah, 120, 180)]
    ensures morse == ".-"
  {
    c.KeyDown(Dit, 0);
    c.KeyUp(60);
    c.KeyDown(Dah, 120);
    c.KeyUp(300);
    morse := c.ToMorseString();
  }
}
