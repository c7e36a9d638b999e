# Iambic keyer decision engine, modelled in Dafny

This project models the decision engine of the rustykeyer iambic Morse keyer.
The engine reads which paddles are pressed and decides which keying elements
(Dit, Dah, CharSpace) go into a bounded output queue. The parts modelled:

- the shared value types and the validated configuration (`Types`);
- the mock time arithmetic, the generic pin adapters and the test mocks (`Hal`);
- the debounced paddle state and the SuperKeyer controller (`Controller`);
- the bounded single-producer queue (`Queue`);
- the six-state keyer FSM (`Fsm`) and what it promises (`FsmProperties`);
- the earlier single-file prototype keyer, kept apart so that its differences from the core are lemmas (`Prototype`);
- the CH32V003 and CH32V203 board adapters (`Ch32v003`, `Ch32v203`);
- the test harness's virtual time, paddle patterns and output capture (`TestUtils`).

Time is a whole number of milliseconds, or microseconds for the CH32V203 edge stamps. Every read of the clock is a `now` parameter. Atomics are plain fields.

Stateful parts are classes with the source's fields and `modifies` clauses:

- `KeyerFsm`, the paddle inputs, the controllers, the pins, `OutputCapture` and `VirtualTime`;
- the loop body of the prototype's evaluator (`Prototype.Evaluator`).

Each state-changing method is proved to produce the state that a value-level function gives:

- `Fsm.Step` for one FSM tick;
- `Controller.PressHistory` for the controller;
- `Prototype.ProtoStep` for one prototype pass.

The keyer's promises are lemmas about those functions. Plain field readers (`Dit`, `Dah`, `Pressed`, `LastEdge`, `CurrentState`, `PeekMemory`, `PressTimes`, `Events`, `Now`, `LastEdgeTime`) are modelled but carry no contract and have no row below.

## Model

| member | source | states |
|---|---|---|
| Types.Element.DurationUnits | keyer-core/src/types.rs:19-25 | A Dit lasts one unit; Dah and CharSpace last three. |
| Types.Element.Opposite | keyer-core/src/types.rs:36-42 | Dit and Dah swap; CharSpace is returned unchanged; keyedness is preserved. |
| Types.OppositeIsInvolution | keyer-core/src/types.rs:36-42 | Taking the opposite twice gives the element back. |
| Types.KeyedElements | keyer-core/src/types.rs:28-33 | Exactly Dit and Dah close the key. |
| Types.ModeCapabilities | keyer-core/src/types.rs:58-71 | Only Mode A has no memory; only SuperKeyer uses priority. |
| Types.PaddleSide.ToElement | keyer-core/src/types.rs:85-90 | A paddle side maps to a keyed element. |
| Types.PaddleSide.Opposite | keyer-core/src/types.rs:93-98 | The opposite side differs from the side. |
| Types.SideOppositeProperties | keyer-core/src/types.rs:85-98 | Side opposite is an involution and commutes with the mapping to elements. |
| Types.FsmState.CurrentElement | keyer-core/src/types.rs:128-136 | No element exactly in Idle and CharSpacePending; otherwise the held or payload element. |
| Types.PaddleInputStates | keyer-core/src/types.rs:120-125 | Paddle input is active exactly in DitHold, DahHold and Squeeze, all of which carry an element. |
| Types.NewConfig | keyer-core/src/types.rs:168-195 | Each of the three errors arises exactly when its check fails, in check order. On success the fields are copied and the unit is 1200/wpm ms. |
| Types.Wpm | keyer-core/src/types.rs:198-200 | For a unit up to 1200 ms the speed is the floor of 1200 / unit (w·u ≤ 1200 < (w+1)·u); above 1200 ms it is 1. |
| Types.InterElementSpace | keyer-core/src/types.rs:203-205 | The gap between elements is one unit. |
| Types.CharSpaceDuration | keyer-core/src/types.rs:208-210 | A character space lasts as long as a Dah: three units. |
| Types.ConfigUnitRange | keyer-core/src/types.rs:175-186 | A validated unit lies between 12 and 1200 ms, so reading the speed back never divides by zero. |
| Types.WpmRoundTrip | keyer-core/src/types.rs:186-200 | The speed read back is at least the requested speed, and equal to it when the speed divides 1200. |
| Types.DefaultIsTwentyWpm | keyer-core/src/types.rs:154-164 | The default is what `new(ModeB, true, 20, 10, 64)` builds: 20 WPM, 180 ms character space. |
| Hal.InstantFromMillis | keyer-core/src/hal.rs:21-23 | An `i64` millisecond count cast to `u64`: non-negative values are kept, negative ones wrap modulo 2^64. |
| Hal.DurationSince | keyer-core/src/hal.rs:25-27 | Saturating difference: zero when the other instant is later, else the exact difference. |
| Hal.DurationDiv | keyer-core/src/hal.rs:48-54 | Division by a non-zero factor gives the floor quotient. |
| Hal.MulThenDiv | keyer-core/src/hal.rs:48-62 | Multiplying a duration by a non-zero factor and dividing by it again gives the duration back. |
| Hal.DurationMul | keyer-core/src/hal.rs:56-62 | Multiplying then dividing by the same non-zero factor gives the duration back. |
| Hal.DoubleThenQuarter | keyer-core/src/hal.rs:48-62 | Doubling then quartering a duration equals halving it. |
| Hal.EmbeddedHalPaddle.constructor | keyer-core/src/hal.rs:192-198 | A new paddle has no edge and a 10 ms debounce. |
| Hal.EmbeddedHalPaddle.UpdateEdgeTime | keyer-core/src/hal.rs:201-203 | Records the given edge time and leaves the debounce alone. |
| Hal.EmbeddedHalPaddle.IsPressed | keyer-core/src/hal.rs:213-216 | Pressed is the pin reading low; a pin failure becomes GpioError. |
| Hal.EmbeddedHalPaddle.SetDebounceTime | keyer-core/src/hal.rs:222-228 | More than 100 ms is refused with InvalidConfig and changes nothing; otherwise the value is stored. |
| Hal.EmbeddedHalPaddle.EnableInterrupt | keyer-core/src/hal.rs:230-233 | The generic paddle refuses interrupt control with InterruptError. |
| Hal.EmbeddedHalPaddle.DisableInterrupt | keyer-core/src/hal.rs:235-238 | The generic paddle refuses interrupt control with InterruptError. |
| Hal.DriveLevel | keyer-core/src/hal.rs:263-264 | The pin level is the key state XOR the inversion flag. |
| Hal.DriveLevelDecodes | keyer-core/src/hal.rs:263-270 | Key-down and key-up drive different levels, and the state can be recovered from the level. |
| Hal.EmbeddedHalKeyOutput.constructor | keyer-core/src/hal.rs:251-253 | Keeps the inversion flag; the pin starts at whatever level it had. |
| Hal.EmbeddedHalKeyOutput.SetState | keyer-core/src/hal.rs:263-270 | Drives the pin to the state XOR the inversion flag. |
| Hal.EmbeddedHalKeyOutput.GetState | keyer-core/src/hal.rs:272-276 | Reading the output back always fails with GpioError. |
| Hal.EmbeddedHalKeyOutput.Toggle | keyer-core/src/hal.rs:129-132 | Toggle always fails with GpioError and leaves the pin as it was. |
| Hal.NoOpInterruptController.ConfigurePaddleInterrupt | keyer-core/src/hal.rs:285-292 | Every request succeeds. |
| Hal.NoOpInterruptController.SetInterruptPriority | keyer-core/src/hal.rs:294-296 | Every `u8` priority is accepted. |
| Hal.NoOpInterruptController.EnablePaddleInterrupt | keyer-core/src/hal.rs:298-300 | Every request succeeds. |
| Hal.MockPaddle.constructor | keyer-core/src/hal.rs:310-320 | The default mock paddle is released, with no edge and zero debounce. |
| Hal.MockPaddle.SetPressed | keyer-core/src/hal.rs:322-327 | A press stamps the edge time; a release keeps the previous edge. |
| Hal.MockPaddle.IsPressed | keyer-core/src/hal.rs:333-335 | Reports the stored pressed flag. |
| Hal.MockPaddle.SetDebounceTime | keyer-core/src/hal.rs:341-344 | Any value is stored. |
| Hal.MockPaddle.EnableInterrupt | keyer-core/src/hal.rs:346-348 | The mock accepts interrupt control. |
| Hal.MockPaddle.DisableInterrupt | keyer-core/src/hal.rs:350-352 | The mock accepts interrupt control. |
| Hal.MockKeyOutput.constructor | keyer-core/src/hal.rs:355-363 | The default mock key is up. |
| Hal.MockKeyOutput.SetState | keyer-core/src/hal.rs:373-376 | Stores the requested state. |
| Hal.MockKeyOutput.GetState | keyer-core/src/hal.rs:378-380 | Returns the stored state. |
| Hal.MockKeyOutput.Toggle | keyer-core/src/hal.rs:129-132 | Toggle succeeds and flips the state read back. |
| Hal.ToggleTwice | keyer-core/src/hal.rs:129-132 | Two toggles restore the mock output's state. |
| Controller.MillisU32 | keyer-core/src/controller.rs:32 | The millisecond clock keeps its low 32 bits. |
| Controller.BounceSuppressed | keyer-core/src/controller.rs:31-50 | Within the debounce window after an accepted edge, every further edge on that side is dropped, also across a wrap of the 32-bit counter. |
| Controller.EdgeAcceptedAfterWindow | keyer-core/src/controller.rs:31-50 | Once the window has passed, with no counter wrap in between, an edge is taken. |
| Controller.RejectedAcrossCounterWrap | keyer-core/src/controller.rs:32-37 | After the 32-bit millisecond counter wraps, the saturating difference is zero. An edge 105 ms after one accepted just before the wrap is therefore dropped. |
| Controller.PaddleInput.constructor | keyer-core/src/controller.rs:18-25 | Both sides start released with edge time 0. |
| Controller.PaddleInput.Update | keyer-core/src/controller.rs:31-50 | An edge is taken iff the saturating elapsed time reaches the debounce, and then sets both the level and the edge time. The other side never changes. |
| Controller.PaddleInput.BothPressed | keyer-core/src/controller.rs:63-65 | The squeeze condition: both sides pressed. |
| Controller.PaddleInput.BothReleased | keyer-core/src/controller.rs:68-70 | Neither side pressed. |
| Controller.PaddleInput.GetPressTimes | keyer-core/src/controller.rs:73-87 | Each side's edge time is reported exactly when that side is pressed. |
| Controller.PaddleInput.CurrentSingleElement | keyer-core/src/controller.rs:90-96 | An element exactly when one side is pressed, namely that side's element. |
| Controller.PaddleInput.Reset | keyer-core/src/controller.rs:100-105 | Both sides released with edge time 0. |
| Controller.PaddleReadingsPartition | keyer-core/src/controller.rs:63-96 | Every reading is exactly one of squeeze, all released, or a single side. |
| Controller.PressHistory.AfterPress | keyer-core/src/controller.rs:133-150 | A newly pressed side is stamped, a held side keeps its first time, a released side is cleared; memory is untouched. |
| Controller.PressHistory.Priority | keyer-core/src/controller.rs:154-168 | The earlier press wins and Dah wins ties; a single press wins; none gives nothing; never CharSpace. |
| Controller.PressHistory.AfterSqueezeRelease | keyer-core/src/controller.rs:216-222 | A keyed last element leaves its opposite in memory; CharSpace leaves memory unchanged; times untouched. |
| Controller.HeldPaddleKeepsFirstPress | keyer-core/src/controller.rs:133-150 | A paddle that stays pressed keeps the time of its first press. |
| Controller.SimultaneousPressGivesDah | keyer-core/src/controller.rs:154-168 | Both paddles pressed at the same instant from a clean history give Dah. |
| Controller.FirstPressKeepsPriority | keyer-core/src/controller.rs:133-168 | A Dit pressed first keeps priority over a later Dah while both are held. |
| Controller.SuperKeyerController.constructor | keyer-core/src/controller.rs:124-130 | No press times and no memory. |
| Controller.SuperKeyerController.RecordPress | keyer-core/src/controller.rs:133-150 | The controller moves to `AfterPress` of its previous history. |
| Controller.SuperKeyerController.SetMemory | keyer-core/src/controller.rs:171-173 | The memory slot is overwritten; times unchanged. |
| Controller.SuperKeyerController.TakeMemory | keyer-core/src/controller.rs:176-178 | Returns the memory and empties the slot. |
| Controller.SuperKeyerController.ShouldSendMemory | keyer-core/src/controller.rs:181-183 | True exactly when the slot holds an element. |
| Controller.SuperKeyerController.ClearHistory | keyer-core/src/controller.rs:186-190 | Both times and the memory are emptied. |
| Controller.SuperKeyerController.Update | keyer-core/src/controller.rs:193-195 | Records the paddle's current levels. |
| Controller.SuperKeyerController.NextElement | keyer-core/src/controller.rs:198-213 | In a squeeze: the priority element, with nothing changed. Otherwise: the memory, which is consumed, or failing that the priority element. |
| Controller.SuperKeyerController.HandleSqueezeRelease | keyer-core/src/controller.rs:216-222 | The controller moves to `AfterSqueezeRelease` of its previous history. |
| Controller.SuperKeyerController.Reset | keyer-core/src/controller.rs:234-236 | Clears the whole history. |
| Controller.MemoryIsSingleSlot | keyer-core/src/controller.rs:171-178 | A second set replaces the first; one take returns it and a second take returns nothing. |
| Queue.BoundedQueue.constructor | keyer.rs:252 | A new queue is empty with the given capacity. |
| Queue.BoundedQueue.Enqueue | keyer-core/src/fsm.rs:80-93 | With room the element is appended; when full it is handed back and the queue is unchanged. |
| Fsm.Emit | keyer-core/src/fsm.rs:80-83 | With room the element is sent and the state moves on; otherwise nothing changes. |
| Fsm.AfterElement | keyer-core/src/fsm.rs:269-275 | CharSpacePending(now) when character spacing is on, else Idle. |
| Fsm.SqueezeStart | keyer-core/src/fsm.rs:212-224 | SuperKeyer starts with the priority element; Modes A and B start with Dit; always keyed. |
| Fsm.NextSqueezeElement | keyer-core/src/fsm.rs:227-237 | Modes A and B alternate; SuperKeyer sends the priority element; keyed when the last one was. |
| Fsm.IdleStep | keyer-core/src/fsm.rs:77-96 | With room: Dit alone sends Dit and holds it, Dah alone sends Dah and holds it, both send the squeeze start element and squeeze. No paddle or no room: no change. The history is never changed. |
| Fsm.HoldState | keyer-core/src/fsm.rs:86-91 | Each side has its own hold state, whose element is that side's element. |
| Fsm.HoldStep | keyer-core/src/fsm.rs:99-132 | Both paddles enter Squeeze of the held element without sending. Releasing the held paddle ends the run without sending, whatever the other paddle does. The held paddle alone repeats its element when there is room. The history is unchanged. |
| Fsm.ReleaseStep | keyer-core/src/fsm.rs:240-260 | A squeeze release never sends an element itself. |
| Fsm.SqueezeStep | keyer-core/src/fsm.rs:135-169 | Both paddles send the next squeeze element and stay in Squeeze. A single paddle sends its own element and holds it. No paddle is the release by mode. Without room the squeeze stays as it was. |
| Fsm.MemoryStep | keyer-core/src/fsm.rs:172-183 | With room the memory element is sent and the run ends; when full nothing changes. |
| Fsm.CharSpaceStep | keyer-core/src/fsm.rs:186-209 | The character-space state never changes the history. |
| Fsm.Recorded | keyer-core/src/fsm.rs:40-42 | Only SuperKeyer mode records presses; memory is never touched by recording. |
| Fsm.Step | keyer-core/src/fsm.rs:32-74 | An element is only sent when the queue has room. With no paddle pressed, only a pending memory element can be sent. |
| Fsm.KeyerFsm.constructor | keyer-core/src/fsm.rs:17-23 | Starts in Idle with the given configuration and an empty controller. |
| Fsm.KeyerFsm.Update | keyer-core/src/fsm.rs:32-74 | The new state, controller history and queue are those `Step` gives. The return value counts the element appended. |
| Fsm.KeyerFsm.HandleIdle | keyer-core/src/fsm.rs:77-96 | Realises `IdleStep`. |
| Fsm.KeyerFsm.HandleHold | keyer-core/src/fsm.rs:99-132 | Realises `HoldStep` for either side. |
| Fsm.KeyerFsm.HandleSqueeze | keyer-core/src/fsm.rs:135-169 | Realises `SqueezeStep`. |
| Fsm.KeyerFsm.HandleMemoryPending | keyer-core/src/fsm.rs:172-183 | Realises `MemoryStep`. |
| Fsm.KeyerFsm.HandleCharSpacePending | keyer-core/src/fsm.rs:186-209 | Realises `CharSpaceStep`. |
| Fsm.KeyerFsm.DetermineNextSqueezeElement | keyer-core/src/fsm.rs:227-237 | Returns `NextSqueezeElement` and leaves the controller unchanged. |
| Fsm.KeyerFsm.HandleSqueezeRelease | keyer-core/src/fsm.rs:240-260 | Realises `ReleaseStep`. |
| Fsm.KeyerFsm.TransitionToIdleOrCharSpace | keyer-core/src/fsm.rs:264-275 | Moves to `AfterElement` at the given time. |
| Fsm.KeyerFsm.Reset | keyer-core/src/fsm.rs:278-281 | Back to Idle with an empty controller; configuration kept. |
| Fsm.KeyerFsm.SetConfig | keyer-core/src/fsm.rs:289-294 | Stores the configuration. Leaving SuperKeyer clears the controller; staying keeps it. |
| FsmProperties.InitialStateSatisfiesInv | keyer-core/src/fsm.rs:17-23 | A new FSM satisfies the invariant. |
| FsmProperties.StepPreservesInv | keyer-core/src/fsm.rs:77-260 | Squeeze and memory payloads stay keyed and the memory slot stays empty between ticks. Only Dit or Dah is ever enqueued. |
| FsmProperties.FullQueueDefersElement | keyer-core/src/fsm.rs:77-183 | When the queue is full, a tick that would send leaves the state as it was, so the element is retried. A tick that sends nothing is unaffected. |
| FsmProperties.IdlePressStartsElement | keyer-core/src/fsm.rs:77-96 | From Idle with room: Dit alone sends Dit and holds it, Dah alone sends Dah and holds it, and both send the squeeze start element and squeeze. That element is Dit in Modes A and B. No paddle or no room leaves Idle unchanged. |
| FsmProperties.HoldReleaseWithOtherPressed | keyer-core/src/fsm.rs:99-132 | Releasing the held paddle while the other one is pressed ends the run without sending. |
| FsmProperties.SqueezeToSinglePaddle | keyer-core/src/fsm.rs:150-163 | Releasing one paddle in a squeeze sends the other paddle's element and holds it; without room the squeeze stays. |
| FsmProperties.HoldRepeatsUntilRelease | keyer-core/src/fsm.rs:99-132 | A held paddle repeats its element each tick; its release ends the run (through CharSpacePending when enabled). |
| FsmProperties.HoldThenSqueeze | keyer-core/src/fsm.rs:99-120 | The second paddle enters Squeeze of the held element without sending. |
| FsmProperties.SqueezeReleaseByMode | keyer-core/src/fsm.rs:164-260 | Release in Mode A ends the run. Mode B and SuperKeyer go to MemoryPending with the opposite element, and SuperKeyer also empties its history. |
| FsmProperties.MemorySentOnce | keyer-core/src/fsm.rs:172-183 | The pending memory element is sent once, whatever the paddles do, and MemoryPending is left. |
| FsmProperties.CharSpaceHoldsOff | keyer-core/src/fsm.rs:186-209 | For three units after the start nothing is sent and the state stays put. |
| FsmProperties.CharSpaceEndsAsIdle | keyer-core/src/fsm.rs:186-209 | After three units it sends what Idle would send. Without a paddle it becomes Idle; on a full queue it stays put. |
| FsmProperties.Run | keyer-core/src/fsm.rs:32-74 | Successive ticks send at most one element each. |
| FsmProperties.RunSendsOnlyKeyedElements | keyer-core/src/fsm.rs:77-260 | Over any run from the initial state only Dit and Dah are enqueued. |
| FsmProperties.Alternation | keyer-core/src/fsm.rs:233-234 | The alternating sequence of the requested length. |
| FsmProperties.SqueezeAlternates | keyer-core/src/fsm.rs:145-237 | Modes A and B: a held squeeze alternates Dit and Dah, starting opposite to the last element. |
| FsmProperties.Repeat | keyer-core/src/fsm.rs:229-230 | The constant sequence of the requested length. |
| FsmProperties.SuperKeyerSqueezeRepeatsPriority | keyer-core/src/fsm.rs:229-230 | SuperKeyer: once both presses are recorded, a held squeeze repeats the priority element instead of alternating. |
| FsmProperties.ModeBSendsMemoryElement | keyer-core/src/fsm.rs:32-260 | Dit, then Dah added, then both released sends Dit, Dah, Dit in Mode B, and only Dit, Dah in Mode A. |
| FsmProperties.SuperKeyerSimultaneousStartIsDah | keyer-core/src/fsm.rs:212-216 | SuperKeyer: both paddles pressed at once from Idle start the squeeze with Dah. |
| Queue.BoundedQueue.Dequeue | keyer.rs:256 | The consumer end returns the oldest element, or nothing when empty. |
| Queue.FifoOrder | keyer.rs:256 | Any sequence that fits, enqueued into an empty queue and dequeued as often, comes back in the same order and leaves the queue empty. |
| Prototype.Element.Opposite | keyer.rs:188-201 | The opposite of a prototype element differs from it. |
| Prototype.Element.ToCore | keyer.rs:9-12 | Each prototype element maps to the keyed core element of the same name. |
| Prototype.PaddleInput.constructor | keyer.rs:55-62 | Both sides released, edge times 0. |
| Prototype.PaddleInput.Update | keyer.rs:64-82 | An edge is taken iff at least 10 ms have passed, measured with unsaturated subtraction, which needs the clock not to be behind the stored edge. The other side never changes. |
| Prototype.Presses.AfterRecord | keyer.rs:105-109 | Every pressed side is restamped with the current time; nothing is cleared. |
| Prototype.Presses.Priority | keyer.rs:111-118 | The earlier press wins and Dah wins ties. |
| Prototype.SuperKeyerController.constructor | keyer.rs:101-103 | No press times. |
| Prototype.SuperKeyerController.RecordPress | keyer.rs:105-109 | The controller moves to `AfterRecord`. |
| Prototype.SuperKeyerController.Clear | keyer.rs:120-123 | Both times emptied. |
| Prototype.RecordBothGivesDah | keyer.rs:105-118 | Stamping both sides at once, as every squeeze pass does, makes Dah the priority. |
| Prototype.Enq | keyer.rs:148 | An element goes out exactly when there is room. |
| Prototype.HoldStep | keyer.rs:159-179 | The held element, and only it, is sent iff the paddle is still held and there is room. The other paddle forces Squeeze of the held element; otherwise a release goes to Idle. The press times are unchanged. |
| Prototype.ProtoStep | keyer.rs:137-241 | An element is only sent when the queue has room. |
| Prototype.Evaluator.constructor | keyer.rs:133-134 | Idle with an empty controller. |
| Prototype.Evaluator.Enqueue | keyer.rs:148 | The queue grows by the element exactly when it had room; a failure is ignored. |
| Prototype.Evaluator.EvaluateOnce | keyer.rs:137-241 | The new state, controller times and queue are those `ProtoStep` gives. |
| Prototype.OnTime | keyer.rs:257-260 | Key-down time is the core's duration in units times the unit. |
| Prototype.FullQueueDropsElement | keyer.rs:148-222 | On a full queue the element is dropped but the state moves on as if it had been sent. |
| Prototype.FullQueueDiffersFromCore | keyer.rs:150-152 | On the same full-queue tick the core stays Idle while the prototype moves to DitHold. |
| Prototype.SuperKeyerSqueezeAlwaysDah | keyer.rs:182-191 | SuperKeyer: every held-squeeze pass sends Dah. |
| Prototype.ProtoRun | keyer.rs:136-241 | Successive passes send at most one element each. |
| Prototype.SuperKeyerSqueezeRunIsAllDah | keyer.rs:182-191 | SuperKeyer: every element of a held squeeze is Dah. |
| Prototype.HoldWithOtherPaddle | keyer.rs:159-179 | With both paddles a hold state sends its element once more and squeezes. With only the other paddle it squeezes without sending. |
| Prototype.HoldReleaseSkipsCharSpace | keyer.rs:159-179 | Releasing a held paddle goes straight to Idle. |
| Prototype.SqueezeReleaseByMode | keyer.rs:198-212 | Release in Mode A ends the run; Modes B and SuperKeyer go to MemoryPending with the opposite element. |
| Prototype.CharSpaceSqueezeStartsWithDah | keyer.rs:225-237 | After a character space, a squeeze starts with Dah in every mode. |
| Prototype.IdleTransitions | keyer.rs:142-157 | From Idle a single paddle queues its element and holds it. Both paddles queue the start element (Dit outside SuperKeyer) and squeeze. The state moves on even when the queue is full. |
| Prototype.HeldAloneRepeats | keyer.rs:159-179 | A paddle held alone repeats its element on every pass. |
| Prototype.CharSpaceRestart | keyer.rs:225-240 | Before three units every pass is a no-op. Afterwards a single paddle restarts into its hold state with its element, and no paddle returns to Idle. |
| Prototype.SqueezeAlternates | keyer.rs:182-191 | Modes A and B: a held squeeze alternates, starting opposite to the last element. |
| Ch32v003.BounceRefused | firmware/src/ch32v003_hardware.rs:40-46 | A change within the window after the last accepted edge is refused. |
| Ch32v003.ChangeAccepted | firmware/src/ch32v003_hardware.rs:41-51 | The first change, or one after the window, is accepted. |
| Ch32v003.ClampDebounce | firmware/src/ch32v003_hardware.rs:72 | The value is clamped into 1..100 ms, unchanged inside the range. |
| Ch32v003.ClampIdempotent | firmware/src/ch32v003_hardware.rs:72 | Clamping twice equals clamping once. |
| Ch32v003.Paddle.constructor | firmware/src/ch32v003_hardware.rs:24-31 | Level low, no edge, 10 ms debounce. |
| Ch32v003.Paddle.ReadDebounced | firmware/src/ch32v003_hardware.rs:34-55 | A pin failure is GpioError and changes nothing. An equal or too-early level reports the stable level unchanged; an accepted change updates the level and the edge time. |
| Ch32v003.Paddle.IsPressed | firmware/src/ch32v003_hardware.rs:61-65 | Pressed is the negation of the debounced level. The level and edge change exactly as in `ReadDebounced`, and a pin failure is GpioError with nothing changed. |
| Ch32v003.Paddle.SetDebounceTime | firmware/src/ch32v003_hardware.rs:71-74 | Always succeeds and stores the clamped value. |
| Ch32v003.Paddle.EnableInterrupt | firmware/src/ch32v003_hardware.rs:76-80 | Reports success. |
| Ch32v003.Paddle.DisableInterrupt | firmware/src/ch32v003_hardware.rs:82-85 | Reports success. |
| Ch32v003.KeyOutput.constructor | firmware/src/ch32v003_hardware.rs:100-105 | Keeps the polarity flag; the pin keeps the level it was handed over with. |
| Ch32v003.KeyOutput.SetState | firmware/src/ch32v003_hardware.rs:111-130 | The pin level is the state XOR active-low. |
| Ch32v003.KeyOutput.GetState | firmware/src/ch32v003_hardware.rs:132-136 | Always GpioError. |
| Ch32v003.KeyerHal.constructor | firmware/src/ch32v003_hardware.rs:159-173 | Two distinct fresh paddles, each at level low with no edge and a 10 ms debounce, and a key output with the given polarity whose pin level is left as handed over. |
| Ch32v003.KeyerHal.SetDebounceTime | firmware/src/ch32v003_hardware.rs:176-180 | Both paddles get the same clamped debounce; their levels and edges are unchanged. |
| Ch32v003.KeyerHal.EnablePaddleInterrupts | firmware/src/ch32v003_hardware.rs:183-187 | Succeeds. |
| Ch32v003.KeyerHal.DisablePaddleInterrupts | firmware/src/ch32v003_hardware.rs:190-194 | Succeeds. |
| Ch32v003.DefaultConfig | firmware/src/ch32v003_hardware.rs:208-216 | A 10 ms debounce, already inside the clamp range, an active-low key, and interrupts on. |
| Ch32v003.InitHardware | firmware/src/ch32v003_hardware.rs:219-247 | Always succeeds. The two paddles are distinct, at level low with no edge, and carry the clamped configured debounce. The key has the configured polarity. |
| Ch32v203.InputPin.constructor | firmware/src/ch32v203_hardware.rs:111-117 | Released, edge stamp 0, 10 ms debounce. |
| Ch32v203.InputPin.Init | firmware/src/ch32v203_hardware.rs:119-127 | Pin set-up succeeds. |
| Ch32v203.InputPin.OnInterrupt | firmware/src/ch32v203_hardware.rs:130-135 | Stores the level and the microsecond stamp truncated to 32 bits. |
| Ch32v203.InputPin.IsPressed | firmware/src/ch32v203_hardware.rs:141-143 | Reports the stored level. |
| Ch32v203.InputPin.LastEdgeTime | firmware/src/ch32v203_hardware.rs:145-152 | No edge exactly when the stamp is 0; otherwise the stamp. |
| Ch32v203.InputPin.SetDebounceTime | firmware/src/ch32v203_hardware.rs:154-157 | Any value is stored. |
| Ch32v203.InputPin.EnableInterrupt | firmware/src/ch32v203_hardware.rs:159-161 | Succeeds. |
| Ch32v203.InputPin.DisableInterrupt | firmware/src/ch32v203_hardware.rs:163-165 | Succeeds. |
| Ch32v203.EdgeReadBack | firmware/src/ch32v203_hardware.rs:130-152 | After an interrupt the pin reports the new level and the edge stamp. An edge stamped at a multiple of 2^32 us reads back as no edge. |
| Ch32v203.KeyOutputPin.constructor | firmware/src/ch32v203_hardware.rs:239-243 | Key up. |
| Ch32v203.KeyOutputPin.Init | firmware/src/ch32v203_hardware.rs:245-248 | Pin set-up succeeds. |
| Ch32v203.KeyOutputPin.SetState | firmware/src/ch32v203_hardware.rs:254-260 | Stores the requested state. |
| Ch32v203.KeyOutputPin.GetState | firmware/src/ch32v203_hardware.rs:262-264 | Returns the stored state. |
| Ch32v203.KeyRoundTrip | firmware/src/ch32v203_hardware.rs:254-264 | Reading back gives the value last set. |
| Ch32v203.KeyerHal.constructor | firmware/src/ch32v203_hardware.rs:23-31 | Fresh distinct released pins with edge stamp 0 and a 10 ms debounce, key up, and the build instant. |
| Ch32v203.KeyerHal.Initialize | firmware/src/ch32v203_hardware.rs:41-51 | Succeeds, as every pin's set-up does. |
| Ch32v203.KeyerHal.Shutdown | firmware/src/ch32v203_hardware.rs:69-73 | Succeeds. |
| Ch32v203.WpmToUnitDuration | firmware/src/ch32v203_hardware.rs:315-319 | The floor of 60000 / (50 wpm) ms for a non-zero `u16` speed. |
| Ch32v203.UnitDurationMatchesConfig | firmware/src/ch32v203_hardware.rs:315-319 | The board's formula gives the same unit as `KeyerConfig::new` for every accepted speed. |
| TestUtils.Take | keyer-core/src/test_utils.rs:171-175 | A prefix of the requested length, or the whole sequence. |
| TestUtils.TakeAppend | keyer-core/src/test_utils.rs:171-175 | A push onto a full bounded vector is ignored. |
| TestUtils.MinIndex | keyer-core/src/test_utils.rs:76 | Indexes an event that no other event precedes in (time, id) order. |
| TestUtils.VirtualTime.constructor | keyer-core/src/test_utils.rs:30-37 | Time 0, nothing scheduled. |
| TestUtils.VirtualTime.Advance | keyer-core/src/test_utils.rs:46-49 | Adds the duration to the clock. |
| TestUtils.VirtualTime.ScheduleEvent | keyer-core/src/test_utils.rs:52-63 | Adds one event at now plus the delay, whose id is the number already pending. |
| TestUtils.VirtualTime.NextEventTime | keyer-core/src/test_utils.rs:66-71 | Nothing when empty; otherwise the time from now to the earliest event. |
| TestUtils.VirtualTime.AdvanceToNextEvent | keyer-core/src/test_utils.rs:74-82 | Nothing on an empty queue. Otherwise the earliest event is removed, the clock moves to its time and its id is returned. |
| TestUtils.IdReusedAfterPop | keyer-core/src/test_utils.rs:55-63 | An id is handed out again after its event is popped. |
| TestUtils.PressReleaseEndsReleased | keyer-core/src/test_utils.rs:112-131 | A press then release of one side ends with both released. |
| TestUtils.PatternsAreWellFormed | keyer-core/src/test_utils.rs:112-161 | The Dit, Dah and letter-A patterns are in time order and end released. The squeeze pattern ends released and is in time order iff it lasts at least 10 ms. |
| TestUtils.Shift | keyer-core/src/test_utils.rs:171-175 | Every event moved later by the offset, order kept. |
| TestUtils.FlattenPlacesEvent | keyer-core/src/test_utils.rs:164-185 | Event k of pattern i comes after all events of the earlier patterns, moved later by the sum of their delays. |
| TestUtils.FlattenLength | keyer-core/src/test_utils.rs:164-185 | The concatenation holds every event of every pattern. |
| TestUtils.Sequence | keyer-core/src/test_utils.rs:164-185 | The result is the first 64 events of the shifted concatenation, described as "Sequence". |
| TestUtils.MorseChar | keyer-core/src/test_utils.rs:310-314 | Dit is '.', Dah '-', CharSpace ' '. |
| TestUtils.MorseCharInjective | keyer-core/src/test_utils.rs:310-314 | Distinct elements are written as distinct characters. |
| TestUtils.OutputCapture.constructor | keyer-core/src/test_utils.rs:223-229 | Nothing captured, nothing in progress. |
| TestUtils.OutputCapture.KeyUp | keyer-core/src/test_utils.rs:243-252 | With an element in progress, exactly one event is appended, lasting from its start to now. Either way both slots end empty. |
| TestUtils.OutputCapture.KeyDown | keyer-core/src/test_utils.rs:232-240 | Closes any element in progress first, adding at most one event; the new element becomes current. |
| TestUtils.OutputCapture.Clear | keyer-core/src/test_utils.rs:260-264 | Empties the events and the in-progress slots. |
| TestUtils.OutputCapture.ToElementSequence | keyer-core/src/test_utils.rs:298-304 | The captured elements in order, truncated at 32. |
| TestUtils.OutputCapture.ToMorseString | keyer-core/src/test_utils.rs:307-318 | One character per captured element, in order, truncated at 32. |
| TestUtils.CaptureLetterA | keyer-core/src/test_utils.rs:232-318 | Keying a Dit then a Dah captures two events with their durations and the string ".-". |

## Left out

- Async tasks and timers are not modelled: `evaluator_task` (keyer-core/src/fsm.rs:298-318), the loop and `Timer::after` of the prototype's `evaluator_fsm`, and `sender_task` (except its key-down times, as `Prototype.OnTime`). Each loop body is modelled as one step.
- Firmware entry points, static cells, interrupt handler stubs, `init_global_hal`, `delay_precise`, and the CH32V203 pin and memory-size constants.
- Clock reads are parameters. Within one `KeyerFSM::update` three reads of the clock share one `now`: the update's own read, the read by `SuperKeyerController::record_press` (keyer-core/src/controller.rs:134, given to `Fsm.Recorded`), and the read again by `transition_to_idle_or_char_space` (keyer-core/src/fsm.rs:265).
- `duration_since` is the mock's saturating subtraction everywhere except in the test output capture. embassy's version panics when the clock is behind, which a monotonic clock does not produce.
- `TestUtils.OutputCapture.KeyUp` and `TestUtils.OutputCapture.KeyDown` use embassy's `duration_since` (keyer-core/src/test_utils.rs:245). Their `requires` excludes a key-up earlier than the start of the element in progress, where that call panics.
- Integers are unbounded: u64 overflow of instants, durations and `Duration * k` is not modelled. The u32 truncations of the millisecond counter (core paddle input), the microsecond stamp (CH32V203) and the unit in `wpm()` are modelled.
- Atomic memory ordering and interrupt/poll interleavings: atomics are plain fields and each call is atomic.
- Pin I/O calls (`is_high`, `is_low`, `set_high`, `set_low`) are not modelled. Read failures are a `Result` parameter where the source propagates them; pin writes are assumed to succeed.
- The trait plumbing (`KeyerHal` accessors, `InterruptConfig`) and `HalError` display strings are not modelled.
- The CH32V203 `NoOpInterruptCtrl` has the same code as `Hal.NoOpInterruptController`, which stands for it.
- The heapless queue is taken as a FIFO with a fixed capacity given as a parameter. Its exact usable capacity for a const size is not modelled.
- `TimingAnalysis` and `analyze_timing` are left out: they are f64 averaging.
- The unused `descriptions` vector built by `sequence`, the pattern `description` strings beyond their literal value, the placeholder scenarios in `test_scenarios`, and `execute_pattern` are not modelled.
- `Controller.PaddleInput.Update`: the debounce argument is a plain natural number; its u32 range is not enforced.
- `Hal.DurationDiv`: its `requires` excludes a divisor of zero, where the mock `Duration / u32` at keyer-core/src/hal.rs:48-54 panics.
- `TestUtils.VirtualTime.NextEventTime`: its `requires` excludes a clock already advanced past the earliest event, where the u64 subtraction at keyer-core/src/test_utils.rs:69 panics.
- `Types.Wpm`: its `requires` excludes a unit whose low 32 bits are zero, where the division at keyer-core/src/types.rs:199 panics. No validated configuration has such a unit (`Types.ConfigUnitRange`).
- `Ch32v203.WpmToUnitDuration`: its `requires` excludes a speed of 0, where the division at firmware/src/ch32v203_hardware.rs:317 panics; the upper bound is the `u16` range.
- `Prototype.PaddleInput.Update`: its `requires` excludes a clock behind the stored edge, where the unsaturated subtraction at keyer.rs:69 panics.
- `TestUtils.VirtualTime`: the binary heap is a sequence from which the earliest (time, id) event is removed. Which of two identical events leaves first is not distinguished, because they are equal values.
