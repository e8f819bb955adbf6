# Verification model of the RTOS applications

This project models the protocol and data-path logic of the industrial and audio
applications in Dafny and proves what that logic keeps over whole runs. `dafny verify
dfyconfig.toml` checks all of it.

| Part | Modules | What it covers |
|---|---|---|
| Motor control network | `CyclicTask`, `Controller`, `IoDevice`, `MotorNetwork`, `StrategyCurrents`, `NetworkExample`, `StrategyPhases`, `Recovery`, `ControllerModes`, `InterlacedPair`, `PairTurns` | a controller and any number of devices with one motor each, exchanging time-stamped frames every cycle over a network that may drop, delay, duplicate and reorder frames but not forge them |
| Audio pipeline | `AudioBuffer`, `PipelineConfig`, `PipelineDefaults`, `AudioPipeline`, `PipelineDataflow`, `PipelineHistory`, `PipelineSources`, `PipelineOrder`, `MemoryCarving`, `RoutingElement` | masked ring buffers, the configuration checker, the memory block, runs and resets of staged elements, routing |
| Motion control | `TrajPlanner`, `TrajKinematics`, `CurrentControl`, `CurrentDirection` | trapezoidal planner and current control with anti-windup, over reals |
| Threads | `ResetBarrier`, `ResetRestart`, `SnapshotHandshake` | the reset of all audio pipelines, and statistics handed to a background task, over every interleaving |
| Streams and numbers | `SerialFramer`, `OnlineStats`, `PllTracking`, `PllSteering` | line framer, online statistics, clock tracking across counter wrap and where the loop steers |

Code that updates state in place is a class here. Its methods are proved against a
specification function on values (`ensures View() == AfterLoop(...)`), and the theorems
are lemmas about these functions, over sequences of any length. `Arithmetic` and
`Wrappers` hold helpers.

## Main results

- Cross-node safety of the currents: `MotorNetwork.EndToEndSafety`; with exact times
  `MotorNetwork.TimedSafety`, and with the cycle indices of the schedules
  `MotorNetwork.SafetyOnSchedule`. `NetworkExample.CurrentFlows` is a run they speak of.
  The current set is the one the strategy wrote: `StrategyCurrents.CurrentIsStrategys`.
  After a fault of its motor a device is out: `MotorNetwork.NoCurrentAfterFault`.
- Which cycles of two peers meet: `CyclicTask.RoundTrip`, `CyclicTask.DeviceMeets`,
  `CyclicTask.ControllerMeets`.
- The way back after a device was missing: `Recovery.RecoveryTrace`. When the controller
  stands by, and what a stop and a go do: `ControllerModes.StandbyExactWhen`,
  `ControllerModes.StopAndGo`.
- The motors of the interlaced strategies: `InterlacedPair.PairAlwaysFits`,
  `PairTurns.MotorsAlternate`, `PairTurns.IdentificationCounts`.
- Whole-run dataflow of accepted pipelines: `PipelineHistory.HistoryDelivers`, from the
  captured samples to the sink: `PipelineSources.HistoryCaptures`, and the
  irrelevance of the order in a stage: `PipelineDataflow.AcceptedOrderIrrelevant` for one
  run, `PipelineOrder.HistoryOrderIrrelevant` for a history.
- Rings in memory as queues: `AudioBuffer.PutAppends`, `AudioBuffer.PutHeadPrepends`
  and the methods of `AudioBuffer.Buffer`.
- The memory block: `MemoryCarving.PartsTile`, `MemoryCarving.CarvingExactWhen`.
- Routing over any commands: `RoutingElement.SelectorIsLastCommand`,
  `RoutingElement.RunCopies`.
- Bounds of the planner and of the currents: `TrajPlanner.PathFromRest`,
  `TrajPlanner.SpeedFromRest`, `TrajPlanner.PlanInForce`, `CurrentControl.LimitsHold`; how
  the setpoints hang together and which way the currents drive:
  `TrajKinematics.SetpointsAgree`, `CurrentDirection.DrivesTowardsSpeed`,
  `CurrentDirection.DrivesTowardsPosition`, `CurrentDirection.ControlLaw`.
- The reset of all pipelines: `ResetBarrier.BarrierSafe`, `ResetBarrier.EndsExactWhen`,
  `ResetRestart.InterruptOnAtRest`.
- Statistics handed over: `SnapshotHandshake.OneJob`,
  `SnapshotHandshake.SnapshotHeldExactWhen`, `SnapshotHandshake.JobHoldsCopy`.
- Framing, statistics and clocks: `SerialFramer.Receiver.Task`,
  `SerialFramer.BytesConserved`, `OnlineStats.SummariesDescribe`,
  `PllTracking.ErrorIsTrue`, `PllSteering.SteersToSource`, `PllSteering.SteersAsCounted`.

## Assumptions

- `MotorNetwork.EndToEndSafety` leaves the wake-up times of every node arbitrary, so it
  also covers clocks that jump. `MotorNetwork.TimedSafety` asks for clocks that are not
  within 2^32 ns of the end of their range, and `MotorNetwork.SafetyOnSchedule` draws
  the times of all turns from the schedules. Frames are delivered as any list of frames sent before. Currents and
  return codes of the strategy are arbitrary inputs.
- `AudioPipeline` and what builds on it: one period length for all elements; rings whose
  size is a power of two and a multiple of the period; every buffer with a ring of its
  own. The model keeps the number of samples of a ring as a ghost length, which the
  pointers alone cannot tell. A transfer that would overrun, underrun or wrap a ring
  turns the flag `sound` false instead of being excluded.
- `TrajPlanner`: floats are reals; the square root is a parameter that must be one.
- `ResetBarrier` and `ResetRestart`: a session is running and nobody stops it; the first
  period after a reset succeeds, as the program asserts.
- `PllTracking` and `PllSteering`: fewer than 2^32 ticks between two samples of one lock, and at least one
  where the source divides by their number.

## Where the code departs from what one expects

Each is kept in the model as the code has it. The member named says when it matters.

- `audio_buf_full` does not mean full: it holds if and only if one sample is held and
  the write pointer is not zero (`AudioBuffer.Buffer.Full`).
- The mask of a ring covers it if and only if its size is a power of two, which no
  check of a configuration asks for (`AudioBuffer.MaskCoversBuffer`).
- A PLL element may be given ports and is accepted, but never reads or writes them, so
  a buffer in front of it fills up (`PipelineDataflow.RunDelivers`).
- The start of a SAI sink needs a ring of two periods; with one, silence overruns it
  (`PipelineDataflow.OnePeriodThrough`).
- A storage with an external base is left out of the size of the block but carved from
  it all the same (`MemoryCarving.CarvingExactWhen`).
- Default storage numbers do not skip explicit ones
  (`PipelineDefaults.OwnStoragesExactWhen`).
- A reset request that a full event queue refuses blocks the reset for good
  (`ResetBarrier.EndsExactWhen`, `ResetBarrier.RefusalHappens`).
- A first thread that fails once more, after a reset in progress has sent it its period but
  before that reset is over, gives up; all threads can then sleep with the interrupt off
  for good (`ResetRestart.StepAliveExactWhen`, `ResetRestart.StallHappens`).
- The receive path of an I/O device counts a frame it cannot use in the snapshot that
  may be waiting to be printed, not in the statistics
  (`SnapshotHandshake.SnapshotHeldExactWhen`).
- A change of the PLL keeps the last ppb, so the new PLL is not told of it as long as it
  stays the same (`PllTracking.CarriesExactWhen`).
- The job that sends motor statistics never clears its pending flag, so they are sent
  once (`SnapshotHandshake.SendsAgainExactWhen`).
- The recorded maximum of a sample set starts at -(2^31 - 1), one above the least
  value (`OnlineStats.MaximumExactWhen`).
- A histogram accepts 2^32 - 1 slots, as its check wraps (`OnlineStats.Histogram.Init`).
- The wake-up error is cut to 32 bits, so a wake-up 2^32 ns late looks on time
  (`CyclicTask.WakeUpExactWhen`).
- The transfer time is a 32-bit product (`CyclicTask.RoundTripExactWhen`).
- A finished move is repeated when the 32-bit cycle counter has made a lap
  (`TrajPlanner.OnTargetExactWhen`, with `TrajPlanner.LapRepeatsMove`).
- A move planned at speed brakes from another position and at another speed than its cruise
  ends with (`TrajKinematics.PhasesMeetExactWhen`); and a backward one takes the actual
  speed with the wrong sign (`TrajKinematics.StartsExactWhen`).

## Model

| member | source | states |
|---|---|---|
| MotorNetwork.EndToEndSafety | tsn/motor/controller.c:146-283 | Main result. In every run over a network that drops, delays, duplicates and reorders frames: a non-zero current is set only with a clear fault bit, in the very cycle that accepted an APPLY_IQ frame stamped one transfer time earlier which carries exactly this current for this device, and the controller cycle that sent this frame had heard every device through an error-free feedback of a cycle that itself had accepted a usable frame |
| MotorNetwork.TimedSafety | tsn/cyclic_task.c:111-112 | Main result. In every run: the command behind a non-zero current was sent exactly one transfer time before it is applied, by a controller cycle that had heard every device through a healthy cycle exactly offset + 1 periods before it is applied |
| MotorNetwork.SafetyOnSchedule | tsn/cyclic_task.c:111-112 | Main result. In every run on the schedules, with any restarts of any node: that command was sent in the one controller cycle whose index, counted from the starts of both nodes, belongs to the cycle that applies it; and what that cycle heard of every device comes from the one cycle of the device offset + 1 cycles back |
| MotorNetwork.HeardOnSchedule | tsn/cyclic_task.c:94-147 | a healthy cycle that a controller cycle heard is the one its index belongs to |
| NetworkExample.CurrentFlows | tsn/motor/controller.c:146-283 | a run of a controller and one device on their schedules, through the first connection, the restart delay and the first phase of the strategy, in whose last cycle the device applies a non-zero current |
| StrategyCurrents.CurrentIsStrategys | tsn/motor/controller.c:146-168 | Main result. In every run: a non-zero current that a device sets is the very one which the strategy wrote for this device, in the turn of the controller cycle that sent the command |
| StrategyCurrents.UntimelyIsIdle | tsn/cyclic_task.c:192-240 | in every run, an untimely turn hears nobody: a device sets no current in it, and a controller asks for none |
| StrategyCurrents.FrameForEach | tsn/motor/controller.c:146-168 | each device finds in a command frame exactly one command for its motor, the current meant for it |
| StrategyCurrents.ControllerAsks | tsn/motor/controller.c:146-168 | a frame that carries a current says APPLY_IQ and holds, for each device in order, what the strategy wrote in this cycle |
| MotorNetwork.NoCurrentAfterFault | tsn/motor/io_device.c:290-299 | Main result. In every run: from the first turn that finds the motor of a device faulty, this device never sets a non-zero current again, and no feedback of it is without error |
| MotorNetwork.FaultsAreTold | tsn/motor/io_device.c:290-299 | in every run, the fault bit of a device, and the one of each of its cycles, is set if and only if some turn of it so far found its motor faulty |
| MotorNetwork.RunKeeps | tsn/motor/controller.c:251-283 | after any turns of any nodes, every logged cycle is justified by earlier cycles of its peers, no connected flag outlives a cycle, and every device satisfies its own invariant |
| MotorNetwork.ControllerStepKeeps | tsn/motor/controller.c:146-205 | a controller cycle keeps that invariant: a command frame with a current is logged only if all sockets heard an error-free feedback in this cycle |
| MotorNetwork.DeviceStepKeeps | tsn/motor/io_device.c:270-339 | a device cycle keeps it: an applied current and an error-free feedback are backed by a usable frame of the same cycle |
| MotorNetwork.ConnectedExactWhen | tsn/motor/controller.c:285-328 | a device becomes connected if and only if a frame without error came in on its own socket; another device cannot mark it |
| MotorNetwork.HeardWasSent | tsn/cyclic_task.c:84-148 | a frame that passes the timestamp and peer filter was sent earlier by that peer, for this cycle |
| MotorNetwork.CompleteSource | tsn/motor/controller.c:146-205 | a frame with APPLY_IQ and a non-zero current comes from a controller cycle that heard every device healthy |
| MotorNetwork.HealthySource | tsn/motor/io_device.c:270-339 | an error-free feedback comes from a cycle of that very device, with a clear fault bit and a usable controller frame one transfer time older |
| Controller.CurrentOnlyWhenConnected | tsn/motor/controller.c:146-221 | one loop: a frame that asks for a non-zero current needs CONTROL and all devices connected; with a device missing, outside STANDBY, the frame says HOLD and all currents are zero |
| Controller.Controller.AllConnected | tsn/motor/controller.c:109-123 | true exactly when every device is connected, by counting |
| Controller.Controller.StateControl | tsn/motor/controller.c:170-205 | the CONTROL state: strategy switch on a button unless stopped, a missing device leads to IO_DEVICE_MISSING with the full delay and without calling the strategy, stop and go requests, a strategy error leads to STANDBY |
| Controller.Controller.StateMissing | tsn/motor/controller.c:207-221 | the delay counts complete cycles down and is set again by an incomplete one; past zero the strategy is reset and CONTROL resumes |
| Controller.Controller.Send | tsn/motor/controller.c:146-168 | the frame holds one command per device, in order, and HOLD exactly in IO_DEVICE_MISSING |
| Controller.Controller.Loop | tsn/motor/controller.c:251-283 | one loop: currents zeroed, state run, frame built from the resulting state, connected flags cleared |
| Controller.Controller.NetReceive | tsn/motor/controller.c:285-328 | a feedback without error marks its device connected; anything else changes nothing |
| Controller.DeviceIndex | tsn/motor/controller.c:56-66 | the search finds a device exactly when its id is registered |
| IoDevice.CycleSafe | tsn/motor/io_device.c:270-390 | one device cycle: a non-zero current, or a feedback without error, needs a clear fault bit and one usable frame accepted in this very cycle; the current is the one of that frame and it says APPLY_IQ; a current is held past a cycle only so, or in fault |
| IoDevice.LoopSafe | tsn/motor/io_device.c:270-339 | the same of the loop alone, from the state the receive part left; the invariant of the device is kept |
| IoDevice.ReadyMeans | tsn/motor/io_device.c:270-320 | after button, fault check and mode switch: remote control needs clear error bits and APPLY_IQ, whatever mode came before |
| IoDevice.FaultStops | tsn/motor/io_device.c:290-299 | a faulty motor, in every state: MOTOR_FAULT, fault bit set, nothing applied, and any feedback carries the fault; the bit after a loop is set if and only if it was before or the motor is faulty |
| IoDevice.RemoteExactlyWhen | tsn/motor/io_device.c:299-309 | remote control and freewheeling after a loop, each if and only if: no fault now, the error bits, APPLY_IQ, the mode before and the offset |
| IoDevice.AppliesExactly | tsn/motor/io_device.c:220-268 | something is set exactly under remote control and when freewheeling: the current asked for, or zero; the motor holds what was set last |
| IoDevice.CycleApplies | tsn/motor/io_device.c:270-390 | a device that can be driven sets exactly the current of the usable APPLY_IQ frame of its cycle, and answers without error |
| IoDevice.ReceiveTakesLast | tsn/motor/io_device.c:341-390 | of several commands for the motor the last one counts, a frame without any leaves the current asked for, and only a single one clears the network error |
| IoDevice.StartsInOrder | tsn/motor/io_device.c:220-324 | WAIT_FOR_INPUT is left on the button only, INIT when the motor is initialised only, STAY_INDEX not before the offset; no feedback is sent until then |
| IoDevice.OffsetExactlyAfter | tsn/motor/io_device.c:196-218 | with a delay of d, the offset is reached in exactly the (d + 1)-th cycle spent at the index, the countdown in 32 bits |
| IoDevice.DelayLoaded | tsn/motor/io_device.c:180-192 | the delay is two seconds |
| IoDevice.Device.NetReceive | tsn/motor/io_device.c:341-390 | the action and the last matching current are taken over; the network error is cleared exactly when one command matches the motor, and set by a frame of any other kind or size |
| IoDevice.Device.RunState | tsn/motor/io_device.c:220-268 | the current set by each state: the requested one under remote control, zero when freerunning, none otherwise |
| IoDevice.Device.Prepare | tsn/motor/io_device.c:270-320 | button, fault check and the switch between freerunning and remote control: remote control is entered only without error bits and on APPLY_IQ, and left at once otherwise |
| IoDevice.Device.Loop | tsn/motor/io_device.c:270-339 | one loop and its output; the feedback is sent only once the offset is reached, and the network error is set again at the end of every loop |
| CyclicTask.PhaseOverRuns | tsn/tsn_task.c:366-396 | over any restarts and cycles, controller times stay multiples of the period and device times stay one transfer time behind |
| CyclicTask.RoundTrip | tsn/cyclic_task.c:111-112 | Main result. A frame sent in cycle i of the controller is answered, by the one device cycle that accepts it, in its cycle i + offset + 1 and in no other |
| CyclicTask.DeviceMeets | tsn/cyclic_task.c:111-112 | cycle k of a device passes the exact timestamp test for the frame of cycle i of the controller if and only if k is the one index counted from the two starts; so the schedules meet whenever both have begun |
| CyclicTask.ControllerMeets | tsn/cyclic_task.c:111-112 | cycle k of the controller passes the test for the feedback of device cycle n if and only if k is the one index offset + 1 cycles after the cycle that n answers |
| CyclicTask.RoundTripExactWhen | tsn/cyclic_task.c:259-271 | the transfer time, computed in 32 bits, is half of offset + 1 periods if and only if these fit 32 bits |
| CyclicTask.CycleTimes | tsn/tsn_task.c:366-396 | whatever events came before the last start, its n-th cycle is n + 1 periods and the offset after the aligned start |
| CyclicTask.StartWindow | tsn/tsn_task.c:366-396 | the aligned start lies in (now + 0.5 s, now + 1.5 s], on a whole second and on a cycle boundary |
| CyclicTask.EventKeepsPhase | tsn/tsn_task.c:72-90 | a restart sets, and the end of a cycle keeps, the phase of the schedule |
| CyclicTask.Schedule.Start | tsn/tsn_task.c:366-396 | a period is refused exactly when it is zero or does not divide one second; otherwise the schedule starts on the aligned time plus offset and period |
| CyclicTask.Schedule.StatsEnd | tsn/tsn_task.c:72-90 | the schedule advances by one period and keeps its phase |
| CyclicTask.Socket.Receive | tsn/cyclic_task.c:84-148 | the first frame with the exact stamp and the right peer is accepted, all before it were wrong, every frame read is counted once as valid, wrong time or wrong id, and underflow is counted when there was none at all |
| CyclicTask.AcceptedMeaning | tsn/cyclic_task.c:94-147 | a frame is accepted if and only if some received frame matches, and it matches |
| CyclicTask.StatsStart | tsn/tsn_task.c:38-70 | the wake-up check on the truncated 32-bit error: on time exactly when that error, taken unsigned, is below the period and below half the range; an early wake-up is also counted as missed when it looks late |
| CyclicTask.WakeUpExactWhen | tsn/tsn_task.c:38-70 | the answer of the check is right if and only if the clock is less than 2^32 ns late, or the low 32 bits of the difference are a period or more |
| CyclicTask.WakeUpFooled | tsn/tsn_task.c:38-70 | 2^32 ns late is accepted as on time |
| Recovery.RecoveryTrace | tsn/motor/controller.c:179-221 | Main result. After any cycle outside STANDBY with a device missing, a strategy loop step runs in a later cycle only after D + 1 complete cycles in a row brought the controller back, and RESET, PREPARE, STARTUP and INIT of that very strategy then returned OK in this order |
| Recovery.ReturnsExactly | tsn/motor/controller.c:207-221 | the waiting controller returns to CONTROL in a cycle if and only if that cycle is the (D + 1)-th complete one in a row, and it restarts the strategy |
| Recovery.LoopNeedsAllPhases | tsn/motor/control_strategies.c:1281-1341 | in every run, a loop step is called only after the four phases of the same strategy returned OK in order, with no restart since |
| Recovery.DelayCountsStreak | tsn/motor/controller.c:207-221 | while waiting, the delay is D minus the length of the current stretch of complete cycles |
| Recovery.MissLeadsToWaiting | tsn/motor/controller.c:179-184 | a cycle with a device missing leads to the waiting state |
| Recovery.DelayIsTwoSeconds | tsn/motor/controller.c:182-183 | D periods are exactly two seconds |
| Recovery.StrategyMoves | tsn/motor/control_strategies.c:1530-1616 | one cycle leaves the strategy alone, restarts it, or moves it one phase on after an OK call |
| Recovery.TrailExists | tsn/motor/control_strategies.c:1530-1616 | any sequence of such moves leaves a trail of the calls that led to the present phase |
| Recovery.ReturnStreak | tsn/motor/controller.c:207-221 | a return in cycle r is preceded by D + 1 complete cycles after the incomplete one |
| Recovery.ReturnRestarts | tsn/motor/controller.c:207-221 | the cycle that returns calls no phase and leaves the strategy at RESET |
| ControllerModes.StandbyExactWhen | tsn/motor/controller.c:200-249 | Main result. In every run: STANDBY is entered if and only if the strategy reports an error in CONTROL with all devices connected; it is left exactly by the button, for CONTROL with the strategy at RESET |
| ControllerModes.NoErrorPending | tsn/motor/controller.c:200-204 | in every run, an error of the strategy is dealt with in the cycle that reports it |
| ControllerModes.StandbyIsQuiet | tsn/motor/controller.c:223-249 | in STANDBY no phase is called and every current sent is zero |
| ControllerModes.StandbyLasts | tsn/motor/controller.c:223-249 | STANDBY and the strategy selected stay as long as the button is not pressed |
| ControllerModes.ControlSends | tsn/motor/controller.c:146-168 | in CONTROL with all devices connected, the frame carries exactly what the strategy wrote |
| ControllerModes.SelectionAfter | tsn/motor/control_strategies.c:1575-1616 | what the button, a stop and a go make of the strategy selected and the one remembered; nothing else changes them |
| ControllerModes.SelectionStartsOver | tsn/motor/control_strategies.c:1575-1616 | a change of the selection starts at RESET |
| ControllerModes.StopAndGo | tsn/motor/controller.c:186-196 | Main result. From a stop to the next go only the strategy that stops is called, whatever the button does; the go brings back the one the stop replaced, from RESET on |
| ControllerModes.StopLasts | tsn/motor/controller.c:186-196 | a stop lasts until a go |
| ControllerModes.StopTaken | tsn/motor/controller.c:186-196 | a stop selects STRATEGY_STOP in its own cycle and remembers the strategy it replaces |
| ControllerModes.PressesCount | tsn/motor/control_strategies.c:1595-1604 | k presses select the k-th strategy on, around the six |
| ControllerModes.RunsAreRuns | tsn/motor/controller.c:251-283 | the state sequences these results speak of are the states after each cycle of a run |
| InterlacedPair.PairAlwaysFits | tsn/motor/control_strategies.c:594-895 | Main result. Over every sequence of calls, restarts and changes of strategy: in STARTUP, INIT and CONTROL of the interlaced and identification strategies, the still and the moving motor are the two registered motors, distinct; and in CONTROL the runtime controller of the still one is in position mode and that of the moving one in trajectory mode |
| InterlacedPair.PairAt | tsn/motor/control_strategies.c:594-895 | the invariant holds of the pair after any prefix of any run |
| InterlacedPair.BothIdentified | tsn/motor/control_strategies.c:1134-1157 | identification ends with each of the two motors measured exactly once |
| PairTurns.MotorsAlternate | tsn/motor/control_strategies.c:774-871 | Main result. Over every loop of the interlaced strategy: after an even number of finished blocks the roles are what they were, after an odd number exchanged |
| PairTurns.LoopHandsOverExactWhen | tsn/motor/control_strategies.c:774-871 | a motor out of its margin is an error that changes nothing; else a finished block, and nothing but it, hands over |
| PairTurns.PrepareTakesRoles | tsn/motor/control_strategies.c:594-656 | the first roles are those of the list; away from the notch they are exchanged and PREPARE is called again |
| PairTurns.StartupTakesTurns | tsn/motor/control_strategies.c:658-736 | STARTUP exchanges the roles each time a motor is aligned away from its offset, and ends when one is aligned at it |
| PairTurns.ResetForgets | tsn/motor/control_strategies.c:873-895 | RESET forgets the roles |
| PairTurns.IdentificationCounts | tsn/motor/control_strategies.c:1134-1157 | Main result. Over every identification: each motor makes exactly the steps asked for, at least one, and it is done exactly when both have |
| PairTurns.StepsInOrder | tsn/motor/control_strategies.c:1029-1157 | a step speeds up, rolls out and comes to rest, each until its own condition |
| PairTurns.StepCounted | tsn/motor/control_strategies.c:1134-1157 | one call: a step that comes to rest counts, and the last one of a motor records it and hands over |
| InterlacedPair.CallKeeps | tsn/motor/control_strategies.c:1530-1551 | one call of the phase in progress keeps the pair |
| InterlacedPair.PreparedFits | tsn/motor/control_strategies.c:594-656 | PREPARE with two motors names both, and returns OK only with the startup controllers set for the present roles |
| InterlacedPair.StartedFits | tsn/motor/control_strategies.c:658-736 | STARTUP exchanges the roles together with the startup controllers |
| InterlacedPair.InitedFits | tsn/motor/control_strategies.c:738-772 | INIT sets the runtime controllers for the roles |
| InterlacedPair.HandedOverFits | tsn/motor/control_strategies.c:848-863 | a hand-over exchanges the roles and the runtime controllers together |
| InterlacedPair.IdentifiedFits | tsn/motor/control_strategies.c:1029-1187 | a step of the identification keeps the pair, its controllers, and the list of motors already measured |
| InterlacedPair.Context.InterlacedPrepare | tsn/motor/control_strategies.c:594-656 | the walk over the motor list fills the missing pointers only, sets the startup controllers, and exchanges the motors to wait; with a number of motors other than two it is an error |
| InterlacedPair.Context.HandOver | tsn/motor/control_strategies.c:848-863 | the moving motor gets position mode, the still one trajectory mode, and they exchange roles |
| InterlacedPair.Context.IdentificationLoop | tsn/motor/control_strategies.c:1029-1187 | accelerate, coast, stop, in this order, each left on its own condition |
| InterlacedPair.Context.InterlacedReset | tsn/motor/control_strategies.c:873-895 | both pointers are cleared, unless no motor is registered |
| InterlacedPair.Context.StateMachine | tsn/motor/control_strategies.c:1530-1551 | call and follow-up phase, keeping the pair |
| AudioBuffer.PutAppends | audio/audio_buffer.c:95-103 | writing appends at the back of the queue the ring stands for |
| AudioBuffer.PutHeadPrepends | audio/audio_buffer.c:105-115 | writing at the head prepends at its front |
| AudioBuffer.DropTakes | audio/audio_buffer.c:128-136 | reading takes the oldest samples, the rest stays |
| AudioBuffer.EmptiedIsQuiet | audio/audio_buffer.h:142-148 | a reset ring holds exactly its initial silence |
| AudioBuffer.BlockIsLoop | audio/audio_buffer.h:97-131 | one block that does not wrap, followed by one pointer update, stores what the wrapping loop stores |
| AudioBuffer.BlockReadIsLoop | audio/audio_buffer.h:108-140 | one block read at the read pointer is what the wrapping loop reads |
| AudioBuffer.BlockStored | audio/audio_buffer.h:119-122 | a block copied between two rings appends the oldest samples of the source |
| AudioBuffer.AlignedKept | audio/audio_buffer.h:124-140 | a pointer on a whole number of periods leaves room for one period before the end, and stays so after an update |
| AudioBuffer.MaskIsRemainder | audio/audio_buffer.c:43-67 | a mask of k ones takes the remainder by 2^k |
| AudioBuffer.MaskForward | audio/audio_buffer.h:124-131 | masking an advanced pointer is one wrap |
| AudioBuffer.MaskBackward | audio/audio_buffer.c:105-115 | masking a 32-bit difference that wrapped below zero moves the pointer backwards |
| AudioBuffer.MaskOf | audio/audio_buffer.c:43-67 | the mask loop: one less than the highest power of two not above the size, zero for size zero |
| AudioBuffer.MaskCoversBuffer | audio/audio_buffer.c:17-17 | the mask covers the whole buffer if and only if the size is a power of two |
| AudioBuffer.Memcpy | audio/audio_buffer.h:47-85 | the unrolled copies and the general loop all copy the block and nothing else |
| AudioBuffer.Buffer.constructor | audio/audio_buffer.c:43-67 | a new buffer holds its initial silence |
| AudioBuffer.Buffer.Avail | audio/audio_buffer.c:69-78 | the number of samples held, exact below full and zero when full |
| AudioBuffer.Buffer.Free | audio/audio_buffer.c:80-83 | below full, one sample of room is kept in reserve |
| AudioBuffer.Buffer.Full | audio/audio_buffer.c:85-88 | the test is true if and only if one sample is held and the write pointer is not zero: it does not mean full |
| AudioBuffer.Buffer.Empty | audio/audio_buffer.c:90-93 | true for an empty and for a full ring |
| AudioBuffer.Buffer.Write | audio/audio_buffer.c:95-103 | the sample loop in memory is the append on the ring |
| AudioBuffer.Buffer.WriteHead | audio/audio_buffer.c:105-115 | the loop at the head in memory is the prepend on the ring |
| AudioBuffer.Buffer.WriteSilence | audio/audio_buffer.c:117-126 | silence is appended; the block must fit before the end |
| AudioBuffer.Buffer.Read | audio/audio_buffer.c:128-136 | the oldest samples are returned in order and dropped |
| AudioBuffer.Buffer.CopyFrom | audio/audio_buffer.h:119-122 | the block copy between two buffers stores the oldest samples of the source behind the write pointer |
| AudioBuffer.Buffer.Reset | audio/audio_buffer.h:142-148 | pointers at the start and the initial silence inside |
| PipelineConfig.Check | audio/audio_pipeline.c:250-389 | the checker accepts if and only if all ports reference buffers, all buffers have a storage or a shared one and at most one writer port, no input is written in its own or a later stage, and all elements are sound |
| PipelineConfig.LoopFreeMeansForward | audio/audio_pipeline.c:324-341 | what the loop check accepts: whoever reads a buffer sits in a strictly later stage than whoever writes it, and conversely |
| PipelineConfig.CheckReferences | audio/audio_pipeline.c:263-286 | exactly the configurations whose ports reference existing buffers pass |
| PipelineConfig.CheckBuffers | audio/audio_pipeline.c:288-322 | exactly those with valid storages and single writers pass |
| PipelineConfig.CheckLoops | audio/audio_pipeline.c:324-341 | exactly the loop-free ones pass |
| PipelineConfig.CheckElements | audio/audio_element.c:112-156 | exactly those whose elements pass their own checks |
| PipelineConfig.CountPorts | audio/audio_pipeline.c:167-213 | the nested counting loops give the multiplicity of a buffer among the ports from a stage on |
| PipelineConfig.CountStagePorts | audio/audio_pipeline.c:167-213 | the same inside a stage |
| PipelineConfig.CountElementPorts | audio/audio_pipeline.c:167-213 | the innermost loop: occurrences among the ports of one element |
| PipelineConfig.TwoPorts | audio/audio_pipeline.c:191-213 | two elements with a port on one buffer count twice |
| PipelineDefaults.FillPorts | audio/audio_pipeline.c:665-685 | in place: a zero port takes the number after its predecessor |
| PipelineDefaults.FillingKeeps | audio/audio_pipeline.c:665-685 | explicit ports are kept and filling twice changes nothing |
| PipelineDefaults.DefaultsCount | audio/audio_pipeline.c:665-685 | all-default ports are numbered from zero |
| PipelineDefaults.FilledAt | audio/audio_pipeline.c:665-685 | a zero port takes the number after the one before it, given or filled in |
| PipelineDefaults.StoragesGiven | audio/audio_pipeline.c:689-698 | a storage given stays; the user of a shared buffer gets the shared one; any other gets the count of such buffers before it |
| PipelineDefaults.AssignStorages | audio/audio_pipeline.c:689-698 | in place: the storage each buffer gets, and nothing else changes |
| PipelineDefaults.OwnStoragesExactWhen | audio/audio_pipeline.c:689-698 | every buffer gets a storage of its own if and only if the explicit numbers are distinct and none is below the count of defaulted buffers |
| PipelineDefaults.DefaultsClashExample | audio/audio_pipeline.c:689-698 | a configuration in which a default lands on an explicit storage |
| PipelineDefaults.SetPeriods | audio/audio_pipeline.c:700-703 | a storage size left out becomes two periods, others stay |
| PipelineHistory.HistoryDelivers | audio/audio_pipeline.c:762-800 | Main result. For every accepted configuration with one reader per buffer and every history of runs, failed runs, resets and routing commands: a successful run with no failure since the last reset delivers through every buffer with one writer and one reader exactly the period its writer made in that run |
| PipelineSources.HistoryCaptures | audio/audio_element_sai_source.c:110-161 | Main result. Over every such history: what a successful run puts into such a buffer is the period its SAI source captured, or silence if the source did not run since the last reset, or what a generator made; the reader gets exactly that, behind one period of silence if it is a SAI sink that did not run since the last reset |
| PipelineSources.HistoryRoutes | audio/audio_element_routing.c:105-133 | and it crosses a routing element, in the same run, to the output that was last given the buffer as its input |
| PipelineSources.RunningExactWhen | audio/audio_element_sai_source.c:110-182 | over every history, a SAI element counts as started if and only if a run reached it since the last reset |
| PipelineSources.RoutedAsSelected | audio/audio_element_routing.c:42-103 | over every history, an output is routed to the input it was last given |
| PipelineSources.RunSucceedsExactWhen | audio/audio_element_sai_source.c:110-135 | a run succeeds if and only if the level of no started SAI element is out of its limits |
| PipelineSources.PassStarts | audio/audio_element_sai_sink.c:116-157 | a SAI element is started after a run if and only if it was before, or no element up to it failed |
| PipelineSources.RunMakes | audio/audio_element_sai_source.c:110-161 | what one run puts into a linked buffer, by the kind of its writer |
| PipelineSources.RunRoutes | audio/audio_element_routing.c:105-133 | what it puts into a buffer behind a routing element |
| PipelineSources.AcceptedKinds | audio/audio_element.c:112-156 | the ports each kind of element is accepted with |
| PipelineHistory.BufferEmptyWhenHealthy | audio/audio_pipeline.c:762-800 | over any history such a buffer keeps its pointers on whole periods, and is back at its initial level after every run as long as none failed since the last reset |
| PipelineHistory.PassKeepsGood | audio/audio_pipeline.c:762-783 | even a run that stops half way keeps all pointers on whole periods |
| PipelineHistory.PassKeepsBuilt | audio/audio_pipeline.c:762-783 | a run changes no configuration of an element |
| PipelineHistory.ResetLeavesEmpty | audio/audio_pipeline.c:785-800 | a reset empties such a buffer whatever happened before |
| PipelineHistory.RunLeavesEmpty | audio/audio_pipeline.c:762-783 | one successful run from empty delivers and leaves empty |
| PipelineDataflow.RunDelivers | audio/audio_pipeline.c:762-783 | through every linked buffer that was empty, the reader gets exactly the period of the writer in this run and the level is unchanged, if and only if the reader is not a PLL element, which accepts ports but never reads them |
| PipelineDataflow.LinkStages | audio/audio_pipeline.c:762-783 | the buffer stage by stage: untouched, then written once, then read once |
| PipelineDataflow.OnePeriodThrough | audio/audio_element_sai_sink.c:80-163 | write and read of one period; a sink that starts also gets its own silence first, without overrun if and only if the ring holds two periods |
| PipelineDataflow.StartThrough | audio/audio_element_sai_sink.c:138-150 | the same for the start of a sink: silence at the head, then two periods out |
| PipelineDataflow.HeadSilenceIs | audio/audio_element_sai_sink.c:138-150 | silence written at the head sample by sample is one block of silence in front |
| PipelineDataflow.RoutingForwards | audio/audio_element_routing.c:105-133 | what a routing element writes to an output is what came in, in the same run, at the selected input: samples cross any number of routings unchanged |
| PipelineDataflow.AcceptedDisjoint | audio/audio_pipeline.c:291-341 | in an accepted configuration with one reader per buffer, no two elements of a stage share a buffer and no element has one twice |
| PipelineDataflow.AcceptedLink | audio/audio_pipeline.c:291-341 | a buffer with one writer and one reader port links an earlier stage to a later one, and nobody else touches it |
| PipelineDataflow.SingleWriter | audio/audio_pipeline.c:297-308 | an accepted configuration has one writer port per buffer |
| PipelineDataflow.AcceptedOrderIrrelevant | audio/audio_pipeline.c:762-783 | Main result. In an accepted configuration with one reader per buffer, any permutation of the elements within their stages succeeds alike and leaves the same buffers, pointers and traffic |
| PipelineOrder.HistoryOrderIrrelevant | audio/audio_pipeline.c:762-800 | Main result. Over any history of successful runs, resets and routing commands, two pipelines that differ in the order of the elements within their stages keep the same buffers, and elements that differ in their order only |
| PipelineOrder.RunAlike | audio/audio_pipeline.c:762-783 | one successful run, of the buffers and of the elements |
| PipelineOrder.ResetAlike | audio/audio_pipeline.c:785-800 | one reset |
| PipelineOrder.EventAlike | audio/audio_pipeline.c:762-800 | one event, a routing command being addressed to the same element wherever it stands |
| PipelineOrder.ResetAt | audio/audio_pipeline.c:785-800 | a reset empties exactly the buffers that some element writes, once or twice alike |
| PipelineOrder.WholeStageRan | audio/audio_pipeline.c:768-777 | a stage that succeeds changes each of its elements by itself |
| AudioPipeline.OrderIrrelevant | audio/audio_pipeline.c:768-777 | the same for any stages whose elements share no buffer |
| AudioPipeline.StageOrderIrrelevant | audio/audio_pipeline.c:768-777 | the same for one stage |
| AudioPipeline.StagePointwise | audio/audio_pipeline.c:768-777 | a stage acts on each buffer as if the element that touches it ran alone |
| AudioPipeline.RunLocal | audio/audio_element_routing.c:105-133 | what an element does depends on the buffers at its own ports only |
| AudioPipeline.RunPointwise | audio/audio_element_routing.c:105-133 | an element appends its period to each output and takes one period off each input, once each, and leaves all other buffers alone; if it fails it changes nothing |
| AudioPipeline.StageSucceeds | audio/audio_pipeline.c:768-777 | a stage succeeds if and only if none of its elements fails |
| AudioPipeline.StageKeepsElements | audio/audio_pipeline.c:768-777 | a run changes nothing of an element but its started flag |
| AudioPipeline.ResetPointwise | audio/audio_pipeline.c:785-800 | a reset returns every buffer that some element writes to its initial pointers, level and silence, and leaves the others alone |
| AudioPipeline.Pipeline.WriteOutputs | audio/audio_element_sai_source.c:73-167 | one period to every output, in order |
| AudioPipeline.Pipeline.OverInputs | audio/audio_element_sai_sink.c:80-163 | one period off every input, or one period of silence in front of each |
| AudioPipeline.Pipeline.RunElement | audio/audio_element_sai_sink.c:80-163 | the run of each kind of element, with the start of a sink |
| AudioPipeline.Pipeline.RunStage | audio/audio_pipeline.c:768-777 | the elements in order, up to the first failure |
| AudioPipeline.Pipeline.Run | audio/audio_pipeline.c:762-783 | the stages in order, up to the first failure |
| AudioPipeline.Pipeline.ResetStage | audio/audio_pipeline.c:785-800 | every element of a stage |
| AudioPipeline.Pipeline.Reset | audio/audio_pipeline.c:785-800 | every stage |
| MemoryCarving.PartsTile | audio/audio_pipeline.c:514-618 | Main result. With every storage counted: pipeline record, stages, element arrays, element data, buffers and storages lie in the allocated block, pairwise apart, and fill it exactly |
| MemoryCarving.CarvingExactWhen | audio/audio_pipeline.c:444-468 | for every configuration, the storages carved, those some buffer names, fit and are apart if and only if each that has an external base is covered by uncarved storages behind it; with every storage in use, if and only if none has an external base |
| MemoryCarving.StoragesFitExactWhen | audio/audio_pipeline.c:543-583 | the same on lengths |
| MemoryCarving.CoveredWhenAllNamed | audio/audio_pipeline.c:444-468 | with every storage named, covered means counted |
| MemoryCarving.ExternalClashExample | audio/audio_pipeline.c:444-468 | a configuration whose one storage is carved out of the block |
| MemoryCarving.PartsHoldRecords | audio/audio_pipeline.c:391-468 | each part of the block is as long as the records, or the samples, it is carved for |
| MemoryCarving.AcceptedStorageIsPart | audio/audio_pipeline.c:288-322 | the storage of a buffer of its own is a part of the block, in every configuration the checker accepts |
| MemoryCarving.CountedExactWhen | audio/audio_pipeline.c:444-455 | the size counts a storage exactly when it has no base of its own |
| MemoryCarving.RoutingInit | audio/audio_element_routing.c:198-214 | the inner arrays a routing element carves start where its lengths say and end at the size it declares |
| MemoryCarving.RoutingDataFits | audio/audio_element_routing.c:186-214 | given its declared size, these arrays are apart from each other and from every other part of the block, and end where its data ends |
| MemoryCarving.RoutingPartsFit | audio/audio_element_routing.c:186-233 | record, input pointers, outputs and silence of a routing element fill its data exactly, away from every other part |
| MemoryCarving.CarvedAddresses | audio/audio_pipeline.c:585-618 | the bases advanced in the loops are the starts of the parts |
| MemoryCarving.Allocate | audio/audio_pipeline.c:514-536 | the separately summed total is the size of the block |
| MemoryCarving.StageInit | audio/audio_pipeline.c:585-618 | the incremental bases meet the sums |
| MemoryCarving.ElementInit | audio/audio_pipeline.c:585-618 | its loop over the element arrays |
| MemoryCarving.DataInit | audio/audio_pipeline.c:585-618 | its loop over the element data |
| MemoryCarving.StageDataInit | audio/audio_pipeline.c:585-618 | the inner loop over a stage |
| MemoryCarving.BufferStorage | audio/audio_pipeline.c:543-583 | a buffer gets the range of its storage |
| MemoryCarving.StorageOffset | audio/audio_pipeline.c:457-468 | the offset is the sum of the counted storages before it |
| MemoryCarving.StorageSize | audio/audio_pipeline.c:444-455 | the size is the sum of all counted storages |
| MemoryCarving.ElementSize | audio/audio_pipeline.c:495-507 | the sum over the stages |
| MemoryCarving.ElementDataSizeTotal | audio/audio_pipeline.c:475-493 | the sum over all elements |
| RoutingElement.SelectorIsLastCommand | audio/audio_element_routing.c:42-133 | over any history of commands and runs, each output follows the last accepted command for it, silence if there was none; selectors stay in 0..inputs and the silence buffer never changes |
| RoutingElement.RunFollowsCommands | audio/audio_element_routing.c:42-133 | over every history, a run appends to each output the next period of the input it was last connected to, or silence |
| RoutingElement.RunCopies | audio/audio_element_routing.c:105-133 | a run appends to each output one period of its selected input or of silence, and each input advances by exactly one period whatever its fan-out |
| RoutingElement.Element.constructor | audio/audio_element_routing.c:198-253 | all outputs start disconnected, with one period of silence at hand |
| RoutingElement.Element.Ctrl | audio/audio_element_routing.c:42-103 | a command of the right length and in range sets one selector; any other is refused and changes nothing |
| RoutingElement.Element.CopyOutputs | audio/audio_element_routing.c:105-125 | the copy loop over the outputs |
| RoutingElement.Element.AdvanceInputs | audio/audio_element_routing.c:126-133 | the update loop over the inputs |
| TrajPlanner.PathFromRest | tsn/motor/traj_planner.c:42-161 | Main result. For every move from rest: setpoints go towards the target, never back and never beyond it, and any two in a row, the first and the actual position included, are at most 4 * speed_max / loop_freq apart, although the phases are cut to whole cycles |
| TrajPlanner.SpeedFromRest | tsn/motor/traj_planner.c:42-161 | the speed is never above the planned one, nor above the limit asked for or the one of the motor; from cycles_total on, until the 32-bit counter has made a lap, the setpoint is the target, at rest |
| TrajPlanner.PlanInForce | tsn/motor/traj_planner.c:42-48 | Main result. The plan made for a move from rest is still in force after any number of further calls for its target without a reset, whatever position and speed they are given, so that the bounds hold for the whole move |
| TrajKinematics.SetpointsAgree | tsn/motor/traj_planner.c:118-161 | Main result. For every plan: within a phase, the speed changes from one cycle to the next by the acceleration of the setpoint, and the position by the mean of the two speeds; braking ends on the target, at rest |
| TrajKinematics.AccelerationOfPhase | tsn/motor/traj_planner.c:118-161 | the acceleration is the largest allowed, towards the target, then zero, then away from it, then zero |
| TrajKinematics.PhasesMeetExactWhen | tsn/motor/traj_planner.c:77-106 | before the phases are cut to cycles, braking goes on from where the cruise ends, in position and speed, if and only if the motor starts at rest |
| TrajKinematics.TrapezeMeets | tsn/motor/traj_planner.c:91-106 | with a cruise, the two are half the ramp at the start speed apart |
| TrajKinematics.TriangleMeets | tsn/motor/traj_planner.c:77-90 | without one, by the start speed times itself and twice the speed reached, over twice the acceleration |
| TrajKinematics.StartsExactWhen | tsn/motor/traj_planner.c:118-129 | a ramp starts at the actual position, and at the actual speed if and only if the target lies ahead or the motor is at rest |
| TrajKinematics.CountsFromRequest | tsn/motor/traj_planner.c:118-123 | the cycles of a plan count from the one of its request, across the wrap of the counter |
| TrajPlanner.ComputingAgainKeeps | tsn/motor/traj_planner.c:42-48 | calling again for the same target without a reset leaves the plan of the first time; only a call that plans needs a request that can be planned |
| TrajPlanner.ResetPlansAgain | tsn/motor/traj_planner.c:42-48 | after a reset, or for another target, a call plans from the actual position |
| TrajPlanner.BrakingNotPlannable | tsn/motor/traj_planner.c:77-95 | a call on the way, while the long move brakes, whose request could not be planned, and which is one of those that change nothing |
| TrajPlanner.OnTargetExactWhen | tsn/motor/traj_planner.c:118-161 | for every move from rest and every cycle: the setpoint is the target at rest if and only if the count of cycles, cut to 32 bits, is not below cycles_total |
| TrajPlanner.LapRepeatsMove | tsn/motor/traj_planner.c:118-123 | a lap of the counter after its start, a finished move is set from its start again |
| TrajPlanner.ElapsedAfterWrap | tsn/motor/traj_planner.c:118-123 | the elapsed count survives the wrap of the cycle counter |
| TrajPlanner.RestDescribes | tsn/motor/traj_planner.c:42-106 | a plan from rest is a symmetric ramp and cruise that covers the distance, in both the triangular and the trapezoidal case, below the top speed |
| TrajPlanner.LongMove | tsn/motor/traj_planner.c:42-106 | the plan of a concrete move from rest with a cruise: the conditions of the main result can be met |
| TrajPlanner.ShortMove | tsn/motor/traj_planner.c:77-95 | the plan of a concrete backward move too short for the rated speed |
| TrajPlanner.StepBounded | tsn/motor/traj_planner.c:118-161 | from one cycle to the next, across every phase boundary, the move never goes back nor covers more than four cycles at top speed |
| TrajPlanner.FirstBounded | tsn/motor/traj_planner.c:118-161 | so does the first setpoint |
| TrajPlanner.NeverBack | tsn/motor/traj_planner.c:118-161 | over any number of cycles |
| TrajPlanner.BelowWay | tsn/motor/traj_planner.c:118-161 | the move never exceeds its distance |
| TrajPlanner.SpeedBounded | tsn/motor/traj_planner.c:118-161 | the speed in every phase is between zero and the top speed |
| TrajPlanner.MoveMonotone | tsn/motor/traj_planner.c:118-161 | the setpoints as the program computes them, forwards or backwards, follow the move |
| TrajPlanner.MoveSteps | tsn/motor/traj_planner.c:118-161 | and their steps are bounded |
| TrajPlanner.MoveSpeeds | tsn/motor/traj_planner.c:118-161 | and their speeds |
| TrajPlanner.TrajTrapez.Compute | tsn/motor/traj_planner.c:42-106 | a new target or a reset makes a plan; otherwise nothing changes |
| TrajPlanner.TrajTrapez.Evaluate | tsn/motor/traj_planner.c:118-161 | the setpoint of the elapsed cycle, with wrap-around of the counter |
| CurrentControl.LimitsHold | tsn/motor/current_control.c:40-149 | Main result. For every sequence of samples and restarts, the contribution of the integral stays within the current limits, and every command is within them |
| CurrentControl.IntegralKeeps | tsn/motor/current_control.c:40-67 | the anti-windup of one sample keeps the contribution within the limits |
| CurrentControl.PositionLoop | tsn/motor/current_control.c:19-31 | the speed asked for is within the rated speed, has the sign of the error, and is proportional exactly below the limit |
| CurrentDirection.DrivesTowardsSpeed | tsn/motor/current_control.c:40-149 | Main result. In speed mode, from a fresh start without feed-forward: the motor is driven forward if and only if it is slower than asked for, and backward if and only if it is faster |
| CurrentDirection.DrivesTowardsPosition | tsn/motor/current_control.c:19-149 | Main result. In position mode, and in trajectory mode without a speed of its own, a motor at rest is driven towards the position asked for |
| CurrentDirection.MoreNeverDrivesLess | tsn/motor/current_control.c:19-149 | in every mode and state, a higher speed, a position further on, or a higher acceleration asked for never gives a lower current |
| CurrentDirection.ControlLaw | tsn/motor/current_control.c:40-149 | Main result. After any samples in which the speed loop stayed within its limits, the current is feed-forward for inertia, friction and load, plus a part for the present error and one for the sum of all errors, limited |
| CurrentDirection.IntegralIsSum | tsn/motor/current_control.c:40-67 | the integral is the sum of the errors of all these samples |
| CurrentDirection.AddedExactWhen | tsn/motor/current_control.c:53-64 | the error of a sample is added unless the output is out of its limits and the error drives it further |
| CurrentDirection.PositionIgnoresSpeed | tsn/motor/current_control.c:118-149 | position mode does not look at the speed asked for |
| CurrentDirection.SpeedIgnoresPosition | tsn/motor/current_control.c:118-149 | speed mode does not look at positions |
| CurrentControl.IqControl.SpeedControl | tsn/motor/current_control.c:40-67 | the output, and the integral that is frozen exactly when the output is at a limit and the error drives it further |
| CurrentControl.IqControl.GetIqCommand | tsn/motor/current_control.c:118-149 | the command of each mode, within the limits, and the new state |
| ResetBarrier.BarrierSafe | audio/audio.c:252-306 | Main result. In every interleaving: at most one thread resets at a time, it passes the barrier only after every other thread ran its reset for this request, and every semaphore is zero whenever no reset is in progress |
| ResetBarrier.RunKeeps | audio/audio.c:317-346 | every reachable state balances the requests queued, running and signalled against those the initiator still waits for |
| ResetBarrier.StepKeeps | audio/audio.c:252-346 | any step of any thread, or of the interrupt, keeps that balance |
| ResetBarrier.DoneMeans | audio/play_pipeline.c:33-63 | a thread counts as reset only by running the reset asked for by another |
| ResetBarrier.LockMeans | audio/audio.c:252-262 | a new reset starts with nobody reset, from the thread that took the lock |
| ResetBarrier.NoDeadlock | audio/audio.c:252-306 | while no request was refused, some named thread can always bring the reset forward, whether its period fails or not: a second failing thread never blocks it |
| ResetBarrier.MoverMoves | audio/audio.c:252-306 | its step ends the reset or strictly lessens the work left |
| ResetBarrier.OthersDoNotDelay | audio/audio.c:73-102 | no step of anyone else, nor the interrupt, adds to that work |
| ResetBarrier.EndsExactWhen | audio/audio.c:252-306 | Main result. In every run, once the movers made a bounded number of steps from a state in which a reset was in progress, it has ended if and only if no full queue refused one of its requests |
| ResetBarrier.WorkBounded | audio/audio.c:252-306 | that number depends on the count of threads and the length of the queues only |
| ResetBarrier.RefusedBlocks | audio/audio.c:73-87 | no step gets a reset past a thread whose request was refused |
| ResetBarrier.RefusedForever | audio/audio.c:73-87 | so over the rest of every run the lock stays taken and the barrier is not passed |
| ResetBarrier.RefusalHappens | audio/audio.c:73-87 | a run of two threads that reaches a refused request |
| ResetRestart.EveryOtherResent | audio/audio.c:287-305 | in every run, a thread that passed the barrier goes back to sleep only after it sent a period to every other thread, which a full queue alone refuses |
| ResetRestart.InterruptOnAtRest | audio/audio.c:73-102 | Main result. In every run in which no failed first thread meets a reset that already served it: whenever the first thread sleeps with no period waiting and no reset is in progress, the interrupt is on |
| ResetRestart.StepAliveExactWhen | audio/audio.c:252-346 | any step keeps the interrupt on, or somebody who has still to turn it on, except that one |
| ResetRestart.StallHappens | audio/audio.c:252-346 | a run of two threads with such a step, which ends with all threads asleep, all queues empty and the interrupt off, where no step is enabled |
| SnapshotHandshake.OneJob | tsn/cyclic_task.c:28-58 | in every interleaving, at most one print job of an object is queued or running, and the pending flag equals its existence outside the update of the producer |
| SnapshotHandshake.SnapshotHeldExactWhen | tsn/motor/io_device.c:341-390 | from the moment a job is queued up to the end of its print, the snapshot stays what it was if and only if every frame its device accepted in between is a command frame of the right size with exactly one command for its motor |
| SnapshotHandshake.JobHoldsCopy | tsn/tsn_task.c:119-132 | Main result. In every interleaving, a job is, up to the end of its print, about all updates made before the last copy, taken while there was no job, and the frames that spoiled it since |
| SnapshotHandshake.SnapshotIsCopy | tsn/tsn_task.c:119-132 | in every run, the snapshot is the live statistics at the last copy, and what spoiled it since |
| SnapshotHandshake.LiveCounts | tsn/tsn_task.c:72-90 | the live statistics count all updates |
| SnapshotHandshake.SnapshotChanges | tsn/tsn_task.c:92-155 | it changes by one for each other frame, and by nothing else: the producer never writes to it |
| SnapshotHandshake.SpoilingSetsError | tsn/motor/io_device.c:341-390 | these are the frames that set the network error of the device |
| SnapshotHandshake.SpoiledExample | tsn/motor/io_device.c:373-377 | a run in which a command frame without a command for the device changes a snapshot that waits to be printed |
| SnapshotHandshake.RunKeeps | async/async.c:31-79 | every reachable state relates flag, place of the producer and jobs |
| SnapshotHandshake.StepKeeps | async/async.c:31-79 | any step of producer or consumer keeps that |
| SnapshotHandshake.RefusalRecovers | tsn/tsn_task.c:119-132 | a full queue loses the job and nothing else: the flag is clear and the next update starts afresh |
| SnapshotHandshake.SendsAgainExactWhen | tsn/motor/control_strategies.c:1226-1268 | after the end of a job, the producer can take a new snapshot if and only if the job clears the flag, which the job of the motor statistics does not |
| SnapshotHandshake.StuckForever | tsn/motor/control_strategies.c:1226-1268 | without that, nothing is ever sent again |
| SerialFramer.ChunkingIrrelevant | tsn/serial_iodevice.c:129-204 | any way of cutting the stream into receive chunks gives the commands and pending bytes of the byte-at-a-time machine |
| SerialFramer.Receiver.Task | tsn/serial_iodevice.c:129-204 | the receive task over any arrivals emits what the byte-at-a-time machine emits on the whole stream; bytes that found no room stay in the driver |
| SerialFramer.Receiver.Pass | tsn/serial_iodevice.c:141-202 | one pass refines the machine on the bytes received; at its end no end of line is pending and a byte is free |
| SerialFramer.Receiver.Parse | tsn/serial_iodevice.c:158-202 | the search loop ends, by the lexicographic measure, and emits what the machine emits |
| SerialFramer.Receiver.SearchByte | tsn/serial_iodevice.c:158-202 | one byte: a command, an erased full buffer, or the next byte |
| SerialFramer.Receiver.Shift | tsn/serial_iodevice.c:178-184 | the shift in place moves the rest to the front |
| SerialFramer.Receiver.Receive | tsn/serial_iodevice.c:141-153 | received bytes are appended up to the free room |
| SerialFramer.FeedAllSplit | tsn/serial_iodevice.c:129-204 | the machine on a concatenation is the machine on the parts in turn |
| SerialFramer.CommandsAreLines | tsn/serial_iodevice.c:158-202 | every command is exactly one line of at most 50 bytes, and what is pending is a line without its end that leaves room |
| SerialFramer.LineEnds | tsn/serial_iodevice.c:158-184 | a line feed or a carriage return emits the line, with all that was pending, at once |
| SerialFramer.LineErased | tsn/serial_iodevice.c:190-202 | fifty bytes without either are erased and emit nothing |
| SerialFramer.BytesConserved | tsn/serial_iodevice.c:158-202 | every byte of the stream is, in order, in a command, in an erased buffer of 50 bytes without end of line, or pending; commands and pending bytes alone are the stream if and only if no buffer was erased |
| SerialFramer.PiecesAreStream | tsn/serial_iodevice.c:158-202 | the pieces of the stream, in order, and which of them are commands |
| OnlineStats.SummariesDescribe | stats/stats.c:60-118 | Main result. For every sample set, under shifts and under division: minimum <= every sample <= maximum, both from the set unless all samples are the least value; the mean is the quotient of sum and count, rounded down or towards zero; the mean square is rounded down; and the variance is never negative and within one of the exact one |
| OnlineStats.RunningIsBatch | stats/stats.c:60-92 | the running sums and extremes are the batch values |
| OnlineStats.CauchySchwarz | stats/stats.c:60-92 | the squared sum is at most the count times the sum of squares |
| OnlineStats.VarianceNotNegative | stats/stats.c:104-118 | so the variance is not negative under integer division |
| OnlineStats.MeansBetweenExtremes | stats/stats.c:60-118 | both means lie between the extremes |
| OnlineStats.MaximumExactWhen | stats/stats.c:29-36 | the recorded maximum is one of the samples if and only if some sample is above the least 32-bit value |
| OnlineStats.MaximumWrongExample | stats/stats.c:29-36 | a set whose recorded maximum is none of its samples |
| OnlineStats.Stats.Update | stats/stats.c:60-92 | a sample is added; a full set leaves its summary and starts a new one |
| OnlineStats.Stats.Close | stats/stats.c:60-92 | a full set is summarised by shifts, and the next one starts empty with the absolute extremes kept |
| OnlineStats.Stats.Compute | stats/stats.c:104-118 | the summary by division, or the empty one |
| OnlineStats.SlotsTotal | stats/stats.c:133-141 | the slots of a histogram together hold every value once |
| OnlineStats.SlotBounds | stats/stats.c:133-141 | slot k takes exactly the values from k slot sizes up to the next, the last slot the rest |
| OnlineStats.UpdateCounts | stats/stats.c:133-141 | an update counts in the slot whose bounds hold the value, and in no other |
| OnlineStats.Histogram.Init | stats/stats.c:120-131 | the 32-bit check refuses too many slots, except for the one count whose increment wraps to zero; the slots are left as they are |
| OnlineStats.Histogram.Update | stats/stats.c:133-141 | the slot of the value, or the last one, gains one |
| OnlineStats.Histogram.Reset | stats/stats.c:143-149 | all slots in use are zero again |
| OnlineStats.CountsTotalUpdates | stats/stats.c:133-149 | the slot counts total the updates since they were zeroed |
| PllTracking.ErrorIsTrue | audio/audio_element_pll.c:140-228 | Main result. Over any interleaving of runs, resets, enabling, disabling and changes of id, with fewer than 2^32 ticks between samples: the error of every sample is the true difference of ticks since the loop was last unlocked, and whatever is sent to the PLL is within +/-200000 ppb |
| PllSteering.SteersToSource | audio/audio_element_pll.c:207-222 | Main result. Over every history: from a settled loop, a source truly ahead never lowers the ppb and one that lags never raises it; from a lead of 4 ppb on it moves, unless it is at the limit |
| PllSteering.SteersAsCounted | audio/audio_element_pll.c:207-222 | Main result. Over every history: the ppb of a locked sample, between the limits, is within 291/128 ppb of 33/128 of the lead per tick in true counts, on top of the integral and the error before; the error kept is the lead per tick up to one, and the integral gains the mean of the last two up to one |
| PllSteering.LocksOnRatio | audio/audio_element_pll.c:186-205 | over every history, the sample that locks settles the loop on the true ratio of the clocks since it was unlocked, less than 1 ppb too low, on top of the setting before |
| PllSteering.SettledFollowsLead | audio/audio_element_pll.c:207-222 | the same of one sample |
| PllSteering.SettingNear | audio/audio_element_pll.c:207-222 | the same of one sample |
| PllSteering.ErrorFollowsLead | audio/audio_element_pll.c:207-209 | the error has the sign of the lead, and is the lead per tick up to one |
| PllSteering.IntegralFollowsLead | audio/audio_element_pll.c:209-210 | a lead never lowers the integral unless the one before was negative, and the other way round |
| PllSteering.SlowerGetsMore | audio/audio_element_pll.c:207-222 | of two samples with the same source count, the slower destination never gets the lower ppb |
| PllSteering.EstimateNear | audio/audio_element_pll.c:186-205 | the first estimate is the ratio less than 1 ppb too low |
| PllSteering.SampleEveryPeriod | audio/audio_element_pll.c:140-150 | after a sample the next one is taken by the run that completes the period, and runs in between only count |
| PllSteering.SampleAfterReset | audio/audio_element_pll.c:242-255 | the first run after a reset takes a sample |
| PllSteering.CommandsRestart | audio/audio_element_pll.c:82-118 | resets, enabling and changes of id start the tracking over and keep setting, integral and error; disabling stops the samples and forgets nothing |
| PllSteering.LocksAfterTen | audio/audio_element_pll.c:175-205 | the first sample takes the offset, the next nine wait, and the eleventh locks; nothing is sent before |
| PllTracking.AlwaysExact | audio/audio_element_pll.c:140-255 | the 64-bit totals since the last unlocked sample are the true counts |
| PllTracking.StepExact | audio/audio_element_pll.c:140-255 | one run or command keeps that |
| PllTracking.LapIsTrue | audio/audio_element_pll.c:155-165 | a wrapped difference is the true one below one lap |
| PllTracking.LockingSettles | audio/audio_element_pll.c:140-228 | locking leaves an integral that stands for the ppb it sets |
| PllTracking.SettledStays | audio/audio_element_pll.c:140-228 | a sample without error sends nothing and keeps the ppb |
| PllTracking.SettledHolds | audio/audio_element_pll.c:140-228 | so do any number of them |
| PllTracking.CarriesExactWhen | audio/audio_element_pll.c:82-138 | after a change of id, the PLL selected carries the ppb the loop holds if and only if something was sent since, or it carried that very ppb already |
| PllTracking.OpCarries | audio/audio_element_pll.c:215-222 | any other operation keeps that, and a sample that sends establishes it |
| PllTracking.NotTold | audio/audio_element_pll.c:82-138 | a PLL selected for the first time does not carry the ppb of the loop, unless that is zero |
| PllTracking.AdjustmentIsFaithful | audio/audio_pll14xx.c:19-52 | the setting is monotone in the ppb, less than one step from the exact value unless saturated, where it is the nearest allowed, and unchanged for zero ppb |
| PllTracking.Adjust | audio/audio_pll14xx.c:19-52 | the register gets a 16-bit value less than one step from the exact one, or the limit the exact one lies beyond |
| PllTracking.Element.Run | audio/audio_element_pll.c:140-155 | a sample every period of runs while enabled |
| PllTracking.Element.Sample | audio/audio_element_pll.c:155-241 | what a sample does in each state of the lock |
| PllTracking.Element.Control | audio/audio_element_pll.c:186-228 | the control loop, what it sends and keeps |

## Left out

- TrajPlanner.PathFromRest: states the bounds for moves from rest only; with an initial speed, the symmetric cycle counts do not describe the move (`TrajKinematics.PhasesMeetExactWhen` says by how much).
- TrajPlanner.TrajTrapez.Compute: a call that plans needs a non-negative root of the radicand and cycle counts that fit 32 bits; the conversion of any other float is undefined in the source.
- OnlineStats.Stats.Update: needs the sums and the squared sum to fit their 64-bit variables.
- PllTracking.ErrorIsTrue: 64-bit totals and products are unbounded integers, and divisions need clocks that run.
- Controller.Controller.NetReceive: the measured feedback it copies to the motors is left out, as the strategies that read it are inputs.
- PipelineConfig.CheckElements: the settings of an element other than its ports are one flag.
- PllTracking.Element.Run: needs clocks that ticked since the last sample, as the source divides by their difference.
- PllTracking.Element.Sample: likewise.
- CyclicTask.RoundTrip: times near the end of the 64-bit range, where the schedule itself would wrap, are excluded.
- CyclicTask.Socket.Receive: the buffers of zero-copy sockets and the latency statistics are not modelled.
- SerialFramer.Receiver.Task: a command counts as emitted even when its queue is full or its allocation fails; the driver is a queue of bytes.
- MemoryCarving.PartsTile: sizes are unbounded, and alignment of the parts is not modelled.
- AudioPipeline.Pipeline.Run: rings of the pipeline are values, so aliasing of storages between buffers is not modelled; the ring in memory is `AudioBuffer.Buffer`. The samples a source generates or captures and the hardware levels are inputs; a transfer that does not fit is recorded, not performed.
- RoutingElement.Element.Run: rings are values, as in the pipeline, and the mutex is left out.
- PipelineConfig.Check: the settings of an element other than its ports are one flag; upper limits on the numbers of stages, elements and ports, and warnings, are left out.
- PipelineHistory.HistoryDelivers: assumes one reader per buffer and rings that start empty; buffers shared between pipelines are left out.
- InterlacedPair.PairAlwaysFits: positions, speeds and cycle counts are reduced to the conditions tested on them; strategies without a pair may return anything and set any controller mode.
- PllTracking.CarriesExactWhen: a PLL that was never adjusted counts as carrying zero, and other writers of its registers are left out.
- CurrentDirection.ControlLaw: speaks of samples in which the speed loop stayed within its limits; past a limit, `CurrentDirection.AddedExactWhen` says which errors are added.
- PipelineSources.HistoryCaptures: what a SAI source captured is the period its FIFO held, converted; the conversion itself is left out.
- ResetRestart.InterruptOnAtRest: whether a period succeeds is an input, and the period a resetting thread runs itself succeeds.
- MotorNetwork.EndToEndSafety: one motor per device, as NB_MOTORS_MAX says; the motor state machine behind a device is an input.
- ResetBarrier.BarrierSafe: threads and queues are a step system on values; a stop racing a reset is left out.
- SnapshotHandshake.OneJob: statistics are version numbers, so the values a print job works out in its own snapshot are left out; the timeout of the background task and the jobs of others are reduced to foreign messages.
- CurrentControl.LimitsHold: floats are reals, so rounding is not modelled; the conditions on the gains are those of a valid motor configuration.
- The AVTP elements, the codec set-up, registers and FIFO of the SAI, and sample conversion: hardware and libraries that are not part of this repository.
- The motor library, UART driver, sockets, timers and command clients: calls into code that is not modelled; their results are inputs.
- Scenario tables, sine and DTMF samples: constant data and floating-point values.
- Logging, dumps, printing of statistics, responses to commands, creation of threads and failing allocations: no property beyond the call itself.
