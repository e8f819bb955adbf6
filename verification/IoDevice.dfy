/** The I/O device that drives one motor: its states, error bits, the current it
    applies and the feedback it sends. */
module IoDevice {
  import opened Arithmetic
  import opened Wrappers
  import opened CyclicTask

  datatype Mode = WaitForInput | Init | StayIndex | RemoteControl | Freerunning | MotorFault

  const STAY_INDEX_DELAY_MS: nat := 2000
  const NSECS_PER_MSEC: nat := 1_000_000

  /** State of a device; held is the last current passed to the motor. */
  datatype State = State(mode: Mode, status: Status, action: Action, iqReq: real,
                         offsetReached: bool, stayDelay: int, held: real, currentLoop: bool)

  /** Inputs of one loop: button, motor state machine, position check, timer. */
  datatype LoopInput = LoopInput(button: bool, faulty: bool, initialized: bool, atIndex: bool, timerOk: bool)

  /** What one loop does to the outside: the current set, if any, and the feedback
      status sent, if any. */
  datatype LoopOutput = LoopOutput(applied: Option<real>, feedback: Option<Status>)

  function Initial(): State {
    State(WaitForInput, Status(false, false), Hold, 0.0, false, 0, 0.0, false)
  }

  // Receive

  /** Commands of a frame that address this device's motor. */
  function Mine(id: nat, commands: seq<IqCommand>): seq<IqCommand> {
    if commands == [] then []
    else Mine(id, commands[..|commands| - 1]) +
         (if commands[|commands| - 1].device == id && commands[|commands| - 1].motor == 0
          then [commands[|commands| - 1]] else [])
  }

  /** A frame is usable if it carries exactly one command for the motor. */
  predicate Usable(id: nat, m: Message) {
    m.SetIq? && |Mine(id, m.commands)| == 1
  }

  function AfterReceive(id: nat, s: State, m: Message): State {
    if m.SetIq? then
      var mine := Mine(id, m.commands);
      s.(action := m.action, iqReq := if mine == [] then s.iqReq else mine[|mine| - 1].iq,
         status := s.status.(network := |mine| != 1))
    else s.(status := s.status.(network := true))
  }

  /** Of several commands for the motor the last one counts; a frame without any leaves the
      current asked for; and only a single one clears the network error. */
  lemma ReceiveTakesLast(id: nat, s: State, action: Action, commands: seq<IqCommand>, last: IqCommand)
    ensures AfterReceive(id, s, SetIq(action, [])) == s.(action := action, status := s.status.(network := true))
    ensures var before := AfterReceive(id, s, SetIq(action, commands));
            var after := AfterReceive(id, s, SetIq(action, commands + [last]));
            && after.action == action
            && (last.device == id && last.motor == 0 ==>
                  after.iqReq == last.iq && (after.status.network <==> Mine(id, commands) != []))
            && (!(last.device == id && last.motor == 0) ==> after == before)
  {
    assert (commands + [last])[..|commands|] == commands;
  }

  // Loop

  function Pressed(s: State, input: LoopInput): State {
    if input.button && s.mode == WaitForInput then s.(mode := Init) else s
  }

  function Checked(s: State, input: LoopInput): State {
    if input.faulty then s.(mode := MotorFault, status := s.status.(fault := true)) else s
  }

  function Switched(s: State): State {
    if s.status.Ok() && s.action == ApplyIq then
      if s.mode == Freerunning || (s.mode == StayIndex && s.offsetReached) then s.(mode := RemoteControl) else s
    else if s.mode == RemoteControl then s.(mode := Freerunning)
    else s
  }

  /** State right before the actions of its mode are run. */
  function Ready(s: State, input: LoopInput): State {
    Switched(Checked(Pressed(s, input), input)).(currentLoop := input.timerOk)
  }

  function Run(period: nat, s: State, input: LoopInput): State
    requires period > 0
  {
    match s.mode
    case Init =>
      if input.initialized then
        s.(mode := StayIndex, stayDelay := STAY_INDEX_DELAY_MS * (NSECS_PER_MSEC / period) % TWO_32,
          offsetReached := false)
      else s
    case StayIndex =>
      if input.atIndex then
        s.(stayDelay := (s.stayDelay - 1) % TWO_32, offsetReached := s.offsetReached || s.stayDelay == 0)
      else s
    case Freerunning => s.(currentLoop := false, iqReq := 0.0, held := 0.0)
    case RemoteControl => s.(held := s.iqReq)
    case WaitForInput => s
    case MotorFault => s
  }

  predicate Sends(s: State) {
    s.mode != WaitForInput && s.mode != Init && s.offsetReached
  }

  function AfterLoop(period: nat, s: State, input: LoopInput): State
    requires period > 0
  {
    var run := Run(period, Ready(s, input), input);
    run.(status := run.status.(network := true))
  }

  function Output(period: nat, s: State, input: LoopInput): LoopOutput
    requires period > 0
  {
    var ready := Ready(s, input);
    var run := Run(period, ready, input);
    LoopOutput(
      match ready.mode
      case RemoteControl => Some(ready.iqReq)
      case Freerunning => Some(0.0)
      case _ => None,
      if Sends(run) then Some(run.status) else None)
  }

  class Device {
    const id: nat
    const period: nat
    var mode: Mode
    var status: Status
    var action: Action
    var iqReq: real
    var offsetReached: bool
    var stayDelay: int
    var held: real
    var currentLoop: bool

    ghost function View(): State
      reads this
    {
      State(mode, status, action, iqReq, offsetReached, stayDelay, held, currentLoop)
    }

    constructor (id: nat, period: nat)
      ensures View() == Initial() && this.id == id && this.period == period
    {
      this.id, this.period := id, period;
      mode, status, action, iqReq := WaitForInput, Status(false, false), Hold, 0.0;
      offsetReached, stayDelay, held, currentLoop := false, 0, 0.0, false;
    }

    method NetReceive(m: Message)
      modifies this`action, this`iqReq, this`status
      ensures View() == AfterReceive(id, old(View()), m)
    {
      var matches := 0;
      if m.SetIq? {
        action := m.action;
        ghost var before := iqReq;
        for i := 0 to |m.commands|
          invariant matches == |Mine(id, m.commands[..i])|
          invariant iqReq == if matches == 0 then before else Mine(id, m.commands[..i])[matches - 1].iq
          invariant action == m.action && status == old(status)
        {
          assert m.commands[..i + 1][..i] == m.commands[..i];
          if m.commands[i].device == id {
            if m.commands[i].motor < 1 {
              iqReq := m.commands[i].iq;
              matches := matches + 1;
            }
          }
        }
        assert m.commands[..|m.commands|] == m.commands;
        status := status.(network := matches != 1);
      } else {
        status := status.(network := true);
      }
    }

    method RunInit(input: LoopInput)
      requires period > 0 && mode == Init
      modifies this`mode, this`stayDelay, this`offsetReached
      ensures View() == Run(period, old(View()), input)
    {
      if input.initialized {
        mode := StayIndex;
        stayDelay := STAY_INDEX_DELAY_MS * (NSECS_PER_MSEC / period) % TWO_32;
        offsetReached := false;
      }
    }

    method RunStayIndex(input: LoopInput)
      requires period > 0 && mode == StayIndex
      modifies this`stayDelay, this`offsetReached
      ensures View() == Run(period, old(View()), input)
    {
      if input.atIndex {
        var delay := stayDelay;
        stayDelay := (stayDelay - 1) % TWO_32;
        if delay == 0 {
          offsetReached := true;
        }
      }
    }

    /** The actions of the current mode; the result is the current set, if any. */
    method RunState(input: LoopInput) returns (applied: Option<real>)
      requires period > 0
      modifies this
      ensures View() == Run(period, old(View()), input)
      ensures applied == match old(mode)
                         case RemoteControl => Some(old(iqReq))
                         case Freerunning => Some(0.0)
                         case _ => None
    {
      applied := None;
      match mode {
        case WaitForInput =>
        case Init => RunInit(input);
        case StayIndex => RunStayIndex(input);
        case Freerunning =>
          currentLoop := false;
          iqReq := 0.0;
          held := iqReq;
          applied := Some(held);
        case RemoteControl =>
          held := iqReq;
          applied := Some(held);
        case MotorFault =>
      }
    }

    /** Button, fault check, mode switch and current loop enable. */
    method Prepare(input: LoopInput)
      modifies this`mode, this`status, this`currentLoop
      ensures View() == Ready(old(View()), input)
    {
      if input.button && mode == WaitForInput {
        mode := Init;
      }
      if input.faulty {
        mode := MotorFault;
        status := status.(fault := true);
      }
      if status.Ok() && action == ApplyIq {
        if mode == Freerunning {
          mode := RemoteControl;
        } else if mode == StayIndex && offsetReached {
          mode := RemoteControl;
        }
      } else if mode == RemoteControl {
        mode := Freerunning;
      }
      currentLoop := input.timerOk;
    }

    method Loop(input: LoopInput) returns (output: LoopOutput)
      requires period > 0
      modifies this
      ensures View() == AfterLoop(period, old(View()), input)
      ensures output == Output(period, old(View()), input)
    {
      Prepare(input);
      var applied := RunState(input);
      var sends := (mode != WaitForInput && mode != Init) && offsetReached;
      output := LoopOutput(applied, if sends then Some(status) else None);
      status := status.(network := true);
    }
  }

  /** What holds of a device between two of its cycles. */
  ghost predicate Inv(s: State) {
    && (s.status.network || s.mode == WaitForInput)
    && (s.offsetReached ==> s.mode != WaitForInput && s.mode != Init)
    && (s.status.fault ==> s.mode == MotorFault)
    && (s.held != 0.0 ==> s.mode == RemoteControl || s.mode == MotorFault)
  }

  // What a loop does with the motor

  /** A faulty motor: whatever the state, the loop ends in fault with the bit set, sets no
      current, and reports the fault if it reports at all. The bit is never cleared, and
      set by a faulty motor only. */
  lemma FaultStops(period: nat, s: State, input: LoopInput)
    requires period > 0
    ensures var after, output := AfterLoop(period, s, input), Output(period, s, input);
            && (input.faulty ==> after.mode == MotorFault && output.applied == None && after.held == s.held)
            && (after.status.fault <==> s.status.fault || input.faulty)
            && (output.feedback.Some? ==> (output.feedback.value.fault <==> after.status.fault))
            && (output.feedback.Some? && input.faulty ==> s.offsetReached)
            && (input.faulty && s.offsetReached ==> output.feedback.Some?)
  {
  }

  /** A loop ends under remote control exactly when the motor is not faulty, no error bit is
      set, the last frame says APPLY_IQ, and the motor was driven before or has reached its
      offset; it freewheels exactly when it was driven and one of these is missing. */
  lemma RemoteExactlyWhen(period: nat, s: State, input: LoopInput)
    requires period > 0
    ensures var after := AfterLoop(period, s, input);
            var driven := s.mode == RemoteControl || s.mode == Freerunning;
            && (after.mode == RemoteControl <==>
                  && !input.faulty && s.status.Ok() && s.action == ApplyIq
                  && (driven || (s.mode == StayIndex && s.offsetReached)))
            && (after.mode == Freerunning <==> !input.faulty && driven && !(s.status.Ok() && s.action == ApplyIq))
  {
  }

  /** What is set: the current asked for under remote control, zero when freewheeling, and
      nothing in any other mode; the motor holds what was set last. */
  lemma AppliesExactly(period: nat, s: State, input: LoopInput)
    requires period > 0
    ensures var after, output := AfterLoop(period, s, input), Output(period, s, input);
            && (output.applied.Some? <==> after.mode == RemoteControl || after.mode == Freerunning)
            && (after.mode == RemoteControl ==> output.applied == Some(s.iqReq))
            && (after.mode == Freerunning ==> output.applied == Some(0.0) && after.iqReq == 0.0)
            && after.held == (if output.applied.Some? then output.applied.value else s.held)
  {
  }

  /** A motor that can be driven follows: in a cycle that accepts a usable APPLY_IQ frame,
      with no fault, exactly the current of this frame is set, and the feedback is clean. */
  lemma CycleApplies(id: nat, period: nat, s: State, m: Message, input: LoopInput)
    requires period > 0 && Usable(id, m) && m.action == ApplyIq && !s.status.fault && !input.faulty
    requires s.offsetReached && (s.mode == StayIndex || s.mode == Freerunning || s.mode == RemoteControl)
    ensures var output := Output(period, Received(id, s, Some(m)), input);
            && output.applied == Some(Mine(id, m.commands)[0].iq)
            && output.feedback == Some(Status(false, false))
  {
  }

  /** A device leaves its first mode on the button only, and its second one when its motor
      is initialised only; it does not answer before. */
  lemma StartsInOrder(period: nat, s: State, input: LoopInput)
    requires period > 0 && !input.faulty
    ensures var after, output := AfterLoop(period, s, input), Output(period, s, input);
            && (s.mode == WaitForInput && !input.button ==> after.mode == WaitForInput)
            && (s.mode == WaitForInput && input.button ==> after.mode == if input.initialized then StayIndex else Init)
            && (s.mode == Init ==> after.mode == if input.initialized then StayIndex else Init)
            && (s.mode == StayIndex && !s.offsetReached ==> after.mode == StayIndex)
            && (after.mode == WaitForInput || after.mode == Init || !after.offsetReached ==> output.feedback == None)
  {
  }

  // The index delay

  /** Cycles at the index, among the first n inputs. */
  function AtIndex(inputs: seq<LoopInput>, n: nat): nat
    requires n <= |inputs|
  {
    if n == 0 then 0 else AtIndex(inputs, n - 1) + if inputs[n - 1].atIndex then 1 else 0
  }

  /** The device after n loops; the frames in between do not matter here. */
  function Waited(period: nat, s: State, inputs: seq<LoopInput>, n: nat): State
    requires period > 0 && n <= |inputs|
  {
    if n == 0 then s else AfterLoop(period, Waited(period, s, inputs, n - 1), inputs[n - 1])
  }

  /** A device at the index with a delay of d reaches its offset in exactly the (d + 1)-th
      cycle it spends at the index. */
  lemma {:induction false} OffsetExactlyAfter(period: nat, s: State, inputs: seq<LoopInput>, n: nat)
    requires period > 0 && n <= |inputs| && s.mode == StayIndex && !s.offsetReached && s.status.network
    requires 0 <= s.stayDelay < TWO_32 && AtIndex(inputs, n) <= TWO_32
    requires forall k :: 0 <= k < n ==> !inputs[k].faulty
    ensures var t := Waited(period, s, inputs, n);
            && t.mode == StayIndex && t.status.network
            && t.stayDelay == (s.stayDelay - AtIndex(inputs, n)) % TWO_32
            && (t.offsetReached <==> AtIndex(inputs, n) > s.stayDelay)
  {
    if n > 0 {
      OffsetExactlyAfter(period, s, inputs, n - 1);
      var k := AtIndex(inputs, n - 1);
      if inputs[n - 1].atIndex {
        CountDown(s.stayDelay, k);
      }
    }
  }

  lemma CountDown(delay: int, k: nat)
    requires 0 <= delay < TWO_32 && k < TWO_32
    ensures (delay - k) % TWO_32 == 0 <==> k == delay
    ensures ((delay - k) % TWO_32 - 1) % TWO_32 == (delay - (k + 1)) % TWO_32
  {
  }

  /** Once the motor is initialised, the delay is two seconds in whole cycles per
      millisecond. */
  lemma DelayLoaded(period: nat, s: State, input: LoopInput)
    requires 0 < period <= NSECS_PER_MSEC && NSECS_PER_MSEC % period == 0
    requires s.mode == Init && input.initialized && !input.faulty
    ensures var after := AfterLoop(period, s, input);
            after.mode == StayIndex && !after.offsetReached && after.stayDelay * period == 2_000_000_000
  {
    var q := NSECS_PER_MSEC / period;
    assert q * period == NSECS_PER_MSEC;
    assert 2000 * q * period == 2000 * NSECS_PER_MSEC;
    MulMonotone(1, period, q);
    assert 2000 * q < TWO_32;
  }

  /** One cycle: at most one frame is accepted, then the loop runs. */
  function Received(id: nat, s: State, accepted: Option<Message>): State {
    match accepted
    case None => s
    case Some(m) => AfterReceive(id, s, m)
  }

  /** Remote control, at the point where its current is set. */
  lemma ReadyMeans(r: State, input: LoopInput)
    requires Inv(r.(status := r.status.(network := true)))
    ensures var ready := Ready(r, input);
            && ready.iqReq == r.iqReq && ready.held == r.held && ready.offsetReached == r.offsetReached
            && ready.status.network == r.status.network
            && (ready.mode == RemoteControl ==> r.status.Ok() && ready.status.Ok() && r.action == ApplyIq)
            && (ready.status.fault ==> ready.mode == MotorFault)
            && (ready.mode == MotorFault || ready.mode == WaitForInput || ready.status.fault == r.status.fault == false)
            && (ready.held != 0.0 ==>
                  ready.mode == RemoteControl || ready.mode == Freerunning || ready.mode == MotorFault)
            && (ready.offsetReached ==> ready.mode != WaitForInput && ready.mode != Init)
            && (r.mode == WaitForInput ==> ready.mode == WaitForInput || ready.mode == Init || ready.mode == MotorFault)
  {
  }

  /** What a loop does, given the state a frame (or none) left behind. */
  lemma {:induction false} LoopSafe(period: nat, r: State, input: LoopInput)
    requires period > 0 && Inv(r.(status := r.status.(network := true)))
    ensures var after, output := AfterLoop(period, r, input), Output(period, r, input);
            && Inv(after)
            && (output.applied.Some? && output.applied.value != 0.0 ==>
                  !after.status.fault && r.status.Ok() && r.action == ApplyIq && output.applied == Some(r.iqReq) &&
                  r.mode != WaitForInput)
            && (output.feedback.Some? && output.feedback.value.Ok() ==>
                  !after.status.fault && r.status.Ok() && r.mode != WaitForInput)
            && (after.held != 0.0 ==> output.applied == Some(after.held) || after.mode == MotorFault)
  {
    ReadyMeans(r, input);
  }

  /** One cycle keeps the invariant. A non-zero current, and a feedback without
      error, need a clear fault bit and a usable frame accepted in this very cycle;
      the current is the one of that frame, which must say APPLY_IQ. The motor
      keeps a non-zero current past a cycle only under these conditions, or if it
      is in fault. */
  lemma CycleSafe(id: nat, period: nat, s: State, accepted: Option<Message>, input: LoopInput)
    requires period > 0 && Inv(s)
    ensures var r := Received(id, s, accepted);
            var after, output := AfterLoop(period, r, input), Output(period, r, input);
            && Inv(after)
            && (output.applied.Some? && output.applied.value != 0.0 ==>
                  && !after.status.fault && accepted.Some? && Usable(id, accepted.value)
                  && accepted.value.action == ApplyIq
                  && output.applied == Some(Mine(id, accepted.value.commands)[0].iq))
            && (output.feedback.Some? && output.feedback.value.Ok() ==>
                  !after.status.fault && accepted.Some? && Usable(id, accepted.value))
            && (after.held != 0.0 ==> output.applied == Some(after.held) || after.mode == MotorFault)
  {
    LoopSafe(period, Received(id, s, accepted), input);
  }
}
