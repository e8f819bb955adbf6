/** A run of a controller and one device, on their schedules, up to the cycle in which
    the device applies a non-zero current. */
module NetworkExample {
  import opened Arithmetic
  import opened Wrappers
  import opened CyclicTask
  import opened MotorNetwork
  import Ctl = Controller
  import Dev = IoDevice
  import Phases = StrategyPhases

  const PERIOD: nat := 1_000_000_000
  const ONE_DEVICE := Config(0, Ctl.Config([1], PERIOD), PERIOD)
  const TIMING := Timing(PERIOD, 1)
  const LAST: nat := 6

  type Round = r: nat | r <= LAST

  /** The r-th cycle of either node. */
  function At(r: Round): Time {
    (r + 3) * PERIOD
  }

  // What every round leaves behind

  function CtlAt(r: Round): Ctl.State {
    var s := Ctl.State(Ctl.IoDeviceMissing, 2, [false], false, false, Phases.Strategy(Phases.Reset, 0, 0), [0.0]);
    if r <= 1 then s
    else if r <= 3 then s.(restartDelay := 3 - r)
    else if r == 4 then s.(mode := Ctl.Control, restartDelay := -1)
    else
      var phase := if r == 5 then Phases.Prepare else Phases.Startup;
      s.(mode := Ctl.Control, restartDelay := -1, iq := [1.0], strategy := Phases.Strategy(phase, 0, 0))
  }

  function DevAt(r: Round): Dev.State {
    var s := Dev.State(Dev.StayIndex, Status(false, true), Hold, 0.0, false, 0, 0.0, true);
    if r == 0 then s
    else if r <= 4 then s.(offsetReached := true, stayDelay := 0xffff_ffff)
    else
      var current := if r == 5 then 0.0 else 1.0;
      s.(offsetReached := true, stayDelay := 0xffff_ffff, mode := Dev.RemoteControl, action := ApplyIq,
        iqReq := current, held := current)
  }

  function CommandAt(r: Round): Frame {
    Frame(0, At(r), SetIq(if r < 4 then Hold else ApplyIq, [IqCommand(1, 0, if r < 5 then 0.0 else 1.0)]))
  }

  function FeedbackAt(r: Round): Frame {
    Frame(1, At(r), Feedback(Status(false, false)))
  }

  // The turns

  /** In every round, first the controller hears the feedback of the round before, then
      the device the command of the round before; both lie two events back. */
  function CtlTurn(r: Round): Turn {
    ControllerTurn(At(r), true, [if r < 2 then [] else [2 * r - 1]], CtlInput())
  }

  function CtlInput(): Ctl.LoopInput {
    Ctl.LoopInput(false, Ctl.NoClient, Phases.Ok, [1.0])
  }

  function DevTurn(r: Round): Turn {
    DeviceTurn(0, At(r), true, if r < 1 then [] else [2 * r - 2], DevInput(r))
  }

  function DevInput(r: Round): Dev.LoopInput {
    Dev.LoopInput(r == 0, false, true, r == 1, true)
  }

  // Receiving

  lemma OnePick(log: seq<Event>, k: nat, f: Frame, now: Time, peer: nat)
    requires k < |log| && SentBy(log[k]) == Some(f) && Matches(f, now, PERIOD, peer)
    ensures Heard(ONE_DEVICE, log, true, now, peer, [k]) == Some(f)
  {
    assert [k][1..] == [];
    assert Deliver(log, [k][1..]) == [];
    assert Deliver(log, [k]) == [f];
  }

  lemma OneRoundBack(r: Round)
    requires r > 0
    ensures Sub64(At(r), PERIOD) == At(r - 1)
  {
    Sub64Exact(At(r - 1), PERIOD, At(r));
  }

  // The loops

  lemma CtlStarts()
    ensures Ctl.AfterLoop(ONE_DEVICE.ctl, Ctl.Initial(ONE_DEVICE.ctl, 0), CtlInput()) == CtlAt(0)
    ensures Ctl.CommandMessage([1], Ctl.Decided(ONE_DEVICE.ctl, Ctl.Initial(ONE_DEVICE.ctl, 0), CtlInput())) ==
            CommandAt(0).message
  {
    assert Ctl.Zeros(1) == [0.0] && Ctl.Cleared(1) == [false];
    assert !Ctl.AllTrue([false]) by { assert ![false][0]; }
    assert Ctl.Commands([1], [0.0]) == [IqCommand(1, 0, 0.0)];
  }

  /** From round to round; the device was heard from the third round on. */
  lemma CtlGoesOn(r: Round)
    requires r > 0
    ensures var s := CtlAt(r - 1).(connected := [r >= 2]);
            && |s.iq| == 1
            && Ctl.AfterLoop(ONE_DEVICE.ctl, s, CtlInput()) == CtlAt(r)
            && |Ctl.Decided(ONE_DEVICE.ctl, s, CtlInput()).iq| == 1
            && Ctl.CommandMessage([1], Ctl.Decided(ONE_DEVICE.ctl, s, CtlInput())) == CommandAt(r).message
  {
    assert Ctl.Zeros(1) == [0.0] && Ctl.Cleared(1) == [false];
    assert !Ctl.AllTrue([false]) by { assert ![false][0]; }
    assert Ctl.AllTrue([true]);
    assert Ctl.Commands([1], [0.0]) == [IqCommand(1, 0, 0.0)] && Ctl.Commands([1], [1.0]) == [IqCommand(1, 0, 1.0)];
  }

  /** What the device applies and reports in a round. */
  function OutputAt(r: Round): Dev.LoopOutput {
    Dev.LoopOutput(if r < 5 then None else Some(if r == 5 then 0.0 else 1.0),
      if r == 0 then None else Some(Status(false, false)))
  }

  lemma DevStarts()
    ensures Dev.AfterLoop(PERIOD, Dev.Initial(), DevInput(0)) == DevAt(0)
    ensures Dev.Output(PERIOD, Dev.Initial(), DevInput(0)) == OutputAt(0)
  {
    assert Dev.NSECS_PER_MSEC / PERIOD == 0;
  }

  /** The state behind the command of the round before. */
  function ReceivedAt(r: Round): Dev.State
    requires r > 0
  {
    DevAt(r - 1).(action := if r < 5 then Hold else ApplyIq, iqReq := if r < 6 then 0.0 else 1.0,
                  status := Status(false, false))
  }

  lemma DevReceives(r: Round)
    requires r > 0
    ensures Dev.Received(1, DevAt(r - 1), Some(CommandAt(r - 1).message)) == ReceivedAt(r)
  {
    MineAlone(if r < 6 then 0.0 else 1.0);
  }

  lemma DevGoesOn(r: Round)
    requires r > 0
    ensures Dev.AfterLoop(PERIOD, ReceivedAt(r), DevInput(r)) == DevAt(r)
    ensures Dev.Output(PERIOD, ReceivedAt(r), DevInput(r)) == OutputAt(r)
  {
  }

  lemma MineAlone(iq: real)
    ensures Dev.Mine(1, [IqCommand(1, 0, iq)]) == [IqCommand(1, 0, iq)]
  {
    var c := IqCommand(1, 0, iq);
    assert [c][..0] == [];
    assert Dev.Mine(1, [c][..0]) == [];
  }

  // The rounds

  function CtlBefore(r: Round): Ctl.State {
    if r == 0 then Ctl.Initial(ONE_DEVICE.ctl, 0) else CtlAt(r - 1)
  }

  function DevBefore(r: Round): Dev.State {
    if r == 0 then Dev.Initial() else DevAt(r - 1)
  }

  /** The events of the round before, as far as the next one needs them. */
  ghost predicate SentBefore(log: seq<Event>, r: Round) {
    && |log| == 2 * r
    && (r > 0 ==> SentBy(log[2 * r - 2]) == Some(CommandAt(r - 1)))
    && (r > 1 ==> SentBy(log[2 * r - 1]) == Some(FeedbackAt(r - 1)))
  }

  /** What the network is like before a round. */
  ghost predicate Before(net: Net, r: Round) {
    net.ctl == CtlBefore(r) && net.devs == [DevBefore(r)] && SentBefore(net.log, r)
  }

  lemma ConfigValid()
    ensures ONE_DEVICE.Valid() && TIMING.Valid() && TIMING.Fits() && ONE_DEVICE.transfer == TIMING.Transfer()
  {
  }

  lemma {:induction false} CtlHears(log: seq<Event>, r: Round)
    requires SentBefore(log, r)
    ensures var heard := Heard(ONE_DEVICE, log, true, At(r), 1, if r < 2 then [] else [2 * r - 1]);
            heard == if r < 2 then None else Some(FeedbackAt(r - 1))
  {
    if r >= 2 {
      OneRoundBack(r);
      OnePick(log, 2 * r - 1, FeedbackAt(r - 1), At(r), 1);
    }
  }

  lemma {:induction false} ReceivesOne(s: Ctl.State, heard: seq<Option<Frame>>, r: Round)
    requires s.connected == [false] && heard == [if r < 2 then None else Some(FeedbackAt(r - 1))]
    ensures ReceiveAll([1], s, heard) == s.(connected := [r >= 2])
  {
    assert heard[..0] == [] && ReceiveAll([1], s, heard[..0]) == s;
    assert Ctl.DeviceIndex([1], 1) == 0;
  }

  lemma {:induction false} CtlRound(net: Net, r: Round) returns (e: Event)
    requires Before(net, r) && ONE_DEVICE.Valid() && Sized(ONE_DEVICE, net)
    ensures ValidTurn(ONE_DEVICE, CtlTurn(r)) && SentBy(e) == Some(CommandAt(r))
    ensures Step(ONE_DEVICE, net, CtlTurn(r)) == Net(CtlAt(r), net.devs, net.log + [e])
  {
    var picks := [if r < 2 then [] else [2 * r - 1]];
    var heard := HeardAll(ONE_DEVICE, net.log, true, At(r), picks);
    CtlHears(net.log, r);
    assert heard == [if r < 2 then None else Some(FeedbackAt(r - 1))];
    ReceivesOne(net.ctl, heard, r);
    if r == 0 {
      CtlStarts();
    } else {
      CtlGoesOn(r);
    }
    e := Step(ONE_DEVICE, net, CtlTurn(r)).log[|net.log|];
  }

  lemma {:induction false} DevRound(net: Net, log: seq<Event>, r: Round) returns (e: Event)
    requires ONE_DEVICE.Valid() && Sized(ONE_DEVICE, net) && net.devs == [DevBefore(r)]
    requires SentBefore(log, r) && log <= net.log
    ensures ValidTurn(ONE_DEVICE, DevTurn(r))
    ensures Step(ONE_DEVICE, net, DevTurn(r)) == Net(net.ctl, [DevAt(r)], net.log + [e])
    ensures e.DeviceCycle? && e.applied == OutputAt(r).applied
    ensures r > 0 ==> SentBy(e) == Some(FeedbackAt(r))
  {
    if r == 0 {
      DevStarts();
    } else {
      OneRoundBack(r);
      OnePick(net.log, 2 * r - 2, CommandAt(r - 1), At(r), 0);
      DevReceives(r);
      DevGoesOn(r);
    }
    e := Step(ONE_DEVICE, net, DevTurn(r)).log[|net.log|];
  }

  lemma {:induction false} RoundKeeps(net: Net, r: Round) returns (heard: Net, after: Net, e: Event)
    requires Before(net, r) && ONE_DEVICE.Valid() && Sized(ONE_DEVICE, net)
    ensures ValidTurn(ONE_DEVICE, CtlTurn(r)) && heard == Step(ONE_DEVICE, net, CtlTurn(r))
    ensures ValidTurn(ONE_DEVICE, DevTurn(r)) && after == Step(ONE_DEVICE, heard, DevTurn(r))
    ensures e.DeviceCycle? && e.applied == OutputAt(r).applied && |after.log| == 2 * r + 2 && after.log[2 * r + 1] == e
    ensures r < LAST ==> Before(after, r + 1)
  {
    var command := CtlRound(net, r);
    heard := Step(ONE_DEVICE, net, CtlTurn(r));
    e := DevRound(heard, net.log, r);
    after := Step(ONE_DEVICE, heard, DevTurn(r));
  }

  // The run, as the networks between its turns

  ghost predicate Trace(turns: seq<Turn>, nets: seq<Net>) {
    && |nets| == |turns| + 1 && nets[0] == Start(ONE_DEVICE, 0) && ONE_DEVICE.Valid()
    && forall k {:trigger turns[k]} :: 0 <= k < |turns| ==>
         && ValidTurn(ONE_DEVICE, turns[k]) && Sized(ONE_DEVICE, nets[k])
         && nets[k + 1] == Step(ONE_DEVICE, nets[k], turns[k])
  }

  lemma {:induction false} TraceMore(turns: seq<Turn>, nets: seq<Net>, t: Turn, next: Net)
    requires Trace(turns, nets) && ValidTurn(ONE_DEVICE, t) && Sized(ONE_DEVICE, nets[|turns|])
    requires next == Step(ONE_DEVICE, nets[|turns|], t)
    ensures Trace(turns + [t], nets + [next])
  {
    forall k | 0 <= k <= |turns|
      ensures var more, all := turns + [t], nets + [next];
              && ValidTurn(ONE_DEVICE, more[k]) && Sized(ONE_DEVICE, all[k])
              && all[k + 1] == Step(ONE_DEVICE, all[k], more[k])
    {
      if k < |turns| {
        assert ValidTurn(ONE_DEVICE, turns[k]);
      }
    }
  }

  lemma TraceValid(turns: seq<Turn>, nets: seq<Net>)
    requires Trace(turns, nets)
    ensures ValidTurns(ONE_DEVICE, turns)
  {
  }

  lemma RunPrefix(turns: seq<Turn>, k: nat)
    requires ONE_DEVICE.Valid() && ValidTurns(ONE_DEVICE, turns) && k < |turns|
    ensures ValidTurns(ONE_DEVICE, turns[..k]) && ValidTurns(ONE_DEVICE, turns[..k + 1])
    ensures Run(ONE_DEVICE, 0, turns[..k + 1]) == Step(ONE_DEVICE, Run(ONE_DEVICE, 0, turns[..k]), turns[k])
  {
    assert turns[..k + 1][..k] == turns[..k];
  }

  lemma {:induction false} TraceIsRun(turns: seq<Turn>, nets: seq<Net>, k: nat)
    requires Trace(turns, nets) && ValidTurns(ONE_DEVICE, turns) && k <= |turns|
    ensures Run(ONE_DEVICE, 0, turns[..k]) == nets[k]
  {
    if k > 0 {
      TraceIsRun(turns, nets, k - 1);
      RunPrefix(turns, k - 1);
      assert ValidTurn(ONE_DEVICE, turns[k - 1]);
    }
  }

  /** One round more. */
  lemma {:induction false} TraceGoesOn(turns: seq<Turn>, nets: seq<Net>, r: Round)
    returns (more: seq<Turn>, all: seq<Net>, e: Event)
    requires Trace(turns, nets) && Before(nets[|turns|], r)
    ensures more == turns + [CtlTurn(r)] + [DevTurn(r)] && Trace(more, all)
    ensures e.DeviceCycle? && e.applied == OutputAt(r).applied
    ensures |all[|more|].log| == 2 * r + 2 && all[|more|].log[2 * r + 1] == e
    ensures r < LAST ==> Before(all[|more|], r + 1)
  {
    var heard, after;
    heard, after, e := RoundKeeps(nets[|turns|], r);
    TraceMore(turns, nets, CtlTurn(r), heard);
    TraceMore(turns + [CtlTurn(r)], nets + [heard], DevTurn(r), after);
    more, all := turns + [CtlTurn(r)] + [DevTurn(r)], nets + [heard] + [after];
  }

  lemma StartIsBefore()
    requires ONE_DEVICE.Valid()
    ensures Before(Start(ONE_DEVICE, 0), 0) && Trace([], [Start(ONE_DEVICE, 0)])
  {
  }

  lemma RoundTimes(r: Round)
    ensures At(r) < U64 - TWO_32 && At(r) == CycleTime(TIMING, ControllerRole, PERIOD, r)
    ensures At(r) == CycleTime(TIMING, DeviceRole, 0, r)
  {
  }

  /** The turns are those of the rounds before one. */
  ghost predicate Alternate(turns: seq<Turn>, r: nat) {
    |turns| == 2 * r && forall k :: 0 <= k < |turns| ==> k / 2 <= LAST && turns[k] == TurnAt(k / 2, k % 2 == 0)
  }

  function TurnAt(r: Round, controller: bool): Turn {
    if controller then CtlTurn(r) else DevTurn(r)
  }

  lemma {:induction false} RoundAlternates(turns: seq<Turn>, r: Round)
    requires Alternate(turns, r)
    ensures Alternate(turns + [CtlTurn(r)] + [DevTurn(r)], r + 1)
  {
  }

  /** The controller starts one second after the device. */
  function Slots(n: nat): (slots: seq<Slot>)
    ensures |slots| == n && forall k :: 0 <= k < n ==> slots[k] == Slot(if k % 2 == 0 then PERIOD else 0, k / 2)
  {
    seq(n, k requires 0 <= k => Slot(if k % 2 == 0 then PERIOD else 0, k / 2))
  }

  lemma {:induction false} TurnsOnSchedule(turns: seq<Turn>, r: nat)
    requires Alternate(turns, r)
    ensures Timed(ONE_DEVICE, TIMING, turns) && OnSchedule(TIMING, turns, Slots(|turns|))
  {
    ConfigValid();
    forall k | 0 <= k < |turns|
      ensures turns[k].now < U64 - TWO_32
      ensures turns[k].now == CycleTime(TIMING, RoleOf(turns[k]), Slots(|turns|)[k].start, Slots(|turns|)[k].cycle)
    {
      RoundTimes(k / 2);
    }
  }

  lemma {:induction false} TraceBefore(r: Round) returns (turns: seq<Turn>, nets: seq<Net>)
    requires ONE_DEVICE.Valid()
    ensures Trace(turns, nets) && Before(nets[|turns|], r) && Alternate(turns, r)
  {
    if r == 0 {
      StartIsBefore();
      turns, nets := [], [Start(ONE_DEVICE, 0)];
    } else {
      var earlier, before := TraceBefore(r - 1);
      var e;
      turns, nets, e := TraceGoesOn(earlier, before, r - 1);
      RoundAlternates(earlier, r - 1);
    }
  }

  /** A run on the schedules in whose last cycle the device applies the current that the
      controller asks for. */
  lemma CurrentFlows() returns (turns: seq<Turn>)
    ensures ONE_DEVICE.Valid() && ValidTurns(ONE_DEVICE, turns) && |turns| == 2 * LAST + 2
    ensures Timed(ONE_DEVICE, TIMING, turns) && OnSchedule(TIMING, turns, Slots(|turns|))
    ensures AppliesCurrent(Run(ONE_DEVICE, 0, turns).log, 2 * LAST + 1)
  {
    ConfigValid();
    var earlier, before := TraceBefore(LAST);
    var nets, e;
    turns, nets, e := TraceGoesOn(earlier, before, LAST);
    RoundAlternates(earlier, LAST);
    TurnsOnSchedule(turns, LAST + 1);
    TraceValid(turns, nets);
    TraceIsRun(turns, nets, |turns|);
    assert turns[..|turns|] == turns;
  }
}
