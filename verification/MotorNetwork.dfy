/** The controller and its I/O devices over a network that drops, delays,
    duplicates and reorders frames but does not forge them: cross-node safety. */
module MotorNetwork {
  import opened Arithmetic
  import opened Wrappers
  import opened CyclicTask
  import Ctl = Controller
  import Dev = IoDevice

  datatype Config = Config(controller: nat, ctl: Ctl.Config, transfer: nat) {
    ghost predicate Valid() {
      ctl.Valid() && controller !in ctl.ids
    }
  }

  /** One finished cycle of a node, as an observer sees it. */
  datatype Event =
    | ControllerCycle(stamp: Time, heard: seq<Option<Frame>>, command: Frame)
    | DeviceCycle(device: nat, stamp: Time, accepted: Option<Frame>, applied: Option<real>,
                  fault: bool, feedback: Option<Frame>)

  datatype Net = Net(ctl: Ctl.State, devs: seq<Dev.State>, log: seq<Event>)

  /** A turn of one node. The network picks, per socket, any frames sent before,
      in any order and number; an untimely turn receives nothing. */
  datatype Turn =
    | ControllerTurn(now: Time, timely: bool, picks: seq<seq<nat>>, input: Ctl.LoopInput)
    | DeviceTurn(device: nat, now: Time, timely: bool, devPicks: seq<nat>, devInput: Dev.LoopInput)

  ghost predicate ValidTurn(cfg: Config, t: Turn) {
    match t
    case ControllerTurn(_, _, picks, input) => |picks| == |cfg.ctl.ids| && |input.iq| == |cfg.ctl.ids|
    case DeviceTurn(device, _, _, _, _) => device < |cfg.ctl.ids|
  }

  function SentBy(e: Event): Option<Frame> {
    match e
    case ControllerCycle(_, _, command) => Some(command)
    case DeviceCycle(_, _, _, _, _, feedback) => feedback
  }

  /** The frames the network delivers for a list of picks. */
  function Deliver(log: seq<Event>, picks: seq<nat>): (frames: seq<Frame>)
    ensures forall f :: f in frames ==> exists j :: 0 <= j < |log| && SentBy(log[j]) == Some(f)
  {
    if picks == [] then []
    else
      var rest := Deliver(log, picks[1..]);
      if picks[0] < |log| && SentBy(log[picks[0]]).Some? then [SentBy(log[picks[0]]).value] + rest else rest
  }

  function Heard(cfg: Config, log: seq<Event>, timely: bool, now: Time, peer: nat, picks: seq<nat>): Option<Frame> {
    if timely then Accepted(Deliver(log, picks), now, cfg.transfer, peer) else None
  }

  /** What a socket accepts was sent earlier by its peer for this very cycle. */
  lemma HeardWasSent(cfg: Config, log: seq<Event>, timely: bool, now: Time, peer: nat, picks: seq<nat>)
    ensures match Heard(cfg, log, timely, now, peer, picks)
            case None => true
            case Some(f) => Matches(f, now, cfg.transfer, peer) && WasSent(log, |log|, f)
  {
    AcceptedMeaning(Deliver(log, picks), now, cfg.transfer, peer);
  }

  ghost predicate WasSent(log: seq<Event>, before: nat, f: Frame) {
    exists j :: 0 <= j < before && j < |log| && SentBy(log[j]) == Some(f)
  }

  // Controller turn

  function HeardAll(cfg: Config, log: seq<Event>, timely: bool, now: Time,
                    picks: seq<seq<nat>>): (heard: seq<Option<Frame>>)
    requires |picks| <= |cfg.ctl.ids|
    ensures |heard| == |picks|
    ensures forall i :: 0 <= i < |picks| ==> heard[i] == Heard(cfg, log, timely, now, cfg.ctl.ids[i], picks[i])
  {
    if picks == [] then []
    else
      var n := |picks| - 1;
      HeardAll(cfg, log, timely, now, picks[..n]) + [Heard(cfg, log, timely, now, cfg.ctl.ids[n], picks[n])]
  }

  function ReceiveAll(ids: seq<nat>, s: Ctl.State, heard: seq<Option<Frame>>): (r: Ctl.State)
    requires |s.connected| == |ids|
    ensures |r.connected| == |ids| && r == s.(connected := r.connected)
  {
    if heard == [] then s
    else
      var before := ReceiveAll(ids, s, heard[..|heard| - 1]);
      match heard[|heard| - 1]
      case None => before
      case Some(f) => Ctl.AfterReceive(ids, before, f.src, f.message)
  }

  predicate GoodFeedback(m: Message) {
    m.Feedback? && m.status.Ok()
  }

  /** A device counts as connected exactly when its own socket heard it without error. */
  lemma {:induction false} ConnectedExactWhen(cfg: Config, s: Ctl.State, heard: seq<Option<Frame>>, i: nat)
    requires cfg.Valid() && |s.connected| == |cfg.ctl.ids| && i < |cfg.ctl.ids| && |heard| <= |cfg.ctl.ids|
    requires forall k :: 0 <= k < |heard| && heard[k].Some? ==> heard[k].value.src == cfg.ctl.ids[k]
    requires !s.connected[i]
    ensures ReceiveAll(cfg.ctl.ids, s, heard).connected[i] <==>
            i < |heard| && heard[i].Some? && GoodFeedback(heard[i].value.message)
    decreases |heard|
  {
    if heard != [] {
      var n := |heard| - 1;
      ConnectedExactWhen(cfg, s, heard[..n], i);
      if heard[n].Some? {
        LastIndex(cfg.ctl.ids, n);
      }
    }
  }

  lemma {:induction false} LastIndex(ids: seq<nat>, n: nat)
    requires n < |ids| && forall i, j :: 0 <= i < j < |ids| ==> ids[i] != ids[j]
    ensures Ctl.DeviceIndex(ids, ids[n]) == n
  {
    var k := Ctl.DeviceIndex(ids, ids[n]);
    assert k >= 0 ==> ids[k] == ids[n];
  }

  function ControllerStep(cfg: Config, net: Net, now: Time, timely: bool, picks: seq<seq<nat>>,
                          input: Ctl.LoopInput): Net
    requires cfg.Valid() && |picks| == |input.iq| == |cfg.ctl.ids| && Ctl.WellSized(cfg.ctl, net.ctl)
  {
    var heard := HeardAll(cfg, net.log, timely, now, picks);
    var s := ReceiveAll(cfg.ctl.ids, net.ctl, heard);
    Ctl.CurrentOnlyWhenConnected(cfg.ctl, s, input);
    var message := Ctl.CommandMessage(cfg.ctl.ids, Ctl.Decided(cfg.ctl, s, input));
    Net(Ctl.AfterLoop(cfg.ctl, s, input), net.devs,
        net.log + [ControllerCycle(now, heard, Frame(cfg.controller, now, message))])
  }

  // Device turn

  function Body(f: Option<Frame>): Option<Message> {
    if f.Some? then Some(f.value.message) else None
  }

  function DeviceStep(cfg: Config, net: Net, d: nat, now: Time, timely: bool, picks: seq<nat>,
                      input: Dev.LoopInput): Net
    requires cfg.Valid() && d < |cfg.ctl.ids| == |net.devs|
  {
    var id := cfg.ctl.ids[d];
    var accepted := Heard(cfg, net.log, timely, now, cfg.controller, picks);
    var s := Dev.Received(id, net.devs[d], Body(accepted));
    var loop := input.(timerOk := timely);
    var after, output := Dev.AfterLoop(cfg.ctl.period, s, loop), Dev.Output(cfg.ctl.period, s, loop);
    var feedback := if output.feedback.Some? then Some(Frame(id, now, Feedback(output.feedback.value))) else None;
    net.(devs := net.devs[d := after],
         log := net.log + [DeviceCycle(d, now, accepted, output.applied, after.status.fault, feedback)])
  }

  ghost predicate Sized(cfg: Config, net: Net) {
    Ctl.WellSized(cfg.ctl, net.ctl) && |net.devs| == |cfg.ctl.ids|
  }

  function Step(cfg: Config, net: Net, t: Turn): (after: Net)
    requires cfg.Valid() && Sized(cfg, net) && ValidTurn(cfg, t)
    ensures Sized(cfg, after)
  {
    match t
    case ControllerTurn(now, timely, picks, input) => ControllerStep(cfg, net, now, timely, picks, input)
    case DeviceTurn(d, now, timely, picks, input) => DeviceStep(cfg, net, d, now, timely, picks, input)
  }

  function Start(cfg: Config, firstStrategy: nat): (net: Net)
    ensures Sized(cfg, net)
  {
    Net(Ctl.Initial(cfg.ctl, firstStrategy), seq(|cfg.ctl.ids|, i => Dev.Initial()), [])
  }

  ghost predicate ValidTurns(cfg: Config, turns: seq<Turn>) {
    forall k :: 0 <= k < |turns| ==> ValidTurn(cfg, turns[k])
  }

  /** The network after any turns of any nodes. */
  function Run(cfg: Config, firstStrategy: nat, turns: seq<Turn>): (net: Net)
    requires cfg.Valid() && ValidTurns(cfg, turns)
    ensures Sized(cfg, net)
  {
    if turns == [] then Start(cfg, firstStrategy)
    else Step(cfg, Run(cfg, firstStrategy, turns[..|turns| - 1]), turns[|turns| - 1])
  }

  // What every event of a run satisfies

  /** The frame of an event carries the id and the time of its node. */
  ghost predicate Stamped(cfg: Config, e: Event) {
    match e
    case ControllerCycle(stamp, _, command) =>
      command.src == cfg.controller && command.stamp == stamp && command.message.SetIq?
    case DeviceCycle(d, stamp, _, _, _, feedback) =>
      d < |cfg.ctl.ids| &&
      (feedback.Some? ==> feedback.value.src == cfg.ctl.ids[d] && feedback.value.stamp == stamp &&
                          feedback.value.message.Feedback?)
  }

  ghost predicate ControllerGood(cfg: Config, log: seq<Event>, k: nat, e: Event) {
    e.ControllerCycle? ==>
      && |e.heard| == |cfg.ctl.ids|
      && (forall i :: 0 <= i < |e.heard| && e.heard[i].Some? ==>
            Matches(e.heard[i].value, e.stamp, cfg.transfer, cfg.ctl.ids[i]) && WasSent(log, k, e.heard[i].value))
      && (Ctl.CarriesCurrent(e.command.message) ==>
            forall i :: 0 <= i < |e.heard| ==> e.heard[i].Some? && GoodFeedback(e.heard[i].value.message))
  }

  ghost predicate DeviceGood(cfg: Config, log: seq<Event>, k: nat, e: Event) {
    e.DeviceCycle? && e.device < |cfg.ctl.ids| ==>
      var id := cfg.ctl.ids[e.device];
      && (e.accepted.Some? ==>
            Matches(e.accepted.value, e.stamp, cfg.transfer, cfg.controller) && WasSent(log, k, e.accepted.value))
      && (e.feedback.Some? && GoodFeedback(e.feedback.value.message) ==>
            !e.fault && e.accepted.Some? && Dev.Usable(id, e.accepted.value.message))
      && (e.applied.Some? && e.applied.value != 0.0 ==>
            && !e.fault && e.accepted.Some? && Dev.Usable(id, e.accepted.value.message)
            && e.accepted.value.message.action == ApplyIq
            && Dev.Mine(id, e.accepted.value.message.commands)[0].iq == e.applied.value)
  }

  ghost predicate GoodEvent(cfg: Config, log: seq<Event>, k: nat, e: Event) {
    Stamped(cfg, e) && ControllerGood(cfg, log, k, e) && DeviceGood(cfg, log, k, e)
  }

  ghost predicate GoodLog(cfg: Config, log: seq<Event>) {
    forall k :: 0 <= k < |log| ==> GoodEvent(cfg, log, k, log[k])
  }

  ghost predicate Inv(cfg: Config, net: Net) {
    && Sized(cfg, net) && GoodLog(cfg, net.log)
    && net.ctl.connected == Ctl.Cleared(|cfg.ctl.ids|)
    && forall d :: 0 <= d < |net.devs| ==> Dev.Inv(net.devs[d])
  }

  lemma WasSentStays(log: seq<Event>, e: Event, before: nat, f: Frame)
    requires before <= |log| && WasSent(log, before, f)
    ensures WasSent(log + [e], before, f)
  {
    var j :| 0 <= j < before && SentBy(log[j]) == Some(f);
    assert (log + [e])[j] == log[j];
  }

  lemma GoodEventStays(cfg: Config, log: seq<Event>, k: nat, e: Event, last: Event)
    requires k <= |log| && GoodEvent(cfg, log, k, e)
    ensures GoodEvent(cfg, log + [last], k, e)
  {
    if e.ControllerCycle? {
      forall i | 0 <= i < |e.heard| && e.heard[i].Some?
        ensures WasSent(log + [last], k, e.heard[i].value)
      {
        WasSentStays(log, last, k, e.heard[i].value);
      }
    } else if e.accepted.Some? {
      WasSentStays(log, last, k, e.accepted.value);
    }
  }

  lemma LogGrows(cfg: Config, log: seq<Event>, e: Event)
    requires GoodLog(cfg, log) && GoodEvent(cfg, log, |log|, e)
    ensures GoodLog(cfg, log + [e])
  {
    forall k | 0 <= k <= |log|
      ensures GoodEvent(cfg, log + [e], k, (log + [e])[k])
    {
      GoodEventStays(cfg, log, k, if k < |log| then log[k] else e, e);
    }
  }

  lemma {:induction false} ControllerStepKeeps(cfg: Config, net: Net, now: Time, timely: bool, picks: seq<seq<nat>>,
                                               input: Ctl.LoopInput)
    requires cfg.Valid() && Inv(cfg, net) && |picks| == |input.iq| == |cfg.ctl.ids|
    ensures Inv(cfg, ControllerStep(cfg, net, now, timely, picks, input))
  {
    var heard := HeardAll(cfg, net.log, timely, now, picks);
    var s := ReceiveAll(cfg.ctl.ids, net.ctl, heard);
    forall i | 0 <= i < |picks|
      ensures heard[i].Some? ==>
                Matches(heard[i].value, now, cfg.transfer, cfg.ctl.ids[i]) &&
                  WasSent(net.log, |net.log|, heard[i].value)
      ensures s.connected[i] ==> heard[i].Some? && GoodFeedback(heard[i].value.message)
    {
      HeardWasSent(cfg, net.log, timely, now, cfg.ctl.ids[i], picks[i]);
      if s.connected[i] {
        HeardFromPeers(cfg, net.log, timely, now, picks);
        ConnectedExactWhen(cfg, net.ctl, heard, i);
      }
    }
    Ctl.CurrentOnlyWhenConnected(cfg.ctl, s, input);
    var after := ControllerStep(cfg, net, now, timely, picks, input);
    LogGrows(cfg, net.log, after.log[|net.log|]);
  }

  lemma HeardFromPeers(cfg: Config, log: seq<Event>, timely: bool, now: Time, picks: seq<seq<nat>>)
    requires |picks| <= |cfg.ctl.ids|
    ensures var heard := HeardAll(cfg, log, timely, now, picks);
            forall k :: 0 <= k < |heard| && heard[k].Some? ==> heard[k].value.src == cfg.ctl.ids[k]
  {
    forall k | 0 <= k < |picks|
      ensures var h := Heard(cfg, log, timely, now, cfg.ctl.ids[k], picks[k]); h.Some? ==> h.value.src == cfg.ctl.ids[k]
    {
      HeardWasSent(cfg, log, timely, now, cfg.ctl.ids[k], picks[k]);
    }
  }

  lemma {:induction false} DeviceStepKeeps(cfg: Config, net: Net, d: nat, now: Time, timely: bool, picks: seq<nat>,
                                           input: Dev.LoopInput)
    requires cfg.Valid() && Inv(cfg, net) && d < |cfg.ctl.ids|
    ensures Inv(cfg, DeviceStep(cfg, net, d, now, timely, picks, input))
  {
    var accepted := Heard(cfg, net.log, timely, now, cfg.controller, picks);
    HeardWasSent(cfg, net.log, timely, now, cfg.controller, picks);
    Dev.CycleSafe(cfg.ctl.ids[d], cfg.ctl.period, net.devs[d], Body(accepted), input.(timerOk := timely));
    var after := DeviceStep(cfg, net, d, now, timely, picks, input);
    LogGrows(cfg, net.log, after.log[|net.log|]);
  }

  lemma {:induction false} RunKeeps(cfg: Config, firstStrategy: nat, turns: seq<Turn>)
    requires cfg.Valid() && ValidTurns(cfg, turns)
    ensures Inv(cfg, Run(cfg, firstStrategy, turns))
  {
    if turns != [] {
      var front := turns[..|turns| - 1];
      RunKeeps(cfg, firstStrategy, front);
      var net := Run(cfg, firstStrategy, front);
      match turns[|turns| - 1]
      case ControllerTurn(now, timely, picks, input) => ControllerStepKeeps(cfg, net, now, timely, picks, input);
      case DeviceTurn(d, now, timely, picks, input) => DeviceStepKeeps(cfg, net, d, now, timely, picks, input);
    }
  }

  // The theorem

  /** Event m is a cycle of device i, stamped at the transfer time before now, that
      sent this feedback without error: its fault bit was clear, and it had accepted
      a usable controller frame one transfer time older. */
  ghost predicate HealthyCycle(cfg: Config, log: seq<Event>, m: nat, i: nat, g: Frame)
    requires i < |cfg.ctl.ids|
  {
    && m < |log| && log[m].DeviceCycle? && log[m].device == i && log[m].feedback == Some(g)
    && GoodFeedback(g.message) && !log[m].fault && g.stamp == log[m].stamp
    && log[m].accepted.Some? && Dev.Usable(cfg.ctl.ids[i], log[m].accepted.value.message)
    && Matches(log[m].accepted.value, log[m].stamp, cfg.transfer, cfg.controller)
  }

  /** Event j is a controller cycle that sent f after it heard every device, in the
      same cycle, through a healthy cycle of that device. */
  ghost predicate CompleteCycle(cfg: Config, log: seq<Event>, j: nat, f: Frame) {
    && j < |log| && log[j].ControllerCycle? && log[j].command == f && f.stamp == log[j].stamp
    && |log[j].heard| == |cfg.ctl.ids|
    && forall i :: 0 <= i < |cfg.ctl.ids| ==> HeardHealthy(cfg, log, j, i)
  }

  ghost predicate HeardHealthy(cfg: Config, log: seq<Event>, j: nat, i: nat)
    requires i < |cfg.ctl.ids| && j < |log| && log[j].ControllerCycle? && |log[j].heard| == |cfg.ctl.ids|
  {
    && log[j].heard[i].Some?
    && Matches(log[j].heard[i].value, log[j].stamp, cfg.transfer, cfg.ctl.ids[i])
    && exists m :: 0 <= m < j && HealthyCycle(cfg, log, m, i, log[j].heard[i].value)
  }

  lemma HealthySource(cfg: Config, log: seq<Event>, j: nat, i: nat)
    requires cfg.Valid() && GoodLog(cfg, log) && j < |log| && log[j].ControllerCycle? && |log[j].heard| == |cfg.ctl.ids|
    requires i < |cfg.ctl.ids| && log[j].heard[i].Some? && GoodFeedback(log[j].heard[i].value.message)
    ensures HeardHealthy(cfg, log, j, i)
  {
    var g := log[j].heard[i].value;
    assert GoodEvent(cfg, log, j, log[j]);
    var m :| 0 <= m < j && SentBy(log[m]) == Some(g);
    assert GoodEvent(cfg, log, m, log[m]);
    assert HealthyCycle(cfg, log, m, i, g);
  }

  lemma CompleteSource(cfg: Config, log: seq<Event>, k: nat, f: Frame) returns (j: nat)
    requires cfg.Valid() && GoodLog(cfg, log) && k <= |log| && WasSent(log, k, f)
    requires f.src == cfg.controller && Ctl.CarriesCurrent(f.message)
    ensures j < k && CompleteCycle(cfg, log, j, f)
  {
    j :| 0 <= j < k && SentBy(log[j]) == Some(f);
    assert GoodEvent(cfg, log, j, log[j]);
    forall i | 0 <= i < |cfg.ctl.ids|
      ensures HeardHealthy(cfg, log, j, i)
    {
      HealthySource(cfg, log, j, i);
    }
  }

  /** Event k is a device cycle that sets a non-zero current. */
  ghost predicate AppliesCurrent(log: seq<Event>, k: nat) {
    k < |log| && log[k].DeviceCycle? && log[k].applied.Some? && log[k].applied.value != 0.0
  }

  /** In every run, a device sets a non-zero current only if its fault bit is clear
      and, in that very cycle, it accepted a controller frame stamped one transfer
      time earlier that says APPLY_IQ and carries this current for it; the
      controller cycle that sent the frame had heard every device, each through a
      healthy cycle stamped one more transfer time earlier. */
  lemma {:induction false} EndToEndSafety(cfg: Config, firstStrategy: nat, turns: seq<Turn>, k: nat) returns (j: nat)
    requires cfg.Valid() && ValidTurns(cfg, turns)
    requires AppliesCurrent(Run(cfg, firstStrategy, turns).log, k)
    ensures var log := Run(cfg, firstStrategy, turns).log;
            var e := log[k];
            && !e.fault && e.accepted.Some? && e.device < |cfg.ctl.ids|
            && Matches(e.accepted.value, e.stamp, cfg.transfer, cfg.controller)
            && e.accepted.value.message.SetIq? && e.accepted.value.message.action == ApplyIq
            && IqCommand(cfg.ctl.ids[e.device], 0, e.applied.value) in e.accepted.value.message.commands
            && j < k && CompleteCycle(cfg, log, j, e.accepted.value)
  {
    var log := Run(cfg, firstStrategy, turns).log;
    RunKeeps(cfg, firstStrategy, turns);
    assert GoodEvent(cfg, log, k, log[k]);
    var f := log[k].accepted.value;
    MineAddressed(cfg.ctl.ids[log[k].device], f.message.commands);
    var c := Dev.Mine(cfg.ctl.ids[log[k].device], f.message.commands)[0];
    assert c in f.message.commands;
    j := CompleteSource(cfg, log, k, f);
  }

  lemma {:induction false} MineAddressed(id: nat, commands: seq<IqCommand>)
    ensures forall c :: c in Dev.Mine(id, commands) ==> c in commands && c.device == id && c.motor == 0
  {
    if commands != [] {
      MineAddressed(id, commands[..|commands| - 1]);
    }
  }

  // The theorem with times

  function RoleOf(t: Turn): Role {
    if t.ControllerTurn? then ControllerRole else DeviceRole
  }

  /** The transfer time of the network, and clocks that are not at the end of their
      range. */
  ghost predicate Timed(cfg: Config, timing: Timing, turns: seq<Turn>) {
    && timing.Valid() && timing.Fits() && cfg.transfer == timing.Transfer()
    && forall k :: 0 <= k < |turns| ==> turns[k].now < U64 - TWO_32
  }

  ghost predicate LoggedAs(e: Event, t: Turn) {
    e.stamp == t.now && (e.ControllerCycle? <==> t.ControllerTurn?) && (e.DeviceCycle? ==> e.device == t.device)
  }

  lemma {:induction false} StepLogs(cfg: Config, net: Net, t: Turn) returns (e: Event)
    requires cfg.Valid() && Sized(cfg, net) && ValidTurn(cfg, t)
    ensures Step(cfg, net, t).log == net.log + [e] && LoggedAs(e, t)
  {
    e := Step(cfg, net, t).log[|net.log|];
  }

  ghost predicate LoggedAll(log: seq<Event>, turns: seq<Turn>) {
    |log| == |turns| && forall k :: 0 <= k < |turns| ==> LoggedAs(log[k], turns[k])
  }

  lemma LoggedOneMore(log: seq<Event>, turns: seq<Turn>, e: Event, t: Turn)
    requires LoggedAll(log, turns) && LoggedAs(e, t)
    ensures LoggedAll(log + [e], turns + [t])
  {
  }

  lemma {:induction false} LogOfTurns(cfg: Config, firstStrategy: nat, turns: seq<Turn>)
    requires cfg.Valid() && ValidTurns(cfg, turns)
    ensures LoggedAll(Run(cfg, firstStrategy, turns).log, turns)
  {
    if turns != [] {
      var front, last := turns[..|turns| - 1], turns[|turns| - 1];
      var net := Run(cfg, firstStrategy, front);
      LogOfTurns(cfg, firstStrategy, front);
      var e := StepLogs(cfg, net, last);
      LoggedOneMore(net.log, front, e, last);
      assert turns == front + [last];
    }
  }

  /** What a controller cycle heard is one transfer time older than itself. */
  lemma {:induction false} HeardOnTime(cfg: Config, log: seq<Event>, j: nat, i: nat)
    requires i < |cfg.ctl.ids| && j < |log| && log[j].ControllerCycle? && |log[j].heard| == |cfg.ctl.ids|
    requires HeardHealthy(cfg, log, j, i) && cfg.transfer < TWO_32
    requires forall k :: 0 <= k < |log| ==> log[k].stamp < U64 - TWO_32
    ensures HeardBefore(cfg, log, j, i, log[j].stamp - cfg.transfer)
  {
    var m :| 0 <= m < j && HealthyCycle(cfg, log, m, i, log[j].heard[i].value);
    Sub64Exact(log[m].stamp, cfg.transfer, log[j].stamp);
  }

  /** In every run: the command behind a non-zero current was sent exactly one transfer
      time before the cycle that applies it, by a controller cycle that had heard every
      device, each through a healthy cycle exactly offset + 1 periods before the one that
      applies it. */
  lemma {:induction false} TimedSafety(cfg: Config, timing: Timing, firstStrategy: nat, turns: seq<Turn>, k: nat)
    returns (j: nat, before: int)
    requires cfg.Valid() && ValidTurns(cfg, turns) && Timed(cfg, timing, turns)
    requires AppliesCurrent(Run(cfg, firstStrategy, turns).log, k)
    ensures var log := Run(cfg, firstStrategy, turns).log;
            && j < k && log[k].accepted.Some? && CompleteCycle(cfg, log, j, log[k].accepted.value)
            && log[j].stamp + timing.Transfer() == log[k].stamp
            && before + (timing.offset + 1) * timing.period == log[k].stamp
            && forall i :: 0 <= i < |cfg.ctl.ids| ==> HeardBefore(cfg, log, j, i, before)
  {
    var log := Run(cfg, firstStrategy, turns).log;
    LogOfTurns(cfg, firstStrategy, turns);
    StampsInRange(cfg, timing, turns, log);
    RoundTripExactWhen(timing);
    j := EndToEndSafety(cfg, firstStrategy, turns, k);
    Sub64Exact(log[j].stamp, cfg.transfer, log[k].stamp);
    before := log[j].stamp - cfg.transfer;
    forall i | 0 <= i < |cfg.ctl.ids|
      ensures HeardBefore(cfg, log, j, i, before)
    {
      assert HeardHealthy(cfg, log, j, i);
      HeardOnTime(cfg, log, j, i);
    }
  }

  lemma StampsInRange(cfg: Config, timing: Timing, turns: seq<Turn>, log: seq<Event>)
    requires Timed(cfg, timing, turns) && LoggedAll(log, turns)
    ensures cfg.transfer < TWO_32 && forall k :: 0 <= k < |log| ==> log[k].stamp < U64 - TWO_32
  {
    forall k | 0 <= k < |log|
      ensures log[k].stamp < U64 - TWO_32
    {
      assert LoggedAs(log[k], turns[k]);
    }
  }

  /** Event j heard device i through a healthy cycle at this time. */
  ghost predicate HeardBefore(cfg: Config, log: seq<Event>, j: nat, i: nat, time: int)
    requires i < |cfg.ctl.ids| && j < |log| && log[j].ControllerCycle? && |log[j].heard| == |cfg.ctl.ids|
  {
    exists m :: 0 <= m < j && log[j].heard[i].Some? && HealthyCycle(cfg, log, m, i, log[j].heard[i].value) &&
      log[m].stamp == time
  }

  // The theorem on the schedules

  /** A cycle of a node, counted from a start of its task. */
  datatype Slot = Slot(start: nat, cycle: nat)

  /** Every turn falls on the cycle of its node that is given for it. */
  ghost predicate OnSchedule(timing: Timing, turns: seq<Turn>, slots: seq<Slot>) {
    && |slots| == |turns| && timing.period > 0
    && forall k :: 0 <= k < |turns| ==>
         turns[k].now == CycleTime(timing, RoleOf(turns[k]), slots[k].start, slots[k].cycle)
  }

  /** Controller cycle j heard device d through the one cycle of that device which lies
      offset + 1 cycles back, counted from the starts of the two nodes. */
  ghost predicate HeardInSlot(cfg: Config, timing: Timing, log: seq<Event>, slots: seq<Slot>, j: nat, d: nat)
    requires d < |cfg.ctl.ids| && j < |log| == |slots| && timing.period > 0
  {
    exists m :: 0 <= m < j && log[j].ControllerCycle? && |log[j].heard| == |cfg.ctl.ids| && log[j].heard[d].Some? &&
      HealthyCycle(cfg, log, m, d, log[j].heard[d].value) &&
      slots[j].cycle ==
      slots[m].cycle - CyclesBetween(timing, slots[m].start, slots[j].start) + timing.offset + 1
  }

  lemma SlotStamp(timing: Timing, turns: seq<Turn>, slots: seq<Slot>, log: seq<Event>, k: nat, role: Role)
    requires OnSchedule(timing, turns, slots) && LoggedAll(log, turns) && k < |log|
    requires log[k].ControllerCycle? <==> role == ControllerRole
    ensures log[k].stamp == CycleTime(timing, role, slots[k].start, slots[k].cycle)
  {
    assert LoggedAs(log[k], turns[k]);
  }

  lemma {:induction false} HeardOnSchedule(cfg: Config, timing: Timing, turns: seq<Turn>, slots: seq<Slot>,
                                           log: seq<Event>, j: nat, d: nat)
    requires Timed(cfg, timing, turns) && OnSchedule(timing, turns, slots) && LoggedAll(log, turns)
    requires d < |cfg.ctl.ids| && j < |log| && log[j].ControllerCycle? && |log[j].heard| == |cfg.ctl.ids|
    requires HeardHealthy(cfg, log, j, d)
    ensures HeardInSlot(cfg, timing, log, slots, j, d)
  {
    StampsInRange(cfg, timing, turns, log);
    var m :| 0 <= m < j && HealthyCycle(cfg, log, m, d, log[j].heard[d].value);
    SlotStamp(timing, turns, slots, log, m, DeviceRole);
    SlotStamp(timing, turns, slots, log, j, ControllerRole);
    ControllerMeets(timing, slots[j].start, slots[m].start, slots[m].cycle, slots[j].cycle);
  }

  /** In every run on the schedules, with any restarts of any node: the command behind a
      non-zero current was sent in the one controller cycle that belongs to the cycle
      that applies it, counted from their starts; and what that cycle heard of every
      device belongs to it likewise, offset + 1 cycles back. */
  lemma {:induction false} SafetyOnSchedule(cfg: Config, timing: Timing, firstStrategy: nat, turns: seq<Turn>,
                                            slots: seq<Slot>, k: nat) returns (j: nat)
    requires cfg.Valid() && ValidTurns(cfg, turns) && Timed(cfg, timing, turns) && OnSchedule(timing, turns, slots)
    requires AppliesCurrent(Run(cfg, firstStrategy, turns).log, k)
    ensures var log := Run(cfg, firstStrategy, turns).log;
            && j < k < |slots| == |log| && log[k].accepted.Some?
            && CompleteCycle(cfg, log, j, log[k].accepted.value)
            && slots[k].cycle == slots[j].cycle + CyclesBetween(timing, slots[k].start, slots[j].start)
            && forall d :: 0 <= d < |cfg.ctl.ids| ==> HeardInSlot(cfg, timing, log, slots, j, d)
  {
    var log := Run(cfg, firstStrategy, turns).log;
    LogOfTurns(cfg, firstStrategy, turns);
    StampsInRange(cfg, timing, turns, log);
    j := EndToEndSafety(cfg, firstStrategy, turns, k);
    SlotStamp(timing, turns, slots, log, j, ControllerRole);
    SlotStamp(timing, turns, slots, log, k, DeviceRole);
    DeviceMeets(timing, slots[j].start, slots[k].start, slots[j].cycle, slots[k].cycle);
    forall d | 0 <= d < |cfg.ctl.ids|
      ensures HeardInSlot(cfg, timing, log, slots, j, d)
    {
      assert HeardHealthy(cfg, log, j, d);
      HeardOnSchedule(cfg, timing, turns, slots, log, j, d);
    }
  }

  // Faults over runs

  /** A turn of device d with a faulty motor. */
  predicate FaultyTurn(t: Turn, d: nat) {
    t.DeviceTurn? && t.device == d && t.devInput.faulty
  }

  ghost predicate WasFaulty(turns: seq<Turn>, n: nat, d: nat)
    requires n <= |turns|
  {
    exists k :: 0 <= k < n && FaultyTurn(turns[k], d)
  }

  lemma {:induction false} StepFaults(cfg: Config, net: Net, t: Turn, d: nat) returns (e: Event)
    requires cfg.Valid() && Sized(cfg, net) && ValidTurn(cfg, t) && d < |net.devs| && cfg.ctl.period > 0
    ensures Step(cfg, net, t).log == net.log + [e] && LoggedAs(e, t)
    ensures Step(cfg, net, t).devs[d].status.fault <==> net.devs[d].status.fault || FaultyTurn(t, d)
    ensures e.DeviceCycle? && e.device == d ==> e.fault == Step(cfg, net, t).devs[d].status.fault
  {
    if t.DeviceTurn? && t.device == d {
      var accepted := Heard(cfg, net.log, t.timely, t.now, cfg.controller, t.devPicks);
      var s := Dev.Received(cfg.ctl.ids[d], net.devs[d], Body(accepted));
      Dev.FaultStops(cfg.ctl.period, s, t.devInput.(timerOk := t.timely));
      assert s.status.fault == net.devs[d].status.fault;
    }
    var logged := StepLogs(cfg, net, t);
    e := Step(cfg, net, t).log[|net.log|];
    assert e == logged;
  }

  lemma WasFaultyMore(turns: seq<Turn>, t: Turn, d: nat)
    ensures WasFaulty(turns + [t], |turns| + 1, d) <==> WasFaulty(turns, |turns|, d) || FaultyTurn(t, d)
    ensures forall n :: 0 <= n <= |turns| ==> (WasFaulty(turns + [t], n, d) <==> WasFaulty(turns, n, d))
  {
    var more := turns + [t];
    assert forall k :: 0 <= k < |turns| ==> more[k] == turns[k];
    if FaultyTurn(t, d) {
      assert FaultyTurn(more[|turns|], d);
    }
  }

  /** Event k of a run, if it is a cycle of device d, carries the fault exactly when some
      turn of this device up to it found its motor faulty. */
  ghost predicate FaultTold(log: seq<Event>, turns: seq<Turn>, k: nat, d: nat)
    requires k < |log| == |turns|
  {
    log[k].DeviceCycle? && log[k].device == d ==> (log[k].fault <==> WasFaulty(turns, k + 1, d))
  }

  ghost predicate AllTold(log: seq<Event>, turns: seq<Turn>, d: nat) {
    |log| == |turns| && forall k :: 0 <= k < |turns| ==> FaultTold(log, turns, k, d)
  }

  lemma ToldOneMore(log: seq<Event>, turns: seq<Turn>, e: Event, t: Turn, d: nat)
    requires AllTold(log, turns, d)
    requires e.DeviceCycle? && e.device == d ==> (e.fault <==> WasFaulty(turns, |turns|, d) || FaultyTurn(t, d))
    ensures AllTold(log + [e], turns + [t], d)
  {
    WasFaultyMore(turns, t, d);
    forall k | 0 <= k <= |turns|
      ensures FaultTold(log + [e], turns + [t], k, d)
    {
      assert k < |turns| ==> FaultTold(log, turns, k, d);
    }
  }

  /** The fault bit of a device, and all its events, tell of its faulty turns. */
  ghost predicate Tells(net: Net, turns: seq<Turn>, d: nat) {
    && d < |net.devs| && AllTold(net.log, turns, d)
    && (net.devs[d].status.fault <==> WasFaulty(turns, |turns|, d))
  }

  lemma {:induction false} StepTells(cfg: Config, net: Net, turns: seq<Turn>, t: Turn, d: nat)
    requires cfg.Valid() && Sized(cfg, net) && ValidTurn(cfg, t) && Tells(net, turns, d)
    ensures Tells(Step(cfg, net, t), turns + [t], d)
  {
    var e := StepFaults(cfg, net, t, d);
    WasFaultyMore(turns, t, d);
    ToldOneMore(net.log, turns, e, t, d);
  }

  lemma {:induction false} FaultsAreTold(cfg: Config, firstStrategy: nat, turns: seq<Turn>, d: nat)
    requires cfg.Valid() && ValidTurns(cfg, turns) && d < |cfg.ctl.ids|
    ensures Tells(Run(cfg, firstStrategy, turns), turns, d)
  {
    if turns != [] {
      var front, last := turns[..|turns| - 1], turns[|turns| - 1];
      FaultsAreTold(cfg, firstStrategy, front, d);
      StepTells(cfg, Run(cfg, firstStrategy, front), front, last, d);
      assert turns == front + [last];
    }
  }

  /** In every run: from the first turn that finds the motor of a device faulty, this device
      never sets a non-zero current again, and no feedback of it is without error. */
  lemma {:induction false} NoCurrentAfterFault(cfg: Config, firstStrategy: nat, turns: seq<Turn>, i: nat, k: nat,
                                               d: nat)
    requires cfg.Valid() && ValidTurns(cfg, turns) && i <= k < |turns| && d < |cfg.ctl.ids| && FaultyTurn(turns[i], d)
    ensures var log := Run(cfg, firstStrategy, turns).log;
            && |log| == |turns|
            && (log[k].DeviceCycle? && log[k].device == d ==>
                  && log[k].fault && !AppliesCurrent(log, k)
                  && (log[k].feedback.Some? ==> !GoodFeedback(log[k].feedback.value.message)))
  {
    var log := Run(cfg, firstStrategy, turns).log;
    FaultsAreTold(cfg, firstStrategy, turns, d);
    RunKeeps(cfg, firstStrategy, turns);
    assert FaultTold(log, turns, k, d);
    assert GoodEvent(cfg, log, k, log[k]);
  }
}
