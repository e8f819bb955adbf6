/** From the strategy to the motor: which device gets which of the currents that the
    strategy of a controller asks for. */
module StrategyCurrents {
  import opened CyclicTask
  import opened MotorNetwork
  import opened Wrappers
  import Ctl = Controller
  import Dev = IoDevice

  // One frame

  ghost predicate Distinct(ids: seq<nat>) {
    forall i, j :: 0 <= i < j < |ids| ==> ids[i] != ids[j]
  }

  lemma {:induction false} MineAmong(ids: seq<nat>, iq: seq<real>, n: nat, i: nat)
    requires |ids| == |iq| && n <= |ids| && i < |ids| && Distinct(ids)
    ensures Dev.Mine(ids[i], Ctl.Commands(ids, iq)[..n]) == if i < n then [IqCommand(ids[i], 0, iq[i])] else []
  {
    var commands := Ctl.Commands(ids, iq);
    if n > 0 {
      MineAmong(ids, iq, n - 1, i);
      assert commands[..n][..n - 1] == commands[..n - 1];
    }
  }

  /** Each device finds, in the frame for all of them, exactly its own current. */
  lemma FrameForEach(ids: seq<nat>, iq: seq<real>, i: nat)
    requires |ids| == |iq| && i < |ids| && Distinct(ids)
    ensures Dev.Mine(ids[i], Ctl.Commands(ids, iq)) == [IqCommand(ids[i], 0, iq[i])]
    ensures Dev.Usable(ids[i], SetIq(ApplyIq, Ctl.Commands(ids, iq)))
  {
    MineAmong(ids, iq, |ids|, i);
    assert Ctl.Commands(ids, iq)[..|ids|] == Ctl.Commands(ids, iq);
  }

  /** The commands of a frame are these currents, one for each device. */
  ghost predicate Asks(ids: seq<nat>, m: Message, iq: seq<real>) {
    && m.SetIq? && m.action == ApplyIq && |m.commands| == |ids| == |iq|
    && forall i :: 0 <= i < |ids| ==>
         m.commands[i].device == ids[i] && m.commands[i].motor == 0 && m.commands[i].iq == iq[i]
  }

  /** A frame that carries a current asks for what the strategy of this cycle wrote. */
  lemma ControllerAsks(cfg: Ctl.Config, s: Ctl.State, input: Ctl.LoopInput)
    requires cfg.Valid() && Ctl.WellSized(cfg, s) && |input.iq| == |cfg.ids|
    ensures |Ctl.Decided(cfg, s, input).iq| == |cfg.ids|
    ensures var m := Ctl.CommandMessage(cfg.ids, Ctl.Decided(cfg, s, input));
            Ctl.CarriesCurrent(m) ==> Asks(cfg.ids, m, input.iq)
  {
    Ctl.CurrentOnlyWhenConnected(cfg, s, input);
  }

  // Runs

  /** A controller event that carries a current asks for what the strategy wrote in its turn. */
  ghost predicate AsksAs(ids: seq<nat>, e: Event, t: Turn) {
    e.ControllerCycle? && Ctl.CarriesCurrent(e.command.message) ==>
      t.ControllerTurn? && Asks(ids, e.command.message, t.input.iq)
  }

  /** The event of an untimely turn heard nobody. */
  ghost predicate MissesAs(e: Event, t: Turn) {
    !t.timely ==>
      match e
      case DeviceCycle(_, _, accepted, _, _, _) => accepted == None
      case ControllerCycle(_, heard, _) => forall i :: 0 <= i < |heard| ==> heard[i] == None
  }

  ghost predicate Follows(ids: seq<nat>, e: Event, t: Turn) {
    AsksAs(ids, e, t) && MissesAs(e, t)
  }

  ghost predicate AllFollow(ids: seq<nat>, log: seq<Event>, turns: seq<Turn>) {
    |log| == |turns| && forall k :: 0 <= k < |turns| ==> Follows(ids, log[k], turns[k])
  }

  lemma {:induction false} StepFollows(cfg: Config, net: Net, t: Turn) returns (e: Event)
    requires cfg.Valid() && Sized(cfg, net) && ValidTurn(cfg, t)
    ensures Step(cfg, net, t).log == net.log + [e] && Follows(cfg.ctl.ids, e, t)
  {
    if t.ControllerTurn? {
      var heard := HeardAll(cfg, net.log, t.timely, t.now, t.picks);
      ControllerAsks(cfg.ctl, ReceiveAll(cfg.ctl.ids, net.ctl, heard), t.input);
    }
    var logged := StepLogs(cfg, net, t);
    e := Step(cfg, net, t).log[|net.log|];
    assert e == logged;
  }

  lemma FollowOneMore(ids: seq<nat>, log: seq<Event>, turns: seq<Turn>, e: Event, t: Turn)
    requires AllFollow(ids, log, turns) && Follows(ids, e, t)
    ensures AllFollow(ids, log + [e], turns + [t])
  {
  }

  lemma {:induction false} StepKeepsFollowing(cfg: Config, net: Net, turns: seq<Turn>, t: Turn)
    requires cfg.Valid() && Sized(cfg, net) && ValidTurn(cfg, t) && AllFollow(cfg.ctl.ids, net.log, turns)
    ensures AllFollow(cfg.ctl.ids, Step(cfg, net, t).log, turns + [t])
  {
    var e := StepFollows(cfg, net, t);
    FollowOneMore(cfg.ctl.ids, net.log, turns, e, t);
  }

  /** A run with one more turn is one more step. */
  lemma RunStep(cfg: Config, firstStrategy: nat, turns: seq<Turn>, t: Turn)
    requires cfg.Valid() && ValidTurns(cfg, turns) && ValidTurn(cfg, t)
    ensures ValidTurns(cfg, turns + [t])
    ensures Run(cfg, firstStrategy, turns + [t]) == Step(cfg, Run(cfg, firstStrategy, turns), t)
  {
    assert (turns + [t])[..|turns|] == turns;
  }

  lemma {:induction false} RunFollows(cfg: Config, firstStrategy: nat, turns: seq<Turn>)
    requires cfg.Valid() && ValidTurns(cfg, turns)
    ensures AllFollow(cfg.ctl.ids, Run(cfg, firstStrategy, turns).log, turns)
  {
    if turns != [] {
      var front, last := turns[..|turns| - 1], turns[|turns| - 1];
      assert turns == front + [last];
      RunFollows(cfg, firstStrategy, front);
      StepKeepsFollowing(cfg, Run(cfg, firstStrategy, front), front, last);
      RunStep(cfg, firstStrategy, front, last);
    }
  }

  lemma AskedOne(ids: seq<nat>, m: Message, iq: seq<real>, d: nat)
    requires Asks(ids, m, iq) && Distinct(ids) && d < |ids|
    ensures Dev.Mine(ids[d], m.commands) == [IqCommand(ids[d], 0, iq[d])]
  {
    FrameForEach(ids, iq, d);
    assert m.commands == Ctl.Commands(ids, iq);
  }

  /** In every run: a non-zero current that a device sets is the very one which the strategy
      wrote for this device, in the turn of the controller cycle that sent the command. */
  lemma {:induction false} CurrentIsStrategys(cfg: Config, firstStrategy: nat, turns: seq<Turn>, k: nat)
    returns (j: nat)
    requires cfg.Valid() && ValidTurns(cfg, turns)
    requires AppliesCurrent(Run(cfg, firstStrategy, turns).log, k)
    ensures var log := Run(cfg, firstStrategy, turns).log;
            && j < k < |log| == |turns| && log[k].accepted.Some?
            && CompleteCycle(cfg, log, j, log[k].accepted.value)
            && turns[j].ControllerTurn? && log[k].device < |turns[j].input.iq|
            && log[k].applied == Some(turns[j].input.iq[log[k].device])
  {
    var log := Run(cfg, firstStrategy, turns).log;
    j := EndToEndSafety(cfg, firstStrategy, turns, k);
    RunKeeps(cfg, firstStrategy, turns);
    RunFollows(cfg, firstStrategy, turns);
    assert GoodEvent(cfg, log, k, log[k]);
    var m, d := log[k].accepted.value.message, log[k].device;
    assert Follows(cfg.ctl.ids, log[j], turns[j]);
    AskedOne(cfg.ctl.ids, m, turns[j].input.iq, d);
  }

  /** In every run: an untimely turn hears nobody; so a device sets no current in it, and a
      controller asks for none. */
  lemma {:induction false} UntimelyIsIdle(cfg: Config, firstStrategy: nat, turns: seq<Turn>, k: nat)
    requires cfg.Valid() && ValidTurns(cfg, turns) && k < |turns| && !turns[k].timely
    ensures var log := Run(cfg, firstStrategy, turns).log;
            && |log| == |turns| && !AppliesCurrent(log, k)
            && (log[k].DeviceCycle? ==> log[k].accepted == None)
            && (log[k].ControllerCycle? ==> !Ctl.CarriesCurrent(log[k].command.message))
  {
    var log := Run(cfg, firstStrategy, turns).log;
    RunFollows(cfg, firstStrategy, turns);
    RunKeeps(cfg, firstStrategy, turns);
    assert Follows(cfg.ctl.ids, log[k], turns[k]) && GoodEvent(cfg, log, k, log[k]);
    if log[k].ControllerCycle? && cfg.ctl.ids != [] {
      assert log[k].heard[0] == None;
    }
  }
}
