/** The motor controller: its state machine over connected devices, the strategy
    it drives, and the command frame it sends every cycle. */
module Controller {
  import opened CyclicTask
  import opened StrategyPhases

  datatype Mode = Control | IoDeviceMissing | Standby

  const RESTART_DELAY_NS: nat := 2_000_000_000

  /** What the command client asks for; NoClient when none is configured. */
  datatype Client = NoClient | ClientStop | ClientGo | ClientIdle

  /** Inputs of one loop: a button event, the client state, and what the strategy
      phase called in this loop returns and writes as currents. */
  datatype LoopInput = LoopInput(button: bool, client: Client, rc: ReturnCode, iq: seq<real>)

  datatype Config = Config(ids: seq<nat>, period: nat) {
    ghost predicate Valid() {
      && period > 0
      && forall i, j :: 0 <= i < j < |ids| ==> ids[i] != ids[j]
    }

    function RestartDelay(): int
      requires period > 0
    {
      RESTART_DELAY_NS / period
    }
  }

  datatype State = State(mode: Mode, restartDelay: int, connected: seq<bool>, stopped: bool,
                         controlError: bool, strategy: Strategy, iq: seq<real>)

  predicate AllTrue(flags: seq<bool>) {
    forall i :: 0 <= i < |flags| ==> flags[i]
  }

  function Zeros(n: nat): seq<real> {
    seq(n, i => 0.0)
  }

  function Cleared(n: nat): seq<bool> {
    seq(n, i => false)
  }

  // Specification of one loop

  function Button(s: State, input: LoopInput): State {
    if input.button && !s.stopped then s.(strategy := s.strategy.NextStrategy()) else s
  }

  function ClientRequest(s: State, input: LoopInput): State {
    if input.client == ClientStop && !s.stopped then
      s.(stopped := true, strategy := s.strategy.SetStrategy(STRATEGY_STOP))
    else if input.client == ClientGo && s.stopped then
      s.(stopped := false, strategy := s.strategy.PreviousStrategy())
    else s
  }

  /** The strategy phase in progress is called once. */
  function CallStrategy(s: State, input: LoopInput): State {
    var called := s.(strategy := s.strategy.Called(input.rc), iq := input.iq);
    if s.controlError || input.rc == Error then called.(controlError := false, mode := Standby) else called
  }

  function InControl(cfg: Config, s: State, input: LoopInput): State
    requires cfg.period > 0
  {
    var pressed := Button(s, input);
    if !AllTrue(s.connected) then pressed.(mode := IoDeviceMissing, restartDelay := cfg.RestartDelay())
    else CallStrategy(ClientRequest(pressed, input), input)
  }

  function InMissing(cfg: Config, s: State, input: LoopInput): State
    requires cfg.period > 0
  {
    var pressed := Button(s, input);
    if !AllTrue(s.connected) then pressed.(restartDelay := cfg.RestartDelay())
    else if s.restartDelay == 0 then
      pressed.(restartDelay := -1, strategy := pressed.strategy.ResetStrategy(), mode := Control)
    else pressed.(restartDelay := s.restartDelay - 1)
  }

  function InStandby(s: State, input: LoopInput): State {
    if input.button then s.(strategy := s.strategy.ResetStrategy(), mode := Control) else s
  }

  function RunMode(cfg: Config, s: State, input: LoopInput): State
    requires cfg.period > 0
  {
    match s.mode
    case Control => InControl(cfg, s, input)
    case IoDeviceMissing => InMissing(cfg, s, input)
    case Standby => InStandby(s, input)
  }

  function Commands(ids: seq<nat>, iq: seq<real>): seq<IqCommand>
    requires |ids| == |iq|
  {
    seq(|ids|, i requires 0 <= i < |ids| => IqCommand(ids[i], 0, iq[i]))
  }

  function CommandMessage(ids: seq<nat>, s: State): Message
    requires |ids| == |s.iq|
  {
    SetIq(if s.mode == IoDeviceMissing then Hold else ApplyIq, Commands(ids, s.iq))
  }

  /** State before the frame of this loop is built. */
  function Decided(cfg: Config, s: State, input: LoopInput): State
    requires cfg.period > 0
  {
    RunMode(cfg, s.(iq := Zeros(|cfg.ids|)), input)
  }

  function AfterLoop(cfg: Config, s: State, input: LoopInput): State
    requires cfg.period > 0
  {
    Decided(cfg, s, input).(connected := Cleared(|cfg.ids|))
  }

  ghost predicate WellSized(cfg: Config, s: State) {
    |s.connected| == |cfg.ids| && |s.iq| == |cfg.ids|
  }

  /** The last device with this id, as the search loop finds it. */
  function DeviceIndex(ids: seq<nat>, id: nat): (k: int)
    ensures -1 <= k < |ids|
    ensures k >= 0 ==> ids[k] == id
    ensures k < 0 ==> id !in ids
  {
    if ids == [] then -1
    else if ids[|ids| - 1] == id then |ids| - 1
    else DeviceIndex(ids[..|ids| - 1], id)
  }

  /** A received frame marks its sender connected if it reports no error. */
  function AfterReceive(ids: seq<nat>, s: State, src: nat, m: Message): State
    requires |s.connected| == |ids|
  {
    var k := DeviceIndex(ids, src);
    if m.Feedback? && k >= 0 && m.status.Ok() then s.(connected := s.connected[k := true]) else s
  }

  // The controller object

  class Controller {
    const cfg: Config
    var mode: Mode
    var restartDelay: int
    var connected: seq<bool>
    var stopped: bool
    var controlError: bool
    var strategy: Strategy
    var iq: seq<real>

    ghost function View(): State
      reads this
    {
      State(mode, restartDelay, connected, stopped, controlError, strategy, iq)
    }

    ghost predicate Valid()
      reads this
    {
      cfg.Valid() && WellSized(cfg, View())
    }

    constructor (cfg: Config, firstStrategy: nat)
      requires cfg.Valid()
      ensures this.cfg == cfg && Valid() && View() == Initial(cfg, firstStrategy)
    {
      this.cfg := cfg;
      mode, restartDelay, stopped, controlError := Control, 0, false, false;
      strategy := Strategy(Reset, firstStrategy, firstStrategy);
      connected, iq := Cleared(|cfg.ids|), Zeros(|cfg.ids|);
    }

    method AllConnected() returns (all: bool)
      requires |connected| == |cfg.ids|
      ensures all == AllTrue(connected)
    {
      var count := 0;
      for i := 0 to |cfg.ids|
        invariant count <= i && (count == i <==> AllTrue(connected[..i]))
      {
        if connected[i] {
          count := count + 1;
        }
        assert connected[..i + 1] == connected[..i] + [connected[i]];
        assert AllTrue(connected[..i + 1]) <==> AllTrue(connected[..i]) && connected[i] by {
          assert forall k :: 0 <= k < i ==> connected[..i][k] == connected[..i + 1][k];
        }
      }
      all := count == |cfg.ids|;
      assert connected[..|cfg.ids|] == connected;
    }

    method StateControl(input: LoopInput)
      requires Valid()
      modifies this
      ensures View() == InControl(cfg, old(View()), input)
    {
      if input.button && !stopped {
        strategy := strategy.NextStrategy();
      }
      var all := AllConnected();
      if !all {
        mode := IoDeviceMissing;
        restartDelay := RESTART_DELAY_NS / cfg.period;
        return;
      }
      if input.client == ClientStop && !stopped {
        stopped := true;
        strategy := strategy.SetStrategy(STRATEGY_STOP);
      } else if input.client == ClientGo && stopped {
        stopped := false;
        strategy := strategy.PreviousStrategy();
      }
      StateMachine(input);
      if controlError {
        controlError := false;
        mode := Standby;
      }
    }

    /** Calls the phase in progress; an error is reported through the callback. */
    method StateMachine(input: LoopInput)
      modifies this`strategy, this`iq, this`controlError
      ensures strategy == old(strategy).Called(input.rc) && iq == input.iq
      ensures controlError == (old(controlError) || input.rc == Error)
    {
      iq := input.iq;
      match input.rc
      case Ok => strategy := strategy.(phase := Follower(strategy.phase));
      case Error => controlError := true;
      case Wait =>
    }

    method StateMissing(input: LoopInput)
      requires Valid()
      modifies this
      ensures View() == InMissing(cfg, old(View()), input)
    {
      if input.button && !stopped {
        strategy := strategy.NextStrategy();
      }
      var all := AllConnected();
      if all {
        restartDelay := restartDelay - 1;
        if restartDelay == -1 {
          strategy := strategy.ResetStrategy();
          mode := Control;
        }
      } else {
        restartDelay := RESTART_DELAY_NS / cfg.period;
      }
    }

    method StateStandby(input: LoopInput)
      modifies this
      ensures View() == InStandby(old(View()), input)
    {
      if input.button {
        strategy := strategy.ResetStrategy();
        mode := Control;
      }
    }

    method Send() returns (message: Message)
      requires Valid()
      ensures message == CommandMessage(cfg.ids, View())
    {
      var action := if mode == IoDeviceMissing then Hold else ApplyIq;
      var commands := [];
      for i := 0 to |cfg.ids|
        invariant commands == Commands(cfg.ids[..i], iq[..i])
      {
        commands := commands + [IqCommand(cfg.ids[i], 0, iq[i])];
      }
      assert cfg.ids[..|cfg.ids|] == cfg.ids && iq[..|cfg.ids|] == iq;
      message := SetIq(action, commands);
    }

    /** One loop: currents to zero, state machine, command frame, flags cleared. */
    method Loop(input: LoopInput) returns (message: Message)
      requires Valid() && |input.iq| == |cfg.ids|
      modifies this
      ensures Valid() && View() == AfterLoop(cfg, old(View()), input)
      ensures message == CommandMessage(cfg.ids, Decided(cfg, old(View()), input))
    {
      iq := Zeros(|cfg.ids|);
      match mode {
        case Control => StateControl(input);
        case IoDeviceMissing => StateMissing(input);
        case Standby => StateStandby(input);
      }
      message := Send();
      connected := Cleared(|cfg.ids|);
    }

    method NetReceive(src: nat, m: Message)
      requires Valid()
      modifies this`connected
      ensures Valid() && View() == AfterReceive(cfg.ids, old(View()), src, m)
    {
      if m.Feedback? {
        var device := -1;
        for i := 0 to |cfg.ids|
          invariant device == DeviceIndex(cfg.ids[..i], src)
        {
          assert cfg.ids[..i + 1][..i] == cfg.ids[..i];
          if cfg.ids[i] == src {
            device := i;
          }
        }
        assert cfg.ids[..|cfg.ids|] == cfg.ids;
        if device >= 0 && m.status.Ok() {
          connected := connected[device := true];
        }
      }
    }
  }

  function Initial(cfg: Config, firstStrategy: nat): State {
    State(Control, 0, Cleared(|cfg.ids|), false, false,
          Strategy(Reset, firstStrategy, firstStrategy), Zeros(|cfg.ids|))
  }

  // Safety of one loop

  ghost predicate CarriesCurrent(m: Message) {
    m.SetIq? && m.action == ApplyIq && exists k :: 0 <= k < |m.commands| && m.commands[k].iq != 0.0
  }

  /** A frame that asks for a non-zero current comes from a loop that started in
      CONTROL with every device connected, and called the strategy. */
  lemma CurrentOnlyWhenConnected(cfg: Config, s: State, input: LoopInput)
    requires cfg.Valid() && WellSized(cfg, s) && |input.iq| == |cfg.ids|
    ensures |Decided(cfg, s, input).iq| == |cfg.ids|
    ensures CarriesCurrent(CommandMessage(cfg.ids, Decided(cfg, s, input))) ==>
              s.mode == Control && AllTrue(s.connected)
    ensures s.mode != Standby && !AllTrue(s.connected) ==>
              CommandMessage(cfg.ids, Decided(cfg, s, input)) == SetIq(Hold, Commands(cfg.ids, Zeros(|cfg.ids|)))
  {
  }
}
