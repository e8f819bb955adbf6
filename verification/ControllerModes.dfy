/** Whole runs of the controller: when it stands by and what it does then, and what the
    button and the command client do to the strategy. */
module ControllerModes {
  import opened CyclicTask
  import opened Controller
  import opened Recovery
  import opened StrategyPhases

  /** The command frame of a cycle. */
  function CommandIn(cfg: Config, s: State, c: Cycle): Message
    requires cfg.period > 0 && |Decided(cfg, s.(connected := c.connected), c.input).iq| == |cfg.ids|
  {
    CommandMessage(cfg.ids, Decided(cfg, s.(connected := c.connected), c.input))
  }

  // Standing by

  /** An error of the strategy is dealt with in the cycle that reports it. */
  lemma {:induction false} NoErrorPending(cfg: Config, first: nat, run: seq<Cycle>, n: nat)
    requires cfg.period > 0 && n <= |run|
    ensures !After(cfg, first, run, n).controlError
  {
    if n > 0 {
      NoErrorPending(cfg, first, run, n - 1);
      StepClearsError(cfg, After(cfg, first, run, n - 1), run[n - 1]);
    }
  }

  lemma StepClearsError(cfg: Config, s: State, c: Cycle)
    requires cfg.period > 0 && !s.controlError
    ensures !CycleStep(cfg, s, c).controlError
  {
  }

  /** The mode after a cycle, in CONTROL: waiting if a device is missing, else STANDBY
      exactly when the strategy reports an error. */
  lemma StepFromControl(cfg: Config, s: State, c: Cycle)
    requires cfg.period > 0 && !s.controlError && s.mode == Control
    ensures var next := CycleStep(cfg, s, c);
            && (next.mode == IoDeviceMissing <==> !c.Complete())
            && (next.mode == Standby <==> c.Complete() && c.input.rc == Error)
            && (next.mode == Control <==> c.Complete() && c.input.rc != Error)
  {
  }

  /** In every run: STANDBY is entered exactly from CONTROL, with all devices connected and
      an error of the strategy, and it is left exactly by the button, for CONTROL with the
      strategy started over. */
  lemma StandbyExactWhen(cfg: Config, first: nat, run: seq<Cycle>, n: nat)
    requires cfg.period > 0 && n < |run|
    ensures var s, next := After(cfg, first, run, n), After(cfg, first, run, n + 1);
            && (next.mode == Standby <==>
                  if s.mode == Standby then !run[n].input.button
                  else s.mode == Control && run[n].Complete() && run[n].input.rc == Error)
            && (s.mode == Control ==> (next.mode == Control <==> run[n].Complete() && run[n].input.rc != Error))
            && (s.mode == Standby && next.mode != Standby ==>
                  next.mode == Control && next.strategy == s.strategy.(phase := Reset))
  {
    NoErrorPending(cfg, first, run, n);
    if After(cfg, first, run, n).mode == Control {
      StepFromControl(cfg, After(cfg, first, run, n), run[n]);
    }
  }

  /** In STANDBY no phase is called, and every current sent is zero. */
  lemma StandbyIsQuiet(cfg: Config, s: State, c: Cycle)
    requires cfg.Valid() && s.mode == Standby && |c.input.iq| == |cfg.ids|
    ensures CallIn(s, c) == NoCall
    ensures |Decided(cfg, s.(connected := c.connected), c.input).iq| == |cfg.ids|
    ensures CommandIn(cfg, s, c) == SetIq(ApplyIq, Commands(cfg.ids, Zeros(|cfg.ids|)))
    ensures !CarriesCurrent(CommandIn(cfg, s, c))
  {
  }

  /** The states of a run, as a sequence. */
  ghost predicate Runs(cfg: Config, first: nat, run: seq<Cycle>, states: seq<State>) {
    && cfg.period > 0 && |states| == |run| + 1 && states[0] == Initial(cfg, first)
    && forall k {:trigger Leads(cfg, states, run, k)} :: 0 <= k < |run| ==> Leads(cfg, states, run, k)
  }

  ghost predicate Leads(cfg: Config, states: seq<State>, run: seq<Cycle>, k: int)
    requires cfg.period > 0 && |states| == |run| + 1
  {
    0 <= k < |run| && states[k + 1] == CycleStep(cfg, states[k], run[k])
  }

  lemma {:induction false} RunsAreRuns(cfg: Config, first: nat, run: seq<Cycle>, states: seq<State>, n: nat)
    requires Runs(cfg, first, run, states) && n <= |run|
    ensures states[n] == After(cfg, first, run, n)
  {
    if n > 0 {
      RunsAreRuns(cfg, first, run, states, n - 1);
      assert Leads(cfg, states, run, n - 1);
    }
  }

  lemma StandbyStays(cfg: Config, s: State, c: Cycle)
    requires cfg.period > 0 && s.mode == Standby && !c.input.button
    ensures CycleStep(cfg, s, c).mode == Standby && CycleStep(cfg, s, c).strategy == s.strategy
  {
  }

  /** It lasts until the button is pressed. */
  lemma {:induction false} StandbyLasts(cfg: Config, first: nat, run: seq<Cycle>, states: seq<State>, i: nat, j: nat)
    requires Runs(cfg, first, run, states) && i <= j <= |run| && states[i].mode == Standby
    requires forall k :: i <= k < j ==> !run[k].input.button
    ensures states[j].mode == Standby && states[j].strategy == states[i].strategy
    decreases j
  {
    if i < j {
      StandbyLasts(cfg, first, run, states, i, j - 1);
      StandbyStays(cfg, states[j - 1], run[j - 1]);
      assert Leads(cfg, states, run, j - 1);
    }
  }

  /** In CONTROL with all devices connected, the frame carries what the strategy wrote. */
  lemma ControlSends(cfg: Config, s: State, c: Cycle)
    requires cfg.Valid() && s.mode == Control && c.Complete() && |c.input.iq| == |cfg.ids|
    ensures |Decided(cfg, s.(connected := c.connected), c.input).iq| == |cfg.ids|
    ensures CommandIn(cfg, s, c) == SetIq(ApplyIq, Commands(cfg.ids, c.input.iq))
  {
  }

  // The button and the client

  predicate Stops(s: State, c: Cycle) {
    s.mode == Control && c.Complete() && c.input.client == ClientStop && !s.stopped
  }

  predicate Goes(s: State, c: Cycle) {
    s.mode == Control && c.Complete() && c.input.client == ClientGo && s.stopped
  }

  predicate Presses(s: State, c: Cycle) {
    c.input.button && !s.stopped && s.mode != Standby
  }

  /** What one cycle makes of the selection: the button moves on to the next strategy and
      remembers the one it leaves; a stop selects the strategy that stops and remembers the
      one it replaces; a go brings the remembered one back; nothing else changes it. */
  lemma SelectionAfter(cfg: Config, s: State, c: Cycle)
    requires cfg.period > 0
    ensures var next := CycleStep(cfg, s, c);
            var pressed := if Presses(s, c) then (s.strategy.current + 1) % NUM_STRATEGIES else s.strategy.current;
            var left := if Presses(s, c) then s.strategy.current else s.strategy.previous;
            && (Stops(s, c) ==> next.stopped && next.strategy.current == STRATEGY_STOP &&
                                next.strategy.previous == if pressed == STRATEGY_STOP then left else pressed)
            && (Goes(s, c) ==> !next.stopped && next.strategy.current == s.strategy.previous &&
                               next.strategy.previous == s.strategy.current)
            && (!Stops(s, c) && !Goes(s, c) ==>
                  next.stopped == s.stopped && next.strategy.current == pressed && next.strategy.previous == left)
  {
  }

  /** A change of the selection starts the strategy over: its first call is RESET. */
  lemma SelectionStartsOver(cfg: Config, s: State, c: Cycle)
    requires cfg.period > 0
    ensures SelectedIn(s, c).current != s.strategy.current && s.mode == Control ==> SelectedIn(s, c).phase == Reset
  {
  }

  /** Stopped, with the strategy that stops, and what to go back to. */
  predicate StoppedFrom(s: State, before: nat) {
    s.stopped && s.strategy.current == STRATEGY_STOP && s.strategy.previous == before
  }

  lemma StopStays(cfg: Config, s: State, c: Cycle, before: nat)
    requires cfg.period > 0 && StoppedFrom(s, before) && !Goes(s, c)
    ensures StoppedFrom(CycleStep(cfg, s, c), before)
  {
    SelectionAfter(cfg, s, c);
  }

  /** No go takes effect in the cycles from i up to j. */
  ghost predicate NoGo(states: seq<State>, run: seq<Cycle>, i: nat, j: nat)
    requires j <= |run| < |states|
  {
    forall k {:trigger Goes(states[k], run[k])} :: i <= k < j ==> !Goes(states[k], run[k])
  }

  /** Once stopped, it stays stopped until a go: the button and all else change nothing. */
  lemma {:induction false} StopLasts(cfg: Config, first: nat, run: seq<Cycle>, states: seq<State>, i: nat, j: nat,
                                     before: nat)
    requires Runs(cfg, first, run, states) && i <= j <= |run| && StoppedFrom(states[i], before)
    requires NoGo(states, run, i, j)
    ensures StoppedFrom(states[j], before)
    decreases j
  {
    if i < j {
      StopLasts(cfg, first, run, states, i, j - 1, before);
      StopStays(cfg, states[j - 1], run[j - 1], before);
      assert Leads(cfg, states, run, j - 1);
    }
  }

  /** The stop of a strategy. */
  lemma StopTaken(cfg: Config, s: State, c: Cycle)
    requires cfg.period > 0 && Stops(s, c) && !c.input.button && s.strategy.current != STRATEGY_STOP
    ensures StoppedFrom(CycleStep(cfg, s, c), s.strategy.current) && SelectedIn(s, c).current == 4
  {
  }

  /** From a stop in cycle i to the next go in cycle j, only the strategy that stops is ever
      called; the go brings back, from its RESET on, the strategy the stop replaced. */
  lemma {:induction false} StopAndGo(cfg: Config, first: nat, run: seq<Cycle>, states: seq<State>, i: nat, j: nat)
    requires Runs(cfg, first, run, states) && i < j < |run|
    requires Stops(states[i], run[i]) && !run[i].input.button && states[i].strategy.current != STRATEGY_STOP
    requires Goes(states[j], run[j]) && NoGo(states, run, i + 1, j)
    ensures forall k :: i <= k < j && states[k].mode == Control && run[k].Complete() ==>
              SelectedIn(states[k], run[k]).current == STRATEGY_STOP
    ensures SelectedIn(states[j], run[j]) == Strategy(Reset, states[i].strategy.current, STRATEGY_STOP)
  {
    var before := states[i].strategy.current;
    StopTaken(cfg, states[i], run[i]);
    assert Leads(cfg, states, run, i);
    forall k | i < k < j
      ensures states[k].mode == Control && run[k].Complete() ==>
                SelectedIn(states[k], run[k]).current == STRATEGY_STOP
    {
      StopLasts(cfg, first, run, states, i + 1, k, before);
      StoppedSelects(states[k], run[k], before);
    }
    StopLasts(cfg, first, run, states, i + 1, j, before);
    GoneOn(states[j], run[j], before);
  }

  lemma GoneOn(s: State, c: Cycle, before: nat)
    requires StoppedFrom(s, before) && Goes(s, c)
    ensures SelectedIn(s, c) == Strategy(Reset, before, STRATEGY_STOP)
  {
  }

  lemma StoppedSelects(s: State, c: Cycle, before: nat)
    requires StoppedFrom(s, before) && !Goes(s, c)
    ensures s.mode == Control && c.Complete() ==> SelectedIn(s, c).current == STRATEGY_STOP
  {
  }

  /** Pressing the button k times selects the k-th strategy from the present one; six times
      lead back to it. */
  function Pressed(s: Strategy, k: nat): Strategy {
    if k == 0 then s else Pressed(s, k - 1).NextStrategy()
  }

  lemma NextInCircle(n: nat)
    ensures (n % NUM_STRATEGIES + 1) % NUM_STRATEGIES == (n + 1) % NUM_STRATEGIES
  {
    var rest := n % NUM_STRATEGIES;
    assert n == n / NUM_STRATEGIES * NUM_STRATEGIES + rest;
    if rest + 1 == NUM_STRATEGIES {
      assert n + 1 == (n / NUM_STRATEGIES + 1) * NUM_STRATEGIES;
    }
  }

  lemma {:induction false} PressesCount(s: Strategy, k: nat)
    requires s.current < NUM_STRATEGIES
    ensures Pressed(s, k).current == (s.current + k) % 6
    ensures k > 0 ==> Pressed(s, k).phase == Reset
  {
    if k > 0 {
      PressesCount(s, k - 1);
      NextInCircle(s.current + k - 1);
    }
  }
}
