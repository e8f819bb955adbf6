/** Whole runs of the controller: how it leaves and returns to CONTROL when
    devices go missing, and what the strategy went through before its loop runs. */
module Recovery {
  import opened Arithmetic
  import opened Controller
  import opened StrategyPhases

  /** One cycle: which devices answered, and the loop input. */
  datatype Cycle = Cycle(connected: seq<bool>, input: LoopInput) {
    predicate Complete() {
      AllTrue(connected)
    }
  }

  function CycleStep(cfg: Config, s: State, c: Cycle): State
    requires cfg.period > 0
  {
    AfterLoop(cfg, s.(connected := c.connected), c.input)
  }

  /** State after the first n cycles of a run. */
  function After(cfg: Config, first: nat, run: seq<Cycle>, n: nat): State
    requires cfg.period > 0 && n <= |run|
  {
    if n == 0 then Initial(cfg, first) else CycleStep(cfg, After(cfg, first, run, n - 1), run[n - 1])
  }

  /** Length of the stretch of complete cycles that ends right before cycle n. */
  function Streak(run: seq<Cycle>, n: nat): nat
    requires n <= |run|
  {
    if n > 0 && run[n - 1].Complete() then 1 + Streak(run, n - 1) else 0
  }

  lemma {:induction false} StreakComplete(run: seq<Cycle>, n: nat, k: nat)
    requires n <= |run| && k < n && n - k <= Streak(run, n)
    ensures run[k].Complete()
  {
    if k < n - 1 {
      StreakComplete(run, n - 1, k);
    }
  }

  /** While devices are missing, the delay counts the complete cycles down. */
  lemma {:induction false} DelayCountsStreak(cfg: Config, first: nat, run: seq<Cycle>, n: nat)
    requires cfg.period > 0 && n <= |run|
    ensures var s := After(cfg, first, run, n);
            s.mode == IoDeviceMissing ==>
              Streak(run, n) <= cfg.RestartDelay() && s.restartDelay == cfg.RestartDelay() - Streak(run, n)
  {
    if n > 0 {
      DelayCountsStreak(cfg, first, run, n - 1);
    }
  }

  /** A cycle with a device missing, in CONTROL or already waiting, leads to the
      waiting mode. */
  lemma MissLeadsToWaiting(cfg: Config, first: nat, run: seq<Cycle>, n: nat)
    requires cfg.period > 0 && n < |run| && !run[n].Complete()
    requires After(cfg, first, run, n).mode != Standby
    ensures After(cfg, first, run, n + 1).mode == IoDeviceMissing
  {
  }

  /** The waiting controller returns to CONTROL in a cycle if and only if that
      cycle is the (D+1)-th complete one in a row; it restarts the strategy. */
  lemma ReturnsExactly(cfg: Config, first: nat, run: seq<Cycle>, n: nat)
    requires cfg.period > 0 && n < |run| && After(cfg, first, run, n).mode == IoDeviceMissing
    ensures var next := After(cfg, first, run, n + 1);
            (next.mode == Control <==> Streak(run, n + 1) == cfg.RestartDelay() + 1) &&
            (next.mode != Control ==> next.mode == IoDeviceMissing) &&
            (next.mode == Control ==> next.strategy.phase == Reset)
  {
    DelayCountsStreak(cfg, first, run, n);
  }

  /** D is two seconds worth of periods. */
  lemma DelayIsTwoSeconds(cfg: Config)
    requires cfg.period > 0 && 1_000_000_000 % cfg.period == 0
    ensures cfg.RestartDelay() * cfg.period == 2_000_000_000
  {
    var q := 1_000_000_000 / cfg.period;
    assert 2 * q * cfg.period == 2_000_000_000;
    MultipleQuotient(2 * q, cfg.period);
  }

  // Strategy phases over a run

  /** What a cycle called, and returned OK. */
  datatype Call = NoCall | OkCall(phase: Phase, strategy: nat)

  /** Strategy selection in force when the cycle calls a phase. */
  function SelectedIn(s: State, c: Cycle): Strategy {
    ClientRequest(Button(s, c.input), c.input).strategy
  }

  predicate CallsIn(s: State, c: Cycle, phase: Phase) {
    s.mode == Control && c.Complete() && SelectedIn(s, c).phase == phase
  }

  function CallIn(s: State, c: Cycle): Call {
    var selected := SelectedIn(s, c);
    if CallsIn(s, c, selected.phase) && c.input.rc == Ok then OkCall(selected.phase, selected.current) else NoCall
  }

  function Selected(cfg: Config, first: nat, run: seq<Cycle>, n: nat): Strategy
    requires cfg.period > 0 && n < |run|
  {
    SelectedIn(After(cfg, first, run, n), run[n])
  }

  /** Cycle n of the run calls a phase of the selected strategy. */
  predicate Calls(cfg: Config, first: nat, run: seq<Cycle>, n: nat, phase: Phase)
    requires cfg.period > 0 && n < |run|
  {
    CallsIn(After(cfg, first, run, n), run[n], phase)
  }

  function CallOf(cfg: Config, first: nat, run: seq<Cycle>, n: nat): Call
    requires cfg.period > 0 && n < |run|
  {
    CallIn(After(cfg, first, run, n), run[n])
  }

  /** The phases in front of the current one, in the order they are called. */
  function Before(phase: Phase): seq<Phase> {
    match phase
    case Reset => []
    case Prepare => [Reset]
    case Startup => [Reset, Prepare]
    case Init => [Reset, Prepare, Startup]
    case Loop => [Reset, Prepare, Startup, Init]
  }

  /** How one cycle may change the strategy: not at all, back to Reset, or on to
      the next phase after an OK call. */
  ghost predicate Moves(before: Strategy, after: Strategy, call: Call) {
    || after.phase == Reset
    || after == before
    || (before.phase != Loop && after == before.(phase := Follower(before.phase)) &&
        call == OkCall(before.phase, before.current))
    || (after.phase == Prepare && call == OkCall(Reset, after.current))
  }

  /** How one cycle moves the strategy, mode by mode. */
  lemma {:induction false} StrategyMoves(cfg: Config, s: State, c: Cycle)
    requires cfg.period > 0
    ensures Moves(s.strategy, CycleStep(cfg, s, c).strategy, CallIn(s, c))
  {
    match s.mode
    case Control =>
    case IoDeviceMissing =>
    case Standby =>
  }

  /** Strategy after every cycle (the first entry is the start) and calls made. */
  datatype History = History(strategies: seq<Strategy>, calls: seq<Call>) {
    ghost predicate Valid() {
      && |strategies| == |calls| + 1 && strategies[0].phase == Reset
      && forall k {:trigger calls[k]} :: 0 <= k < |calls| ==> Moves(strategies[k], strategies[k + 1], calls[k])
    }

    /** at lists, in increasing order, the cycles before cycle n in which the phases in
        front of the current one returned OK; since the first of them nothing restarted. */
    ghost predicate Trail(n: nat, at: seq<nat>)
      requires n <= |calls| && |strategies| == |calls| + 1
    {
      var now := strategies[n];
      && |at| == |Before(now.phase)|
      && (forall k :: 0 <= k < |at| ==> at[k] < n && calls[at[k]] == OkCall(Before(now.phase)[k], now.current))
      && (forall i, j :: 0 <= i < j < |at| ==> at[i] < at[j])
      && (at != [] ==> forall k :: at[0] < k <= n ==> strategies[k].phase != Reset)
    }
  }

  lemma {:induction false} TrailExists(h: History, n: nat) returns (at: seq<nat>)
    requires h.Valid() && n <= |h.calls|
    ensures h.Trail(n, at)
  {
    if n == 0 || h.strategies[n].phase == Reset {
      at := [];
    } else {
      var earlier := TrailExists(h, n - 1);
      var before, after := h.strategies[n - 1], h.strategies[n];
      assert Moves(before, after, h.calls[n - 1]);
      if after == before {
        at := earlier;
      } else if after.phase == Prepare && h.calls[n - 1] == OkCall(Reset, after.current) {
        at := [n - 1];
      } else {
        at := earlier + [n - 1];
        assert Before(after.phase) == Before(before.phase) + [before.phase];
      }
    }
  }

  /** Strategy selected before every cycle, and after the last. */
  function Strategies(cfg: Config, first: nat, run: seq<Cycle>, n: nat): (s: seq<Strategy>)
    requires cfg.period > 0 && n <= |run|
    ensures |s| == n + 1
    ensures forall k {:trigger s[k]} :: 0 <= k <= n ==> s[k] == After(cfg, first, run, k).strategy
  {
    seq(n + 1, k requires 0 <= k <= n => After(cfg, first, run, k).strategy)
  }

  function CallsOf(cfg: Config, first: nat, run: seq<Cycle>, n: nat): (c: seq<Call>)
    requires cfg.period > 0 && n <= |run|
    ensures |c| == n
    ensures forall k {:trigger c[k]} :: 0 <= k < n ==> c[k] == CallOf(cfg, first, run, k)
  {
    seq(n, k requires 0 <= k < n => CallOf(cfg, first, run, k))
  }

  lemma {:induction false} MoveAt(cfg: Config, first: nat, run: seq<Cycle>, n: nat, k: nat)
    requires cfg.period > 0 && k < n <= |run|
    ensures Moves(Strategies(cfg, first, run, n)[k], Strategies(cfg, first, run, n)[k + 1],
                  CallsOf(cfg, first, run, n)[k])
  {
    StrategyMoves(cfg, After(cfg, first, run, k), run[k]);
  }

  lemma {:induction false} HistoryOf(cfg: Config, first: nat, run: seq<Cycle>, n: nat) returns (h: History)
    requires cfg.period > 0 && n <= |run|
    ensures h == History(Strategies(cfg, first, run, n), CallsOf(cfg, first, run, n)) && h.Valid()
  {
    h := History(Strategies(cfg, first, run, n), CallsOf(cfg, first, run, n));
    forall k | 0 <= k < n
      ensures Moves(h.strategies[k], h.strategies[k + 1], h.calls[k])
    {
      MoveAt(cfg, first, run, n, k);
    }
  }

  lemma LoopKeepsSelection(s: State, c: Cycle)
    requires CallsIn(s, c, Loop)
    ensures SelectedIn(s, c) == s.strategy
  {
  }

  lemma LoopTrail(h: History) returns (at: seq<nat>)
    requires h.Valid() && h.strategies[|h.calls|].phase == Loop
    ensures |at| == 4 && at[0] < at[1] < at[2] < at[3] < |h.calls|
    ensures forall k :: 0 <= k < 4 ==>
              at[k] < |h.calls| && h.calls[at[k]] == OkCall(Before(Loop)[k], h.strategies[|h.calls|].current)
    ensures forall k :: at[0] < k <= |h.calls| ==> h.strategies[k].phase != Reset
  {
    at := TrailExists(h, |h.calls|);
  }

  /** Whenever the loop phase of a strategy is called, its Reset, Prepare, Startup
      and Init phases returned OK before, in this order, with no restart since. */
  lemma {:induction false} LoopNeedsAllPhases(cfg: Config, first: nat, run: seq<Cycle>, n: nat) returns (at: seq<nat>)
    requires cfg.period > 0 && n < |run| && Calls(cfg, first, run, n, Loop)
    ensures |at| == 4 && at[0] < at[1] < at[2] < at[3] < n
    ensures PhasesCalled(cfg, first, run, n, at)
    ensures forall k :: at[0] < k <= n ==> Strategies(cfg, first, run, n)[k].phase != Reset
  {
    LoopKeepsSelection(After(cfg, first, run, n), run[n]);
    var h := HistoryOf(cfg, first, run, n);
    at := LoopTrail(h);
  }

  /** Modes before every cycle, and after the last. */
  function Modes(cfg: Config, first: nat, run: seq<Cycle>, n: nat): (modes: seq<Mode>)
    requires cfg.period > 0 && n <= |run|
    ensures |modes| == n + 1
    ensures forall k :: 0 <= k <= n ==> modes[k] == After(cfg, first, run, k).mode
  {
    seq(n + 1, k requires 0 <= k <= n => After(cfg, first, run, k).mode)
  }

  lemma {:induction false} ComesBack(modes: seq<Mode>, i: nat, n: nat) returns (r: nat)
    requires i <= n < |modes| && modes[i] == IoDeviceMissing && modes[n] == Control
    requires forall k :: 0 <= k < |modes| - 1 && modes[k] == IoDeviceMissing ==> modes[k + 1] != Standby
    ensures i <= r < n && modes[r] == IoDeviceMissing && modes[r + 1] == Control
    decreases n - i
  {
    if modes[i + 1] == Control {
      r := i;
    } else {
      r := ComesBack(modes, i + 1, n);
    }
  }

  /** If the controller waits before cycle i and is in CONTROL later, it came back
      in some cycle r in between. */
  lemma ReturnCycle(cfg: Config, first: nat, run: seq<Cycle>, i: nat, n: nat) returns (r: nat)
    requires cfg.period > 0 && i <= n <= |run|
    requires After(cfg, first, run, i).mode == IoDeviceMissing && After(cfg, first, run, n).mode == Control
    ensures i <= r < n && After(cfg, first, run, r).mode == IoDeviceMissing
    ensures After(cfg, first, run, r + 1).mode == Control
  {
    var modes := Modes(cfg, first, run, n);
    forall k | 0 <= k < n && modes[k] == IoDeviceMissing
      ensures modes[k + 1] != Standby
    {
      ReturnsExactly(cfg, first, run, k);
    }
    r := ComesBack(modes, i, n);
  }

  lemma {:induction false} StreakShort(run: seq<Cycle>, i: nat, n: nat)
    requires i < n <= |run| && !run[i].Complete()
    ensures Streak(run, n) < n - i
  {
    if i < n - 1 {
      StreakShort(run, i, n - 1);
    }
  }

  /** After a cycle i with a device missing, a strategy loop runs in a later cycle
      j only after D+1 complete cycles in a row brought the controller back in a
      cycle r, and the four phases then returned OK in order. */
  lemma {:induction false} RecoveryTrace(cfg: Config, first: nat, run: seq<Cycle>, i: nat, j: nat)
    returns (r: nat, at: seq<nat>)
    requires cfg.period > 0 && i < j < |run|
    requires After(cfg, first, run, i).mode != Standby && !run[i].Complete()
    requires Calls(cfg, first, run, j, Loop)
    ensures i + cfg.RestartDelay() < r < j
    ensures forall k :: r - cfg.RestartDelay() <= k <= r ==> run[k].Complete()
    ensures After(cfg, first, run, r).mode == IoDeviceMissing && After(cfg, first, run, r + 1).mode == Control
    ensures |at| == 4 && r < at[0] < at[1] < at[2] < at[3] < j
    ensures PhasesCalled(cfg, first, run, j, at)
  {
    MissLeadsToWaiting(cfg, first, run, i);
    r := ReturnCycle(cfg, first, run, i + 1, j);
    ReturnStreak(cfg, first, run, i, r);
    at := PhasesAfterReturn(cfg, first, run, r, j);
  }

  lemma PhasesAfterReturn(cfg: Config, first: nat, run: seq<Cycle>, r: nat, j: nat) returns (at: seq<nat>)
    requires cfg.period > 0 && r < j < |run| && Calls(cfg, first, run, j, Loop)
    requires After(cfg, first, run, r).mode == IoDeviceMissing && After(cfg, first, run, r + 1).mode == Control
    ensures |at| == 4 && r < at[0] < at[1] < at[2] < at[3] < j
    ensures PhasesCalled(cfg, first, run, j, at)
  {
    ReturnRestarts(cfg, first, run, r);
    at := LoopNeedsAllPhases(cfg, first, run, j);
    assert Strategies(cfg, first, run, j)[r + 1].phase == Reset;
  }

  /** The four phases of the strategy selected in cycle n were called, OK, at. */
  ghost predicate PhasesCalled(cfg: Config, first: nat, run: seq<Cycle>, n: nat, at: seq<nat>)
    requires cfg.period > 0 && n < |run|
  {
    && |at| == 4
    && (forall k :: 0 <= k < 4 ==> at[k] < n)
    && forall k :: 0 <= k < 4 ==>
         CallsOf(cfg, first, run, n)[at[k]] == OkCall(Before(Loop)[k], Selected(cfg, first, run, n).current)
  }

  lemma {:induction false} ReturnStreak(cfg: Config, first: nat, run: seq<Cycle>, i: nat, r: nat)
    requires cfg.period > 0 && i < r < |run| && !run[i].Complete()
    requires After(cfg, first, run, r).mode == IoDeviceMissing && After(cfg, first, run, r + 1).mode == Control
    ensures i + cfg.RestartDelay() < r
    ensures forall k :: r - cfg.RestartDelay() <= k <= r ==> run[k].Complete()
  {
    ReturnsExactly(cfg, first, run, r);
    StreakShort(run, i, r + 1);
    forall k | r - cfg.RestartDelay() <= k <= r
      ensures run[k].Complete()
    {
      StreakComplete(run, r + 1, k);
    }
  }

  lemma ReturnRestarts(cfg: Config, first: nat, run: seq<Cycle>, r: nat)
    requires cfg.period > 0 && r < |run|
    requires After(cfg, first, run, r).mode == IoDeviceMissing && After(cfg, first, run, r + 1).mode == Control
    ensures After(cfg, first, run, r + 1).strategy.phase == Reset
    ensures CallOf(cfg, first, run, r) == NoCall
  {
    ReturnsExactly(cfg, first, run, r);
  }
}
