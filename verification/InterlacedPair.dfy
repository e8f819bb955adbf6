/** The two motors of the interlaced and identification strategies: which one holds
    still and which one moves, over every hand-over and change of strategy. */
module InterlacedPair {
  import opened StrategyPhases
  import opened Wrappers
  import Control = CurrentControl

  const MAX_MOTORS: nat := 2

  type Mode = Control.Mode

  datatype IdPhase = Accelerating | Coasting | Stopping | Done

  /** Identification in progress: step i of the moving motor; ids are the motors done. */
  datatype Ident = Ident(phase: IdPhase, i: nat, ids: seq<nat>)

  /** The motors are numbered in the order of the list. Each has a controller for the
      startup and one for the runtime. */
  datatype Pair = Pair(strategy: Strategy, still: Option<nat>, moving: Option<nat>,
                       startup: seq<Mode>, runtime: seq<Mode>, ident: Ident)

  /** What the positions, speeds and cycle counts of the motors say to one call, and
      what a strategy without a pair makes of it. */
  datatype Sensors = Sensors(atNotch: bool, aligned: bool, atOffset: bool, marginError: bool, blockDone: bool,
                             accelerated: bool, slow: bool, stopped: bool, maxSteps: nat,
                             otherRc: ReturnCode, otherStartup: seq<Mode>, otherRuntime: seq<Mode>)

  predicate UsesPair(s: Strategy) {
    s.current == STRATEGY_INTERLACED || s.current == STRATEGY_IDENTIFICATION
  }

  // The phases of the two strategies

  function Switched(p: Pair): Pair {
    p.(still := p.moving, moving := p.still)
  }

  ghost predicate HasPair(p: Pair) {
    && |p.runtime| == |p.startup| == 2 && p.still.Some? && p.moving.Some?
    && p.still.value < 2 && p.moving.value < 2 && p.still.value != p.moving.value
  }

  /** Position mode for the motor that holds still, trajectory mode for the other. */
  function Modes(modes: seq<Mode>, still: nat, moving: nat): (m: seq<Mode>)
    requires |modes| == 2 && still < 2 && moving < 2 && still != moving
    ensures |m| == 2 && m[still] == Control.Position && m[moving] == Control.Trajectory
  {
    modes[still := Control.Position][moving := Control.Trajectory]
  }

  ghost predicate Free(p: Pair) {
    p.still.None? && p.moving.None?
  }

  function Prepared(p: Pair, s: Sensors): (Pair, ReturnCode)
    requires Inv(p)
  {
    if |p.runtime| != 2 then (p, Error)
    else
      var q := p.(moving := if p.moving.None? then Some(0) else p.moving,
                  still := if p.still.None? then Some(1) else p.still);
      var r := q.(startup := Modes(p.startup, q.still.value, q.moving.value));
      if s.atNotch then (r, Ok) else (Switched(r), Wait)
  }

  function Started(p: Pair, s: Sensors): (Pair, ReturnCode)
    requires HasPair(p)
  {
    if !s.aligned then (p, Wait)
    else if s.atOffset then (p, Ok)
    else
      (Switched(p).(startup := Modes(p.startup, p.moving.value, p.still.value)), Wait)
  }

  function Inited(p: Pair): Pair
    requires HasPair(p)
  {
    p.(runtime := Modes(p.runtime, p.still.value, p.moving.value))
  }

  function HandedOver(p: Pair): Pair
    requires HasPair(p)
  {
    Switched(p).(runtime := Modes(p.runtime, p.moving.value, p.still.value))
  }

  function InterlacedLooped(p: Pair, s: Sensors): (Pair, ReturnCode)
    requires HasPair(p)
  {
    if s.marginError then (p, Error) else if s.blockDone then (HandedOver(p), Ok) else (p, Ok)
  }

  function Identified(p: Pair, s: Sensors): Pair
    requires HasPair(p)
  {
    match p.ident.phase
    case Accelerating => if s.accelerated then p.(ident := p.ident.(phase := Coasting)) else p
    case Coasting => if s.slow then p.(ident := p.ident.(phase := Stopping)) else p
    case Stopping =>
      if !s.stopped then p
      else if p.ident.i + 1 < s.maxSteps then p.(ident := p.ident.(phase := Accelerating, i := p.ident.i + 1))
      else
        var ids := p.ident.ids + [p.moving.value];
        HandedOver(p).(ident :=
          if |ids| >= MAX_MOTORS then Ident(Done, p.ident.i + 1, ids) else Ident(Accelerating, 0, ids))
    case Done => p
  }

  function PairReset(p: Pair): Pair {
    if p.runtime == [] then p else p.(still := None, moving := None)
  }

  function CalledPair(p: Pair, s: Sensors): (Pair, ReturnCode)
    requires Inv(p) && UsesPair(p.strategy)
  {
    var identifies := p.strategy.current == STRATEGY_IDENTIFICATION;
    match p.strategy.phase
    case Prepare => Prepared(p, s)
    case Startup => Started(p, s)
    case Init => (if identifies then Inited(p).(ident := Ident(Accelerating, 0, [])) else Inited(p), Ok)
    case Loop => if identifies then (Identified(p, s), Ok) else InterlacedLooped(p, s)
    case Reset => (PairReset(p), Ok)
  }

  /** A call of the phase in progress of the strategy in use; the other strategies may
      set any modes. */
  function Called(p: Pair, s: Sensors): Pair
    requires Inv(p) && |s.otherStartup| == |s.otherRuntime| == |p.runtime|
  {
    var called :=
      if UsesPair(p.strategy) then CalledPair(p, s)
      else (p.(startup := s.otherStartup, runtime := s.otherRuntime), s.otherRc);
    called.0.(strategy := p.strategy.Called(called.1))
  }

  // What always holds

  ghost predicate IdentFits(p: Pair)
    requires HasPair(p)
  {
    && |p.ident.ids| <= 2 && (forall k :: 0 <= k < |p.ident.ids| ==> p.ident.ids[k] < 2)
    && (p.ident.phase.Done? <==> |p.ident.ids| == 2)
    && (|p.ident.ids| == 1 ==> p.ident.ids[0] == p.still.value)
    && (|p.ident.ids| == 2 ==> p.ident.ids[0] != p.ident.ids[1])
  }

  ghost predicate Ready(p: Pair) {
    HasPair(p) && p.startup[p.still.value] == Control.Position && p.startup[p.moving.value] == Control.Trajectory
  }

  /** The controllers of the runtime fit who holds still and who moves. */
  ghost predicate Controls(p: Pair)
    requires HasPair(p)
  {
    p.runtime[p.still.value] == Control.Position && p.runtime[p.moving.value] == Control.Trajectory
  }

  ghost predicate Inv(p: Pair) {
    && |p.startup| == |p.runtime| && (Free(p) || HasPair(p))
    && (UsesPair(p.strategy) && (p.strategy.phase.Startup? || p.strategy.phase.Init?) ==> Ready(p))
    && (UsesPair(p.strategy) && p.strategy.phase.Loop? ==> HasPair(p) && Controls(p))
    && (p.strategy.current == STRATEGY_IDENTIFICATION && p.strategy.phase.Loop? ==> IdentFits(p))
  }

  lemma {:induction false} PreparedFits(p: Pair, s: Sensors)
    requires Inv(p) && |p.runtime| == 2
    ensures var (q, rc) := Prepared(p, s);
            HasPair(q) && q.strategy == p.strategy && rc != Error && (rc == Ok ==> Ready(q))
  {
  }

  lemma {:induction false} StartedFits(p: Pair, s: Sensors)
    requires Ready(p)
    ensures var (q, rc) := Started(p, s); Ready(q) && q.strategy == p.strategy
  {
  }

  lemma {:induction false} InitedFits(p: Pair)
    requires Ready(p)
    ensures Ready(Inited(p)) && Controls(Inited(p)) && Inited(p).strategy == p.strategy
  {
  }

  lemma {:induction false} HandedOverFits(p: Pair)
    requires HasPair(p)
    ensures var q := HandedOver(p);
            HasPair(q) && Controls(q) && q.strategy == p.strategy && q.still == p.moving && q.moving == p.still
  {
  }

  lemma {:induction false} IdentifiedFits(p: Pair, s: Sensors)
    requires HasPair(p) && Controls(p) && IdentFits(p)
    ensures var q := Identified(p, s); HasPair(q) && Controls(q) && IdentFits(q) && q.strategy == p.strategy
  {
    HandedOverFits(p);
  }

  lemma {:induction false} CallKeeps(p: Pair, s: Sensors)
    requires Inv(p) && |s.otherStartup| == |s.otherRuntime| == |p.runtime|
    ensures Inv(Called(p, s)) && |Called(p, s).runtime| == |p.runtime|
  {
    if UsesPair(p.strategy) {
      match p.strategy.phase
      case Prepare =>
        if |p.runtime| == 2 {
          PreparedFits(p, s);
        }
      case Startup => StartedFits(p, s);
      case Init => InitedFits(p);
      case Loop =>
        HandedOverFits(p);
        if p.strategy.current == STRATEGY_IDENTIFICATION {
          IdentifiedFits(p, s);
        }
      case Reset =>
    }
  }

  /** A call, or one of the ways to select a strategy, all of which start it over. */
  datatype Op = Call(s: Sensors) | Restart | Next | Previous | Select(strategy: nat)

  ghost predicate Possible(motors: nat, op: Op) {
    op.Call? ==> |op.s.otherStartup| == |op.s.otherRuntime| == motors
  }

  function After(p: Pair, op: Op): (after: Pair)
    requires Inv(p) && Possible(|p.runtime|, op)
    ensures Inv(after) && |after.runtime| == |p.runtime|
  {
    match op
    case Call(s) => CallKeeps(p, s); Called(p, s)
    case Restart => p.(strategy := p.strategy.ResetStrategy())
    case Next => p.(strategy := p.strategy.NextStrategy())
    case Previous => p.(strategy := p.strategy.PreviousStrategy())
    case Select(wanted) => p.(strategy := p.strategy.SetStrategy(wanted))
  }

  ghost predicate Start(p: Pair) {
    Free(p) && |p.startup| == |p.runtime| && p.strategy.phase == Reset
  }

  ghost predicate AllPossible(motors: nat, ops: seq<Op>) {
    forall k :: 0 <= k < |ops| ==> Possible(motors, ops[k])
  }

  /** The pair after the first n operations of a run. */
  function PairAt(start: Pair, ops: seq<Op>, n: nat): (p: Pair)
    requires Start(start) && AllPossible(|start.runtime|, ops) && n <= |ops|
    ensures Inv(p) && |p.runtime| == |start.runtime|
  {
    if n == 0 then start else After(PairAt(start, ops, n - 1), ops[n - 1])
  }

  /** In every reachable step of the two strategies past their preparation, the motor
      that holds still and the one that moves are the two registered motors, with the
      controllers for it; whatever hand-overs and changes of strategy came before. */
  lemma PairAlwaysFits(start: Pair, ops: seq<Op>, n: nat)
    requires Start(start) && AllPossible(|start.runtime|, ops) && n <= |ops|
    ensures var p := PairAt(start, ops, n);
            UsesPair(p.strategy) && (p.strategy.phase.Startup? || p.strategy.phase.Init? || p.strategy.phase.Loop?) ==>
              && |start.runtime| == 2 && p.still.Some? && p.moving.Some?
              && {p.still.value, p.moving.value} == {0, 1}
              && (!p.strategy.phase.Loop? ==> p.startup[p.still.value] == Control.Position &&
                                              p.startup[p.moving.value] == Control.Trajectory)
              && (p.strategy.phase.Loop? ==> p.runtime[p.still.value] == Control.Position &&
                                             p.runtime[p.moving.value] == Control.Trajectory)
  {
  }

  lemma BothDone(p: Pair)
    requires Inv(p) && p.strategy.current == STRATEGY_IDENTIFICATION && p.strategy.phase.Loop? && p.ident.phase.Done?
    ensures |p.ident.ids| == 2 && multiset(p.ident.ids) == multiset{0, 1}
  {
    assert p.ident.ids == [p.ident.ids[0], p.ident.ids[1]];
  }

  /** Identification ends with both motors measured, each once. */
  lemma BothIdentified(start: Pair, ops: seq<Op>, n: nat)
    requires Start(start) && AllPossible(|start.runtime|, ops) && n <= |ops|
    requires var p := PairAt(start, ops, n);
             p.strategy.current == STRATEGY_IDENTIFICATION && p.strategy.phase.Loop? && p.ident.phase.Done?
    ensures var ids := PairAt(start, ops, n).ident.ids; |ids| == 2 && multiset(ids) == multiset{0, 1}
  {
    BothDone(PairAt(start, ops, n));
  }

  // The context in place

  class Motor {
    const index: nat
    var startup: Mode
    var runtime: Mode

    constructor (index: nat)
      ensures this.index == index
    {
      this.index := index;
      startup, runtime := Control.Trajectory, Control.Trajectory;
    }
  }

  class Context {
    const motors: seq<Motor>
    var strategy: Strategy
    var motorStill: Motor?
    var motorMoving: Motor?
    var ident: Ident

    ghost predicate Valid()
      reads this
    {
      && (forall i :: 0 <= i < |motors| ==> motors[i].index == i)
      && (motorStill != null ==> motorStill in motors)
      && (motorMoving != null ==> motorMoving in motors)
    }

    ghost function StartupModes(n: nat): (modes: seq<Mode>)
      requires n <= |motors|
      reads motors
      ensures |modes| == n && forall i :: 0 <= i < n ==> modes[i] == motors[i].startup
    {
      if n == 0 then [] else StartupModes(n - 1) + [motors[n - 1].startup]
    }

    ghost function RuntimeModes(n: nat): (modes: seq<Mode>)
      requires n <= |motors|
      reads motors
      ensures |modes| == n && forall i :: 0 <= i < n ==> modes[i] == motors[i].runtime
    {
      if n == 0 then [] else RuntimeModes(n - 1) + [motors[n - 1].runtime]
    }

    ghost function View(): Pair
      reads this, motors
    {
      Pair(strategy, if motorStill == null then None else Some(motorStill.index),
           if motorMoving == null then None else Some(motorMoving.index),
           StartupModes(|motors|), RuntimeModes(|motors|), ident)
    }

    constructor (motors: seq<Motor>, first: nat)
      requires forall i :: 0 <= i < |motors| ==> motors[i].index == i
      ensures Valid() && this.motors == motors && Free(View()) && View().strategy == Strategy(Reset, first, first)
    {
      this.motors := motors;
      strategy := Strategy(Reset, first, first);
      motorStill, motorMoving := null, null;
      ident := Ident(Accelerating, 0, []);
    }

    method SwitchAlternation()
      requires Valid()
      modifies this`motorStill, this`motorMoving
      ensures Valid() && View() == Switched(old(View()))
    {
      motorStill, motorMoving := motorMoving, motorStill;
    }

    /** The controllers for the startup of the two motors. */
    method InitStartup()
      requires Valid() && HasPair(View())
      modifies motors
      ensures Valid()
      ensures View() == old(View()).(startup := Modes(old(View()).startup, motorStill.index, motorMoving.index))
    {
      motorStill.startup := Control.Position;
      motorMoving.startup := Control.Trajectory;
    }

    method InitRuntime()
      requires Valid() && HasPair(View())
      modifies motors
      ensures Valid()
      ensures View() == old(View()).(runtime := Modes(old(View()).runtime, motorStill.index, motorMoving.index))
    {
      motorStill.runtime := Control.Position;
      motorMoving.runtime := Control.Trajectory;
    }

    method InterlacedPrepare(s: Sensors) returns (rc: ReturnCode)
      requires Valid() && Inv(View())
      modifies this`motorStill, this`motorMoving, motors
      ensures Valid() && (View(), rc) == Prepared(old(View()), s)
    {
      if |motors| != 2 {
        return Error;
      }
      for i := 0 to |motors|
        modifies this`motorStill, this`motorMoving
        invariant motorMoving == if old(motorMoving) == null && i > 0 then motors[0] else old(motorMoving)
        invariant motorStill == if old(motorStill) == null && i > 1 then motors[1] else old(motorStill)
      {
        if i == 0 && motorMoving == null {
          motorMoving := motors[i];
        } else if i == 1 && motorStill == null {
          motorStill := motors[i];
        }
      }
      InitStartup();
      if s.atNotch {
        rc := Ok;
      } else {
        SwitchAlternation();
        rc := Wait;
      }
    }

    method InterlacedStartup(s: Sensors) returns (rc: ReturnCode)
      requires Valid() && HasPair(View())
      modifies this`motorStill, this`motorMoving, motors
      ensures Valid() && (View(), rc) == Started(old(View()), s)
    {
      rc := Wait;
      if s.aligned {
        if s.atOffset {
          rc := Ok;
        } else {
          SwitchAlternation();
          InitStartup();
        }
      }
    }

    /** The one that moved will hold still, and the other way round. */
    method HandOver()
      requires Valid() && HasPair(View())
      modifies this`motorStill, this`motorMoving, motors
      ensures Valid() && View() == HandedOver(old(View()))
    {
      motorMoving.runtime := Control.Position;
      motorStill.runtime := Control.Trajectory;
      SwitchAlternation();
    }

    method InterlacedLoop(s: Sensors) returns (rc: ReturnCode)
      requires Valid() && HasPair(View())
      modifies this`motorStill, this`motorMoving, motors
      ensures Valid() && (View(), rc) == InterlacedLooped(old(View()), s)
    {
      if s.marginError {
        return Error;
      }
      if s.blockDone {
        HandOver();
      }
      rc := Ok;
    }

    /** The moving motor is measured: the turn of the other, or the end. */
    method NextMotor()
      requires Valid() && HasPair(View())
      modifies this`motorStill, this`motorMoving, this`ident, motors
      ensures Valid()
      ensures var ids := old(ident.ids) + [old(motorMoving).index];
              View() == HandedOver(old(View())).(ident :=
                if |ids| >= MAX_MOTORS then Ident(Done, old(ident.i), ids) else Ident(Accelerating, 0, ids))
    {
      var ids := ident.ids + [motorMoving.index];
      HandOver();
      ident := if |ids| >= MAX_MOTORS then Ident(Done, ident.i, ids) else Ident(Accelerating, 0, ids);
    }

    /** The moving motor stopped: its next step, or the next motor. */
    method NextStep(s: Sensors)
      requires Valid() && HasPair(View()) && ident.phase.Stopping? && s.stopped
      modifies this`motorStill, this`motorMoving, this`ident, motors
      ensures Valid() && View() == Identified(old(View()), s)
    {
      ghost var before := View();
      ident := ident.(i := ident.i + 1);
      assert View() == before.(ident := ident);
      if ident.i >= s.maxSteps {
        NextMotor();
      } else {
        ident := ident.(phase := Accelerating);
      }
    }

    method IdentificationLoop(s: Sensors)
      requires Valid() && HasPair(View())
      modifies this`motorStill, this`motorMoving, this`ident, motors
      ensures Valid() && View() == Identified(old(View()), s)
    {
      match ident.phase
      case Accelerating =>
        if s.accelerated {
          ident := ident.(phase := Coasting);
        }
      case Coasting =>
        if s.slow {
          ident := ident.(phase := Stopping);
        }
      case Stopping =>
        if s.stopped {
          NextStep(s);
        }
      case Done =>
    }

    method InterlacedReset()
      requires Valid()
      modifies this`motorStill, this`motorMoving
      ensures Valid() && View() == PairReset(old(View()))
    {
      for i := 0 to |motors|
        invariant Valid() && View() == if i == 0 then old(View()) else old(View()).(still := None, moving := None)
      {
        motorStill, motorMoving := null, null;
      }
    }

    /** One call of the phase in progress, for a strategy that uses the pair. */
    method CallPhase(s: Sensors) returns (rc: ReturnCode)
      requires Valid() && Inv(View()) && UsesPair(strategy)
      modifies this`motorStill, this`motorMoving, this`ident, motors
      ensures Valid() && (View(), rc) == CalledPair(old(View()), s)
    {
      var identifies := strategy.current == STRATEGY_IDENTIFICATION;
      rc := Ok;
      match strategy.phase
      case Prepare =>
        rc := InterlacedPrepare(s);
      case Startup =>
        rc := InterlacedStartup(s);
      case Init =>
        InitRuntime();
        if identifies {
          ident := Ident(Accelerating, 0, []);
        }
      case Loop =>
        if identifies {
          IdentificationLoop(s);
        } else {
          rc := InterlacedLoop(s);
        }
      case Reset =>
        InterlacedReset();
    }

    /** The phase machine: a phase that returns OK is followed by the next one. */
    method StateMachine(s: Sensors) returns (rc: ReturnCode)
      requires Valid() && Inv(View()) && UsesPair(strategy) && |s.otherStartup| == |s.otherRuntime| == |motors|
      modifies this, motors
      ensures Valid() && View() == Called(old(View()), s) && Inv(View())
    {
      ghost var before := View();
      CallKeeps(before, s);
      rc := CallPhase(s);
      ghost var called := View();
      strategy := strategy.Called(rc);
      assert View() == called.(strategy := strategy);
    }
  }
}
