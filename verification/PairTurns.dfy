/** How the two motors of the interlaced strategy take turns, and how the identification
    counts its steps. */
module PairTurns {
  import opened InterlacedPair
  import opened StrategyPhases
  import opened Wrappers

  ghost predicate Exchanged(p: Pair, q: Pair) {
    q.still == p.moving && q.moving == p.still
  }

  // One call

  /** The first call picks the roles in the order of the list; as long as the still motor is
      not at the notch, they are exchanged and the phase is called again. */
  lemma PrepareTakesRoles(p: Pair, s: Sensors)
    requires Inv(p) && UsesPair(p.strategy) && p.strategy.phase.Prepare?
    ensures var (q, rc) := CalledPair(p, s);
            if |p.runtime| != 2 then rc == Error && q == p
            else
              var first := if Free(p) then p.(moving := Some(0), still := Some(1)) else p;
              && (rc == Ok <==> s.atNotch) && (rc == Wait <==> !s.atNotch)
              && (if s.atNotch then (q.still, q.moving) == (first.still, first.moving) else Exchanged(first, q))
  {
  }

  /** Each motor in turn is brought to its offset: the roles are exchanged each time one is
      aligned away from it, and the phase ends when one is aligned at it. */
  lemma StartupTakesTurns(p: Pair, s: Sensors)
    requires Inv(p) && UsesPair(p.strategy) && p.strategy.phase.Startup?
    ensures var (q, rc) := CalledPair(p, s);
            && (rc == Ok <==> s.aligned && s.atOffset) && rc != Error
            && (if s.aligned && !s.atOffset then Exchanged(p, q) else q == p)
  {
  }

  /** In the loop of the interlaced strategy, a motor out of its margin is an error and
      changes nothing; else a finished block, and nothing but it, hands over. */
  lemma LoopHandsOverExactWhen(p: Pair, s: Sensors)
    requires Inv(p) && p.strategy.current == STRATEGY_INTERLACED && p.strategy.phase.Loop?
    ensures var (q, rc) := CalledPair(p, s);
            && (rc == Error <==> s.marginError) && rc != Wait && q.startup == p.startup && q.ident == p.ident
            && (if !s.marginError && s.blockDone then Exchanged(p, q) else q == p)
  {
  }

  /** A reset forgets the roles. */
  lemma ResetForgets(p: Pair, s: Sensors)
    requires Inv(p) && UsesPair(p.strategy) && p.strategy.phase.Reset? && |p.runtime| > 0
    ensures Free(CalledPair(p, s).0) && CalledPair(p, s).1 == Ok
  {
  }

  // Whole loops

  /** Calls of the loop of a strategy, one after the other. */
  ghost predicate Loops(ps: seq<Pair>, ss: seq<Sensors>, strategy: nat) {
    && |ps| == |ss| + 1 && Inv(ps[0]) && ps[0].strategy.current == strategy && ps[0].strategy.phase.Loop?
    && forall k {:trigger ss[k]} :: 0 <= k < |ss| ==>
         && Inv(ps[k]) && |ss[k].otherStartup| == |ss[k].otherRuntime| == |ps[k].runtime|
         && ps[k + 1] == Called(ps[k], ss[k])
  }

  lemma {:induction false} LoopsStay(ps: seq<Pair>, ss: seq<Sensors>, strategy: nat, k: nat)
    requires Loops(ps, ss, strategy) && (strategy == STRATEGY_INTERLACED || strategy == STRATEGY_IDENTIFICATION)
    requires k <= |ss|
    ensures Inv(ps[k]) && ps[k].strategy == ps[0].strategy
  {
    if k > 0 {
      LoopsStay(ps, ss, strategy, k - 1);
      assert ps[k] == Called(ps[k - 1], ss[k - 1]);
      CallKeeps(ps[k - 1], ss[k - 1]);
    }
  }

  /** Blocks finished without an error in the first k calls. */
  function Blocks(ss: seq<Sensors>, k: nat): nat
    requires k <= |ss|
  {
    if k == 0 then 0 else Blocks(ss, k - 1) + if ss[k - 1].blockDone && !ss[k - 1].marginError then 1 else 0
  }

  /** The motors alternate: after an even number of finished blocks, the roles are what
      they were, after an odd number they are exchanged. */
  lemma {:induction false} MotorsAlternate(ps: seq<Pair>, ss: seq<Sensors>, k: nat)
    requires Loops(ps, ss, STRATEGY_INTERLACED) && k <= |ss|
    ensures if Blocks(ss, k) % 2 == 0 then (ps[k].still, ps[k].moving) == (ps[0].still, ps[0].moving)
            else Exchanged(ps[0], ps[k])
  {
    if k > 0 {
      MotorsAlternate(ps, ss, k - 1);
      LoopsStay(ps, ss, STRATEGY_INTERLACED, k - 1);
      assert ps[k] == Called(ps[k - 1], ss[k - 1]);
      LoopHandsOverExactWhen(ps[k - 1], ss[k - 1]);
    }
  }

  // Identification

  /** The moving motor came to rest after a step. */
  ghost predicate Stops(p: Pair, s: Sensors) {
    p.ident.phase.Stopping? && s.stopped
  }

  ghost function StepsDone(ps: seq<Pair>, ss: seq<Sensors>, k: nat): nat
    requires k <= |ss| <= |ps|
  {
    if k == 0 then 0 else StepsDone(ps, ss, k - 1) + if Stops(ps[k - 1], ss[k - 1]) then 1 else 0
  }

  /** Of steps for each motor, the ones done are those of the motors measured and i of the
      moving one; at the end, all. */
  ghost predicate Counted(ident: Ident, steps: nat, done: int) {
    if ident.phase.Done? then done == 2 * steps
    else |ident.ids| < 2 && ident.i < steps && done == (if |ident.ids| == 0 then 0 else steps) + ident.i
  }

  /** A step speeds up, rolls out and comes to rest, each until its own condition; then the
      next step speeds up, or the measurement is done, for good. */
  lemma StepsInOrder(p: Pair, s: Sensors)
    requires Inv(p) && p.strategy.current == STRATEGY_IDENTIFICATION && p.strategy.phase.Loop?
    ensures var before, after := p.ident.phase, CalledPair(p, s).0.ident.phase;
            match before
            case Accelerating => after == if s.accelerated then Coasting else Accelerating
            case Coasting => after == if s.slow then Stopping else Coasting
            case Stopping => if s.stopped then after == Accelerating || after == Done else after == Stopping
            case Done => after == Done
  {
  }

  lemma StepCounted(p: Pair, s: Sensors, steps: nat, done: nat)
    requires Inv(p) && p.strategy.current == STRATEGY_IDENTIFICATION && p.strategy.phase.Loop?
    requires steps == (if s.maxSteps == 0 then 1 else s.maxSteps) && Counted(p.ident, steps, done)
    ensures var (q, rc) := CalledPair(p, s);
            && rc == Ok && Counted(q.ident, steps, done + if Stops(p, s) then 1 else 0)
            && (if |q.ident.ids| > |p.ident.ids| then Exchanged(p, q) && q.ident.ids == p.ident.ids + [p.moving.value]
                else (q.still, q.moving, q.ident.ids) == (p.still, p.moving, p.ident.ids))
  {
  }

  /** Over a whole identification: each motor makes exactly the steps asked for, at least
      one; the measurement is done exactly when both have made them. */
  lemma {:induction false} IdentificationCounts(ps: seq<Pair>, ss: seq<Sensors>, maxSteps: nat, k: nat)
    requires Loops(ps, ss, STRATEGY_IDENTIFICATION) && ps[0].ident == Ident(Accelerating, 0, []) && k <= |ss|
    requires forall i :: 0 <= i < |ss| ==> ss[i].maxSteps == maxSteps
    ensures var steps := if maxSteps == 0 then 1 else maxSteps;
            && Counted(ps[k].ident, steps, StepsDone(ps, ss, k))
            && StepsDone(ps, ss, k) <= 2 * steps
            && (ps[k].ident.phase.Done? <==> StepsDone(ps, ss, k) == 2 * steps)
  {
    if k > 0 {
      IdentificationCounts(ps, ss, maxSteps, k - 1);
      LoopsStay(ps, ss, STRATEGY_IDENTIFICATION, k - 1);
      assert ps[k] == Called(ps[k - 1], ss[k - 1]);
      StepCounted(ps[k - 1], ss[k - 1], if maxSteps == 0 then 1 else maxSteps, StepsDone(ps, ss, k - 1));
    }
  }
}
