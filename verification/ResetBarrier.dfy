/** The data threads of the audio pipelines: how one that failed resets all of them,
    over every interleaving of their steps and of the interrupt. */
module ResetBarrier {
  import opened Arithmetic
  import opened Wrappers

  const QUEUE_LENGTH: nat := 10

  /** A reset of the failing pipeline itself is called, not queued. */
  datatype Event = Data | ResetAsync

  /** Where a data thread is. The last six are the steps of the thread that resets. */
  datatype Pc =
    | Idle
    | Running(e: Event)
    | TryLock
    | OwnReset
    | Sending(i: nat)
    | Waiting(i: nat)
    | Restart
    | Resending(i: nat)

  predicate Resets(pc: Pc) {
    pc.OwnReset? || pc.Sending? || pc.Waiting? || pc.Restart? || pc.Resending?
  }

  /** done and lost tell, of the reset in progress or the last one, which threads ran
      it and which sends of it a full queue refused. */
  datatype State = State(pcs: seq<Pc>, queues: seq<seq<Event>>, sems: seq<nat>, lock: Option<nat>, irq: bool,
                         done: set<nat>, lost: set<nat>) {
    ghost predicate Sized() {
      |pcs| == |queues| == |sems| && |pcs| > 0
    }
  }

  function Initial(n: nat): State
    requires n > 0
  {
    State(seq(n, j => Idle), seq(n, j => []), seq(n, j => 0), None, true, {}, {})
  }

  // Steps

  /** A step of a thread, with the outcome of the period it runs, if it runs one; or
      the interrupt. */
  datatype Step = ThreadStep(j: nat, ok: bool) | Interrupt

  function Sent(queue: seq<Event>, e: Event): seq<Event> {
    if |queue| < QUEUE_LENGTH then queue + [e] else queue
  }

  function SendAll(queues: seq<seq<Event>>): (sent: seq<seq<Event>>)
    ensures |sent| == |queues| && forall j :: 0 <= j < |queues| ==> sent[j] == Sent(queues[j], Data)
  {
    seq(|queues|, j requires 0 <= j < |queues| => Sent(queues[j], Data))
  }

  ghost predicate Enabled(s: State, step: Step)
    requires s.Sized()
  {
    match step
    case Interrupt => s.irq
    case ThreadStep(j, _) =>
      && j < |s.pcs|
      && match s.pcs[j]
         case Idle => s.queues[j] != []
         case Waiting(i) => i < |s.pcs| && i != j ==> s.sems[i] > 0
         case _ => true
  }

  function After(s: State, step: Step): (t: State)
    requires s.Sized() && Enabled(s, step)
    ensures t.Sized() && |t.pcs| == |s.pcs|
  {
    match step
    case Interrupt => s.(irq := false, queues := SendAll(s.queues))
    case ThreadStep(j, ok) =>
      match s.pcs[j]
      case Idle => s.(pcs := s.pcs[j := Running(s.queues[j][0])], queues := s.queues[j := s.queues[j][1..]])
      case Running(e) => Ran(s, j, e, ok)
      case TryLock =>
        if s.lock == None then s.(pcs := s.pcs[j := OwnReset], lock := Some(j), done := {}, lost := {})
        else s.(pcs := s.pcs[j := Idle])
      case _ => ResetStep(s, j)
  }

  /** The end of a period, which may fail, or of a reset asked for by another thread. */
  function Ran(s: State, j: nat, e: Event, ok: bool): (t: State)
    requires s.Sized() && j < |s.pcs|
    ensures t.Sized() && |t.pcs| == |s.pcs|
  {
    match e
    case Data =>
      if ok then s.(pcs := s.pcs[j := Idle], irq := s.irq || j == 0) else s.(pcs := s.pcs[j := TryLock])
    case ResetAsync =>
      s.(pcs := s.pcs[j := Idle], sems := s.sems[j := s.sems[j] + 1], done := s.done + {j})
  }

  /** One step of the thread that resets: its own pipeline, a request to each other
      one, the wait for each, its own restart, a period for each other one. */
  function ResetStep(s: State, j: nat): (t: State)
    requires s.Sized() && Enabled(s, ThreadStep(j, true)) && Resets(s.pcs[j])
    ensures t.Sized() && |t.pcs| == |s.pcs|
  {
    var n := |s.pcs|;
    match s.pcs[j]
    case OwnReset => s.(pcs := s.pcs[j := Sending(0)])
    case Sending(i) =>
      if i >= n then s.(pcs := s.pcs[j := Waiting(0)])
      else if i == j then s.(pcs := s.pcs[j := Sending(i + 1)])
      else s.(pcs := s.pcs[j := Sending(i + 1)], queues := s.queues[i := Sent(s.queues[i], ResetAsync)],
              lost := if |s.queues[i]| < QUEUE_LENGTH then s.lost else s.lost + {i})
    case Waiting(i) =>
      if i >= n then s.(pcs := s.pcs[j := Restart])
      else if i == j then s.(pcs := s.pcs[j := Waiting(i + 1)])
      else s.(pcs := s.pcs[j := Waiting(i + 1)], sems := s.sems[i := s.sems[i] - 1])
    case Restart => s.(pcs := s.pcs[j := Resending(0)], irq := s.irq || j == 0)
    case Resending(i) =>
      if i >= n then s.(pcs := s.pcs[j := Idle], lock := None)
      else if i == j then s.(pcs := s.pcs[j := Resending(i + 1)])
      else s.(pcs := s.pcs[j := Resending(i + 1)], queues := s.queues[i := Sent(s.queues[i], Data)])
  }

  // What every step keeps

  function Pending(queue: seq<Event>): nat {
    if queue == [] then 0 else (if queue[0] == ResetAsync then 1 else 0) + Pending(queue[1..])
  }

  lemma {:induction false} PendingAppend(queue: seq<Event>, e: Event)
    ensures Pending(queue + [e]) == Pending(queue) + if e == ResetAsync then 1 else 0
    decreases |queue|
  {
    if queue == [] {
      assert queue + [e] == [e];
    } else {
      assert (queue + [e])[1..] == queue[1..] + [e];
      PendingAppend(queue[1..], e);
    }
  }

  /** Requests to a thread that the thread that resets has not taken back yet. */
  function Outstanding(s: State, j: nat): nat
    requires s.Sized() && j < |s.pcs|
  {
    Pending(s.queues[j]) + (if s.pcs[j] == Running(ResetAsync) then 1 else 0) + s.sems[j]
  }

  predicate Expected(s: State, j: nat)
    requires s.Sized() && j < |s.pcs|
  {
    s.lock.Some? && s.lock.value < |s.pcs| && j != s.lock.value && j !in s.lost &&
    match s.pcs[s.lock.value]
    case Sending(i) => j < i
    case Waiting(i) => i <= j
    case _ => false
  }

  /** The progress of the thread that resets fits what is done and lost. */
  ghost predicate Consistent(s: State, a: nat)
    requires s.Sized() && a < |s.pcs|
  {
    match s.pcs[a]
    case OwnReset => s.lost == {}
    case Sending(i) => i <= |s.pcs| && forall j :: j in s.lost ==> j < i && j != a
    case Waiting(i) =>
      && i <= |s.pcs| && (forall j :: j in s.lost ==> i <= j < |s.pcs| && j != a)
      && forall j :: 0 <= j < i && j != a ==> j in s.done
    case Restart => s.lost == {} && forall j :: 0 <= j < |s.pcs| && j != a ==> j in s.done
    case Resending(i) => s.lost == {} && i <= |s.pcs| && forall j :: 0 <= j < |s.pcs| && j != a ==> j in s.done
    case _ => false
  }

  ghost predicate Inv(s: State) {
    && s.Sized()
    && (forall j :: 0 <= j < |s.pcs| ==> (Resets(s.pcs[j]) <==> s.lock == Some(j)))
    && (s.lock.Some? ==> s.lock.value < |s.pcs| && Consistent(s, s.lock.value))
    && (forall j :: 0 <= j < |s.pcs| ==> Outstanding(s, j) == if Expected(s, j) then 1 else 0)
    && (forall j :: 0 <= j < |s.pcs| && s.sems[j] > 0 ==> j in s.done)
  }

  lemma InitialInv(n: nat)
    requires n > 0
    ensures Inv(Initial(n))
  {
  }

  lemma InterruptKeeps(s: State)
    requires Inv(s) && s.irq
    ensures Inv(After(s, Interrupt))
  {
    var t := After(s, Interrupt);
    forall j | 0 <= j < |s.pcs|
      ensures Outstanding(t, j) == Outstanding(s, j) && Expected(t, j) == Expected(s, j)
    {
      PendingAppend(s.queues[j], Data);
    }
  }

  lemma ReceiveKeeps(s: State, j: nat)
    requires Inv(s) && j < |s.pcs| && s.pcs[j].Idle? && s.queues[j] != []
    ensures Inv(After(s, ThreadStep(j, true)))
  {
    var t := After(s, ThreadStep(j, true));
    forall k | 0 <= k < |s.pcs|
      ensures Outstanding(t, k) == Outstanding(s, k) && Expected(t, k) == Expected(s, k)
    {
    }
  }

  lemma RanKeeps(s: State, j: nat, ok: bool)
    requires Inv(s) && j < |s.pcs| && s.pcs[j].Running?
    ensures Inv(After(s, ThreadStep(j, ok)))
  {
    var t := After(s, ThreadStep(j, ok));
    forall k | 0 <= k < |s.pcs|
      ensures Outstanding(t, k) == Outstanding(s, k) && Expected(t, k) == Expected(s, k)
    {
    }
  }

  lemma TryLockKeeps(s: State, j: nat, ok: bool)
    requires Inv(s) && j < |s.pcs| && s.pcs[j].TryLock?
    ensures Inv(After(s, ThreadStep(j, ok)))
  {
    var t := After(s, ThreadStep(j, ok));
    forall k | 0 <= k < |s.pcs|
      ensures Outstanding(t, k) == Outstanding(s, k) && Expected(t, k) == Expected(s, k)
      ensures s.lock == None ==> s.sems[k] == 0
    {
      assert s.lock == None ==> !Expected(s, k);
    }
  }

  lemma SendingKeeps(s: State, a: nat, i: nat)
    requires Inv(s) && a < |s.pcs| && s.pcs[a] == Sending(i)
    ensures Inv(ResetStep(s, a))
  {
    var t := ResetStep(s, a);
    if i < |s.pcs| && i != a {
      PendingAppend(s.queues[i], ResetAsync);
    }
    assert Consistent(t, a);
    forall k | 0 <= k < |s.pcs|
      ensures Outstanding(t, k) == if Expected(t, k) then 1 else 0
    {
      assert Outstanding(s, k) == if Expected(s, k) then 1 else 0;
    }
  }

  lemma WaitingKeeps(s: State, a: nat, i: nat)
    requires Inv(s) && a < |s.pcs| && s.pcs[a] == Waiting(i) && Enabled(s, ThreadStep(a, true))
    ensures Inv(ResetStep(s, a))
  {
    var t := ResetStep(s, a);
    assert i < |s.pcs| ==> Outstanding(s, i) == if Expected(s, i) then 1 else 0;
    forall k | 0 <= k < |s.pcs|
      ensures Outstanding(t, k) == if Expected(t, k) then 1 else 0
    {
      assert Outstanding(s, k) == if Expected(s, k) then 1 else 0;
    }
  }

  lemma ResendingKeeps(s: State, a: nat)
    requires Inv(s) && a < |s.pcs| && (s.pcs[a].OwnReset? || s.pcs[a].Restart? || s.pcs[a].Resending?)
    ensures Inv(ResetStep(s, a))
  {
    var t := ResetStep(s, a);
    forall k | 0 <= k < |s.pcs|
      ensures Outstanding(t, k) == if Expected(t, k) then 1 else 0
    {
      PendingAppend(s.queues[k], Data);
      assert Outstanding(s, k) == if Expected(s, k) then 1 else 0;
    }
  }

  lemma StepKeeps(s: State, step: Step)
    requires Inv(s) && Enabled(s, step)
    ensures Inv(After(s, step))
  {
    match step
    case Interrupt => InterruptKeeps(s);
    case ThreadStep(j, ok) =>
      match s.pcs[j]
      case Idle => ReceiveKeeps(s, j);
      case Running(_) => RanKeeps(s, j, ok);
      case TryLock => TryLockKeeps(s, j, ok);
      case Sending(i) => SendingKeeps(s, j, i);
      case Waiting(i) => WaitingKeeps(s, j, i);
      case _ => ResendingKeeps(s, j);
  }

  // Every run

  ghost predicate Run(states: seq<State>, steps: seq<Step>, n: nat) {
    && n > 0 && |states| == |steps| + 1 && states[0] == Initial(n)
    && forall k {:trigger steps[k]} :: 0 <= k < |steps| ==>
         states[k].Sized() && Enabled(states[k], steps[k]) && states[k + 1] == After(states[k], steps[k])
  }

  lemma {:induction false} RunKeeps(states: seq<State>, steps: seq<Step>, n: nat, k: nat)
    requires Run(states, steps, n) && k <= |steps|
    ensures Inv(states[k])
    decreases k
  {
    if k == 0 {
      InitialInv(n);
    } else {
      RunKeeps(states, steps, n, k - 1);
      StepKeeps(states[k - 1], steps[k - 1]);
    }
  }

  /** Past the barrier: about to restart. */
  predicate Passed(pc: Pc) {
    pc.Restart? || pc.Resending?
  }

  /** In every run: at most one thread resets at a time; it passes the barrier only
      after every other thread ran its reset for this request; and all semaphores are
      zero whenever no reset is in progress, and never above one. */
  lemma BarrierSafe(states: seq<State>, steps: seq<Step>, n: nat, k: nat)
    requires Run(states, steps, n) && k <= |steps|
    ensures var s := states[k];
            && s.Sized()
            && (forall a, b :: 0 <= a < |s.pcs| && 0 <= b < |s.pcs| && Resets(s.pcs[a]) && Resets(s.pcs[b]) ==> a == b)
            && (forall a :: 0 <= a < |s.pcs| && Passed(s.pcs[a]) ==>
                  forall j :: 0 <= j < |s.pcs| && j != a ==> j in s.done)
            && (s.lock == None ==> forall j :: 0 <= j < |s.sems| ==> s.sems[j] == 0)
            && (forall j :: 0 <= j < |s.sems| ==> s.sems[j] <= 1)
  {
    RunKeeps(states, steps, n, k);
    var s := states[k];
    forall j | 0 <= j < |s.sems|
      ensures s.sems[j] <= 1 && (s.lock == None ==> s.sems[j] == 0)
    {
      assert Outstanding(s, j) == if Expected(s, j) then 1 else 0;
    }
  }

  /** What done means: it is emptied when a reset begins, and a thread enters it only by
      running the reset asked for by another. */
  lemma DoneMeans(s: State, step: Step, j: nat)
    requires Inv(s) && Enabled(s, step) && j < |s.pcs| && j !in s.done && j in After(s, step).done
    ensures step.ThreadStep? && step.j == j && s.pcs[j] == Running(ResetAsync)
  {
  }

  lemma LockMeans(s: State, step: Step)
    requires Inv(s) && Enabled(s, step) && s.lock == None && After(s, step).lock.Some?
    ensures After(s, step).done == {} && After(s, step).lost == {}
    ensures step.ThreadStep? && s.pcs[step.j] == TryLock
  {
  }

  // No deadlock

  /** How far a thread is from giving its semaphore: its request moves up the queue, and
      no event takes it more than three steps. */
  function Distance(s: State, i: nat): nat
    requires s.Sized() && i < |s.pcs|
  {
    if s.sems[i] > 0 then 0
    else if s.pcs[i] == Running(ResetAsync) then 1
    else 3 * (Position(s.queues[i]) + 1) + match s.pcs[i]
                                           case Running(_) => 2
                                           case TryLock => 1
                                           case _ => 0
  }

  function Position(queue: seq<Event>): nat {
    if queue == [] || queue[0] == ResetAsync then 0 else 1 + Position(queue[1..])
  }

  lemma {:induction false} PositionStays(queue: seq<Event>, e: Event)
    requires Pending(queue) > 0
    ensures Position(queue + [e]) == Position(queue)
    decreases |queue|
  {
    if queue[0] != ResetAsync {
      assert (queue + [e])[1..] == queue[1..] + [e];
      PositionStays(queue[1..], e);
    }
  }

  /** Work left for the thread that resets: stages, threads still to serve, and the
      distance of the one it waits for. */
  function Stages(s: State, a: nat): nat
    requires s.Sized() && a < |s.pcs|
  {
    match s.pcs[a]
    case OwnReset => 4
    case Sending(_) => 3
    case Waiting(_) => 2
    case Restart => 1
    case _ => 0
  }

  function Left(s: State, a: nat): int
    requires s.Sized() && a < |s.pcs|
  {
    match s.pcs[a]
    case Sending(i) => |s.pcs| - i
    case Waiting(i) => |s.pcs| - i
    case Resending(i) => |s.pcs| - i
    case _ => 0
  }

  function Awaited(s: State, a: nat): nat
    requires s.Sized() && a < |s.pcs|
  {
    match s.pcs[a]
    case Waiting(i) => if i < |s.pcs| && i != a then Distance(s, i) else 0
    case _ => 0
  }

  predicate Less(s: State, t: State, a: nat)
    requires s.Sized() && t.Sized() && a < |s.pcs| && a < |t.pcs|
  {
    || Stages(t, a) < Stages(s, a)
    || (Stages(t, a) == Stages(s, a) && Left(t, a) < Left(s, a))
    || (Stages(t, a) == Stages(s, a) && Left(t, a) == Left(s, a) && Awaited(t, a) < Awaited(s, a))
  }

  /** The thread whose step brings the reset forward: the one awaited, or the one that
      resets. */
  function Mover(s: State, a: nat): nat
    requires s.Sized() && a < |s.pcs|
  {
    match s.pcs[a]
    case Waiting(i) => if i < |s.pcs| && i != a && s.sems[i] == 0 then i else a
    case _ => a
  }

  ghost predicate Resetting(s: State, a: nat) {
    Inv(s) && s.lock == Some(a) && s.lost == {}
  }

  /** As long as no request was refused, some thread can always bring the reset forward:
      not even one that fails meanwhile blocks it, as it does not wait for the lock. */
  lemma NoDeadlock(s: State, a: nat)
    requires Resetting(s, a)
    ensures var m := Mover(s, a); m < |s.pcs| && Enabled(s, ThreadStep(m, true)) && Enabled(s, ThreadStep(m, false))
  {
    var m := Mover(s, a);
    if m != a {
      assert Outstanding(s, m) == if Expected(s, m) then 1 else 0;
    }
  }

  /** Its step, whatever the outcome, ends the reset or leaves less to do. */
  lemma MoverMoves(s: State, a: nat, ok: bool)
    requires Resetting(s, a) && Mover(s, a) < |s.pcs| && Enabled(s, ThreadStep(Mover(s, a), ok))
    ensures var t := After(s, ThreadStep(Mover(s, a), ok)); t.lock == None || Less(s, t, a)
  {
    var m := Mover(s, a);
    assert Outstanding(s, m) == if Expected(s, m) then 1 else 0;
  }

  /** No step of any other thread, nor the interrupt, gives it more to do. */
  lemma OthersDoNotDelay(s: State, a: nat, step: Step)
    requires Resetting(s, a) && Enabled(s, step) && (step.ThreadStep? ==> step.j != Mover(s, a))
    ensures var t := After(s, step);
            t.lock == Some(a) && t.lost == {} && Stages(t, a) == Stages(s, a) && Left(t, a) == Left(s, a) &&
            Awaited(t, a) <= Awaited(s, a)
  {
    var m := Mover(s, a);
    assert Outstanding(s, m) == if Expected(s, m) then 1 else 0;
    if step == Interrupt && Pending(s.queues[m]) > 0 {
      PositionStays(s.queues[m], Data);
    }
  }

  /** A request that a full queue refuses blocks the reset for good: no step gets past
      the thread it was meant for. */
  lemma RefusedBlocks(s: State, a: nat, j: nat, step: Step)
    requires Inv(s) && s.lock == Some(a) && j in s.lost && Enabled(s, step)
    ensures var t := After(s, step); t.lock == Some(a) && j in t.lost && !Passed(t.pcs[a])
  {
    assert j < |s.pcs| && Outstanding(s, j) == if Expected(s, j) then 1 else 0;
  }

  // Whole resets

  /** Over the rest of the run: the lock stays taken, and the barrier is never passed. */
  lemma {:induction false} RefusedForever(states: seq<State>, steps: seq<Step>, n: nat, first: nat, last: nat,
                                          a: nat, j: nat)
    requires Run(states, steps, n) && first <= last <= |steps|
    requires states[first].lock == Some(a) && j in states[first].lost
    ensures states[last].lock == Some(a) && j in states[last].lost
    ensures a < |states[last].pcs| && !Passed(states[last].pcs[a])
    decreases last
  {
    if first < last {
      RefusedForever(states, steps, n, first, last - 1, a, j);
      RunKeeps(states, steps, n, last - 1);
      RefusedBlocks(states[last - 1], a, j, steps[last - 1]);
    } else {
      RunKeeps(states, steps, n, last);
    }
  }

  ghost predicate Bounded(s: State) {
    s.Sized() && forall j :: 0 <= j < |s.queues| ==> |s.queues[j]| <= QUEUE_LENGTH
  }

  lemma {:induction false} RunBounded(states: seq<State>, steps: seq<Step>, n: nat, k: nat)
    requires Run(states, steps, n) && k <= |steps|
    ensures Bounded(states[k])
    decreases k
  {
    if k > 0 {
      RunBounded(states, steps, n, k - 1);
      assert states[k] == After(states[k - 1], steps[k - 1]);
    }
  }

  lemma {:induction false} PositionBounded(queue: seq<Event>)
    ensures Position(queue) <= |queue|
  {
    if queue != [] {
      PositionBounded(queue[1..]);
    }
  }

  /** More than the distance of any thread. */
  const LAP: nat := 3 * QUEUE_LENGTH + 6

  /** The work left as one number. */
  function Work(s: State, a: nat): int
    requires s.Sized() && a < |s.pcs|
  {
    Weighed(Stages(s, a), |s.pcs|, Left(s, a)) + Awaited(s, a)
  }

  function Weighed(stages: nat, n: nat, left: int): int {
    (stages * (n + 1) + left) * LAP
  }

  lemma WorkInRange(s: State, a: nat)
    requires Inv(s) && Bounded(s) && s.lock == Some(a)
    ensures a < |s.pcs| && 0 <= Left(s, a) <= |s.pcs| && Awaited(s, a) < LAP && Stages(s, a) <= 4
  {
    match s.pcs[a]
    case Waiting(i) =>
      if i < |s.pcs| {
        PositionBounded(s.queues[i]);
      }
    case _ =>
  }

  /** A reset takes a bounded number of steps of the movers. */
  lemma WorkBounded(s: State, a: nat)
    requires Inv(s) && Bounded(s) && s.lock == Some(a)
    ensures a < |s.pcs| && 0 <= Work(s, a) < 5 * (|s.pcs| + 1) * LAP
  {
    WorkInRange(s, a);
    var n, x := |s.pcs|, Stages(s, a) * (|s.pcs| + 1) + Left(s, a);
    assert 0 <= Stages(s, a) * (n + 1) <= 4 * (n + 1);
    assert 0 <= x * LAP <= (5 * (n + 1) - 1) * LAP;
  }

  lemma WeighedFalls(stages: nat, n: nat, left: int, stages': nat, left': int)
    requires 0 <= left <= n && 0 <= left' <= n
    requires stages' < stages || (stages' == stages && left' < left)
    ensures Weighed(stages', n, left') + LAP <= Weighed(stages, n, left)
  {
    if stages' < stages {
      MulMonotone(stages' + 1, stages, n + 1);
      assert (stages' + 1) * (n + 1) == stages' * (n + 1) + (n + 1);
    }
    var before, after := stages * (n + 1) + left, stages' * (n + 1) + left';
    assert after + 1 <= before;
  }

  lemma WorkFalls(s: State, t: State, a: nat)
    requires Inv(s) && Bounded(s) && s.lock == Some(a)
    requires Inv(t) && Bounded(t) && t.lock == Some(a) && |t.pcs| == |s.pcs| && Less(s, t, a)
    ensures Work(t, a) < Work(s, a)
  {
    WorkInRange(s, a);
    WorkInRange(t, a);
    if Stages(t, a) != Stages(s, a) || Left(t, a) != Left(s, a) {
      WeighedFalls(Stages(s, a), |s.pcs|, Left(s, a), Stages(t, a), Left(t, a));
    }
  }

  /** The step is one of the mover of the reset of thread a. */
  ghost predicate MovesOn(s: State, step: Step, a: nat) {
    s.Sized() && a < |s.pcs| && step.ThreadStep? && step.j == Mover(s, a)
  }

  ghost function MoverSteps(states: seq<State>, steps: seq<Step>, first: nat, last: nat, a: nat): nat
    requires first <= last <= |steps| <= |states|
  {
    if first == last then 0
    else MoverSteps(states, steps, first, last - 1, a) + if MovesOn(states[last - 1], steps[last - 1], a) then 1 else 0
  }

  /** Thread a holds the lock from a state on up to another. */
  ghost predicate Holds(states: seq<State>, first: nat, last: nat, a: nat)
    requires last < |states|
  {
    forall k :: first <= k <= last ==> states[k].lock == Some(a)
  }

  lemma {:induction false} WorkShrinks(states: seq<State>, steps: seq<Step>, n: nat, first: nat, last: nat, a: nat)
    requires Run(states, steps, n) && first <= last <= |steps| && Holds(states, first, last, a)
    requires forall k :: first <= k <= last ==> states[k].lost == {}
    ensures Inv(states[first]) && Inv(states[last]) && a < |states[first].pcs| && a < |states[last].pcs|
    ensures MoverSteps(states, steps, first, last, a) + Work(states[last], a) <= Work(states[first], a)
    decreases last
  {
    if first == last {
      RunKeeps(states, steps, n, last);
    } else {
      WorkShrinks(states, steps, n, first, last - 1, a);
      StepShrinks(states, steps, n, last - 1, a);
    }
  }

  lemma {:induction false} StepShrinks(states: seq<State>, steps: seq<Step>, n: nat, k: nat, a: nat)
    requires Run(states, steps, n) && k < |steps| && states[k].lock == states[k + 1].lock == Some(a)
    requires states[k].lost == {}
    ensures Inv(states[k]) && Inv(states[k + 1]) && a < |states[k].pcs| == |states[k + 1].pcs|
    ensures Work(states[k + 1], a) <= Work(states[k], a) - if MovesOn(states[k], steps[k], a) then 1 else 0
  {
    RunKeeps(states, steps, n, k);
    RunKeeps(states, steps, n, k + 1);
    RunBounded(states, steps, n, k);
    RunBounded(states, steps, n, k + 1);
    if MovesOn(states[k], steps[k], a) {
      MoverMoves(states[k], a, steps[k].ok);
      WorkFalls(states[k], states[k + 1], a);
    } else {
      OthersDoNotDelay(states[k], a, steps[k]);
    }
  }

  lemma LockGoesOn(s: State, step: Step, a: nat)
    requires Inv(s) && Enabled(s, step) && s.lock == Some(a)
    ensures After(s, step).lock == Some(a) || After(s, step).lock == None
  {
  }

  /** The reset in progress in a state ended up to another. */
  ghost predicate Ended(states: seq<State>, first: nat, last: nat)
    requires last < |states|
  {
    exists k :: first < k <= last && states[k].lock == None
  }

  /** Up to another state, a full queue refused one of its requests. */
  ghost predicate Refused(states: seq<State>, first: nat, last: nat, a: nat)
    requires last < |states|
  {
    exists k :: first <= k <= last && Holds(states, first, k, a) && states[k].lost != {}
  }

  lemma {:induction false} HoldsUnlessEnded(states: seq<State>, steps: seq<Step>, n: nat, first: nat, last: nat, a: nat)
    requires Run(states, steps, n) && first <= last <= |steps|
    requires states[first].lock == Some(a) && !Ended(states, first, last)
    ensures Holds(states, first, last, a)
    decreases last
  {
    if first < last {
      HoldsUnlessEnded(states, steps, n, first, last - 1, a);
      RunKeeps(states, steps, n, last - 1);
      LockGoesOn(states[last - 1], steps[last - 1], a);
    }
  }

  /** In every run: once the movers made as many steps as there was work when a reset
      was in progress, it has ended if and only if none of its requests was refused. */
  lemma {:induction false} EndsExactWhen(states: seq<State>, steps: seq<Step>, n: nat, first: nat, last: nat, a: nat)
    requires Run(states, steps, n) && first <= last <= |steps| && states[first].lock == Some(a)
    requires MoverSteps(states, steps, first, last, a) >= 5 * (n + 1) * LAP
    ensures Ended(states, first, last) <==> !Refused(states, first, last, a)
  {
    if Refused(states, first, last, a) {
      var k :| first <= k <= last && Holds(states, first, k, a) && states[k].lost != {};
      var j :| j in states[k].lost;
      forall i | k <= i <= last
        ensures states[i].lock == Some(a)
      {
        RefusedForever(states, steps, n, k, i, a, j);
      }
    } else if !Ended(states, first, last) {
      HoldsUnlessEnded(states, steps, n, first, last, a);
      forall k | first <= k <= last
        ensures states[k].lost == {}
      {
        assert Holds(states, first, k, a);
      }
      WorkShrinks(states, steps, n, first, last, a);
      WorkAtMost(states, steps, n, first, a);
      WorkAtMost(states, steps, n, last, a);
    }
  }

  lemma WorkAtMost(states: seq<State>, steps: seq<Step>, n: nat, k: nat, a: nat)
    requires Run(states, steps, n) && k <= |steps| && states[k].lock == Some(a)
    ensures Inv(states[k]) && a < |states[k].pcs| && 0 <= Work(states[k], a) < 5 * (n + 1) * LAP
  {
    RunKeeps(states, steps, n, k);
    RunBounded(states, steps, n, k);
    SizeStays(states, steps, n, k);
    WorkBounded(states[k], a);
  }

  lemma {:induction false} SizeStays(states: seq<State>, steps: seq<Step>, n: nat, k: nat)
    requires Run(states, steps, n) && k <= |steps|
    ensures |states[k].pcs| == n
    decreases k
  {
    if k > 0 {
      SizeStays(states, steps, n, k - 1);
      assert states[k] == After(states[k - 1], steps[k - 1]);
    }
  }

  // A run in which a request is refused

  /** Two threads; the second sleeps and has k periods waiting. */
  function Asleep(k: nat): State {
    State([Idle, Idle], [[], Periods(k)], [0, 0], None, true, {}, {})
  }

  function Periods(k: nat): (queue: seq<Event>)
    ensures |queue| == k
  {
    seq(k, i => Data)
  }

  lemma OneMore(states: seq<State>, steps: seq<Step>, n: nat, step: Step) returns (longer: seq<State>)
    requires Run(states, steps, n) && states[|steps|].Sized() && Enabled(states[|steps|], step)
    ensures longer == states + [After(states[|steps|], step)] && Run(longer, steps + [step], n)
  {
    longer := states + [After(states[|steps|], step)];
    forall k | 0 <= k <= |steps|
      ensures longer[k].Sized() && Enabled(longer[k], (steps + [step])[k])
      ensures longer[k + 1] == After(longer[k], (steps + [step])[k])
    {
      assert k < |steps| ==> Enabled(states[k], steps[k]);
    }
  }

  /** In every round, the interrupt sends a period to both threads. */
  lemma {:induction false} AsleepRun(k: nat) returns (states: seq<State>, steps: seq<Step>)
    requires k <= QUEUE_LENGTH
    ensures Run(states, steps, 2) && states[|steps|] == Asleep(k)
  {
    if k == 0 {
      states, steps := [Initial(2)], [];
      assert Initial(2) == Asleep(0);
    } else {
      states, steps := AsleepRun(k - 1);
      AsleepRound(k - 1);
      var interrupted, step := After(Asleep(k - 1), Interrupt), ThreadStep(0, true);
      states := OneMore(states, steps, 2, Interrupt);
      states := OneMore(states, steps + [Interrupt], 2, step);
      states := OneMore(states, steps + [Interrupt] + [step], 2, step);
      steps := steps + [Interrupt] + [step] + [step];
    }
  }

  lemma AsleepRound(k: nat)
    requires k < QUEUE_LENGTH
    ensures var s := After(Asleep(k), Interrupt);
            && Enabled(s, ThreadStep(0, true))
            && var t := After(s, ThreadStep(0, true));
               Enabled(t, ThreadStep(0, true)) && After(t, ThreadStep(0, true)) == Asleep(k + 1)
  {
    assert Periods(k) + [Data] == Periods(k + 1);
    var s := After(Asleep(k), Interrupt);
    assert Sent([], Data) == [Data] && Sent(Periods(k), Data) == Periods(k + 1) && [Data][1..] == [];
    assert s.queues == [[Data], Periods(k + 1)];
    var t := After(s, ThreadStep(0, true));
    assert t.queues == [[], Periods(k + 1)];
    assert t.pcs == [Running(Data), Idle];
    assert After(t, ThreadStep(0, true)).pcs == [Idle, Idle];
  }

  /** How the first thread fails and resets, when the queue of the second is full. */
  function Failing(i: nat): State {
    var full := Periods(QUEUE_LENGTH);
    var s := Asleep(QUEUE_LENGTH).(irq := false);
    match i
    case 0 => Asleep(QUEUE_LENGTH)
    case 1 => s.(queues := [[Data], full])
    case 2 => s.(pcs := [Running(Data), Idle])
    case 3 => s.(pcs := [TryLock, Idle])
    case 4 => s.(pcs := [OwnReset, Idle], lock := Some(0))
    case 5 => s.(pcs := [Sending(0), Idle], lock := Some(0))
    case 6 => s.(pcs := [Sending(1), Idle], lock := Some(0))
    case _ => s.(pcs := [Sending(2), Idle], lock := Some(0), lost := {1})
  }

  function FailingStep(i: nat): Step {
    if i == 0 then Interrupt else ThreadStep(0, false)
  }

  lemma FailingGoesOn(i: nat)
    requires i < 7
    ensures Failing(i).Sized() && Enabled(Failing(i), FailingStep(i))
    ensures After(Failing(i), FailingStep(i)) == Failing(i + 1)
  {
    var s, t := After(Failing(i), FailingStep(i)), Failing(i + 1);
    match i
    case 0 =>
      assert Sent([], Data) == [Data];
      assert s.queues == t.queues;
    case 1 =>
      assert [Data][1..] == [];
      assert s.queues == t.queues && s.pcs == t.pcs;
    case 6 =>
      assert s.queues == t.queues && s.pcs == t.pcs;
    case _ =>
      assert s.pcs == t.pcs;
  }

  /** A run that reaches a refused request. */
  lemma RefusalHappens() returns (states: seq<State>, steps: seq<Step>)
    ensures Run(states, steps, 2) && states[|steps|].lock == Some(0) && 1 in states[|steps|].lost
  {
    states, steps := AsleepRun(QUEUE_LENGTH);
    for i := 0 to 7
      invariant Run(states, steps, 2) && states[|steps|] == Failing(i)
    {
      FailingGoesOn(i);
      states := OneMore(states, steps, 2, FailingStep(i));
      steps := steps + [FailingStep(i)];
    }
  }
}
