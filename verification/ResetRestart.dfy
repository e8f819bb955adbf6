/** What a reset leaves behind: a period for every other thread, and the interrupt on again,
    or a thread that will turn it on; and the one way in which all of it can stop. */
module ResetRestart {
  import opened ResetBarrier
  import opened Wrappers

  // A period for every other thread

  /** A step of thread a that sends a period to thread i. */
  ghost predicate Resends(states: seq<State>, steps: seq<Step>, k: nat, a: nat, i: nat) {
    && k < |steps| && |states| == |steps| + 1 && states[k].Sized() && states[k + 1].Sized()
    && a < |states[k].pcs| && i < |states[k].pcs| == |states[k + 1].pcs|
    && steps[k].ThreadStep? && steps[k].j == a && states[k].pcs[a] == Resending(i)
    && states[k + 1].queues[i] == if |states[k].queues[i]| < 10 then states[k].queues[i] + [Data]
                                  else states[k].queues[i]
  }

  ghost predicate ResentBy(states: seq<State>, steps: seq<Step>, first: nat, last: nat, a: nat, i: nat) {
    exists k :: first <= k < last && Resends(states, steps, k, a, i)
  }

  /** Restarted, and not yet past thread i. */
  predicate Before(pc: Pc, i: nat) {
    pc.Restart? || (pc.Resending? && pc.i <= i)
  }

  lemma StepResends(states: seq<State>, steps: seq<Step>, n: nat, k: nat, a: nat, i: nat)
    requires Run(states, steps, n) && k < |steps| && a < n && i < n && i != a
    requires |states[k].pcs| == n && Before(states[k].pcs[a], i)
    ensures |states[k + 1].pcs| == n && (Before(states[k + 1].pcs[a], i) || Resends(states, steps, k, a, i))
  {
    assert states[k].Sized() && Enabled(states[k], steps[k]) && states[k + 1] == After(states[k], steps[k]);
  }

  lemma {:induction false} BeforeOrResent(states: seq<State>, steps: seq<Step>, n: nat, first: nat, last: nat, a: nat,
                                          i: nat)
    requires Run(states, steps, n) && first <= last <= |steps| && a < n && i < n && i != a
    requires |states[first].pcs| == n && states[first].pcs[a] == Restart
    ensures |states[last].pcs| == n && (Before(states[last].pcs[a], i) || ResentBy(states, steps, first, last, a, i))
    decreases last
  {
    SizeStays(states, steps, n, last);
    if first < last {
      BeforeOrResent(states, steps, n, first, last - 1, a, i);
      if Before(states[last - 1].pcs[a], i) {
        StepResends(states, steps, n, last - 1, a, i);
      }
    }
  }

  /** In every run: a thread that passed the barrier goes back to sleep only after it sent a
      period to every other thread, which a full queue alone refuses. */
  lemma EveryOtherResent(states: seq<State>, steps: seq<Step>, n: nat, first: nat, last: nat, a: nat, i: nat)
    requires Run(states, steps, n) && first <= last <= |steps| && a < n && i < n && i != a
    requires |states[first].pcs| == n && states[first].pcs[a] == Restart
    requires |states[last].pcs| == n && states[last].pcs[a].Idle?
    ensures ResentBy(states, steps, first, last, a, i)
  {
    BeforeOrResent(states, steps, n, first, last, a, i);
  }

  // The interrupt

  /** Thread 0 has a period to run, or runs one, or failed one. */
  predicate Busy(s: State)
    requires s.Sized()
  {
    Data in s.queues[0] || s.pcs[0] == Running(Data) || s.pcs[0] == TryLock
  }

  /** A reset that will turn the interrupt on, or send thread 0 a period. */
  predicate Promised(s: State)
    requires s.Sized()
  {
    s.lock.Some? && s.lock.value < |s.pcs| &&
    match s.pcs[s.lock.value]
    case Resending(i) => i == 0 && s.lock.value != 0
    case _ => true
  }

  /** The interrupt is on, or somebody has still to turn it on. */
  predicate Alive(s: State)
    requires s.Sized()
  {
    s.irq || Busy(s) || Promised(s)
  }

  /** Thread 0 failed and finds a reset in progress that has already served it, with the
      interrupt off and no period waiting. */
  predicate GivesUp(s: State, step: Step)
    requires s.Sized()
  {
    && step.ThreadStep? && step.j == 0 && s.pcs[0] == TryLock && s.lock.Some? && !Promised(s)
    && !s.irq && Data !in s.queues[0]
  }

  lemma {:induction false} AllResets(queue: seq<ResetBarrier.Event>)
    requires Data !in queue
    ensures Pending(queue) == |queue|
  {
    if queue != [] {
      AllResets(queue[1..]);
    }
  }

  /** A full queue holds a period. */
  lemma FullHoldsPeriod(s: State, j: nat)
    requires Inv(s) && j < |s.pcs| && |s.queues[j]| >= QUEUE_LENGTH
    ensures Data in s.queues[j]
  {
    assert Outstanding(s, j) == if Expected(s, j) then 1 else 0;
    if Data !in s.queues[j] {
      AllResets(s.queues[j]);
    }
  }

  lemma InterruptAlive(s: State)
    requires Inv(s) && s.irq
    ensures Alive(After(s, Interrupt))
  {
    var t := After(s, Interrupt);
    if |s.queues[0]| >= QUEUE_LENGTH {
      FullHoldsPeriod(s, 0);
    } else {
      assert t.queues[0][|s.queues[0]|] == Data;
    }
  }

  lemma KeptAtEnd(queue: seq<ResetBarrier.Event>, e: ResetBarrier.Event)
    ensures Data in queue ==> Data in Sent(queue, e)
    ensures |queue| < QUEUE_LENGTH && e == Data ==> Data in Sent(queue, e)
  {
    if |queue| < QUEUE_LENGTH {
      assert (queue + [e])[|queue|] == e;
      assert forall x :: x in queue ==> x in queue + [e];
    }
  }

  /** The steps of the thread that resets. */
  lemma ResetAlive(s: State, a: nat)
    requires Inv(s) && a < |s.pcs| && Resets(s.pcs[a]) && Enabled(s, ThreadStep(a, true)) && Alive(s)
    ensures Alive(ResetStep(s, a))
  {
    match s.pcs[a]
    case Sending(i) =>
      if i == 0 && a != 0 {
        KeptAtEnd(s.queues[0], ResetAsync);
      }
    case Resending(i) =>
      if i == 0 && a != 0 {
        KeptAtEnd(s.queues[0], Data);
        if |s.queues[0]| >= QUEUE_LENGTH {
          FullHoldsPeriod(s, 0);
        }
      }
    case _ =>
  }

  /** The steps of the other threads. */
  lemma OtherAlive(s: State, j: nat, ok: bool)
    requires Inv(s) && j < |s.pcs| && !Resets(s.pcs[j]) && Enabled(s, ThreadStep(j, ok)) && Alive(s)
    ensures Alive(After(s, ThreadStep(j, ok))) <==> !GivesUp(s, ThreadStep(j, ok))
  {
    if j == 0 && s.pcs[0].Idle? {
      assert s.queues[0] == [s.queues[0][0]] + s.queues[0][1..];
    }
  }

  /** What keeps the audio going: the interrupt is on, or somebody has still to turn it on,
      and any step but one keeps it so. */
  lemma StepAliveExactWhen(s: State, step: Step)
    requires Inv(s) && Enabled(s, step) && Alive(s)
    ensures Alive(After(s, step)) <==> !GivesUp(s, step)
  {
    match step
    case Interrupt => InterruptAlive(s);
    case ThreadStep(j, ok) =>
      if Resets(s.pcs[j]) {
        ResetAlive(s, j);
      } else {
        OtherAlive(s, j, ok);
      }
  }

  ghost predicate GoesOn(s: State, step: Step) {
    s.Sized() && !GivesUp(s, step)
  }

  ghost predicate NobodyGivesUp(states: seq<State>, steps: seq<Step>, k: nat) {
    k <= |steps| < |states| && forall i {:trigger GoesOn(states[i], steps[i])} :: 0 <= i < k ==>
      GoesOn(states[i], steps[i])
  }

  /** In every run without such a step: whenever thread 0 is asleep with no period waiting
      and no reset is in progress, the interrupt is on. */
  lemma {:induction false} InterruptOnAtRest(states: seq<State>, steps: seq<Step>, n: nat, k: nat)
    requires Run(states, steps, n) && k <= |steps|
    requires NobodyGivesUp(states, steps, k)
    ensures states[k].Sized() && Alive(states[k])
    ensures var s := states[k]; s.lock == None && s.pcs[0].Idle? && Data !in s.queues[0] ==> s.irq
    decreases k
  {
    if k > 0 {
      InterruptOnAtRest(states, steps, n, k - 1);
      RunKeeps(states, steps, n, k - 1);
      assert Enabled(states[k - 1], steps[k - 1]) && states[k] == After(states[k - 1], steps[k - 1]);
      assert GoesOn(states[k - 1], steps[k - 1]);
      StepAliveExactWhen(states[k - 1], steps[k - 1]);
    }
  }

  // A run in which all of it stops

  /** Two threads. Both fail the same period, the second resets, and the first fails again
      the period the reset sends it, before the reset is over. */
  function Stalling(i: nat): State {
    var s := State([Idle, Idle], [[], []], [0, 0], Some(1), false, {}, {});
    var d := s.(done := {0});
    match i
    case 0 => s.(lock := None, irq := true)
    case 1 => s.(lock := None, queues := [[Data], [Data]])
    case 2 => s.(lock := None, queues := [[Data], []], pcs := [Idle, Running(Data)])
    case 3 => s.(lock := None, queues := [[Data], []], pcs := [Idle, TryLock])
    case 4 => s.(queues := [[Data], []], pcs := [Idle, OwnReset])
    case 5 => s.(queues := [[], []], pcs := [Running(Data), OwnReset])
    case 6 => s.(pcs := [TryLock, OwnReset])
    case 7 => s.(pcs := [Idle, OwnReset])
    case 8 => s.(pcs := [Idle, Sending(0)])
    case 9 => s.(pcs := [Idle, Sending(1)], queues := [[ResetAsync], []])
    case 10 => s.(pcs := [Idle, Sending(2)], queues := [[ResetAsync], []])
    case 11 => s.(pcs := [Idle, Waiting(0)], queues := [[ResetAsync], []])
    case 12 => s.(pcs := [Running(ResetAsync), Waiting(0)])
    case 13 => d.(pcs := [Idle, Waiting(0)], sems := [1, 0])
    case 14 => d.(pcs := [Idle, Waiting(1)])
    case 15 => d.(pcs := [Idle, Waiting(2)])
    case 16 => d.(pcs := [Idle, Restart])
    case 17 => d.(pcs := [Idle, Resending(0)])
    case 18 => d.(pcs := [Idle, Resending(1)], queues := [[Data], []])
    case 19 => d.(pcs := [Running(Data), Resending(1)])
    case 20 => d.(pcs := [TryLock, Resending(1)])
    case 21 => d.(pcs := [Idle, Resending(1)])
    case 22 => d.(pcs := [Idle, Resending(2)])
    case _ => d.(lock := None)
  }

  function StallingStep(i: nat): Step {
    if i == 0 then Interrupt
    else if i in {4, 5, 6, 11, 12, 18, 19, 20} then ThreadStep(0, false)
    else ThreadStep(1, false)
  }

  ghost predicate LeadsOn(i: nat) {
    && Stalling(i).Sized() && Enabled(Stalling(i), StallingStep(i))
    && After(Stalling(i), StallingStep(i)) == Stalling(i + 1)
  }

  lemma OneEach(e: ResetBarrier.Event)
    ensures Sent([], e) == [e] && [e][1..] == []
  {
  }

  lemma BothFail(i: nat)
    requires i < 4
    ensures LeadsOn(i)
  {
    OneEach(Data);
    OneEach(ResetAsync);
    var r, t := After(Stalling(i), StallingStep(i)), Stalling(i + 1);
    assert r.pcs == t.pcs && r.queues == t.queues && r.sems == t.sems;
  }

  lemma SecondResets(i: nat)
    requires 4 <= i < 8
    ensures LeadsOn(i)
  {
    OneEach(Data);
    OneEach(ResetAsync);
    var r, t := After(Stalling(i), StallingStep(i)), Stalling(i + 1);
    assert r.pcs == t.pcs && r.queues == t.queues && r.sems == t.sems;
  }

  lemma FirstAsked(i: nat)
    requires 8 <= i < 12
    ensures LeadsOn(i)
  {
    OneEach(Data);
    OneEach(ResetAsync);
    var r, t := After(Stalling(i), StallingStep(i)), Stalling(i + 1);
    assert r.pcs == t.pcs && r.queues == t.queues && r.sems == t.sems;
  }

  lemma FirstAnswers(i: nat)
    requires 12 <= i < 15
    ensures LeadsOn(i)
  {
    OneEach(Data);
    OneEach(ResetAsync);
    var r, t := After(Stalling(i), StallingStep(i)), Stalling(i + 1);
    assert r.pcs == t.pcs && r.queues == t.queues && r.sems == t.sems;
  }

  lemma SecondRestarts(i: nat)
    requires 15 <= i < 18
    ensures LeadsOn(i)
  {
    OneEach(Data);
    OneEach(ResetAsync);
    var r, t := After(Stalling(i), StallingStep(i)), Stalling(i + 1);
    assert r.pcs == t.pcs && r.queues == t.queues && r.sems == t.sems;
  }

  lemma FirstFailsAgain(i: nat)
    requires 18 <= i < 21
    ensures LeadsOn(i)
  {
    OneEach(Data);
    OneEach(ResetAsync);
    var r, t := After(Stalling(i), StallingStep(i)), Stalling(i + 1);
    assert r.pcs == t.pcs && r.queues == t.queues && r.sems == t.sems;
  }

  lemma NothingLeft(i: nat)
    requires 21 <= i < 23
    ensures LeadsOn(i)
  {
    OneEach(Data);
    OneEach(ResetAsync);
    var r, t := After(Stalling(i), StallingStep(i)), Stalling(i + 1);
    assert r.pcs == t.pcs && r.queues == t.queues && r.sems == t.sems;
  }

  lemma StallingGoesOn(i: nat)
    requires i < 23
    ensures LeadsOn(i)
  {
    if i < 4 {
      BothFail(i);
    } else if i < 8 {
      SecondResets(i);
    } else if i < 12 {
      FirstAsked(i);
    } else if i < 15 {
      FirstAnswers(i);
    } else if i < 18 {
      SecondRestarts(i);
    } else if i < 21 {
      FirstFailsAgain(i);
    } else {
      NothingLeft(i);
    }
  }

  /** Such a step happens, and then nothing ever happens again: a run that ends with all
      threads asleep, all queues empty and the interrupt off, where no step is enabled. */
  lemma StallHappens() returns (states: seq<State>, steps: seq<Step>)
    ensures Run(states, steps, 2)
    ensures var s := states[|steps|];
            && s.Sized() && s.lock == None && !s.irq && s.pcs == [Idle, Idle] && s.queues == [[], []]
            && forall step :: !Enabled(s, step)
  {
    states, steps := [Initial(2)], [];
    assert Initial(2) == Stalling(0);
    for i := 0 to 23
      invariant Run(states, steps, 2) && states[|steps|] == Stalling(i)
    {
      StallingGoesOn(i);
      states := OneMore(states, steps, 2, StallingStep(i));
      steps := steps + [StallingStep(i)];
    }
  }
}
