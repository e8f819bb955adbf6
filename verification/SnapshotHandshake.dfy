/** Statistics handed over from real-time tasks to the background task that prints
    them: one snapshot and one pending flag per object, one queue for all, over every
    interleaving. */
module SnapshotHandshake {
  import opened CyclicTask
  import IoDevice

  const QUEUE_LENGTH: nat := 16

  /** A message of the queue: to print an object, or of no concern here. */
  datatype Job = Print(j: nat) | Foreign

  /** Where the producer of an object is, in its update. */
  datatype Pc = Ready | Checked | Copied | Marked

  datatype Consumer = Waiting | Busy(job: Job)

  /** Versions stand for the statistics themselves. */
  datatype Object = Object(pc: Pc, pending: bool, live: nat, snapshot: nat)

  datatype State = State(objects: seq<Object>, queue: seq<Job>, consumer: Consumer)

  /** clears: the job of the object ends by clearing its flag, as it should. */
  type Config = seq<bool>

  /** Receive is a frame accepted by the device with this id. */
  datatype Step =
    | Update(j: nat)
    | Receive(j: nat, id: nat, message: Message)
    | Produce(j: nat)
    | Call
    | Consume

  /** The receive path of a device counts a frame it cannot use in the snapshot itself
      instead of in the live statistics. */
  predicate Spoils(step: Step, j: nat) {
    step.Receive? && step.j == j && !IoDevice.Usable(step.id, step.message)
  }

  ghost predicate Enabled(s: State, step: Step) {
    match step
    case Update(j) => j < |s.objects|
    case Receive(j, _, _) => j < |s.objects|
    case Produce(j) => j < |s.objects|
    case Call => |s.queue| < QUEUE_LENGTH
    case Consume => s.consumer.Busy? || s.queue != []
  }

  function With(s: State, j: nat, o: Object): State
    requires j < |s.objects|
  {
    s.(objects := s.objects[j := o])
  }

  function Produced(s: State, j: nat): State
    requires j < |s.objects|
  {
    var o := s.objects[j];
    match o.pc
    case Ready => if o.pending then s else With(s, j, o.(pc := Checked))
    case Checked => With(s, j, o.(pc := Copied, snapshot := o.live))
    case Copied => With(s, j, o.(pc := Marked, pending := true))
    case Marked =>
      if |s.queue| < QUEUE_LENGTH then With(s, j, o.(pc := Ready)).(queue := s.queue + [Print(j)])
      else With(s, j, o.(pc := Ready, pending := false))
  }

  function Consumed(clears: Config, s: State): State
    requires s.consumer.Busy? || s.queue != []
  {
    match s.consumer
    case Waiting => s.(consumer := Busy(s.queue[0]), queue := s.queue[1..])
    case Busy(Foreign) => s.(consumer := Waiting)
    case Busy(Print(j)) =>
      if j < |s.objects| && j < |clears| && clears[j] then
        With(s, j, s.objects[j].(pending := false)).(consumer := Waiting)
      else s.(consumer := Waiting)
  }

  function After(clears: Config, s: State, step: Step): (t: State)
    requires Enabled(s, step)
    ensures |t.objects| == |s.objects|
  {
    match step
    case Update(j) => With(s, j, s.objects[j].(live := s.objects[j].live + 1))
    case Receive(j, _, _) =>
      if Spoils(step, j) then With(s, j, s.objects[j].(snapshot := s.objects[j].snapshot + 1)) else s
    case Produce(j) => Produced(s, j)
    case Call => s.(queue := s.queue + [Foreign])
    case Consume => Consumed(clears, s)
  }

  function Initial(n: nat): State {
    State(seq(n, j => Object(Ready, false, 0, 0)), [], Waiting)
  }

  // Jobs

  function Count(queue: seq<Job>, j: nat): nat {
    if queue == [] then 0 else (if queue[0] == Print(j) then 1 else 0) + Count(queue[1..], j)
  }

  lemma {:induction false} CountAppend(queue: seq<Job>, job: Job, j: nat)
    ensures Count(queue + [job], j) == Count(queue, j) + if job == Print(j) then 1 else 0
    decreases |queue|
  {
    if queue == [] {
      assert queue + [job] == [job];
    } else {
      assert (queue + [job])[1..] == queue[1..] + [job];
      CountAppend(queue[1..], job, j);
    }
  }

  /** Jobs of an object that are queued or running. */
  function Jobs(s: State, j: nat): nat {
    Count(s.queue, j) + if s.consumer == Busy(Print(j)) then 1 else 0
  }

  /** A job exists just when the flag is set, except that the producer sets the flag
      first; while it updates before that, there is no job. A flag that is not cleared
      outlives its job. */
  ghost predicate Fits(clears: bool, o: Object, jobs: nat) {
    && jobs <= 1
    && (o.pc == Checked || o.pc == Copied ==> !o.pending && jobs == 0)
    && (o.pc == Marked ==> o.pending && jobs == 0)
    && (o.pc == Ready && clears ==> (o.pending <==> jobs == 1))
    && (o.pc == Ready && jobs == 1 ==> o.pending)
  }

  ghost predicate Inv(clears: Config, s: State) {
    && |clears| == |s.objects|
    && (forall j :: 0 <= j < |s.objects| ==> Fits(clears[j], s.objects[j], Jobs(s, j)))
    && (s.consumer.Busy? && s.consumer.job.Print? ==> s.consumer.job.j < |s.objects|)
    && forall k :: 0 <= k < |s.queue| && s.queue[k].Print? ==> s.queue[k].j < |s.objects|
  }

  lemma InitialInv(clears: Config)
    ensures Inv(clears, Initial(|clears|))
  {
  }

  lemma {:induction false} ProduceKeeps(clears: Config, s: State, i: nat)
    requires Inv(clears, s) && i < |s.objects|
    ensures Inv(clears, Produced(s, i))
  {
    var t := Produced(s, i);
    forall j | 0 <= j < |s.objects|
      ensures Fits(clears[j], t.objects[j], Jobs(t, j))
    {
      CountAppend(s.queue, Print(i), j);
      assert Fits(clears[j], s.objects[j], Jobs(s, j));
    }
  }

  lemma {:induction false} ConsumeKeeps(clears: Config, s: State)
    requires Inv(clears, s) && Enabled(s, Consume)
    ensures Inv(clears, Consumed(clears, s))
  {
    var t := Consumed(clears, s);
    forall j | 0 <= j < |s.objects|
      ensures Fits(clears[j], t.objects[j], Jobs(t, j))
    {
      assert Fits(clears[j], s.objects[j], Jobs(s, j));
    }
  }

  lemma WriteKeeps(clears: Config, s: State, step: Step)
    requires Inv(clears, s) && Enabled(s, step) && (step.Update? || step.Receive?)
    ensures Inv(clears, After(clears, s, step))
  {
    var t := After(clears, s, step);
    forall j | 0 <= j < |s.objects|
      ensures Fits(clears[j], t.objects[j], Jobs(t, j))
    {
      assert Fits(clears[j], s.objects[j], Jobs(s, j));
    }
  }

  lemma {:induction false} StepKeeps(clears: Config, s: State, step: Step)
    requires Inv(clears, s) && Enabled(s, step)
    ensures Inv(clears, After(clears, s, step))
  {
    match step
    case Update(i) => WriteKeeps(clears, s, step);
    case Receive(_, _, _) => WriteKeeps(clears, s, step);
    case Produce(i) => ProduceKeeps(clears, s, i);
    case Call =>
      var t := After(clears, s, step);
      forall j | 0 <= j < |s.objects|
        ensures Fits(clears[j], t.objects[j], Jobs(t, j))
      {
        CountAppend(s.queue, Foreign, j);
        assert Fits(clears[j], s.objects[j], Jobs(s, j));
      }
    case Consume => ConsumeKeeps(clears, s);
  }

  // Every run

  ghost predicate Run(clears: Config, states: seq<State>, steps: seq<Step>) {
    && |states| == |steps| + 1 && states[0] == Initial(|clears|)
    && forall k {:trigger Moves(clears, states, steps, k)} :: 0 <= k < |steps| ==> Moves(clears, states, steps, k)
  }

  /** Step k of a run leads from one state to the next. */
  ghost predicate Moves(clears: Config, states: seq<State>, steps: seq<Step>, k: nat)
    requires k < |steps| < |states|
  {
    Enabled(states[k], steps[k]) && states[k + 1] == After(clears, states[k], steps[k])
  }

  lemma {:induction false} RunKeeps(clears: Config, states: seq<State>, steps: seq<Step>, k: nat)
    requires Run(clears, states, steps) && k <= |steps|
    ensures Inv(clears, states[k])
    decreases k
  {
    if k == 0 {
      InitialInv(clears);
    } else {
      RunKeeps(clears, states, steps, k - 1);
      assert Moves(clears, states, steps, k - 1);
      StepKeeps(clears, states[k - 1], steps[k - 1]);
    }
  }

  /** In every run, at most one job of an object is queued or running; and its flag says
      whether there is one, outside its own update, if its jobs clear it. */
  lemma OneJob(clears: Config, states: seq<State>, steps: seq<Step>, k: nat, j: nat)
    requires Run(clears, states, steps) && k <= |steps| && j < |clears|
    ensures var s := states[k];
            && |s.objects| == |clears| && Jobs(s, j) <= 1
            && (s.objects[j].pc == Ready && clears[j] ==> (s.objects[j].pending <==> Jobs(s, j) == 1))
  {
    RunKeeps(clears, states, steps, k);
    assert Fits(clears[j], states[k].objects[j], Jobs(states[k], j));
  }

  lemma {:induction false} SnapshotHeld(clears: Config, s: State, step: Step, j: nat)
    requires Inv(clears, s) && Enabled(s, step) && j < |s.objects| && Jobs(s, j) == 1
    ensures After(clears, s, step).objects[j].snapshot ==
            s.objects[j].snapshot + if Spoils(step, j) then 1 else 0
  {
    assert Fits(clears[j], s.objects[j], Jobs(s, j));
  }

  /** Frames that spoil the snapshot of an object, from a step on up to another. */
  function Spoiled(steps: seq<Step>, first: nat, last: nat, j: nat): nat
    requires first <= last <= |steps|
  {
    if first == last then 0 else Spoiled(steps, first, last - 1, j) + if Spoils(steps[last - 1], j) then 1 else 0
  }

  /** From the moment a job is queued up to the end of its print, the snapshot it prints
      changes by the frames that spoil it only. */
  lemma {:induction false} SnapshotChanges(clears: Config, states: seq<State>, steps: seq<Step>, first: nat,
                                           last: nat, j: nat)
    requires Run(clears, states, steps) && first <= last <= |steps| && j < |clears|
    requires forall k :: first <= k < last ==> Jobs(states[k], j) == 1
    ensures |states[first].objects| == |states[last].objects| == |clears|
    ensures states[last].objects[j].snapshot == states[first].objects[j].snapshot + Spoiled(steps, first, last, j)
    decreases last
  {
    if first == last {
      RunKeeps(clears, states, steps, first);
    } else {
      SnapshotChanges(clears, states, steps, first, last - 1, j);
      RunKeeps(clears, states, steps, last - 1);
      assert Moves(clears, states, steps, last - 1);
      SnapshotHeld(clears, states[last - 1], steps[last - 1], j);
    }
  }

  lemma {:induction false} NoneSpoiled(steps: seq<Step>, first: nat, last: nat, j: nat)
    requires first <= last <= |steps|
    ensures Spoiled(steps, first, last, j) == 0 <==> forall k :: first <= k < last ==> !Spoils(steps[k], j)
    decreases last
  {
    if first < last {
      NoneSpoiled(steps, first, last - 1, j);
    }
  }

  /** So it stays what it was exactly when every frame its device accepted was usable. */
  lemma SnapshotHeldExactWhen(clears: Config, states: seq<State>, steps: seq<Step>, first: nat, last: nat, j: nat)
    requires Run(clears, states, steps) && first <= last <= |steps| && j < |clears|
    requires forall k :: first <= k < last ==> Jobs(states[k], j) == 1
    ensures |states[first].objects| == |states[last].objects| == |clears|
    ensures states[last].objects[j].snapshot == states[first].objects[j].snapshot <==>
            forall k :: first <= k < last && steps[k].Receive? && steps[k].j == j ==>
              IoDevice.Usable(steps[k].id, steps[k].message)
  {
    SnapshotChanges(clears, states, steps, first, last, j);
    NoneSpoiled(steps, first, last, j);
    assert forall k :: first <= k < last ==>
        (Spoils(steps[k], j) <==>
         steps[k].Receive? && steps[k].j == j && !IoDevice.Usable(steps[k].id, steps[k].message));
  }

  /** The frames that spoil a snapshot are those that set the network error. */
  lemma SpoilingSetsError(id: nat, s: IoDevice.State, m: Message, j: nat)
    ensures Spoils(Receive(j, id, m), j) <==> IoDevice.AfterReceive(id, s, m).status.network
  {
  }

  /** A run in which a command frame without a command for the device comes in while its
      statistics wait to be printed. */
  lemma SpoiledExample() returns (states: seq<State>, steps: seq<Step>)
    ensures Run([true], states, steps) && |steps| == 5 && |states[4].objects| == |states[5].objects| == 1
    ensures steps[4] == Receive(0, 7, SetIq(Hold, []))
    ensures Jobs(states[4], 0) == 1 && Jobs(states[5], 0) == 1
    ensures states[5].objects[0].snapshot != states[4].objects[0].snapshot
  {
    var ready, o := Initial(1), Object(Ready, false, 0, 0);
    assert ready.objects == [o];
    var checked := State([o.(pc := Checked)], [], Waiting);
    var copied := State([o.(pc := Copied)], [], Waiting);
    var marked := State([o.(pc := Marked, pending := true)], [], Waiting);
    var queued := State([o.(pending := true)], [Print(0)], Waiting);
    assert Produced(marked, 0) == queued;
    var spoiled := State([o.(pending := true, snapshot := 1)], [Print(0)], Waiting);
    var frame := Receive(0, 7, SetIq(Hold, []));
    assert Spoils(frame, 0);
    assert queued.queue[1..] == [] && Count(queued.queue, 0) == 1;
    states := [ready, checked, copied, marked, queued, spoiled];
    steps := [Produce(0), Produce(0), Produce(0), Produce(0), frame];
  }

  /** A queue that is full loses the job and nothing else: the flag is clear again, and
      the next update starts afresh. */
  lemma RefusalRecovers(clears: Config, s: State, j: nat)
    requires Inv(clears, s) && j < |s.objects| && s.objects[j].pc == Marked && |s.queue| >= 16
    ensures var t := After(clears, s, Produce(j));
            && t.objects[j].pc == Ready && !t.objects[j].pending && Jobs(t, j) == 0
            && After(clears, t, Produce(j)).objects[j].pc == Checked
  {
  }

  /** Once the flag of an object is set outside its update and its job does not clear
      it, no step ever clears it, copies to its snapshot or adds a job. */
  lemma StuckStep(clears: Config, s: State, step: Step, j: nat)
    requires Inv(clears, s) && Enabled(s, step) && j < |s.objects| && !clears[j]
    requires s.objects[j].pc == Ready && s.objects[j].pending
    ensures var t := After(clears, s, step);
            && t.objects[j].pc == Ready && t.objects[j].pending
            && t.objects[j].snapshot == s.objects[j].snapshot + (if Spoils(step, j) then 1 else 0)
            && Jobs(t, j) <= Jobs(s, j)
  {
    match step
    case Produce(i) => CountAppend(s.queue, Print(i), j);
    case Call => CountAppend(s.queue, Foreign, j);
    case _ =>
  }

  lemma {:induction false} StuckForever(clears: Config, states: seq<State>, steps: seq<Step>, first: nat, last: nat,
                                        j: nat)
    requires Run(clears, states, steps) && first <= last <= |steps| && j < |clears| && !clears[j]
    requires |states[first].objects| == |clears| && states[first].objects[j].pc == Ready &&
             states[first].objects[j].pending
    ensures var s, t := states[first], states[last];
            && |t.objects| == |clears| && t.objects[j].pc == Ready && t.objects[j].pending
            && t.objects[j].snapshot == s.objects[j].snapshot + Spoiled(steps, first, last, j)
            && Jobs(t, j) <= Jobs(s, j)
    decreases last
  {
    if first < last {
      StuckForever(clears, states, steps, first, last - 1, j);
      RunKeeps(clears, states, steps, last - 1);
      assert Moves(clears, states, steps, last - 1);
      StuckStep(clears, states[last - 1], steps[last - 1], j);
    }
  }

  /** The producer can take a new snapshot after the end of a job exactly when the job
      clears the flag: statistics whose job does not are sent once and never again. */
  lemma SendsAgainExactWhen(clears: Config, s: State, j: nat)
    requires Inv(clears, s) && j < |s.objects| && s.consumer == Busy(Print(j)) && s.objects[j].pc == Ready
    ensures After(clears, After(clears, s, Consume), Produce(j)).objects[j].pc == Checked <==> clears[j]
  {
  }

  // What a snapshot holds

  /** Updates of the live statistics of an object in the first k steps. */
  function Updates(steps: seq<Step>, k: nat, j: nat): nat
    requires k <= |steps|
  {
    if k == 0 then 0 else Updates(steps, k - 1, j) + if steps[k - 1] == Update(j) then 1 else 0
  }

  /** Step k copies the live statistics of an object. */
  predicate Copies(states: seq<State>, steps: seq<Step>, k: nat, j: nat)
    requires k < |steps| <= |states|
  {
    steps[k] == Produce(j) && j < |states[k].objects| && states[k].objects[j].pc == Checked
  }

  /** The last of the first k steps that copies, or none. */
  function LastCopy(states: seq<State>, steps: seq<Step>, k: nat, j: nat): (c: int)
    requires k <= |steps| <= |states|
    ensures -1 <= c < k && (c >= 0 ==> Copies(states, steps, c, j))
  {
    if k == 0 then -1 else if Copies(states, steps, k - 1, j) then k - 1 else LastCopy(states, steps, k - 1, j)
  }

  lemma StepContents(clears: Config, s: State, step: Step, j: nat)
    requires Enabled(s, step) && j < |s.objects|
    ensures var o, after := s.objects[j], After(clears, s, step).objects[j];
            && after.live == o.live + (if step == Update(j) then 1 else 0)
            && (step == Produce(j) && o.pc == Checked ==> after.snapshot == o.live)
            && (!(step == Produce(j) && o.pc == Checked) ==>
                  after.snapshot == o.snapshot + if Spoils(step, j) then 1 else 0)
            && (after.pc == Copied || after.pc == Marked ==>
                  (step == Produce(j) && o.pc == Checked) || o.pc == Copied || o.pc == Marked)
  {
  }

  lemma {:induction false} SpoiledAfter(steps: seq<Step>, first: nat, last: nat, j: nat)
    requires first <= last < |steps|
    ensures Spoiled(steps, first, last + 1, j) ==
            Spoiled(steps, first, last, j) + if Spoils(steps[last], j) then 1 else 0
  {
  }

  lemma {:induction false} LiveCounts(clears: Config, states: seq<State>, steps: seq<Step>, k: nat, j: nat)
    requires Run(clears, states, steps) && k <= |steps| && j < |clears|
    ensures |states[k].objects| == |clears| && states[k].objects[j].live == Updates(steps, k, j)
    decreases k
  {
    if k > 0 {
      LiveCounts(clears, states, steps, k - 1, j);
      assert Moves(clears, states, steps, k - 1);
      StepContents(clears, states[k - 1], steps[k - 1], j);
    }
  }

  /** What the snapshot of an object was made of, after k steps. */
  function Held(states: seq<State>, steps: seq<Step>, k: nat, j: nat): nat
    requires k <= |steps| <= |states|
  {
    var c := LastCopy(states, steps, k, j);
    if c >= 0 then Updates(steps, c, j) + Spoiled(steps, c + 1, k, j) else Spoiled(steps, 0, k, j)
  }

  lemma {:induction false} HeldStep(states: seq<State>, steps: seq<Step>, k: nat, j: nat)
    requires k < |steps| <= |states|
    ensures Held(states, steps, k + 1, j) ==
            if Copies(states, steps, k, j) then Updates(steps, k, j)
            else Held(states, steps, k, j) + if Spoils(steps[k], j) then 1 else 0
  {
    var c := LastCopy(states, steps, k, j);
    SpoiledAfter(steps, if c >= 0 then c + 1 else 0, k, j);
  }

  /** In every run: the live statistics are all updates so far, and the snapshot is the
      live statistics at the last copy, and what spoiled it since. */
  lemma {:induction false} SnapshotIsCopy(clears: Config, states: seq<State>, steps: seq<Step>, k: nat, j: nat)
    requires Run(clears, states, steps) && k <= |steps| && j < |clears|
    ensures |states[k].objects| == |clears| && states[k].objects[j].snapshot == Held(states, steps, k, j)
    decreases k
  {
    if k > 0 {
      SnapshotIsCopy(clears, states, steps, k - 1, j);
      LiveCounts(clears, states, steps, k - 1, j);
      assert Moves(clears, states, steps, k - 1);
      StepContents(clears, states[k - 1], steps[k - 1], j);
      HeldStep(states, steps, k - 1, j);
    }
  }

  /** A job, or an update on its way to one, comes from a copy made while there was none. */
  lemma {:induction false} JobWasCopied(clears: Config, states: seq<State>, steps: seq<Step>, k: nat, j: nat)
    requires Run(clears, states, steps) && k <= |steps| && j < |clears| && |states[k].objects| == |clears|
    requires Jobs(states[k], j) == 1 || states[k].objects[j].pc == Copied || states[k].objects[j].pc == Marked
    ensures var c := LastCopy(states, steps, k, j); c >= 0 && Jobs(states[c], j) == 0
    decreases k
  {
    if k > 0 {
      RunKeeps(clears, states, steps, k - 1);
      var s, step := states[k - 1], steps[k - 1];
      assert Moves(clears, states, steps, k - 1);
      assert Fits(clears[j], s.objects[j], Jobs(s, j));
      if !Copies(states, steps, k - 1, j) {
        StepContents(clears, s, step, j);
        JobsAppear(clears, s, step, j);
        JobWasCopied(clears, states, steps, k - 1, j);
      }
    }
  }

  /** A job appears only where an update ends. */
  lemma JobsAppear(clears: Config, s: State, step: Step, j: nat)
    requires Inv(clears, s) && Enabled(s, step) && j < |s.objects|
    ensures Jobs(After(clears, s, step), j) == 1 ==> Jobs(s, j) == 1 || s.objects[j].pc == Marked
  {
    match step
    case Produce(i) => CountAppend(s.queue, Print(i), j);
    case Call => CountAppend(s.queue, Foreign, j);
    case _ =>
  }

  /** In every run: a job, from its queuing to the end of its print, is about all updates
      made before the last copy, and the frames that spoiled it since. */
  lemma JobHoldsCopy(clears: Config, states: seq<State>, steps: seq<Step>, k: nat, j: nat) returns (c: nat)
    requires Run(clears, states, steps) && k <= |steps| && j < |clears| && Jobs(states[k], j) == 1
    ensures c < k && Copies(states, steps, c, j) && Jobs(states[c], j) == 0
    ensures forall i :: c < i < k ==> !Copies(states, steps, i, j)
    ensures |states[k].objects| == |clears|
    ensures states[k].objects[j].snapshot == Updates(steps, c, j) + Spoiled(steps, c + 1, k, j)
  {
    SnapshotIsCopy(clears, states, steps, k, j);
    JobWasCopied(clears, states, steps, k, j);
    c := LastCopy(states, steps, k, j);
    NoneSince(states, steps, k, j);
  }

  lemma {:induction false} NoneSince(states: seq<State>, steps: seq<Step>, k: nat, j: nat)
    requires k <= |steps| <= |states|
    ensures forall i :: LastCopy(states, steps, k, j) < i < k ==> !Copies(states, steps, i, j)
  {
    if k > 0 {
      NoneSince(states, steps, k - 1, j);
    }
  }
}
