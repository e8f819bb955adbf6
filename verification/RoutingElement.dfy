/** The routing element: commands map outputs to inputs, and each run copies one
    period to every output. */
module RoutingElement {
  import opened AudioBuffer
  import opened PipelineDataflow

  const CONNECT_LENGTH: nat := 24
  const DISCONNECT_LENGTH: nat := 20

  /** A command as received; len is its length in bytes. */
  datatype Command =
    | Connect(len: nat, output: nat, input: nat)
    | Disconnect(len: nat, output: nat)
    | Other

  datatype State = State(ins: seq<Ring>, outs: seq<Ring>, selector: seq<nat>, silence: Ring) {
    ghost predicate Valid(period: nat) {
      && |selector| == |outs|
      && (forall k :: 0 <= k < |selector| ==> selector[k] <= |ins|)
      && (forall k :: 0 <= k < |ins| ==> Good(ins[k], period))
      && (forall k :: 0 <= k < |outs| ==> Good(outs[k], period))
      && Good(silence, period) && silence.Contents() == Quiet(period)
    }

    /** What the surrounding stages provide: a period at each input, room at each output. */
    ghost predicate Fed(period: nat) {
      && (forall k :: 0 <= k < |ins| ==> period <= ins[k].fill)
      && forall k :: 0 <= k < |outs| ==> outs[k].fill + period <= outs[k].Size()
    }

    /** The ring an output is copied from. */
    function Source(k: nat): Ring
      requires k < |selector| && selector[k] <= |ins|
    {
      if selector[k] < |ins| then ins[selector[k]] else silence
    }
  }

  // Commands

  predicate Accepts(inputs: nat, outputs: nat, c: Command) {
    match c
    case Connect(len, output, input) => len == CONNECT_LENGTH && output < outputs && input < inputs
    case Disconnect(len, output) => len == DISCONNECT_LENGTH && output < outputs
    case Other => false
  }

  /** The number of inputs stands for silence. */
  function Target(inputs: nat, c: Command): nat
    requires !c.Other?
  {
    if c.Connect? then c.input else inputs
  }

  function AfterCommand(s: State, c: Command): State
    requires |s.selector| == |s.outs|
  {
    if Accepts(|s.ins|, |s.outs|, c) then s.(selector := s.selector[c.output := Target(|s.ins|, c)]) else s
  }

  // Runs

  function Next(r: Ring, period: nat): seq<Sample>
    requires r.read + period <= r.Size()
  {
    r.base[r.read..r.read + period]
  }

  ghost predicate Runnable(s: State, period: nat) {
    s.Valid(period) && s.Fed(period)
  }

  lemma BlockFits(r: Ring, period: nat)
    requires Good(r, period)
    ensures r.read + period <= r.Size() && r.write + period <= r.Size()
  {
    AlignedKept(r.read, r.Size(), period);
    AlignedKept(r.write, r.Size(), period);
  }

  /** The first n outputs served. */
  function Served(s: State, period: nat, n: nat): (outs: seq<Ring>)
    requires Runnable(s, period) && n <= |s.outs|
    ensures |outs| == |s.outs|
    ensures forall k :: 0 <= k < |outs| ==>
              outs[k] == if k < n then ServedOne(s, period, k) else s.outs[k]
  {
    if n == 0 then s.outs else Served(s, period, n - 1)[n - 1 := ServedOne(s, period, n - 1)]
  }

  function ServedOne(s: State, period: nat, k: nat): Ring
    requires Runnable(s, period) && k < |s.outs|
  {
    BlockFits(s.Source(k), period);
    BlockFits(s.outs[k], period);
    Put(s.outs[k], Next(s.Source(k), period))
  }

  /** The first n inputs advanced. */
  function Advanced(ins: seq<Ring>, period: nat, n: nat): (after: seq<Ring>)
    requires n <= |ins| && forall k :: 0 <= k < |ins| ==> period <= ins[k].fill
    ensures |after| == |ins|
    ensures forall k :: 0 <= k < |ins| ==> after[k] == if k < n then Drop(ins[k], period) else ins[k]
  {
    if n == 0 then ins else Advanced(ins, period, n - 1)[n - 1 := Drop(ins[n - 1], period)]
  }

  function AfterRun(s: State, period: nat): State
    requires Runnable(s, period)
  {
    s.(outs := Served(s, period, |s.outs|), ins := Advanced(s.ins, period, |s.ins|))
  }

  /** A run appends, to each output, one period of the input selected for it or of
      silence; each input gives up exactly one period, however many outputs took it. */
  lemma {:induction false} RunCopies(s: State, period: nat)
    requires Runnable(s, period)
    ensures var t := AfterRun(s, period);
            && t.Valid(period) && t.silence == s.silence && t.selector == s.selector
            && (forall k :: 0 <= k < |s.outs| ==>
                  t.outs[k].Contents() == s.outs[k].Contents() +
                    if s.selector[k] < |s.ins| then s.ins[s.selector[k]].Contents()[..period] else Quiet(period))
            && (forall k :: 0 <= k < |s.ins| ==> t.ins[k].Contents() == s.ins[k].Contents()[period..])
  {
    forall k | 0 <= k < |s.outs|
      ensures Good(ServedOne(s, period, k), period)
      ensures ServedOne(s, period, k).Contents() == s.outs[k].Contents() + s.Source(k).Contents()[..period]
    {
      OutputServed(s, period, k);
    }
    forall k | 0 <= k < |s.ins|
      ensures Good(Drop(s.ins[k], period), period)
      ensures Drop(s.ins[k], period).Contents() == s.ins[k].Contents()[period..]
    {
      InputAdvanced(s.ins[k], period);
    }
    assert s.silence.Contents()[..period] == Quiet(period);
  }

  lemma {:induction false} OutputServed(s: State, period: nat, k: nat)
    requires Runnable(s, period) && k < |s.outs|
    ensures Good(ServedOne(s, period, k), period)
    ensures ServedOne(s, period, k).Contents() == s.outs[k].Contents() + s.Source(k).Contents()[..period]
  {
    var source, out := s.Source(k), s.outs[k];
    BlockFits(source, period);
    assert period <= source.fill by {
      if s.selector[k] == |s.ins| {
        assert |s.silence.Contents()| == period;
      }
    }
    BlockReadIsLoop(source, period);
    PutAppends(out, Next(source, period));
    AlignedKept(out.write, out.Size(), period);
  }

  lemma InputAdvanced(r: Ring, period: nat)
    requires Good(r, period) && period <= r.fill
    ensures Good(Drop(r, period), period) && Drop(r, period).Contents() == r.Contents()[period..]
  {
    DropTakes(r, period);
    AlignedKept(r.read, r.Size(), period);
  }

  // Histories

  /** A command, a run, or the other elements moving samples. */
  datatype Step = Ctrl(command: Command) | RunIt | Around(ins: seq<Ring>, outs: seq<Ring>)

  ghost predicate Possible(s: State, period: nat, step: Step) {
    match step
    case Ctrl(_) => true
    case RunIt => s.Fed(period)
    case Around(ins, outs) =>
      && |ins| == |s.ins| && |outs| == |s.outs|
      && (forall k :: 0 <= k < |ins| ==> Good(ins[k], period))
      && forall k :: 0 <= k < |outs| ==> Good(outs[k], period)
  }

  function After(s: State, period: nat, step: Step): (t: State)
    requires s.Valid(period) && Possible(s, period, step)
    ensures t.Valid(period) && t.silence == s.silence && |t.ins| == |s.ins| && |t.outs| == |s.outs|
  {
    match step
    case Ctrl(c) => AfterCommand(s, c)
    case RunIt => RunCopies(s, period); AfterRun(s, period)
    case Around(ins, outs) => s.(ins := ins, outs := outs)
  }

  /** Every step of a history is possible where it comes. */
  ghost predicate Feasible(s: State, period: nat, steps: seq<Step>)
    requires s.Valid(period)
    decreases |steps|, 0
  {
    steps != [] ==>
      var n := |steps| - 1;
      Feasible(s, period, steps[..n]) && Possible(StateAt(s, period, steps[..n]), period, steps[n])
  }

  ghost function StateAt(s: State, period: nat, steps: seq<Step>): (t: State)
    requires s.Valid(period) && Feasible(s, period, steps)
    ensures t.Valid(period) && t.silence == s.silence && |t.ins| == |s.ins| && |t.outs| == |s.outs|
    decreases |steps|, 1
  {
    if steps == [] then s
    else After(StateAt(s, period, steps[..|steps| - 1]), period, steps[|steps| - 1])
  }

  /** The input an output was last connected to, by a whole command for an input there is;
      the number of inputs if it was disconnected since, or never connected. */
  function LastConnected(steps: seq<Step>, inputs: nat, output: nat): nat
    decreases |steps|
  {
    if steps == [] then inputs
    else
      var n := |steps| - 1;
      match steps[n]
      case Ctrl(Connect(len, out, input)) =>
        if len == 24 && out == output && input < inputs then input else LastConnected(steps[..n], inputs, output)
      case Ctrl(Disconnect(len, out)) =>
        if len == 20 && out == output then inputs else LastConnected(steps[..n], inputs, output)
      case _ => LastConnected(steps[..n], inputs, output)
  }

  lemma StepSelects(s: State, period: nat, step: Step, k: nat)
    requires s.Valid(period) && Possible(s, period, step) && k < |s.outs|
    ensures After(s, period, step).selector[k] ==
            match step
            case Ctrl(Connect(len, out, input)) =>
              if len == 24 && out == k && input < |s.ins| then input else s.selector[k]
            case Ctrl(Disconnect(len, out)) => if len == 20 && out == k then |s.ins| else s.selector[k]
            case _ => s.selector[k]
  {
    if step.RunIt? {
      RunCopies(s, period);
    }
  }

  /** Over any history, the state stays valid, the silence is never touched, and each
      output follows the last accepted command for it: silence if there was none. */
  lemma {:induction false} SelectorIsLastCommand(s: State, steps: seq<Step>, period: nat)
    requires s.Valid(period) && Feasible(s, period, steps)
    requires forall k :: 0 <= k < |s.selector| ==> s.selector[k] == |s.ins|
    ensures var t := StateAt(s, period, steps);
            && t.Valid(period) && t.silence == s.silence && |t.ins| == |s.ins| && |t.outs| == |s.outs|
            && forall k :: 0 <= k < |t.outs| ==> t.selector[k] == LastConnected(steps, |s.ins|, k)
    decreases |steps|
  {
    if steps != [] {
      var n := |steps| - 1;
      SelectorIsLastCommand(s, steps[..n], period);
      var before := StateAt(s, period, steps[..n]);
      forall k | 0 <= k < |s.outs|
        ensures After(before, period, steps[n]).selector[k] == LastConnected(steps, |s.ins|, k)
      {
        StepSelects(before, period, steps[n], k);
      }
    }
  }

  /** Over any history, a run appends to each output the next period of the input it was
      last connected to, or silence. */
  lemma {:induction false} RunFollowsCommands(s: State, steps: seq<Step>, period: nat, t: State, k: nat)
    requires s.Valid(period) && Feasible(s, period, steps) && t == StateAt(s, period, steps)
    requires forall k :: 0 <= k < |s.selector| ==> s.selector[k] == |s.ins|
    requires Runnable(t, period) && k < |t.outs| && |t.ins| == |s.ins|
    ensures var input, after := LastConnected(steps, |t.ins|, k), AfterRun(t, period);
            && after.Valid(period) && |after.outs| == |t.outs|
            && after.outs[k].Contents() ==
               t.outs[k].Contents() + if input < |t.ins| then t.ins[input].Contents()[..period] else Quiet(period)
  {
    SelectorIsLastCommand(s, steps, period);
    RunCopies(t, period);
  }

  // The element in place

  class Element {
    const period: nat
    var ins: seq<Ring>
    var outs: seq<Ring>
    var selector: seq<nat>
    var silence: Ring

    ghost function View(): State
      reads this
    {
      State(ins, outs, selector, silence)
    }

    /** All outputs start disconnected; a ring of one period holds the silence. */
    constructor (period: nat, ins: seq<Ring>, outs: seq<Ring>, storage: seq<Sample>)
      requires |storage| == period && IsPow2(period)
      requires forall k :: 0 <= k < |ins| ==> Good(ins[k], period)
      requires forall k :: 0 <= k < |outs| ==> Good(outs[k], period)
      ensures this.period == period && this.ins == ins && this.outs == outs
      ensures View().Valid(period) && forall k :: 0 <= k < |outs| ==> selector[k] == |ins|
    {
      this.period, this.ins, this.outs := period, ins, outs;
      selector := seq(|outs|, k => |ins|);
      silence := Emptied(Ring(storage, 0, 0, 0, period));
      assert period % period == 0;
      EmptiedIsQuiet(Ring(storage, 0, 0, 0, period));
    }

    method Ctrl(c: Command) returns (ok: bool)
      requires View().Valid(period)
      modifies this`selector
      ensures ok == Accepts(|ins|, |outs|, c) && View() == AfterCommand(old(View()), c) && View().Valid(period)
    {
      match c {
        case Connect(len, output, input) =>
          if len != CONNECT_LENGTH || output >= |outs| || input >= |ins| {
            return false;
          }
          selector := selector[output := input];
        case Disconnect(len, output) =>
          if len != DISCONNECT_LENGTH || output >= |outs| {
            return false;
          }
          selector := selector[output := |ins|];
        case Other =>
          return false;
      }
      ok := true;
    }

    method CopyOutputs()
      requires Runnable(View(), period)
      modifies this`outs
      ensures outs == Served(old(View()), period, |old(outs)|)
    {
      ghost var s := View();
      for k := 0 to |outs|
        invariant outs == Served(s, period, k)
      {
        assert outs[k] == s.outs[k];
        var source := if selector[k] < |ins| then ins[selector[k]] else silence;
        BlockFits(source, period);
        BlockFits(outs[k], period);
        outs := outs[k := Put(outs[k], Next(source, period))];
      }
    }

    method AdvanceInputs()
      requires forall k :: 0 <= k < |ins| ==> period <= ins[k].fill
      modifies this`ins
      ensures ins == Advanced(old(ins), period, |old(ins)|)
    {
      for k := 0 to |ins|
        invariant ins == Advanced(old(ins), period, k)
      {
        ins := ins[k := Drop(ins[k], period)];
      }
    }

    method Run()
      requires Runnable(View(), period)
      modifies this`ins, this`outs
      ensures View() == AfterRun(old(View()), period)
    {
      CopyOutputs();
      AdvanceInputs();
    }
  }
}
