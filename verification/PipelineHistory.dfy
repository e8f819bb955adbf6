/** Histories of a pipeline: runs, some of which fail, resets and routing commands. */
module PipelineHistory {
  import opened AudioBuffer
  import opened AudioPipeline
  import opened PipelineConfig
  import opened PipelineDataflow

  /** Stages and buffers, between two events. */
  datatype Plant = Plant(stages: seq<seq<Element>>, channels: seq<Channel>)

  /** Select maps an output of a routing element to an input, or to silence. */
  datatype Event = RunPeriod(env: Env) | ResetAll | Select(i: nat, j: nat, output: nat, input: nat)

  ghost predicate Ready(c: Config, p: Plant) {
    Accepted(c) && UniqueReaders(c) && Built(p.stages, c) && |p.channels| == |c.buffers|
  }

  ghost predicate ValidEvent(c: Config, period: nat, ev: Event) {
    ev.RunPeriod? ==> ev.env.Valid(|c.buffers|) && ev.env.period == period
  }

  function Selected(stages: seq<seq<Element>>, i: nat, j: nat, output: nat, input: nat): seq<seq<Element>> {
    if i < |stages| && j < |stages[i]| && stages[i][j].config.kind.Routing? && output < |stages[i][j].selector| then
      stages[i := stages[i][j := stages[i][j].(selector := stages[i][j].selector[output := input])]]
    else stages
  }

  /** The run a plant makes of one period. */
  function Running(c: Config, p: Plant, env: Env): (pass: Pass)
    requires Ready(c, p) && env.Valid(|c.buffers|)
  {
    BuiltReady(p.stages, c, env);
    PassOf(p.stages, Fresh(p.channels), env, |p.stages|)
  }

  function After(c: Config, p: Plant, ev: Event): (after: Plant)
    requires Ready(c, p) && (ev.RunPeriod? ==> ev.env.Valid(|c.buffers|))
    ensures Ready(c, after)
  {
    match ev
    case RunPeriod(env) =>
      var pass := Running(c, p, env);
      BuiltReady(p.stages, c, env);
      PassKeepsBuilt(c, p.stages, Fresh(p.channels), env, |p.stages|);
      Plant(pass.stages, pass.channels)
    case ResetAll =>
      BuiltAllValid(p.stages, c);
      ElementsResetAt(p.stages, |p.stages|);
      Plant(ElementsReset(p.stages, |p.stages|), PassReset(p.stages, p.channels, |p.stages|))
    case Select(i, j, output, input) => p.(stages := Selected(p.stages, i, j, output, input))
  }

  lemma BuiltAllValid(stages: seq<seq<Element>>, c: Config)
    requires Accepted(c) && Built(stages, c)
    ensures AllStagesValid(stages, |c.buffers|)
  {
    forall i, j | 0 <= i < |stages| && 0 <= j < |stages[i]|
      ensures stages[i][j].Valid(|c.buffers|)
    {
      BuiltValid(stages, c, i, j);
    }
  }

  lemma {:induction false} PassKeepsBuilt(c: Config, stages: seq<seq<Element>>, cs: seq<Channel>, env: Env, n: nat)
    requires Built(stages, c) && AllReady(stages, |cs|, env) && n <= |stages|
    ensures Built(PassOf(stages, cs, env, n).stages, c)
    ensures forall i :: n <= i < |stages| ==> PassOf(stages, cs, env, n).stages[i] == stages[i]
  {
    if n > 0 {
      PassKeepsBuilt(c, stages, cs, env, n - 1);
      StageKeepsElements(stages[n - 1], PassOf(stages, cs, env, n - 1).channels, env, |stages[n - 1]|);
    }
  }

  // Rings stay good, whatever fails

  lemma {:induction false} RunKeepsGood(e: Element, cs: seq<Channel>, env: Env, b: nat)
    requires AudioPipeline.Ready(e, cs, env) && PortsDistinct(e) && b < |cs| && Good(cs[b].ring, env.period)
    ensures var after := RunOf(e, cs, env).channels[b].ring;
            Good(after, env.period) && SameRing(after, cs[b].ring)
  {
    RunPointwise(e, cs, env);
    TakenGood(e, cs[b], env.period);
    if b in e.config.outputs {
      var k :| 0 <= k < |e.config.outputs| && e.config.outputs[k] == b;
      ProduceGood(cs[b], Supplied(e, cs, env, k));
    }
  }

  lemma {:induction false} StageKeepsGood(stage: seq<Element>, cs: seq<Channel>, env: Env, n: nat, b: nat)
    requires StageReady(stage, |cs|, env) && StageDisjoint(stage) && n <= |stage|
    requires b < |cs| && Good(cs[b].ring, env.period)
    ensures var after := StageOf(stage, cs, env, n).channels[b].ring;
            Good(after, env.period) && SameRing(after, cs[b].ring)
  {
    if n > 0 {
      StageKeepsGood(stage, cs, env, n - 1, b);
      RunKeepsGood(stage[n - 1], StageOf(stage, cs, env, n - 1).channels, env, b);
    }
  }

  lemma {:induction false} PassKeepsGood(stages: seq<seq<Element>>, cs: seq<Channel>, env: Env, n: nat, b: nat)
    requires AllReady(stages, |cs|, env) && Disjoint(stages) && n <= |stages|
    requires b < |cs| && Good(cs[b].ring, env.period)
    ensures var after := PassOf(stages, cs, env, n).channels[b].ring;
            Good(after, env.period) && SameRing(after, cs[b].ring)
  {
    if n > 0 {
      PassKeepsGood(stages, cs, env, n - 1, b);
      StageKeepsGood(stages[n - 1], PassOf(stages, cs, env, n - 1).channels, env, |stages[n - 1]|, b);
    }
  }

  // Histories

  ghost predicate ValidEvents(c: Config, period: nat, events: seq<Event>) {
    forall k :: 0 <= k < |events| ==> ValidEvent(c, period, events[k])
  }

  function PlantAt(c: Config, period: nat, start: Plant, events: seq<Event>, n: nat): (p: Plant)
    requires Ready(c, start) && ValidEvents(c, period, events) && n <= |events|
    ensures Ready(c, p)
  {
    if n == 0 then start else After(c, PlantAt(c, period, start, events, n - 1), events[n - 1])
  }

  /** No run failed since the last reset. */
  ghost predicate Healthy(c: Config, period: nat, start: Plant, events: seq<Event>, n: nat)
    requires Ready(c, start) && ValidEvents(c, period, events) && n <= |events|
  {
    if n == 0 then true
    else
      match events[n - 1]
      case RunPeriod(env) =>
        Healthy(c, period, start, events, n - 1) && Running(c, PlantAt(c, period, start, events, n - 1), env).ok
      case ResetAll => true
      case Select(_, _, _, _) => Healthy(c, period, start, events, n - 1)
  }

  /** A buffer with one writer port and one reader port, on elements that move
      samples. */
  ghost predicate PointToPoint(c: Config, b: nat) {
    && b < |c.buffers|
    && PortsFrom(c.stages, In, 0, b) == 1 && PortsFrom(c.stages, Out, 0, b) == 1
    && forall i, j :: HasPort(c.stages, In, i, j, b) || HasPort(c.stages, Out, i, j, b) ==> !c.stages[i][j].kind.Pll?
  }

  /** A ring that is not shared starts without silence inside. */
  ghost predicate Quiescent(r: Ring, period: nat) {
    Good(r, period) && r.fill == 0 && r.silence == 0
  }

  lemma {:induction false} RunLeavesEmpty(c: Config, p: Plant, env: Env, b: nat) returns (l: Link)
    requires Ready(c, p) && env.Valid(|c.buffers|) && PointToPoint(c, b)
    requires Quiescent(p.channels[b].ring, env.period) && Running(c, p, env).ok
    ensures l.b == b && Linked(p.stages, l)
    ensures AllReady(p.stages, |c.buffers|, env)
    ensures Delivered(p.stages[l.i'][l.j'], Fresh(p.channels)[b], Running(c, p, env).channels[b],
                      PipelineDataflow.Written(p.stages, Fresh(p.channels), env, l))
  {
    BuiltReady(p.stages, c, env);
    AcceptedDisjoint(c, p.stages);
    l := MovingLink(c, p.stages, b);
    assert Empty(Fresh(p.channels)[b], env.period);
    RunDelivers(p.stages, Fresh(p.channels), env, l);
  }

  lemma MovingLink(c: Config, stages: seq<seq<Element>>, b: nat) returns (l: Link)
    requires Accepted(c) && Built(stages, c) && PointToPoint(c, b)
    ensures l.b == b && Linked(stages, l) && stages[l.i'][l.j'].Moves()
  {
    l := AcceptedLink(c, stages, b);
    assert HasPort(c.stages, In, l.i', l.j', b);
    assert c.stages[l.i'][l.j'].Checked();
  }

  lemma {:induction false} PointToPointWritten(c: Config, stages: seq<seq<Element>>, b: nat)
    requires Accepted(c) && Built(stages, c) && PointToPoint(c, b)
    ensures WrittenBuffer(stages, |stages|, b)
  {
    var l := AcceptedLink(c, stages, b);
    assert HasPort(c.stages, Out, l.i, l.j, b);
    assert c.stages[l.i][l.j].Checked();
    assert b in Emptying(stages[l.i][l.j]);
    assert WrittenInStage(stages[l.i], |stages[l.i]|, b);
  }

  lemma {:induction false} ResetLeavesEmpty(c: Config, p: Plant, period: nat, b: nat)
    requires Ready(c, p) && PointToPoint(c, b) && Good(p.channels[b].ring, period) && p.channels[b].ring.silence == 0
    ensures Quiescent(After(c, p, ResetAll).channels[b].ring, period)
    ensures SameRing(After(c, p, ResetAll).channels[b].ring, p.channels[b].ring)
  {
    BuiltAllValid(p.stages, c);
    ResetPointwise(p.stages, p.channels, |p.stages|, b);
    PointToPointWritten(c, p.stages, b);
  }

  /** Over any history, a point to point buffer keeps whole periods, and is empty
      whenever no run failed since the last reset. */
  lemma {:induction false} BufferEmptyWhenHealthy(c: Config, period: nat, start: Plant, events: seq<Event>, n: nat,
                                                  b: nat)
    requires Ready(c, start) && ValidEvents(c, period, events) && n <= |events|
    requires PointToPoint(c, b) && Quiescent(start.channels[b].ring, period)
    ensures var r := PlantAt(c, period, start, events, n).channels[b].ring;
            && Good(r, period) && SameRing(r, start.channels[b].ring)
            && (Healthy(c, period, start, events, n) ==> r.fill == 0)
  {
    if n > 0 {
      BufferEmptyWhenHealthy(c, period, start, events, n - 1, b);
      var p := PlantAt(c, period, start, events, n - 1);
      match events[n - 1]
      case RunPeriod(env) =>
        BuiltReady(p.stages, c, env);
        AcceptedDisjoint(c, p.stages);
        PassKeepsGood(p.stages, Fresh(p.channels), env, |p.stages|, b);
        if Healthy(c, period, start, events, n) {
          var l := RunLeavesEmpty(c, p, env, b);
        }
      case ResetAll =>
        ResetLeavesEmpty(c, p, period, b);
      case Select(_, _, _, _) =>
    }
  }

  /** Over any history of runs, failed runs, resets and routing commands: every run
      that succeeds, with no failure since the last reset, delivers through every
      point to point buffer exactly the period its writer made in that run. */
  lemma {:induction false} HistoryDelivers(c: Config, period: nat, start: Plant, events: seq<Event>, k: nat, b: nat)
    returns (l: Link)
    requires Ready(c, start) && ValidEvents(c, period, events) && k < |events| && events[k].RunPeriod?
    requires PointToPoint(c, b) && Quiescent(start.channels[b].ring, period)
    requires Healthy(c, period, start, events, k + 1)
    ensures var p := PlantAt(c, period, start, events, k);
            var env := events[k].env;
            && l.b == b && Linked(p.stages, l) && AllReady(p.stages, |c.buffers|, env)
            && Delivered(p.stages[l.i'][l.j'], Fresh(p.channels)[b], Running(c, p, env).channels[b],
                         PipelineDataflow.Written(p.stages, Fresh(p.channels), env, l))
  {
    BufferEmptyWhenHealthy(c, period, start, events, k, b);
    l := RunLeavesEmpty(c, PlantAt(c, period, start, events, k), events[k].env, b);
  }
}
