/** The order of the elements within their stages, over whole histories of a pipeline. */
module PipelineOrder {
  import opened AudioBuffer
  import opened AudioPipeline
  import opened PipelineConfig
  import opened PipelineDataflow
  import opened PipelineHistory

  // Elements, changed one by one

  function Mapped(f: Element -> Element, stage: seq<Element>): (after: seq<Element>)
    ensures |after| == |stage| && forall j :: 0 <= j < |stage| ==> after[j] == f(stage[j])
  {
    seq(|stage|, j requires 0 <= j < |stage| => f(stage[j]))
  }

  function Without(stage: seq<Element>, k: nat): (rest: seq<Element>)
    requires k < |stage|
    ensures |rest| == |stage| - 1
  {
    stage[..k] + stage[k + 1..]
  }

  lemma WithoutOne(stage: seq<Element>, k: nat)
    requires k < |stage|
    ensures multiset(stage) == multiset(Without(stage, k)) + multiset{stage[k]}
    ensures multiset(Without(stage, k)) == multiset(stage) - multiset{stage[k]}
  {
    assert stage == stage[..k] + [stage[k]] + stage[k + 1..];
  }

  lemma MappedWithout(f: Element -> Element, stage: seq<Element>, k: nat)
    requires k < |stage|
    ensures multiset(Mapped(f, stage)) == multiset(Mapped(f, Without(stage, k))) + multiset{f(stage[k])}
  {
    WithoutOne(Mapped(f, stage), k);
    assert Without(Mapped(f, stage), k) == Mapped(f, Without(stage, k));
  }

  lemma Partner(stage: seq<Element>, other: seq<Element>) returns (k: nat)
    requires multiset(stage) == multiset(other) && stage != []
    ensures k < |other| && other[k] == stage[0]
    ensures multiset(Without(stage, 0)) == multiset(Without(other, k))
  {
    assert stage[0] in multiset(other);
    k :| 0 <= k < |other| && other[k] == stage[0];
    WithoutOne(stage, 0);
    WithoutOne(other, k);
  }

  /** Changing each element by the same rule keeps two orders of a stage alike. */
  lemma {:induction false} MappedAlike(f: Element -> Element, stage: seq<Element>, other: seq<Element>)
    requires multiset(stage) == multiset(other)
    ensures multiset(Mapped(f, stage)) == multiset(Mapped(f, other))
    decreases |stage|
  {
    if stage == [] {
      assert |other| == |multiset(other)| == 0;
      assert Mapped(f, stage) == Mapped(f, other);
    } else {
      var k := Partner(stage, other);
      MappedAlike(f, Without(stage, 0), Without(other, k));
      MappedWithout(f, stage, 0);
      MappedWithout(f, other, k);
    }
  }

  // What a run and a reset do to the elements

  function Ran(e: Element): Element {
    if e.config.kind.SaiSource? || e.config.kind.SaiSink? then e.(started := true) else e
  }

  lemma {:induction false} StageRan(stage: seq<Element>, cs: seq<Channel>, env: Env, n: nat)
    requires StageReady(stage, |cs|, env) && n <= |stage| && StageOf(stage, cs, env, n).ok
    ensures forall j :: 0 <= j < |stage| ==>
              StageOf(stage, cs, env, n).stage[j] == if j < n then Ran(stage[j]) else stage[j]
  {
    if n > 0 {
      StageRan(stage, cs, env, n - 1);
    }
  }

  /** A stage that succeeds changes each of its elements by itself. */
  lemma WholeStageRan(stage: seq<Element>, cs: seq<Channel>, env: Env)
    requires StageReady(stage, |cs|, env) && StageOf(stage, cs, env, |stage|).ok
    ensures StageOf(stage, cs, env, |stage|).stage == Mapped(Ran, stage)
  {
    StageRan(stage, cs, env, |stage|);
  }

  lemma {:induction false} PassRan(stages: seq<seq<Element>>, cs: seq<Channel>, env: Env, n: nat)
    requires AllReady(stages, |cs|, env) && n <= |stages| && PassOf(stages, cs, env, n).ok
    ensures forall i :: 0 <= i < |stages| ==>
              PassOf(stages, cs, env, n).stages[i] == if i < n then Mapped(Ran, stages[i]) else stages[i]
  {
    if n > 0 {
      PassRan(stages, cs, env, n - 1);
      WholeStageRan(stages[n - 1], PassOf(stages, cs, env, n - 1).channels, env);
    }
  }

  // Two orders

  ghost predicate Alike(stages: seq<seq<Element>>, others: seq<seq<Element>>) {
    |stages| == |others| && forall i :: 0 <= i < |stages| ==> multiset(stages[i]) == multiset(others[i])
  }

  ghost predicate Same(p: Plant, q: Plant) {
    p.channels == q.channels && Alike(p.stages, q.stages)
  }

  lemma {:induction false} RanAlike(stages: seq<seq<Element>>, others: seq<seq<Element>>, cs: seq<Channel>, env: Env)
    requires Alike(stages, others) && AllReady(stages, |cs|, env) && AllReady(others, |cs|, env)
    requires PassOf(stages, cs, env, |stages|).ok && PassOf(others, cs, env, |others|).ok
    ensures Alike(PassOf(stages, cs, env, |stages|).stages, PassOf(others, cs, env, |others|).stages)
  {
    PassRan(stages, cs, env, |stages|);
    PassRan(others, cs, env, |others|);
    forall i | 0 <= i < |stages|
      ensures multiset(Mapped(Ran, stages[i])) == multiset(Mapped(Ran, others[i]))
    {
      MappedAlike(Ran, stages[i], others[i]);
    }
  }

  // Resets, buffer by buffer

  lemma EmptiedTwice(c: Channel)
    ensures c.Emptied().Emptied() == c.Emptied()
  {
    if 0 < c.ring.Size() && c.ring.silence <= c.ring.Size() {
      var once := c.Emptied().ring;
      OverlayAt(c.ring.base, 0, Quiet(c.ring.silence));
      OverlayAt(once.base, 0, Quiet(c.ring.silence));
      assert Overlay(once.base, 0, Quiet(c.ring.silence)) == once.base;
    }
  }

  /** Emptied or left alone, twice. */
  lemma TwoTurns(c: Channel, middle: Channel, after: Channel, first: bool, second: bool)
    requires middle == if first then c.Emptied() else c
    requires after == if second then middle.Emptied() else middle
    ensures after == if first || second then c.Emptied() else c
  {
    EmptiedTwice(c);
  }

  lemma {:induction false} EmptiedAt(ports: seq<nat>, cs: seq<Channel>, n: nat, b: nat)
    requires n <= |ports| && b < |cs| && forall k :: 0 <= k < |ports| ==> ports[k] < |cs|
    ensures EmptiedAll(ports, cs, n)[b] == if b in ports[..n] then cs[b].Emptied() else cs[b]
  {
    if n > 0 {
      EmptiedAt(ports, cs, n - 1, b);
      EmptiedTwice(cs[b]);
      assert ports[..n] == ports[..n - 1] + [ports[n - 1]];
    }
  }

  lemma {:induction false} StageResetAt(stage: seq<Element>, cs: seq<Channel>, n: nat, b: nat)
    requires n <= |stage| && b < |cs| && StageValid(stage, |cs|)
    ensures StageReset(stage, cs, n)[b] == if WrittenInStage(stage, n, b) then cs[b].Emptied() else cs[b]
  {
    if n > 0 {
      StageResetAt(stage, cs, n - 1, b);
      var ports, before := Emptying(stage[n - 1]), StageReset(stage, cs, n - 1);
      var after := EmptiedAll(ports, before, |ports|);
      EmptiedAt(ports, before, |ports|, b);
      assert ports[..|ports|] == ports;
      WrittenInStageUpTo(stage, n - 1, b);
      TwoTurns(cs[b], before[b], after[b], WrittenInStage(stage, n - 1, b), b in ports);
    }
  }

  lemma WrittenUpTo(stages: seq<seq<Element>>, n: nat, b: nat)
    requires n < |stages|
    ensures WrittenBuffer(stages, n + 1, b) <==>
            WrittenBuffer(stages, n, b) || WrittenInStage(stages[n], |stages[n]|, b)
  {
  }

  lemma WrittenInStageUpTo(stage: seq<Element>, n: nat, b: nat)
    requires n < |stage|
    ensures WrittenInStage(stage, n + 1, b) <==> WrittenInStage(stage, n, b) || b in Emptying(stage[n])
  {
  }

  /** A reset empties exactly the buffers that some element writes. */
  lemma {:induction false} ResetAt(stages: seq<seq<Element>>, cs: seq<Channel>, n: nat, b: nat)
    requires n <= |stages| && b < |cs| && AllStagesValid(stages, |cs|)
    ensures PassReset(stages, cs, n)[b] == if WrittenBuffer(stages, n, b) then cs[b].Emptied() else cs[b]
  {
    if n > 0 {
      ResetAt(stages, cs, n - 1, b);
      var stage, before := stages[n - 1], PassReset(stages, cs, n - 1);
      var after := StageReset(stage, before, |stage|);
      StageResetAt(stage, before, |stage|, b);
      WrittenUpTo(stages, n - 1, b);
      TwoTurns(cs[b], before[b], after[b], WrittenBuffer(stages, n - 1, b), WrittenInStage(stage, |stage|, b));
    }
  }

  lemma WrittenAlike(stage: seq<Element>, other: seq<Element>, b: nat)
    requires multiset(stage) == multiset(other) && WrittenInStage(stage, |stage|, b)
    ensures WrittenInStage(other, |other|, b)
  {
    var j :| 0 <= j < |stage| && b in Emptying(stage[j]);
    assert stage[j] in multiset(other);
  }

  lemma WrittenBufferAlike(stages: seq<seq<Element>>, others: seq<seq<Element>>, b: nat)
    requires Alike(stages, others) && WrittenBuffer(stages, |stages|, b)
    ensures WrittenBuffer(others, |others|, b)
  {
    var i :| 0 <= i < |stages| && WrittenInStage(stages[i], |stages[i]|, b);
    WrittenAlike(stages[i], others[i], b);
  }

  lemma ValidAlike(stages: seq<seq<Element>>, others: seq<seq<Element>>, buffers: nat)
    requires Alike(stages, others) && AllStagesValid(stages, buffers)
    ensures AllStagesValid(others, buffers)
  {
    forall i, j | 0 <= i < |others| && 0 <= j < |others[i]|
      ensures others[i][j].Valid(buffers)
    {
      assert others[i][j] in multiset(stages[i]);
    }
  }

  lemma {:induction false} ResetAlike(stages: seq<seq<Element>>, others: seq<seq<Element>>, cs: seq<Channel>)
    requires Alike(stages, others) && AllStagesValid(stages, |cs|) && AllStagesValid(others, |cs|)
    ensures PassReset(stages, cs, |stages|) == PassReset(others, cs, |others|)
    ensures Alike(ElementsReset(stages, |stages|), ElementsReset(others, |others|))
  {
    forall b: nat | b < |cs|
      ensures PassReset(stages, cs, |stages|)[b] == PassReset(others, cs, |others|)[b]
    {
      ResetAt(stages, cs, |stages|, b);
      ResetAt(others, cs, |others|, b);
      if WrittenBuffer(stages, |stages|, b) {
        WrittenBufferAlike(stages, others, b);
      }
      if WrittenBuffer(others, |others|, b) {
        WrittenBufferAlike(others, stages, b);
      }
    }
    ElementsResetAt(stages, |stages|);
    ElementsResetAt(others, |others|);
    forall i | 0 <= i < |stages|
      ensures multiset(StageElementsReset(stages[i])) == multiset(StageElementsReset(others[i]))
    {
      MappedAlike(ResetOf, stages[i], others[i]);
      assert StageElementsReset(stages[i]) == Mapped(ResetOf, stages[i]);
      assert StageElementsReset(others[i]) == Mapped(ResetOf, others[i]);
    }
  }

  // Histories

  ghost predicate Possible(p: Plant, ev: Event) {
    match ev
    case RunPeriod(env) => AllReady(p.stages, |p.channels|, env)
    case ResetAll => AllStagesValid(p.stages, |p.channels|)
    case Select(_, _, _, _) => true
  }

  /** What an event does to a plant, in whatever order its elements are. */
  ghost function Next(p: Plant, ev: Event): Plant {
    if !Possible(p, ev) then p
    else
      match ev
      case RunPeriod(env) =>
        var pass := PassOf(p.stages, Fresh(p.channels), env, |p.stages|);
        Plant(pass.stages, pass.channels)
      case ResetAll => Plant(ElementsReset(p.stages, |p.stages|), PassReset(p.stages, p.channels, |p.stages|))
      case Select(i, j, output, input) => p.(stages := Selected(p.stages, i, j, output, input))
  }

  /** The same event for two orders: a routing command is addressed to the same element,
      wherever it stands in its stage. */
  ghost predicate Corresponds(p: Plant, q: Plant, ev: Event, other: Event) {
    if ev.Select? then
      && other.Select? && other == ev.(j := other.j)
      && (ev.i < |p.stages| && ev.j < |p.stages[ev.i]| ==>
            ev.i < |q.stages| && other.j < |q.stages[ev.i]| && q.stages[ev.i][other.j] == p.stages[ev.i][ev.j])
      && (!(ev.i < |p.stages| && ev.j < |p.stages[ev.i]|) ==> !(ev.i < |q.stages| && other.j < |q.stages[ev.i]|))
    else other == ev
  }

  lemma {:induction false} RunAlike(c: Config, p: Plant, q: Plant, env: Env)
    requires PipelineHistory.Ready(c, p) && Same(p, q) && env.Valid(|c.buffers|) && Running(c, p, env).ok
    ensures Same(After(c, p, RunPeriod(env)), Next(q, RunPeriod(env)))
  {
    var cs := Fresh(p.channels);
    BuiltReady(p.stages, c, env);
    AllReorderedReady(p.stages, q.stages, |cs|, env);
    AcceptedOrderIrrelevant(c, p.stages, q.stages, cs, env);
    RanAlike(p.stages, q.stages, cs, env);
  }

  lemma {:induction false} ResetsAlike(c: Config, p: Plant, q: Plant)
    requires PipelineHistory.Ready(c, p) && Same(p, q)
    ensures Same(After(c, p, ResetAll), Next(q, ResetAll))
  {
    BuiltAllValid(p.stages, c);
    ValidAlike(p.stages, q.stages, |p.channels|);
    ResetAlike(p.stages, q.stages, p.channels);
  }

  lemma {:induction false} SelectsAlike(p: Plant, q: Plant, ev: Event, other: Event)
    requires Same(p, q) && ev.Select? && Corresponds(p, q, ev, other)
    ensures Alike(Selected(p.stages, ev.i, ev.j, ev.output, ev.input),
                  Selected(q.stages, other.i, other.j, other.output, other.input))
  {
  }

  lemma {:induction false} EventAlike(c: Config, period: nat, p: Plant, q: Plant, ev: Event, other: Event)
    requires PipelineHistory.Ready(c, p) && Same(p, q) && ValidEvent(c, period, ev) && Corresponds(p, q, ev, other)
    requires ev.RunPeriod? ==> Running(c, p, ev.env).ok
    ensures Same(After(c, p, ev), Next(q, other))
  {
    match ev
    case RunPeriod(env) => RunAlike(c, p, q, env);
    case ResetAll => ResetsAlike(c, p, q);
    case Select(_, _, _, _) => SelectsAlike(p, q, ev, other);
  }

  /** Event k of two histories: it is the same for both orders, a run succeeds, and the
      second history goes on with it. */
  ghost predicate GoesAlong(c: Config, period: nat, start: Plant, events: seq<Event>, others: seq<Plant>,
                            otherEvents: seq<Event>, k: nat)
    requires PipelineHistory.Ready(c, start) && ValidEvents(c, period, events)
    requires k < |events| == |otherEvents| && k + 1 < |others|
  {
    var p := PlantAt(c, period, start, events, k);
    && Corresponds(p, others[k], events[k], otherEvents[k])
    && (events[k].RunPeriod? ==> Running(c, p, events[k].env).ok)
    && others[k + 1] == Next(others[k], otherEvents[k])
  }

  /** Over any history of successful runs, resets and routing commands: two pipelines
      that differ in the order of the elements within their stages keep the same buffers,
      and elements that differ in their order only. */
  lemma {:induction false} HistoryOrderIrrelevant(c: Config, period: nat, start: Plant, events: seq<Event>,
                                                  others: seq<Plant>, otherEvents: seq<Event>, n: nat)
    requires PipelineHistory.Ready(c, start) && ValidEvents(c, period, events)
    requires n <= |events| == |otherEvents| && n < |others| && Same(start, others[0])
    requires forall k :: 0 <= k < n ==> GoesAlong(c, period, start, events, others, otherEvents, k)
    ensures Same(PlantAt(c, period, start, events, n), others[n])
  {
    if n > 0 {
      HistoryOrderIrrelevant(c, period, start, events, others, otherEvents, n - 1);
      var p := PlantAt(c, period, start, events, n - 1);
      assert GoesAlong(c, period, start, events, others, otherEvents, n - 1);
      EventAlike(c, period, p, others[n - 1], events[n - 1], otherEvents[n - 1]);
    }
  }
}
