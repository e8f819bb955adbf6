/** What goes into a pipeline at its sources and comes out at its sinks: when a SAI element
    counts as started, which runs fail, and which samples cross a buffer. */
module PipelineSources {
  import opened AudioBuffer
  import opened AudioPipeline
  import opened PipelineConfig
  import opened PipelineDataflow
  import opened PipelineHistory
  import opened Wrappers

  predicate IsSai(kind: Kind) {
    kind == SaiSource || kind == SaiSink
  }

  ghost predicate Silent(p: seq<Sample>, period: nat) {
    |p| == period && forall i :: 0 <= i < period ==> p[i] == 0.0
  }

  /** What a source makes in a run: a SAI element that is running gives what its hardware
      captured, one that only starts gives silence, and a generator gives what it made. */
  ghost predicate Makes(kind: Kind, running: bool, captured: seq<Sample>, period: nat, p: seq<Sample>) {
    match kind
    case SaiSource => if running then p == captured else Silent(p, period)
    case DtmfSource => p == captured
    case SineSource => p == captured
    case _ => true
  }

  ghost predicate IsSource(kind: Kind) {
    kind == SaiSource || kind == DtmfSource || kind == SineSource
  }

  /** The ports each kind of element is accepted with. */
  lemma AcceptedKinds(c: Config, i: nat, j: nat)
    requires Accepted(c) && i < |c.stages| && j < |c.stages[i]|
    ensures var e := c.stages[i][j];
            && e.kind != Unknown
            && (IsSource(e.kind) ==> |e.inputs| == 0 && e.sane)
            && (e.kind == DtmfSource || e.kind == SineSource ==> |e.outputs| == 1)
            && (e.kind == SaiSink ==> |e.outputs| == 0 && e.sane)
            && (e.kind == Routing ==> |e.inputs| > 0 && |e.outputs| > 0)
  {
    assert c.stages[i][j].Checked();
  }

  // One run

  /** The hardware of a running SAI element is out of its limits. */
  predicate Broken(e: Element, env: Env) {
    IsSai(e.config.kind) && e.started && e.id in env.faulty
  }

  /** No one of the first n elements of a stage is broken. */
  ghost predicate NoneBroken(stage: seq<Element>, env: Env, n: nat)
    requires n <= |stage|
  {
    forall j :: 0 <= j < n ==> !Broken(stage[j], env)
  }

  lemma StageSucceedsWhenSound(stage: seq<Element>, cs: seq<Channel>, env: Env, n: nat)
    requires StageReady(stage, |cs|, env) && n <= |stage|
    ensures StageOf(stage, cs, env, n).ok <==> NoneBroken(stage, env, n)
  {
    StageSucceeds(stage, cs, env, n);
    assert forall j :: 0 <= j < n ==> (stage[j].Fails(env) <==> Broken(stage[j], env));
  }

  /** A run succeeds exactly when the hardware of every running SAI element is in its
      limits. */
  lemma {:induction false} RunSucceedsExactWhen(stages: seq<seq<Element>>, cs: seq<Channel>, env: Env, n: nat)
    requires AllReady(stages, |cs|, env) && n <= |stages|
    ensures PassOf(stages, cs, env, n).ok <==> forall i :: 0 <= i < n ==> NoneBroken(stages[i], env, |stages[i]|)
  {
    if n > 0 {
      RunSucceedsExactWhen(stages, cs, env, n - 1);
      StageSucceedsWhenSound(stages[n - 1], PassOf(stages, cs, env, n - 1).channels, env, |stages[n - 1]|);
    }
  }

  /** No element up to (i, j), in the order they run in, is broken. */
  ghost predicate Reached(stages: seq<seq<Element>>, env: Env, i: nat, j: nat)
    requires i < |stages| && j < |stages[i]|
  {
    (forall x :: 0 <= x < i ==> NoneBroken(stages[x], env, |stages[x]|)) && NoneBroken(stages[i], env, j + 1)
  }

  lemma TurnStarts(e: Element, cs: seq<Channel>, env: Env)
    requires AudioPipeline.Ready(e, cs, env)
    ensures RunOf(e, cs, env).element.started <==> e.started || (IsSai(e.config.kind) && !Broken(e, env))
  {
  }

  lemma {:induction false} StageStarts(stage: seq<Element>, cs: seq<Channel>, env: Env, n: nat, j: nat)
    requires StageReady(stage, |cs|, env) && j < n <= |stage|
    ensures StageOf(stage, cs, env, n).stage[j].started <==>
            stage[j].started || (IsSai(stage[j].config.kind) && NoneBroken(stage, env, j + 1))
    decreases n
  {
    if j < n - 1 {
      StageStarts(stage, cs, env, n - 1, j);
    } else {
      StageSucceedsWhenSound(stage, cs, env, j);
      StageKeepsElements(stage, cs, env, j);
      TurnStarts(stage[j], StageOf(stage, cs, env, j).channels, env);
    }
  }

  /** A SAI element has started after a run exactly when it had before, or the run reached
      it; no other element ever starts. */
  lemma {:induction false} PassStarts(stages: seq<seq<Element>>, cs: seq<Channel>, env: Env, n: nat, i: nat, j: nat)
    requires AllReady(stages, |cs|, env) && i < n <= |stages| && j < |stages[i]|
    ensures |PassOf(stages, cs, env, n).stages[i]| == |stages[i]|
    ensures PassOf(stages, cs, env, n).stages[i][j].started <==>
            stages[i][j].started || (IsSai(stages[i][j].config.kind) && Reached(stages, env, i, j))
    decreases n
  {
    var before := PassOf(stages, cs, env, n - 1);
    RunSucceedsExactWhen(stages, cs, env, n - 1);
    PassKeepsLater(stages, cs, env, n - 1);
    if i < n - 1 {
      PassStarts(stages, cs, env, n - 1, i, j);
    } else if before.ok {
      StageStarts(stages[i], before.channels, env, |stages[i]|, j);
    }
  }

  /** What a run puts into a linked buffer, by its writer. */
  lemma RunMakes(stages: seq<seq<Element>>, cs: seq<Channel>, env: Env, l: Link)
    requires AllReady(stages, |cs|, env) && Disjoint(stages) && Linked(stages, l) && l.b < |cs|
    requires Empty(cs[l.b], env.period) && PassOf(stages, cs, env, |stages|).ok
    ensures var w, p := stages[l.i][l.j], PassOf(stages, cs, env, |stages|).channels[l.b].produced;
            && Makes(w.config.kind, w.started, env.capture[l.b], env.period, p)
            && (w.config.kind == Routing && w.selector[l.m] >= |w.config.inputs| ==> Silent(p, env.period))
  {
    RunDelivers(stages, cs, env, l);
  }

  /** What the writer of one buffer makes crosses a routing element and arrives in another. */
  lemma {:induction false} RunRoutes(stages: seq<seq<Element>>, cs: seq<Channel>, env: Env, into: Link, out: Link)
    requires AllReady(stages, |cs|, env) && Disjoint(stages) && PassOf(stages, cs, env, |stages|).ok
    requires Linked(stages, into) && Linked(stages, out) && into.b < |cs| && out.b < |cs|
    requires Empty(cs[into.b], env.period) && Empty(cs[out.b], env.period)
    requires (into.i', into.j') == (out.i, out.j)
    requires var e := stages[out.i][out.j];
             && e.config.kind.Routing? && e.selector[out.m] < |e.config.inputs|
             && e.config.inputs[e.selector[out.m]] == into.b
    ensures var w, p := stages[into.i][into.j], PassOf(stages, cs, env, |stages|).channels[out.b].produced;
            Makes(w.config.kind, w.started, env.capture[into.b], env.period, p)
  {
    RunMakes(stages, cs, env, into);
    RoutingForwards(stages, cs, env, into, out);
  }

  // Histories

  /** Event k is a run that reached the element. */
  ghost predicate Reaches(c: Config, period: nat, start: Plant, events: seq<Event>, k: nat, i: nat, j: nat)
    requires PipelineHistory.Ready(c, start) && ValidEvents(c, period, events) && i < |start.stages|
  {
    && k < |events| && events[k].RunPeriod?
    && var stages := PlantAt(c, period, start, events, k).stages;
       i < |stages| && j < |stages[i]| && Reached(stages, events[k].env, i, j)
  }

  ghost predicate NoReset(events: seq<Event>, from: nat, to: nat)
    requires to <= |events|
  {
    forall k :: from <= k < to ==> !events[k].ResetAll?
  }

  /** The element ran since the last reset, or since the start, where it may have run before. */
  ghost predicate RanSinceReset(c: Config, period: nat, start: Plant, events: seq<Event>, n: nat, i: nat, j: nat)
    requires PipelineHistory.Ready(c, start) && ValidEvents(c, period, events) && n <= |events|
    requires i < |start.stages| && j < |start.stages[i]|
  {
    || (start.stages[i][j].started && NoReset(events, 0, n))
    || exists k :: 0 <= k < n && Reaches(c, period, start, events, k, i, j) && NoReset(events, k, n)
  }

  /** What one event makes of the started flag of a SAI element. */
  lemma EventStarts(c: Config, period: nat, p: Plant, ev: Event, i: nat, j: nat)
    requires PipelineHistory.Ready(c, p) && ValidEvent(c, period, ev) && i < |p.stages| && j < |p.stages[i]|
    requires IsSai(p.stages[i][j].config.kind)
    ensures var after := After(c, p, ev).stages;
            && i < |after| && j < |after[i]| && after[i][j].config == p.stages[i][j].config
            && (after[i][j].started <==>
                  match ev
                  case RunPeriod(env) => p.stages[i][j].started || Reached(p.stages, env, i, j)
                  case ResetAll => false
                  case Select(_, _, _, _) => p.stages[i][j].started)
  {
    match ev
    case RunPeriod(env) =>
      BuiltReady(p.stages, c, env);
      PassStarts(p.stages, Fresh(p.channels), env, |p.stages|, i, j);
      PassKeepsBuilt(c, p.stages, Fresh(p.channels), env, |p.stages|);
    case ResetAll =>
      BuiltAllValid(p.stages, c);
      ElementsResetAt(p.stages, |p.stages|);
    case Select(_, _, _, _) =>
  }

  /** Over any history of runs, failed runs, resets and routing commands: a SAI element is
      running exactly when a run reached it since the last reset. */
  lemma {:induction false} RunningExactWhen(c: Config, period: nat, start: Plant, events: seq<Event>, n: nat, i: nat,
                                            j: nat)
    requires PipelineHistory.Ready(c, start) && ValidEvents(c, period, events) && n <= |events|
    requires i < |start.stages| && j < |start.stages[i]| && IsSai(start.stages[i][j].config.kind)
    ensures var stages := PlantAt(c, period, start, events, n).stages;
            && i < |stages| && j < |stages[i]| && stages[i][j].config == start.stages[i][j].config
            && (stages[i][j].started <==> RanSinceReset(c, period, start, events, n, i, j))
  {
    if n > 0 {
      RunningExactWhen(c, period, start, events, n - 1, i, j);
      var p := PlantAt(c, period, start, events, n - 1);
      EventStarts(c, period, p, events[n - 1], i, j);
      RanStep(c, period, start, events, n, i, j);
    }
  }

  lemma RanStep(c: Config, period: nat, start: Plant, events: seq<Event>, n: nat, i: nat, j: nat)
    requires PipelineHistory.Ready(c, start) && ValidEvents(c, period, events) && 0 < n <= |events|
    requires i < |start.stages| && j < |start.stages[i]|
    ensures RanSinceReset(c, period, start, events, n, i, j) <==>
            && !events[n - 1].ResetAll?
            && (RanSinceReset(c, period, start, events, n - 1, i, j) || Reaches(c, period, start, events, n - 1, i, j))
  {
    if Reaches(c, period, start, events, n - 1, i, j) {
      assert NoReset(events, n - 1, n);
    }
    if !events[n - 1].ResetAll? {
      forall k: nat | k < n - 1 && NoReset(events, k, n - 1)
        ensures NoReset(events, k, n)
      {
      }
    }
    forall k: nat | k < n && NoReset(events, k, n)
      ensures !events[n - 1].ResetAll? && NoReset(events, k, n - 1)
    {
    }
  }

  /** Where the links are is a matter of the configuration alone. */
  lemma LinkedByConfig(c: Config, stages: seq<seq<Element>>, others: seq<seq<Element>>, l: Link)
    requires Built(stages, c) && Built(others, c) && Linked(stages, l)
    ensures Linked(others, l)
  {
    assert others[l.i][l.j].config == stages[l.i][l.j].config;
    assert others[l.i'][l.j'].config == stages[l.i'][l.j'].config;
    forall x, y | 0 <= x < |others| && 0 <= y < |others[x]| && others[x][y].Touches(l.b)
      ensures (x, y) == (l.i, l.j) || (x, y) == (l.i', l.j')
    {
      assert stages[x][y].Touches(l.b);
    }
  }

  /** Over any history: a run that succeeds, with no failure since the last reset, puts
      into every point to point buffer what its source captured, or silence if the source
      had not run since then; and the reader gets exactly that, behind one period of
      silence if it is a SAI sink that had not run since then, provided the ring holds
      two periods. */
  lemma {:induction false} HistoryCaptures(c: Config, period: nat, start: Plant, events: seq<Event>, k: nat, b: nat)
    returns (l: Link)
    requires PipelineHistory.Ready(c, start) && ValidEvents(c, period, events) && k < |events| && events[k].RunPeriod?
    requires PointToPoint(c, b) && Quiescent(start.channels[b].ring, period)
    requires Healthy(c, period, start, events, k + 1)
    ensures l.b == b && Linked(start.stages, l)
    ensures var env := events[k].env;
            var after := Running(c, PlantAt(c, period, start, events, k), env).channels[b];
            var w, r := start.stages[l.i][l.j].config.kind, start.stages[l.i'][l.j'].config.kind;
            var starts := r == SaiSink && !RanSinceReset(c, period, start, events, k, l.i', l.j');
            && Makes(w, w == SaiSource && RanSinceReset(c, period, start, events, k, l.i, l.j),
                     env.capture[b], period, after.produced)
            && after.ring.fill == 0 && (after.sound <==> (starts ==> 2 * period <= start.channels[b].ring.Size()))
            && (after.sound && !starts ==> after.consumed == after.produced)
            && (after.sound && starts ==> |after.consumed| == 2 * period &&
                                          Silent(after.consumed[..period], period) &&
                                          after.consumed[period..] == after.produced)
  {
    var p, env := PlantAt(c, period, start, events, k), events[k].env;
    l := HistoryDelivers(c, period, start, events, k, b);
    LinkedByConfig(c, p.stages, start.stages, l);
    BufferEmptyWhenHealthy(c, period, start, events, k, b);
    if IsSai(start.stages[l.i][l.j].config.kind) {
      RunningExactWhen(c, period, start, events, k, l.i, l.j);
    }
    if IsSai(start.stages[l.i'][l.j'].config.kind) {
      RunningExactWhen(c, period, start, events, k, l.i', l.j');
    }
    assert p.stages[l.i][l.j].config == start.stages[l.i][l.j].config;
    assert p.stages[l.i'][l.j'].config == start.stages[l.i'][l.j'].config;
  }

  /** The input a routing output was last given, if any. */
  function LastSelected(events: seq<Event>, n: nat, i: nat, j: nat, output: nat): Option<nat>
    requires n <= |events|
  {
    if n == 0 then None
    else if events[n - 1].Select? && (events[n - 1].i, events[n - 1].j, events[n - 1].output) == (i, j, output) then
      Some(events[n - 1].input)
    else LastSelected(events, n - 1, i, j, output)
  }

  /** What one event makes of the routing of an element. */
  lemma EventRoutes(c: Config, period: nat, p: Plant, ev: Event, i: nat, j: nat, output: nat)
    requires PipelineHistory.Ready(c, p) && ValidEvent(c, period, ev) && i < |p.stages| && j < |p.stages[i]|
    requires p.stages[i][j].config.kind.Routing? && output < |p.stages[i][j].selector|
    ensures var after := After(c, p, ev).stages;
            && i < |after| && j < |after[i]| && after[i][j].config == p.stages[i][j].config
            && |after[i][j].selector| == |p.stages[i][j].selector|
            && after[i][j].selector[output] ==
               if ev.Select? && (ev.i, ev.j, ev.output) == (i, j, output) then ev.input
               else p.stages[i][j].selector[output]
  {
    match ev
    case RunPeriod(env) =>
      BuiltReady(p.stages, c, env);
      PassKeepsSelectors(p.stages, Fresh(p.channels), env, |p.stages|, i, j);
    case ResetAll =>
      BuiltAllValid(p.stages, c);
      ElementsResetAt(p.stages, |p.stages|);
    case Select(_, _, _, _) =>
  }

  lemma {:induction false} PassKeepsSelectors(stages: seq<seq<Element>>, cs: seq<Channel>, env: Env, n: nat, i: nat,
                                              j: nat)
    requires AllReady(stages, |cs|, env) && n <= |stages| && i < |stages| && j < |stages[i]|
    ensures var after := PassOf(stages, cs, env, n).stages;
            |after[i]| == |stages[i]| && after[i][j] == stages[i][j].(started := after[i][j].started)
  {
    if n > 0 {
      PassKeepsSelectors(stages, cs, env, n - 1, i, j);
      StageKeepsElements(stages[n - 1], PassOf(stages, cs, env, n - 1).channels, env, |stages[n - 1]|);
    }
  }

  /** Over any history, an output is routed to the input it was last given, whatever runs
      and resets came in between. */
  lemma {:induction false} RoutedAsSelected(c: Config, period: nat, start: Plant, events: seq<Event>, n: nat, i: nat,
                                            j: nat, output: nat)
    requires PipelineHistory.Ready(c, start) && ValidEvents(c, period, events) && n <= |events|
    requires i < |start.stages| && j < |start.stages[i]|
    requires start.stages[i][j].config.kind.Routing? && output < |start.stages[i][j].selector|
    ensures var stages := PlantAt(c, period, start, events, n).stages;
            && i < |stages| && j < |stages[i]| && stages[i][j].config == start.stages[i][j].config
            && |stages[i][j].selector| == |start.stages[i][j].selector|
            && stages[i][j].selector[output] ==
               match LastSelected(events, n, i, j, output)
               case Some(input) => input
               case None => start.stages[i][j].selector[output]
  {
    if n > 0 {
      RoutedAsSelected(c, period, start, events, n - 1, i, j, output);
      EventRoutes(c, period, PlantAt(c, period, start, events, n - 1), events[n - 1], i, j, output);
    }
  }

  /** Over any history: what a source makes in a healthy run arrives, in that same run, in
      the buffer behind a routing element whose output was last given the buffer's input. */
  lemma {:induction false} HistoryRoutes(c: Config, period: nat, start: Plant, events: seq<Event>, k: nat, into: Link,
                                         out: Link)
    requires PipelineHistory.Ready(c, start) && ValidEvents(c, period, events) && k < |events| && events[k].RunPeriod?
    requires PointToPoint(c, into.b) && Quiescent(start.channels[into.b].ring, period) && Linked(start.stages, into)
    requires PointToPoint(c, out.b) && Quiescent(start.channels[out.b].ring, period) && Linked(start.stages, out)
    requires Healthy(c, period, start, events, k + 1)
    requires (into.i', into.j') == (out.i, out.j)
    requires var e := start.stages[out.i][out.j];
             && e.config.kind.Routing? && out.m < |e.selector|
             && match LastSelected(events, k, out.i, out.j, out.m)
                case Some(input) => input < |e.config.inputs| && e.config.inputs[input] == into.b
                case None => false
    ensures var w := start.stages[into.i][into.j].config.kind;
            Makes(w, w == SaiSource && RanSinceReset(c, period, start, events, k, into.i, into.j),
              events[k].env.capture[into.b], period,
              Running(c, PlantAt(c, period, start, events, k), events[k].env).channels[out.b].produced)
  {
    var p, env := PlantAt(c, period, start, events, k), events[k].env;
    BufferEmptyWhenHealthy(c, period, start, events, k, into.b);
    BufferEmptyWhenHealthy(c, period, start, events, k, out.b);
    RoutedAsSelected(c, period, start, events, k, out.i, out.j, out.m);
    LinkedByConfig(c, start.stages, p.stages, into);
    LinkedByConfig(c, start.stages, p.stages, out);
    BuiltReady(p.stages, c, env);
    AcceptedDisjoint(c, p.stages);
    RunRoutes(p.stages, Fresh(p.channels), env, into, out);
    if IsSai(start.stages[into.i][into.j].config.kind) {
      RunningExactWhen(c, period, start, events, k, into.i, into.j);
    }
    assert p.stages[into.i][into.j].config == start.stages[into.i][into.j].config;
  }
}
