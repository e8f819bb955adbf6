/** What a run of an accepted pipeline does to a buffer with one writer and one
    reader, over any history of runs, resets and routing commands. */
module PipelineDataflow {
  import opened Arithmetic
  import opened AudioBuffer
  import opened AudioPipeline
  import opened PipelineConfig

  // One channel

  /** Pointers on whole periods, in a ring of whole periods, whose size the mask covers. */
  ghost predicate Good(r: Ring, period: nat) {
    && period > 0 && r.Valid() && IsPow2(r.Size()) && r.Size() % period == 0 && r.silence % period == 0
    && r.read % period == 0 && r.write % period == 0
  }

  ghost predicate SameRing(r: Ring, before: Ring) {
    r.Size() == before.Size() && r.silence == before.silence
  }

  lemma ProduceGood(c: Channel, samples: seq<Sample>)
    requires Good(c.ring, |samples|)
    ensures c.CanProduce(|samples|) <==> c.ring.fill + |samples| <= c.ring.Size()
    ensures var after := c.Produce(samples).ring;
            && Good(after, |samples|) && SameRing(after, c.ring)
            && (c.CanProduce(|samples|) ==> after.Contents() == c.ring.Contents() + samples)
  {
    AlignedKept(c.ring.write, c.ring.Size(), |samples|);
    if c.CanProduce(|samples|) {
      PutAppends(c.ring, samples);
    }
  }

  lemma {:induction false} ConsumeGood(c: Channel, period: nat)
    requires Good(c.ring, period)
    ensures c.CanConsume(period) <==> period <= c.ring.fill
    ensures var after := c.Consume(period).ring;
            && Good(after, period) && SameRing(after, c.ring)
            && (c.CanConsume(period) ==>
                  c.Next(period) == c.ring.Contents()[..period] && after.Contents() == c.ring.Contents()[period..])
  {
    AlignedKept(c.ring.read, c.ring.Size(), period);
    if c.CanConsume(period) {
      DropTakes(c.ring, period);
      BlockReadIsLoop(c.ring, period);
    }
  }

  lemma HeadStep(r: Ring, h: Ring, n: nat)
    requires r.Valid() && h.Valid() && SameRing(h, r) && h.fill == r.fill + n < r.Size()
    requires h.read == Wrap(Back(r.read, n, r.Size()), r.Size()) && h.write == r.write
    requires h.Contents() == Quiet(n) + r.Contents()
    ensures var next := PutHead(h, [SILENCE]);
            && next.Valid() && SameRing(next, r)
            && next.read == Wrap(Back(r.read, n + 1, r.Size()), r.Size()) && next.write == r.write
            && next.Contents() == Quiet(n + 1) + r.Contents()
  {
    PutHeadPrepends(h, [SILENCE]);
    assert [SILENCE] + (Quiet(n) + r.Contents()) == Quiet(n + 1) + r.Contents();
  }

  lemma {:induction false} HeadSilenceIs(r: Ring, n: nat)
    requires r.Valid() && r.fill + n <= r.Size()
    ensures var h := HeadSilence(r, n);
            && h.Valid() && SameRing(h, r) && h.fill == r.fill + n
            && h.read == Wrap(Back(r.read, n, r.Size()), r.Size()) && h.write == r.write
            && h.Contents() == Quiet(n) + r.Contents()
  {
    if n > 0 {
      HeadSilenceIs(r, n - 1);
      HeadStep(r, HeadSilence(r, n - 1), n - 1);
    } else {
      assert Quiet(0) + r.Contents() == r.Contents();
    }
  }

  lemma BackAligned(x: nat, size: nat, period: nat)
    requires 0 < period <= size && x < size && x % period == 0 && size % period == 0
    ensures Back(x, period, size) >= 0 && Wrap(Back(x, period, size), size) % period == 0
  {
    var a, b := x / period, size / period;
    assert x == a * period && size == b * period;
    if x >= period {
      assert (a - 1) * period == x - period;
      MultipleQuotient(a - 1, period);
    } else {
      SmallMultiple(a, period, x);
      assert (b - 1) * period == size - period;
      MultipleQuotient(b - 1, period);
    }
  }

  lemma PrimeGood(c: Channel, period: nat)
    requires Good(c.ring, period)
    ensures var after := c.Prime(period).ring;
            && Good(after, period) && SameRing(after, c.ring)
            && (c.ring.fill + period <= c.ring.Size() ==> after.Contents() == Quiet(period) + c.ring.Contents())
  {
    if c.ring.fill + period <= c.ring.Size() {
      HeadSilenceIs(c.ring, period);
      BackAligned(c.ring.read, c.ring.Size(), period);
    }
  }

  lemma {:induction false} TakenGood(e: Element, c: Channel, period: nat)
    requires Good(c.ring, period)
    ensures Good(Taken(e, c, period).ring, period) && SameRing(Taken(e, c, period).ring, c.ring)
  {
    ConsumeGood(c, period);
    PrimeGood(c, period);
    ConsumeGood(c.Prime(period), period);
    ConsumeGood(c.Prime(period).Consume(period), period);
  }

  /** An element that starts to play puts one period of silence in front. */
  predicate Starts(e: Element) {
    e.config.kind.SaiSink? && !e.started
  }

  ghost predicate Empty(c: Channel, period: nat) {
    Good(c.ring, period) && c.ring.fill == 0 && c.produced == [] && c.consumed == [] && c.sound
  }

  /** A period p went through: the buffer is as empty as before, the reader got
      exactly p, after the silence it put in front itself if it just started. The
      transfers fit, except that starting needs a ring of two periods. */
  ghost predicate Delivered(e: Element, before: Channel, after: Channel, p: seq<Sample>) {
    && Good(after.ring, |p|) && SameRing(after.ring, before.ring) && after.ring.fill == 0
    && after.produced == p
    && (after.sound <==> (Starts(e) ==> 2 * |p| <= before.ring.Size()))
    && (after.sound ==> after.consumed == if Starts(e) then Quiet(|p|) + p else p)
  }

  lemma {:induction false} OnePeriodThrough(e: Element, c: Channel, p: seq<Sample>)
    requires Empty(c, |p|)
    ensures e.Moves() ==> Delivered(e, c, Taken(e, c.Produce(p), |p|), p)
    ensures !e.Moves() ==> Taken(e, c.Produce(p), |p|).ring.fill == |p|
    ensures Taken(e, c.Produce(p), |p|).produced == p
    ensures c.Produce(p).Next(|p|) == p
  {
    AtLeastOnePeriod(c.ring.Size(), |p|);
    ProduceGood(c, p);
    var full := c.Produce(p);
    assert c.ring.Contents() + p == p;
    ConsumeGood(full, |p|);
    if Starts(e) {
      StartThrough(full, p);
    }
  }

  lemma AtLeastOnePeriod(size: nat, period: nat)
    requires 0 < period && 0 < size && size % period == 0
    ensures period <= size
  {
  }

  lemma {:induction false} StartThrough(full: Channel, p: seq<Sample>)
    requires Good(full.ring, |p|) && full.ring.Contents() == p && full.consumed == [] && full.sound
    ensures var after := full.Prime(|p|).Consume(|p|).Consume(|p|);
            && Good(after.ring, |p|) && SameRing(after.ring, full.ring) && after.ring.fill == 0
            && after.produced == full.produced && (after.sound <==> 2 * |p| <= full.ring.Size())
            && (after.sound ==> after.consumed == Quiet(|p|) + p)
  {
    if 2 * |p| <= full.ring.Size() {
      StartFits(full, p);
    } else {
      StartRefused(full, p);
    }
  }

  lemma {:induction false} StartFits(full: Channel, p: seq<Sample>)
    requires Good(full.ring, |p|) && full.ring.Contents() == p && 2 * |p| <= full.ring.Size()
    ensures var after := full.Prime(|p|).Consume(|p|).Consume(|p|);
            && Good(after.ring, |p|) && SameRing(after.ring, full.ring) && after.ring.fill == 0
            && after == full.(ring := after.ring, consumed := full.consumed + Quiet(|p|) + p)
  {
    PrimeGood(full, |p|);
    TwoPeriodsOff(full.Prime(|p|), Quiet(|p|), p);
  }

  lemma {:induction false} StartRefused(full: Channel, p: seq<Sample>)
    requires Good(full.ring, |p|) && full.ring.Contents() == p && 2 * |p| > full.ring.Size()
    ensures var after := full.Prime(|p|).Consume(|p|).Consume(|p|);
            && Good(after.ring, |p|) && SameRing(after.ring, full.ring) && after.ring.fill == 0
            && after.produced == full.produced && !after.sound
  {
    var refused := full.(sound := false);
    assert full.Prime(|p|) == refused;
    ConsumeGood(refused, |p|);
    ConsumeGood(refused.Consume(|p|), |p|);
  }

  lemma TwoPeriodsOff(c: Channel, first: seq<Sample>, second: seq<Sample>)
    requires Good(c.ring, |first|) && |first| == |second| && c.ring.Contents() == first + second
    ensures var after := c.Consume(|first|).Consume(|first|);
            && Good(after.ring, |first|) && SameRing(after.ring, c.ring) && after.ring.fill == 0
            && after == c.(ring := after.ring, consumed := c.consumed + first + second)
  {
    var n := |first|;
    ConsumeGood(c, n);
    assert (first + second)[..n] == first && (first + second)[n..] == second && second[..n] == second;
    ConsumeGood(c.Consume(n), n);
  }

  // From writer to reader, across the stages

  /** Element (i, j) writes the buffer at its output m, element (i', j') of a later
      stage reads it, and no other element has a port on it. */
  datatype Link = Link(b: nat, i: nat, j: nat, m: nat, i': nat, j': nat)

  ghost predicate Linked(stages: seq<seq<Element>>, l: Link) {
    && l.i < l.i' < |stages| && l.j < |stages[l.i]| && l.j' < |stages[l.i']|
    && stages[l.i][l.j].Moves()
    && l.m < |stages[l.i][l.j].config.outputs| && stages[l.i][l.j].config.outputs[l.m] == l.b
    && l.b in stages[l.i'][l.j'].config.inputs
    && forall x, y :: 0 <= x < |stages| && 0 <= y < |stages[x]| && stages[x][y].Touches(l.b) ==>
         (x, y) == (l.i, l.j) || (x, y) == (l.i', l.j')
  }

  ghost predicate Disjoint(stages: seq<seq<Element>>) {
    forall i :: 0 <= i < |stages| ==> StageDisjoint(stages[i])
  }

  /** The period the writer of a link supplies in a run. */
  function Written(stages: seq<seq<Element>>, cs: seq<Channel>, env: Env, l: Link): (p: seq<Sample>)
    requires AllReady(stages, |cs|, env) && Linked(stages, l)
    ensures |p| == env.period
  {
    Supplied(stages[l.i][l.j], PassOf(stages, cs, env, l.i).channels, env, l.m)
  }

  lemma {:induction false} WriterStage(stage: seq<Element>, cs: seq<Channel>, env: Env, j: nat, m: nat, b: nat)
    requires StageReady(stage, |cs|, env) && StageDisjoint(stage) && StageOf(stage, cs, env, |stage|).ok
    requires j < |stage| && m < |stage[j].config.outputs| && stage[j].config.outputs[m] == b && stage[j].Moves()
    ensures StageOf(stage, cs, env, |stage|).channels[b] == cs[b].Produce(Supplied(stage[j], cs, env, m))
  {
    NoneFails(stage, cs, env, j);
    StagePointwise(stage, cs, env, |stage|, j, b);
    RunWrites(stage[j], cs, env, m);
  }

  lemma {:induction false} ReaderStage(stage: seq<Element>, cs: seq<Channel>, env: Env, j: nat, b: nat)
    requires StageReady(stage, |cs|, env) && StageDisjoint(stage) && StageOf(stage, cs, env, |stage|).ok
    requires j < |stage| && b in stage[j].config.inputs
    ensures b < |cs| && StageOf(stage, cs, env, |stage|).channels[b] == Taken(stage[j], cs[b], env.period)
  {
    NoneFails(stage, cs, env, j);
    StagePointwise(stage, cs, env, |stage|, j, b);
    RunTakes(stage[j], cs, env, b);
  }

  /** The channel of a linked buffer, stage by stage. */
  lemma {:induction false} LinkStages(stages: seq<seq<Element>>, cs: seq<Channel>, env: Env, l: Link, n: nat)
    requires AllReady(stages, |cs|, env) && Disjoint(stages) && Linked(stages, l) && l.b < |cs| && n <= |stages|
    requires PassOf(stages, cs, env, n).ok
    ensures PassOf(stages, cs, env, n).channels[l.b] ==
            if n <= l.i then cs[l.b]
            else if n <= l.i' then cs[l.b].Produce(Written(stages, cs, env, l))
            else Taken(stages[l.i'][l.j'], cs[l.b].Produce(Written(stages, cs, env, l)), env.period)
  {
    if n > 0 {
      LinkStages(stages, cs, env, l, n - 1);
      var before, stage := PassOf(stages, cs, env, n - 1).channels, stages[n - 1];
      if n - 1 == l.i {
        WriterStage(stage, before, env, l.j, l.m, l.b);
      } else if n - 1 == l.i' {
        ReaderStage(stage, before, env, l.j', l.b);
      } else {
        StageElsewhere(stage, before, env, |stage|, l.b);
      }
    }
  }

  /** A run that succeeds delivers, through every linked buffer that was empty, the
      period of its writer in this run to its reader, and leaves it empty; unless the
      reader is a PLL element, which accepts input ports but never reads them. */
  lemma RunDelivers(stages: seq<seq<Element>>, cs: seq<Channel>, env: Env, l: Link)
    requires AllReady(stages, |cs|, env) && Disjoint(stages) && Linked(stages, l) && l.b < |cs|
    requires Empty(cs[l.b], env.period) && PassOf(stages, cs, env, |stages|).ok
    ensures var reader, after := stages[l.i'][l.j'], PassOf(stages, cs, env, |stages|).channels[l.b];
            && after.produced == Written(stages, cs, env, l)
            && (after.ring.fill == 0 <==> reader.Moves())
            && (reader.Moves() ==> Delivered(reader, cs[l.b], after, Written(stages, cs, env, l)))
  {
    LinkStages(stages, cs, env, l, |stages|);
    OnePeriodThrough(stages[l.i'][l.j'], cs[l.b], Written(stages, cs, env, l));
  }

  lemma {:induction false} PrefixSucceeds(stages: seq<seq<Element>>, cs: seq<Channel>, env: Env, n: nat, k: nat)
    requires AllReady(stages, |cs|, env) && k <= n <= |stages| && PassOf(stages, cs, env, n).ok
    ensures PassOf(stages, cs, env, k).ok
    decreases n
  {
    if k < n {
      PrefixSucceeds(stages, cs, env, n - 1, k);
    }
  }

  /** What a routing element writes to an output is what came in, in the same run, at
      the input selected for it: samples cross any number of routings unchanged. */
  lemma {:induction false} RoutingForwards(stages: seq<seq<Element>>, cs: seq<Channel>, env: Env, into: Link, out: Link)
    requires AllReady(stages, |cs|, env) && Disjoint(stages) && PassOf(stages, cs, env, |stages|).ok
    requires Linked(stages, into) && Linked(stages, out) && into.b < |cs| && out.b < |cs|
    requires Empty(cs[into.b], env.period) && Empty(cs[out.b], env.period)
    requires (into.i', into.j') == (out.i, out.j)
    requires var e := stages[out.i][out.j];
             && e.config.kind.Routing? && e.selector[out.m] < |e.config.inputs|
             && e.config.inputs[e.selector[out.m]] == into.b
    ensures var after := PassOf(stages, cs, env, |stages|).channels;
            after[out.b].produced == after[into.b].produced == Written(stages, cs, env, into)
  {
    var p := Written(stages, cs, env, into);
    RunDelivers(stages, cs, env, into);
    RunDelivers(stages, cs, env, out);
    PrefixSucceeds(stages, cs, env, |stages|, out.i);
    assert PassOf(stages, cs, env, out.i).channels[into.b] == cs[into.b].Produce(p) by {
      LinkStages(stages, cs, env, into, out.i);
    }
    assert cs[into.b].Produce(p).Next(env.period) == p by {
      OnePeriodThrough(stages[into.i'][into.j'], cs[into.b], p);
    }
    assert Written(stages, cs, env, out) == PassOf(stages, cs, env, out.i).channels[into.b].Next(env.period);
  }

  // Accepted configurations

  /** The elements of a pipeline made from a configuration. */
  ghost predicate Built(stages: seq<seq<Element>>, c: Config) {
    && |stages| == |c.stages|
    && (forall i :: 0 <= i < |stages| ==> |stages[i]| == |c.stages[i]|)
    && forall i, j :: 0 <= i < |stages| && 0 <= j < |stages[i]| ==>
         && stages[i][j].config == c.stages[i][j]
         && (stages[i][j].config.kind.Routing? ==> |stages[i][j].selector| == |stages[i][j].config.outputs|)
  }

  ghost predicate UniqueReaders(c: Config) {
    forall b: nat :: PortsFrom(c.stages, In, 0, b) <= 1
  }

  lemma BuiltValid(stages: seq<seq<Element>>, c: Config, i: nat, j: nat)
    requires Accepted(c) && Built(stages, c) && i < |stages| && j < |stages[i]|
    ensures stages[i][j].Valid(|c.buffers|)
  {
    var e := stages[i][j];
    forall k | 0 <= k < |e.config.inputs|
      ensures e.config.inputs[k] < |c.buffers|
    {
      assert HasPort(c.stages, In, i, j, e.config.inputs[k]);
    }
    forall k | 0 <= k < |e.config.outputs|
      ensures e.config.outputs[k] < |c.buffers|
    {
      assert HasPort(c.stages, Out, i, j, e.config.outputs[k]);
    }
  }

  lemma BuiltReady(stages: seq<seq<Element>>, c: Config, env: Env)
    requires Accepted(c) && Built(stages, c) && env.Valid(|c.buffers|)
    ensures AllReady(stages, |c.buffers|, env)
  {
    forall i, j | 0 <= i < |stages| && 0 <= j < |stages[i]|
      ensures stages[i][j].Valid(|c.buffers|)
    {
      BuiltValid(stages, c, i, j);
    }
  }

  lemma SingleWriter(c: Config, i: nat, j: nat, i': nat, j': nat, b: nat)
    requires Accepted(c) && HasPort(c.stages, Out, i, j, b) && HasPort(c.stages, Out, i', j', b)
    ensures (i, j) == (i', j')
  {
    if (i, j) != (i', j') {
      TwoPorts(c.stages, Out, i, j, i', j', b);
    }
  }

  lemma NoRepeatedPorts(c: Config, side: Side, i: nat, j: nat)
    requires i < |c.stages| && j < |c.stages[i]|
    requires forall b: nat :: b in c.stages[i][j].Ports(side) ==> PortsFrom(c.stages, side, 0, b) <= 1
    ensures NoDuplicates(c.stages[i][j].Ports(side))
  {
    var ports := c.stages[i][j].Ports(side);
    forall k, k' | 0 <= k < k' < |ports|
      ensures ports[k] != ports[k']
    {
      ElementPorts(c.stages, side, 0, i, j, ports[k]);
      if ports[k] == ports[k'] {
        OccursTwice(ports, k, k');
      }
    }
  }

  lemma AcceptedElementDistinct(c: Config, stages: seq<seq<Element>>, i: nat, j: nat)
    requires Accepted(c) && UniqueReaders(c) && Built(stages, c) && i < |stages| && j < |stages[i]|
    ensures PortsDistinct(stages[i][j])
  {
    BuiltValid(stages, c, i, j);
    NoRepeatedPorts(c, In, i, j);
    forall b | b in c.stages[i][j].Ports(Out)
      ensures PortsFrom(c.stages, Out, 0, b) <= 1
    {
      assert HasPort(c.stages, Out, i, j, b);
    }
    NoRepeatedPorts(c, Out, i, j);
    LoopFreeMeansForward(c);
    forall b | b in c.stages[i][j].inputs && b in c.stages[i][j].outputs
      ensures false
    {
      assert HasPort(c.stages, In, i, j, b) && HasPort(c.stages, Out, i, j, b);
    }
  }

  lemma AcceptedDisjoint(c: Config, stages: seq<seq<Element>>)
    requires Accepted(c) && UniqueReaders(c) && Built(stages, c)
    ensures Disjoint(stages)
  {
    LoopFreeMeansForward(c);
    forall i | 0 <= i < |stages|
      ensures StageDisjoint(stages[i])
    {
      forall j | 0 <= j < |stages[i]|
        ensures PortsDistinct(stages[i][j])
      {
        AcceptedElementDistinct(c, stages, i, j);
      }
      forall j, j', b: nat | 0 <= j < |stages[i]| && 0 <= j' < |stages[i]| && stages[i][j].Touches(b) &&
        stages[i][j'].Touches(b)
        ensures j == j'
      {
        OneTouchInStage(c, stages, i, j, j', b);
      }
    }
  }

  lemma OneTouchInStage(c: Config, stages: seq<seq<Element>>, i: nat, j: nat, j': nat, b: nat)
    requires Accepted(c) && UniqueReaders(c) && Built(stages, c) && i < |stages| && j < |stages[i]| && j' < |stages[i]|
    requires stages[i][j].Touches(b) && stages[i][j'].Touches(b)
    ensures j == j'
  {
    LoopFreeMeansForward(c);
    var asInput, asInput' := HasPort(c.stages, In, i, j, b), HasPort(c.stages, In, i, j', b);
    var asOutput, asOutput' := HasPort(c.stages, Out, i, j, b), HasPort(c.stages, Out, i, j', b);
    if j != j' {
      if asInput && asInput' {
        TwoPorts(c.stages, In, i, j, i, j', b);
      } else if asOutput && asOutput' {
        SingleWriter(c, i, j, i, j', b);
      }
    }
  }

  /** In an accepted configuration, a buffer with one writer port and one reader port
      is linked: its writer comes in an earlier stage. */
  lemma {:induction false} AcceptedLink(c: Config, stages: seq<seq<Element>>, b: nat) returns (l: Link)
    requires Accepted(c) && Built(stages, c)
    requires PortsFrom(c.stages, In, 0, b) == 1 && PortsFrom(c.stages, Out, 0, b) == 1
    requires forall i, j :: HasPort(c.stages, Out, i, j, b) ==> !c.stages[i][j].kind.Pll?
    ensures l.b == b && Linked(stages, l)
  {
    var i, j := PortAt(c.stages, Out, 0, b);
    var i', j' := PortAt(c.stages, In, 0, b);
    assert HasPort(c.stages, Out, i, j, b) && HasPort(c.stages, In, i', j', b);
    LoopFreeMeansForward(c);
    var m :| 0 <= m < |c.stages[i][j].outputs| && c.stages[i][j].outputs[m] == b;
    l := Link(b, i, j, m, i', j');
    forall x, y | 0 <= x < |stages| && 0 <= y < |stages[x]| && stages[x][y].Touches(b)
      ensures (x, y) == (i, j) || (x, y) == (i', j')
    {
      if b in c.stages[x][y].outputs && (x, y) != (i, j) {
        TwoPorts(c.stages, Out, x, y, i, j, b);
      }
      if b in c.stages[x][y].inputs && (x, y) != (i', j') {
        TwoPorts(c.stages, In, x, y, i', j', b);
      }
    }
  }

  /** In an accepted configuration with one reader per buffer, the order of the
      elements within their stages does not matter to a run that succeeds. */
  lemma {:induction false} AcceptedOrderIrrelevant(c: Config, stages: seq<seq<Element>>, others: seq<seq<Element>>,
                                                   cs: seq<Channel>, env: Env)
    requires Accepted(c) && UniqueReaders(c) && Built(stages, c) && |cs| == |c.buffers| && env.Valid(|cs|)
    requires |others| == |stages| && forall i :: 0 <= i < |stages| ==> multiset(others[i]) == multiset(stages[i])
    requires AllReady(stages, |cs|, env) && PassOf(stages, cs, env, |stages|).ok
    ensures AllReady(others, |cs|, env) && PassOf(others, cs, env, |stages|).ok
    ensures PassOf(others, cs, env, |stages|).channels == PassOf(stages, cs, env, |stages|).channels
  {
    AcceptedDisjoint(c, stages);
    AllReorderedReady(stages, others, |cs|, env);
    OrderIrrelevant(stages, others, cs, env, |stages|);
  }

  lemma ReorderedReady(stage: seq<Element>, other: seq<Element>, buffers: nat, env: Env)
    requires StageReady(stage, buffers, env) && multiset(other) == multiset(stage)
    ensures StageReady(other, buffers, env)
  {
    forall j | 0 <= j < |other|
      ensures other[j].Valid(buffers)
    {
      assert other[j] in multiset(stage);
    }
  }

  lemma AllReorderedReady(stages: seq<seq<Element>>, others: seq<seq<Element>>, buffers: nat, env: Env)
    requires AllReady(stages, buffers, env)
    requires |others| == |stages| && forall i :: 0 <= i < |stages| ==> multiset(others[i]) == multiset(stages[i])
    ensures AllReady(others, buffers, env)
  {
    forall i | 0 <= i < |others|
      ensures StageReady(others[i], buffers, env)
    {
      ReorderedReady(stages[i], others[i], buffers, env);
    }
  }
}
