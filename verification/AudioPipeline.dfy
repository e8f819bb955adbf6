/** Runs and resets of an audio pipeline: elements in stages move one period of
    samples through ring buffers. */
module AudioPipeline {
  import opened AudioBuffer
  import opened PipelineConfig

  /** What the outside world does to one run: the period captured or generated for
      each buffer a source writes, and the SAI elements whose hardware level is
      out of range. */
  datatype Env = Env(period: nat, capture: seq<seq<Sample>>, faulty: set<nat>) {
    ghost predicate Valid(buffers: nat) {
      period > 0 && |capture| == buffers && forall b :: 0 <= b < buffers ==> |capture[b]| == period
    }
  }

  /** id names the hardware of a SAI element. The selector of a routing element maps
      each output to an input, or to the count of inputs for silence. */
  datatype Element = Element(config: ElementConfig, id: nat, started: bool, selector: seq<nat>) {
    ghost predicate Valid(buffers: nat) {
      && (forall k :: 0 <= k < |config.inputs| ==> config.inputs[k] < buffers)
      && (forall k :: 0 <= k < |config.outputs| ==> config.outputs[k] < buffers)
      && (config.kind.Routing? ==> |selector| == |config.outputs|)
    }

    predicate Touches(b: nat) {
      b in config.inputs || b in config.outputs
    }

    predicate Fails(env: Env) {
      (config.kind.SaiSource? || config.kind.SaiSink?) && started && id in env.faulty
    }

    /** PLL elements may have ports, but never read or write them. */
    predicate Moves() {
      !config.kind.Pll? && !config.kind.Unknown?
    }
  }

  // One buffer during a run

  /** A ring with its traffic in the current run. A transfer that would overrun,
      underrun or wrap the ring is not made; it turns sound false. */
  datatype Channel = Channel(ring: Ring, produced: seq<Sample>, consumed: seq<Sample>, sound: bool) {
    function Next(period: nat): (s: seq<Sample>)
      ensures |s| == period
    {
      if ring.read + period <= ring.Size() then ring.base[ring.read..ring.read + period] else Quiet(period)
    }

    predicate CanProduce(n: nat) {
      ring.write < ring.Size() && ring.write + n <= ring.Size() && ring.fill + n <= ring.Size()
    }

    function Produce(samples: seq<Sample>): Channel {
      if CanProduce(|samples|) then this.(ring := Put(ring, samples), produced := produced + samples)
      else this.(sound := false)
    }

    predicate CanConsume(n: nat) {
      ring.read + n <= ring.Size() && n <= ring.fill
    }

    function Consume(period: nat): Channel {
      if CanConsume(period) then this.(ring := Drop(ring, period), consumed := consumed + Next(period))
      else this.(sound := false)
    }

    /** The silence a SAI sink puts in front when it starts. */
    function Prime(period: nat): Channel {
      if ring.read < ring.Size() && ring.fill + period <= ring.Size() then this.(ring := HeadSilence(ring, period))
      else this.(sound := false)
    }

    function Emptied(): Channel {
      if 0 < ring.Size() && ring.silence <= ring.Size() then this.(ring := AudioBuffer.Emptied(ring))
      else this.(sound := false)
    }
  }

  /** Silence written at the head, one sample at a time. */
  function HeadSilence(r: Ring, n: nat): (h: Ring)
    requires r.read < r.Size()
    ensures |h.base| == |r.base| && h.read < h.Size()
  {
    if n == 0 then r else PutHead(HeadSilence(r, n - 1), [SILENCE])
  }

  /** The channels at the start of a run: no traffic yet. */
  function Fresh(cs: seq<Channel>): (f: seq<Channel>)
    ensures |f| == |cs|
    ensures forall b :: 0 <= b < |cs| ==> f[b] == Channel(cs[b].ring, [], [], true)
  {
    seq(|cs|, b requires 0 <= b < |cs| => Channel(cs[b].ring, [], [], true))
  }

  // One element

  ghost predicate Ready(e: Element, cs: seq<Channel>, env: Env) {
    env.Valid(|cs|) && e.Valid(|cs|)
  }

  /** The period an element writes to its k-th output. */
  function Supplied(e: Element, cs: seq<Channel>, env: Env, k: nat): (s: seq<Sample>)
    requires Ready(e, cs, env) && k < |e.config.outputs|
    ensures |s| == env.period
  {
    var b := e.config.outputs[k];
    match e.config.kind
    case Routing =>
      if e.selector[k] < |e.config.inputs| then cs[e.config.inputs[e.selector[k]]].Next(env.period)
      else Quiet(env.period)
    case SaiSource => if e.started then env.capture[b] else Quiet(env.period)
    case _ => env.capture[b]
  }

  function Written(e: Element, cs: seq<Channel>, env: Env, n: nat): (after: seq<Channel>)
    requires Ready(e, cs, env) && n <= |e.config.outputs|
    ensures |after| == |cs|
  {
    if n == 0 then cs
    else
      var before := Written(e, cs, env, n - 1);
      var b := e.config.outputs[n - 1];
      before[b := before[b].Produce(Supplied(e, before, env, n - 1))]
  }

  /** A loop over the inputs: silence in front of each, or one period off each. */
  datatype InputStep = PrimeIt | ConsumeIt {
    function Apply(c: Channel, period: nat): Channel {
      if this == PrimeIt then c.Prime(period) else c.Consume(period)
    }
  }

  function EachInput(step: InputStep, e: Element, cs: seq<Channel>, env: Env, n: nat): (after: seq<Channel>)
    requires Ready(e, cs, env) && n <= |e.config.inputs|
    ensures |after| == |cs|
  {
    if n == 0 then cs
    else
      var before := EachInput(step, e, cs, env, n - 1);
      var b := e.config.inputs[n - 1];
      before[b := step.Apply(before[b], env.period)]
  }

  datatype Turn = Turn(element: Element, channels: seq<Channel>, ok: bool)

  function RunOf(e: Element, cs: seq<Channel>, env: Env): (t: Turn)
    requires Ready(e, cs, env)
    ensures |t.channels| == |cs|
    ensures t.element == e.(started := t.element.started)
  {
    var ins, outs := |e.config.inputs|, |e.config.outputs|;
    if e.Fails(env) then Turn(e, cs, false)
    else
      match e.config.kind
      case DtmfSource => Turn(e, Written(e, cs, env, outs), true)
      case SineSource => Turn(e, Written(e, cs, env, outs), true)
      case SaiSource => Turn(e.(started := true), Written(e, cs, env, outs), true)
      case SaiSink =>
        var primed := if e.started then cs else EachInput(ConsumeIt, e, EachInput(PrimeIt, e, cs, env, ins), env, ins);
        Turn(e.(started := true), EachInput(ConsumeIt, e, primed, env, ins), true)
      case Routing => Turn(e, EachInput(ConsumeIt, e, Written(e, cs, env, outs), env, ins), true)
      case Pll => Turn(e, cs, true)
      case Unknown => Turn(e, cs, true)
  }

  // One element touches its own ports only, each in its own way

  ghost predicate NoDuplicates(s: seq<nat>) {
    forall k, k' :: 0 <= k < k' < |s| ==> s[k] != s[k']
  }

  ghost predicate PortsDistinct(e: Element) {
    && NoDuplicates(e.config.inputs) && NoDuplicates(e.config.outputs)
    && (forall b :: !(b in e.config.inputs && b in e.config.outputs))
    && e.config.Checked()
  }

  lemma {:induction false} WrittenElsewhere(e: Element, cs: seq<Channel>, env: Env, n: nat, b: nat)
    requires Ready(e, cs, env) && n <= |e.config.outputs| && b < |cs|
    requires forall k :: 0 <= k < n ==> e.config.outputs[k] != b
    ensures Written(e, cs, env, n)[b] == cs[b]
  {
    if n > 0 {
      WrittenElsewhere(e, cs, env, n - 1, b);
    }
  }

  /** What goes to an output does not depend on the outputs served before. */
  lemma SuppliedEarly(e: Element, cs: seq<Channel>, env: Env, k: nat)
    requires Ready(e, cs, env) && PortsDistinct(e) && k < |e.config.outputs|
    ensures Supplied(e, Written(e, cs, env, k), env, k) == Supplied(e, cs, env, k)
  {
    if e.config.kind.Routing? && e.selector[k] < |e.config.inputs| {
      var b := e.config.inputs[e.selector[k]];
      assert b in e.config.inputs && b !in e.config.outputs;
      WrittenElsewhere(e, cs, env, k, b);
    }
  }

  lemma {:induction false} WrittenPointwise(e: Element, cs: seq<Channel>, env: Env, n: nat, k: nat)
    requires Ready(e, cs, env) && PortsDistinct(e) && k < n <= |e.config.outputs|
    ensures var b := e.config.outputs[k];
            Written(e, cs, env, n)[b] == cs[b].Produce(Supplied(e, cs, env, k))
    decreases n
  {
    if k < n - 1 {
      WrittenPointwise(e, cs, env, n - 1, k);
    } else {
      SuppliedEarly(e, cs, env, k);
      WrittenElsewhere(e, cs, env, k, e.config.outputs[k]);
    }
  }

  lemma {:induction false} InputsElsewhere(step: InputStep, e: Element, cs: seq<Channel>, env: Env, n: nat, b: nat)
    requires Ready(e, cs, env) && n <= |e.config.inputs| && b < |cs|
    requires forall k :: 0 <= k < n ==> e.config.inputs[k] != b
    ensures EachInput(step, e, cs, env, n)[b] == cs[b]
  {
    if n > 0 {
      InputsElsewhere(step, e, cs, env, n - 1, b);
    }
  }

  lemma {:induction false} InputsPointwise(step: InputStep, e: Element, cs: seq<Channel>, env: Env, n: nat, k: nat)
    requires Ready(e, cs, env) && PortsDistinct(e) && k < n <= |e.config.inputs|
    ensures var b := e.config.inputs[k];
            EachInput(step, e, cs, env, n)[b] == step.Apply(cs[b], env.period)
    decreases n
  {
    if k < n - 1 {
      InputsPointwise(step, e, cs, env, n - 1, k);
    } else {
      InputsElsewhere(step, e, cs, env, k, e.config.inputs[k]);
    }
  }

  /** A whole loop over the inputs. */
  lemma InputsLoop(step: InputStep, e: Element, cs: seq<Channel>, env: Env)
    requires Ready(e, cs, env) && PortsDistinct(e)
    ensures var after := EachInput(step, e, cs, env, |e.config.inputs|);
            forall b :: 0 <= b < |cs| ==>
              after[b] == if b in e.config.inputs then step.Apply(cs[b], env.period) else cs[b]
  {
    var ins := |e.config.inputs|;
    forall b | 0 <= b < |cs|
      ensures EachInput(step, e, cs, env, ins)[b] ==
              if b in e.config.inputs then step.Apply(cs[b], env.period) else cs[b]
    {
      if b in e.config.inputs {
        var k :| 0 <= k < ins && e.config.inputs[k] == b;
        InputsPointwise(step, e, cs, env, ins, k);
      } else {
        InputsElsewhere(step, e, cs, env, ins, b);
      }
    }
  }

  /** What a reader does to one of its inputs. */
  function Taken(e: Element, c: Channel, period: nat): Channel {
    if !e.Moves() then c
    else if e.config.kind.SaiSink? && !e.started then c.Prime(period).Consume(period).Consume(period)
      else c.Consume(period)
  }

  /** The channel of a buffer after an element ran, from the channels before. */
  ghost predicate Effect(e: Element, cs: seq<Channel>, env: Env, b: nat, after: Channel)
    requires Ready(e, cs, env) && b < |cs|
  {
    && (!(e.Touches(b) && e.Moves()) ==> after == cs[b])
    && (b in e.config.inputs ==> after == Taken(e, cs[b], env.period))
    && (forall k :: 0 <= k < |e.config.outputs| && e.config.outputs[k] == b && e.Moves() ==>
          after == cs[b].Produce(Supplied(e, cs, env, k)))
  }

  lemma RunPointwise(e: Element, cs: seq<Channel>, env: Env)
    requires Ready(e, cs, env) && PortsDistinct(e)
    ensures var t := RunOf(e, cs, env);
            && (t.ok <==> !e.Fails(env))
            && (!t.ok ==> t.channels == cs)
            && (t.ok ==> forall b :: 0 <= b < |cs| ==> Effect(e, cs, env, b, t.channels[b]))
  {
    if !e.Fails(env) {
      match e.config.kind
      case Pll =>
      case Unknown =>
      case SaiSink => SinkPointwise(e, cs, env);
      case _ => WriterPointwise(e, cs, env);
    }
  }

  /** One buffer, after a turn. */
  lemma RunAt(e: Element, cs: seq<Channel>, env: Env, b: nat)
    requires Ready(e, cs, env) && PortsDistinct(e) && !e.Fails(env) && b < |cs|
    ensures RunOf(e, cs, env).ok && Effect(e, cs, env, b, RunOf(e, cs, env).channels[b])
  {
    RunPointwise(e, cs, env);
  }

  lemma RunWrites(e: Element, cs: seq<Channel>, env: Env, k: nat)
    requires Ready(e, cs, env) && PortsDistinct(e) && !e.Fails(env) && k < |e.config.outputs| && e.Moves()
    ensures var b := e.config.outputs[k];
            RunOf(e, cs, env).channels[b] == cs[b].Produce(Supplied(e, cs, env, k))
  {
    RunAt(e, cs, env, e.config.outputs[k]);
  }

  lemma RunTakes(e: Element, cs: seq<Channel>, env: Env, b: nat)
    requires Ready(e, cs, env) && PortsDistinct(e) && !e.Fails(env) && b in e.config.inputs
    ensures b < |cs| && RunOf(e, cs, env).channels[b] == Taken(e, cs[b], env.period)
  {
    RunAt(e, cs, env, b);
  }

  lemma {:induction false} WriterPointwise(e: Element, cs: seq<Channel>, env: Env)
    requires Ready(e, cs, env) && PortsDistinct(e) && !e.Fails(env) && e.Moves() && !e.config.kind.SaiSink?
    ensures forall b :: 0 <= b < |cs| ==> Effect(e, cs, env, b, RunOf(e, cs, env).channels[b])
  {
    var ins, outs := |e.config.inputs|, |e.config.outputs|;
    var written := Written(e, cs, env, outs);
    assert RunOf(e, cs, env).channels == EachInput(ConsumeIt, e, written, env, ins);
    InputsLoop(ConsumeIt, e, written, env);
    forall b | 0 <= b < |cs|
      ensures Effect(e, cs, env, b, RunOf(e, cs, env).channels[b])
    {
      forall k | 0 <= k < outs && e.config.outputs[k] == b
        ensures written[b] == cs[b].Produce(Supplied(e, cs, env, k))
      {
        WrittenPointwise(e, cs, env, outs, k);
      }
      if b !in e.config.outputs {
        WrittenElsewhere(e, cs, env, outs, b);
      }
    }
  }

  lemma {:induction false} SinkPointwise(e: Element, cs: seq<Channel>, env: Env)
    requires Ready(e, cs, env) && PortsDistinct(e) && e.config.kind.SaiSink?
    ensures var t := RunOf(e, cs, env);
            t.ok ==> forall b :: 0 <= b < |cs| ==> Effect(e, cs, env, b, t.channels[b])
  {
    var ins := |e.config.inputs|;
    if e.started {
      InputsLoop(ConsumeIt, e, cs, env);
    } else {
      var primed := EachInput(PrimeIt, e, cs, env, ins);
      InputsLoop(PrimeIt, e, cs, env);
      InputsLoop(ConsumeIt, e, primed, env);
      InputsLoop(ConsumeIt, e, EachInput(ConsumeIt, e, primed, env, ins), env);
    }
  }

  // Stages

  datatype Outcome = Outcome(stage: seq<Element>, channels: seq<Channel>, ok: bool)

  ghost predicate StageReady(stage: seq<Element>, buffers: nat, env: Env) {
    env.Valid(buffers) && forall j :: 0 <= j < |stage| ==> stage[j].Valid(buffers)
  }

  /** The first n elements of a stage, in order, up to a failure. */
  function StageOf(stage: seq<Element>, cs: seq<Channel>, env: Env, n: nat): (o: Outcome)
    requires StageReady(stage, |cs|, env) && n <= |stage|
    ensures |o.stage| == |stage| && |o.channels| == |cs|
  {
    if n == 0 then Outcome(stage, cs, true)
    else
      var before := StageOf(stage, cs, env, n - 1);
      if !before.ok then before
      else
        var t := RunOf(stage[n - 1], before.channels, env);
        Outcome(before.stage[n - 1 := t.element], t.channels, t.ok)
  }

  /** A run changes nothing of an element but its started flag, and nothing at all of
      the elements it did not reach. */
  lemma {:induction false} StageKeepsElements(stage: seq<Element>, cs: seq<Channel>, env: Env, n: nat)
    requires StageReady(stage, |cs|, env) && n <= |stage|
    ensures var after := StageOf(stage, cs, env, n).stage;
            forall j :: 0 <= j < |stage| ==>
              after[j] == stage[j].(started := after[j].started) && (n <= j ==> after[j] == stage[j])
  {
    if n > 0 {
      StageKeepsElements(stage, cs, env, n - 1);
    }
  }

  /** No buffer has ports on two elements of the stage, or two on one. */
  ghost predicate StageDisjoint(stage: seq<Element>) {
    && (forall j :: 0 <= j < |stage| ==> PortsDistinct(stage[j]))
    && (forall j, j', b: nat :: 0 <= j < |stage| && 0 <= j' < |stage| && stage[j].Touches(b) && stage[j'].Touches(b) ==>
          j == j')
  }

  lemma {:induction false} StageElsewhere(stage: seq<Element>, cs: seq<Channel>, env: Env, n: nat, b: nat)
    requires StageReady(stage, |cs|, env) && StageDisjoint(stage) && n <= |stage| && b < |cs|
    requires forall j :: 0 <= j < n ==> !stage[j].Touches(b)
    ensures StageOf(stage, cs, env, n).channels[b] == cs[b]
  {
    if n > 0 {
      StageElsewhere(stage, cs, env, n - 1, b);
      RunPointwise(stage[n - 1], StageOf(stage, cs, env, n - 1).channels, env);
    }
  }

  /** The turn of an element depends on the channels at its own ports only. */
  lemma {:induction false} RunLocal(e: Element, cs: seq<Channel>, cs': seq<Channel>, env: Env, b: nat)
    requires |cs| == |cs'| && Ready(e, cs, env) && PortsDistinct(e) && e.Touches(b)
    requires forall p: nat :: e.Touches(p) && p < |cs| ==> cs[p] == cs'[p]
    ensures RunOf(e, cs, env).ok == RunOf(e, cs', env).ok
    ensures RunOf(e, cs, env).channels[b] == RunOf(e, cs', env).channels[b]
  {
    RunPointwise(e, cs, env);
    RunPointwise(e, cs', env);
    if e.Moves() && b in e.config.outputs {
      var k :| 0 <= k < |e.config.outputs| && e.config.outputs[k] == b;
      if e.config.kind.Routing? && e.selector[k] < |e.config.inputs| {
        assert e.Touches(e.config.inputs[e.selector[k]]);
      }
      assert Supplied(e, cs, env, k) == Supplied(e, cs', env, k);
    }
  }

  /** A stage runs as if each of its elements ran alone, on the channels before. */
  lemma {:induction false} StagePointwise(stage: seq<Element>, cs: seq<Channel>, env: Env, n: nat, j: nat, b: nat)
    requires StageReady(stage, |cs|, env) && StageDisjoint(stage) && j < n <= |stage|
    requires stage[j].Touches(b) && StageOf(stage, cs, env, n).ok
    ensures StageOf(stage, cs, env, n).channels[b] == RunOf(stage[j], cs, env).channels[b]
    decreases n
  {
    var before := StageOf(stage, cs, env, n - 1).channels;
    if j < n - 1 {
      StagePointwise(stage, cs, env, n - 1, j, b);
      RunPointwise(stage[n - 1], before, env);
    } else {
      forall p: nat | p < |cs| && stage[j].Touches(p)
        ensures before[p] == cs[p]
      {
        StageElsewhere(stage, cs, env, n - 1, p);
      }
      RunLocal(stage[j], before, cs, env, b);
    }
  }

  lemma {:induction false} StageSucceeds(stage: seq<Element>, cs: seq<Channel>, env: Env, n: nat)
    requires StageReady(stage, |cs|, env) && n <= |stage|
    ensures StageOf(stage, cs, env, n).ok <==> forall j :: 0 <= j < n ==> !stage[j].Fails(env)
  {
    if n > 0 {
      StageSucceeds(stage, cs, env, n - 1);
    }
  }

  lemma NoneFails(stage: seq<Element>, cs: seq<Channel>, env: Env, j: nat)
    requires StageReady(stage, |cs|, env) && j < |stage| && StageOf(stage, cs, env, |stage|).ok
    ensures !stage[j].Fails(env)
  {
    StageSucceeds(stage, cs, env, |stage|);
  }

  lemma {:induction false} TwiceCounts(stage: seq<Element>, j: nat, j': nat)
    requires j < j' < |stage| && stage[j] == stage[j']
    ensures multiset(stage)[stage[j]] >= 2
  {
    assert stage == stage[..j'] + stage[j'..];
    assert stage[j] in stage[..j'] && stage[j] in stage[j'..];
  }

  lemma {:induction false} TwiceAt(stage: seq<Element>, e: Element) returns (j: nat, j': nat)
    requires multiset(stage)[e] >= 2
    ensures j < j' < |stage| && stage[j] == e && stage[j'] == e
  {
    var n := |stage| - 1;
    assert stage == stage[..n] + [stage[n]];
    if multiset(stage[..n])[e] >= 2 {
      j, j' := TwiceAt(stage[..n], e);
    } else {
      assert e in stage[..n];
      j :| 0 <= j < n && stage[j] == e;
      j' := n;
    }
  }

  lemma ReorderedDisjoint(stage: seq<Element>, other: seq<Element>)
    requires multiset(stage) == multiset(other) && StageDisjoint(stage)
    ensures StageDisjoint(other)
  {
    forall j | 0 <= j < |other|
      ensures PortsDistinct(other[j])
    {
      assert other[j] in multiset(stage);
    }
    forall j, j', b: nat | 0 <= j < j' < |other| && other[j].Touches(b) && other[j'].Touches(b)
      ensures false
    {
      assert other[j] in multiset(stage) && other[j'] in multiset(stage);
      if other[j] == other[j'] {
        TwiceCounts(other, j, j');
        var k, k' := TwiceAt(stage, other[j]);
      }
    }
  }

  /** In any order of its elements, a stage that succeeds leaves the same buffers. */
  lemma {:induction false} StageOrderIrrelevant(stage: seq<Element>, other: seq<Element>, cs: seq<Channel>, env: Env)
    requires multiset(stage) == multiset(other)
    requires StageReady(stage, |cs|, env) && StageDisjoint(stage) && StageOf(stage, cs, env, |stage|).ok
    ensures StageReady(other, |cs|, env) && StageOf(other, cs, env, |other|).ok
    ensures StageOf(other, cs, env, |other|).channels == StageOf(stage, cs, env, |stage|).channels
  {
    assert forall e :: e in multiset(other) <==> e in multiset(stage);
    assert forall j :: 0 <= j < |other| ==> other[j] in multiset(stage);
    ReorderedDisjoint(stage, other);
    StageSucceeds(stage, cs, env, |stage|);
    StageSucceeds(other, cs, env, |other|);
    forall b: nat | b < |cs|
      ensures StageOf(other, cs, env, |other|).channels[b] == StageOf(stage, cs, env, |stage|).channels[b]
    {
      ReorderedBuffer(stage, other, cs, env, b);
    }
  }

  lemma ReorderedBuffer(stage: seq<Element>, other: seq<Element>, cs: seq<Channel>, env: Env, b: nat)
    requires multiset(stage) == multiset(other) && b < |cs|
    requires StageReady(stage, |cs|, env) && StageDisjoint(stage) && StageReady(other, |cs|, env) &&
             StageDisjoint(other)
    requires StageOf(stage, cs, env, |stage|).ok && StageOf(other, cs, env, |other|).ok
    ensures StageOf(other, cs, env, |other|).channels[b] == StageOf(stage, cs, env, |stage|).channels[b]
  {
    var j, k := Toucher(stage, other, b);
    if j < |stage| {
      StagePointwise(stage, cs, env, |stage|, j, b);
      StagePointwise(other, cs, env, |other|, k, b);
    } else {
      StageElsewhere(stage, cs, env, |stage|, b);
      StageElsewhere(other, cs, env, |other|, b);
    }
  }

  /** The element with a port on a buffer, in both orders, if there is one. */
  lemma Toucher(stage: seq<Element>, other: seq<Element>, b: nat) returns (j: nat, k: nat)
    requires multiset(stage) == multiset(other)
    ensures if j < |stage| then k < |other| && stage[j] == other[k] && stage[j].Touches(b)
            else (forall x :: 0 <= x < |stage| ==> !stage[x].Touches(b)) &&
                 forall x :: 0 <= x < |other| ==> !other[x].Touches(b)
  {
    j, k := |stage|, 0;
    if x: nat :| x < |stage| && stage[x].Touches(b) {
      j := x;
      assert stage[j] in multiset(other);
      k :| 0 <= k < |other| && other[k] == stage[j];
    } else {
      assert forall x :: 0 <= x < |other| ==> other[x] in multiset(stage);
    }
  }

  // Whole runs

  datatype Pass = Pass(stages: seq<seq<Element>>, channels: seq<Channel>, ok: bool)

  ghost predicate AllReady(stages: seq<seq<Element>>, buffers: nat, env: Env) {
    env.Valid(buffers) && forall i :: 0 <= i < |stages| ==> StageReady(stages[i], buffers, env)
  }

  /** The first n stages of a run, in order, up to a failure. */
  function PassOf(stages: seq<seq<Element>>, cs: seq<Channel>, env: Env, n: nat): (p: Pass)
    requires AllReady(stages, |cs|, env) && n <= |stages|
    ensures |p.stages| == |stages| && |p.channels| == |cs|
  {
    if n == 0 then Pass(stages, cs, true)
    else
      var before := PassOf(stages, cs, env, n - 1);
      if !before.ok then before
      else
        var o := StageOf(stages[n - 1], before.channels, env, |stages[n - 1]|);
        Pass(before.stages[n - 1 := o.stage], o.channels, o.ok)
  }

  /** In any order of the elements within their stages, a run that succeeds leaves the
      same buffers. */
  lemma {:induction false} OrderIrrelevant(stages: seq<seq<Element>>, others: seq<seq<Element>>, cs: seq<Channel>,
                                           env: Env, n: nat)
    requires n <= |stages| == |others| && AllReady(stages, |cs|, env) && AllReady(others, |cs|, env)
    requires forall i :: 0 <= i < n ==> StageDisjoint(stages[i]) && multiset(stages[i]) == multiset(others[i])
    requires PassOf(stages, cs, env, n).ok
    ensures PassOf(others, cs, env, n).ok && PassOf(others, cs, env, n).channels == PassOf(stages, cs, env, n).channels
  {
    if n > 0 {
      OrderIrrelevant(stages, others, cs, env, n - 1);
      StageOrderIrrelevant(stages[n - 1], others[n - 1], PassOf(stages, cs, env, n - 1).channels, env);
    }
  }

  // Resets

  function ResetOf(e: Element): Element {
    if e.config.kind.SaiSource? || e.config.kind.SaiSink? then e.(started := false) else e
  }

  function Emptying(e: Element): seq<nat> {
    if e.Moves() && !e.config.kind.SaiSink? then e.config.outputs else []
  }

  function EmptiedAll(ports: seq<nat>, cs: seq<Channel>, n: nat): (after: seq<Channel>)
    requires n <= |ports| && forall k :: 0 <= k < |ports| ==> ports[k] < |cs|
    ensures |after| == |cs|
  {
    if n == 0 then cs
    else
      var before := EmptiedAll(ports, cs, n - 1);
      before[ports[n - 1] := before[ports[n - 1]].Emptied()]
  }

  ghost predicate StageValid(stage: seq<Element>, buffers: nat) {
    forall j :: 0 <= j < |stage| ==> stage[j].Valid(buffers)
  }

  ghost predicate AllStagesValid(stages: seq<seq<Element>>, buffers: nat) {
    forall i :: 0 <= i < |stages| ==> StageValid(stages[i], buffers)
  }

  function StageReset(stage: seq<Element>, cs: seq<Channel>, n: nat): (after: seq<Channel>)
    requires n <= |stage| && StageValid(stage, |cs|)
    ensures |after| == |cs|
  {
    if n == 0 then cs
    else
      EmptiedAll(Emptying(stage[n - 1]), StageReset(stage, cs, n - 1), |Emptying(stage[n - 1])|)
  }

  function PassReset(stages: seq<seq<Element>>, cs: seq<Channel>, n: nat): (after: seq<Channel>)
    requires n <= |stages|
    requires AllStagesValid(stages, |cs|)
    ensures |after| == |cs|
  {
    if n == 0 then cs else StageReset(stages[n - 1], PassReset(stages, cs, n - 1), |stages[n - 1]|)
  }

  function StageElementsReset(stage: seq<Element>): (after: seq<Element>)
    ensures |after| == |stage| && forall j :: 0 <= j < |stage| ==> after[j] == ResetOf(stage[j])
  {
    seq(|stage|, j requires 0 <= j < |stage| => ResetOf(stage[j]))
  }

  /** The elements of the first n stages reset. */
  function ElementsReset(stages: seq<seq<Element>>, n: nat): (after: seq<seq<Element>>)
    requires n <= |stages|
    ensures |after| == |stages|
  {
    if n == 0 then stages else ElementsReset(stages, n - 1)[n - 1 := StageElementsReset(stages[n - 1])]
  }

  lemma {:induction false} ElementsResetAt(stages: seq<seq<Element>>, n: nat)
    requires n <= |stages|
    ensures forall i :: 0 <= i < |stages| ==>
              ElementsReset(stages, n)[i] == if i < n then StageElementsReset(stages[i]) else stages[i]
  {
    if n > 0 {
      ElementsResetAt(stages, n - 1);
    }
  }

  /** A ring as it was first set up: pointers at the start, initial silence inside. */
  ghost predicate AtStart(r: Ring) {
    r.Valid() && r.read == 0 && r.fill == r.silence && r.Contents() == Quiet(r.silence)
  }

  ghost predicate Restarted(c: Channel, before: Channel, emptied: bool) {
    if emptied then AtStart(c.ring) && c == before.(ring := c.ring) && c.ring.silence == before.ring.silence
        && c.ring.Size() == before.ring.Size()
    else c == before
  }

  lemma {:induction false} EmptiedPointwise(ports: seq<nat>, cs: seq<Channel>, n: nat, b: nat)
    requires n <= |ports| && b < |cs| && cs[b].ring.Valid()
    requires forall k :: 0 <= k < |ports| ==> ports[k] < |cs|
    ensures Restarted(EmptiedAll(ports, cs, n)[b], cs[b], b in ports[..n])
  {
    if n > 0 {
      EmptiedPointwise(ports, cs, n - 1, b);
      EmptiedIsQuiet(EmptiedAll(ports, cs, n - 1)[b].ring);
      assert ports[..n] == ports[..n - 1] + [ports[n - 1]];
    }
  }

  lemma RestartedTwice(c: Channel, middle: Channel, after: Channel, first: bool, second: bool)
    requires Restarted(middle, c, first) && Restarted(after, middle, second)
    ensures Restarted(after, c, first || second)
  {
  }

  ghost predicate WrittenInStage(stage: seq<Element>, n: nat, b: nat)
    requires n <= |stage|
  {
    exists j :: 0 <= j < n && b in Emptying(stage[j])
  }

  lemma {:induction false} StageResetPointwise(stage: seq<Element>, cs: seq<Channel>, n: nat, b: nat)
    requires n <= |stage| && b < |cs| && cs[b].ring.Valid()
    requires StageValid(stage, |cs|)
    ensures Restarted(StageReset(stage, cs, n)[b], cs[b], WrittenInStage(stage, n, b))
  {
    if n > 0 {
      StageResetPointwise(stage, cs, n - 1, b);
      var before, ports := StageReset(stage, cs, n - 1), Emptying(stage[n - 1]);
      EmptiedPointwise(ports, before, |ports|, b);
      assert ports[..|ports|] == ports;
      RestartedTwice(cs[b], before[b], StageReset(stage, cs, n)[b], WrittenInStage(stage, n - 1, b), b in ports);
    }
  }

  /** Some element of the first n stages writes the buffer. */
  ghost predicate WrittenBuffer(stages: seq<seq<Element>>, n: nat, b: nat)
    requires n <= |stages|
  {
    exists i :: 0 <= i < n && WrittenInStage(stages[i], |stages[i]|, b)
  }

  /** A reset returns every buffer that some element writes to its initial pointers,
      level and silence, and leaves the others alone. */
  lemma {:induction false} ResetPointwise(stages: seq<seq<Element>>, cs: seq<Channel>, n: nat, b: nat)
    requires n <= |stages| && b < |cs| && cs[b].ring.Valid()
    requires AllStagesValid(stages, |cs|)
    ensures Restarted(PassReset(stages, cs, n)[b], cs[b], WrittenBuffer(stages, n, b))
  {
    if n > 0 {
      ResetPointwise(stages, cs, n - 1, b);
      var before, stage := PassReset(stages, cs, n - 1), stages[n - 1];
      StageResetPointwise(stage, before, |stage|, b);
      RestartedTwice(cs[b], before[b], PassReset(stages, cs, n)[b], WrittenBuffer(stages, n - 1, b),
        WrittenInStage(stage, |stage|, b));
    }
  }

  // The pipeline in place

  lemma {:induction false} StageStops(stage: seq<Element>, cs: seq<Channel>, env: Env, n: nat, k: nat)
    requires StageReady(stage, |cs|, env) && k <= n <= |stage| && !StageOf(stage, cs, env, k).ok
    ensures StageOf(stage, cs, env, n) == StageOf(stage, cs, env, k)
    decreases n
  {
    if k < n {
      StageStops(stage, cs, env, n - 1, k);
    }
  }

  lemma {:induction false} PassStops(stages: seq<seq<Element>>, cs: seq<Channel>, env: Env, n: nat, k: nat)
    requires AllReady(stages, |cs|, env) && k <= n <= |stages| && !PassOf(stages, cs, env, k).ok
    ensures PassOf(stages, cs, env, n) == PassOf(stages, cs, env, k)
    decreases n
  {
    if k < n {
      PassStops(stages, cs, env, n - 1, k);
    }
  }

  lemma {:induction false} PassKeepsLater(stages: seq<seq<Element>>, cs: seq<Channel>, env: Env, n: nat)
    requires AllReady(stages, |cs|, env) && n <= |stages|
    ensures forall i :: n <= i < |stages| ==> PassOf(stages, cs, env, n).stages[i] == stages[i]
  {
    if n > 0 {
      PassKeepsLater(stages, cs, env, n - 1);
    }
  }

  class Pipeline {
    var stages: seq<seq<Element>>
    var channels: seq<Channel>

    constructor (stages: seq<seq<Element>>, channels: seq<Channel>)
      ensures this.stages == stages && this.channels == channels
    {
      this.stages, this.channels := stages, channels;
    }

    method WriteOutputs(e: Element, env: Env)
      requires Ready(e, channels, env)
      modifies this`channels
      ensures channels == Written(e, old(channels), env, |e.config.outputs|)
    {
      for k := 0 to |e.config.outputs|
        invariant channels == Written(e, old(channels), env, k)
      {
        var b := e.config.outputs[k];
        channels := channels[b := channels[b].Produce(Supplied(e, channels, env, k))];
      }
    }

    method OverInputs(step: InputStep, e: Element, env: Env)
      requires Ready(e, channels, env)
      modifies this`channels
      ensures channels == EachInput(step, e, old(channels), env, |e.config.inputs|)
    {
      for k := 0 to |e.config.inputs|
        invariant channels == EachInput(step, e, old(channels), env, k)
      {
        var b := e.config.inputs[k];
        channels := channels[b := step.Apply(channels[b], env.period)];
      }
    }

    method RunElement(e: Element, env: Env) returns (after: Element, ok: bool)
      requires Ready(e, channels, env)
      modifies this`channels
      ensures Turn(after, channels, ok) == RunOf(e, old(channels), env)
    {
      after, ok := e, true;
      if e.Fails(env) {
        ok := false;
        return;
      }
      match e.config.kind
      case SaiSink =>
        if !e.started {
          OverInputs(PrimeIt, e, env);
          OverInputs(ConsumeIt, e, env);
        }
        OverInputs(ConsumeIt, e, env);
        after := e.(started := true);
      case SaiSource =>
        WriteOutputs(e, env);
        after := e.(started := true);
      case Routing =>
        WriteOutputs(e, env);
        OverInputs(ConsumeIt, e, env);
      case DtmfSource =>
        WriteOutputs(e, env);
      case SineSource =>
        WriteOutputs(e, env);
      case _ =>
    }

    /** Runs one stage; stops at the first element that fails. */
    method RunStage(i: nat, env: Env) returns (ok: bool)
      requires i < |stages| && StageReady(stages[i], |channels|, env)
      modifies this
      ensures var o := StageOf(old(stages[i]), old(channels), env, |old(stages[i])|);
              stages == old(stages)[i := o.stage] && channels == o.channels && ok == o.ok
    {
      for j := 0 to |stages[i]|
        invariant |stages| == |old(stages)| && |stages[i]| == |old(stages[i])|
        invariant var o := StageOf(old(stages[i]), old(channels), env, j);
                  o.ok && stages == old(stages)[i := o.stage] && channels == o.channels
      {
        StageKeepsElements(old(stages[i]), old(channels), env, j);
        var e;
        e, ok := RunElement(stages[i][j], env);
        stages := stages[i := stages[i][j := e]];
        if !ok {
          StageStops(old(stages[i]), old(channels), env, |old(stages[i])|, j + 1);
          return;
        }
      }
      ok := true;
    }

    method Run(env: Env) returns (ok: bool)
      requires AllReady(stages, |channels|, env)
      modifies this
      ensures Pass(stages, channels, ok) == PassOf(old(stages), Fresh(old(channels)), env, |old(stages)|)
    {
      channels := Fresh(channels);
      ghost var start := channels;
      for i := 0 to |stages|
        invariant |stages| == |old(stages)|
        invariant PassOf(old(stages), start, env, i) == Pass(stages, channels, true)
      {
        PassKeepsLater(old(stages), start, env, i);
        ok := RunStage(i, env);
        if !ok {
          PassStops(old(stages), start, env, |old(stages)|, i + 1);
          return;
        }
      }
      ok := true;
    }

    method ResetElement(e: Element) returns (after: Element)
      requires e.Valid(|channels|)
      modifies this`channels
      ensures after == ResetOf(e)
      ensures channels == EmptiedAll(Emptying(e), old(channels), |Emptying(e)|)
    {
      var ports := Emptying(e);
      for k := 0 to |ports|
        invariant channels == EmptiedAll(ports, old(channels), k)
      {
        channels := channels[ports[k] := channels[ports[k]].Emptied()];
      }
      after := ResetOf(e);
    }

    method ResetStage(i: nat)
      requires i < |stages| && StageValid(stages[i], |channels|)
      modifies this
      ensures stages == old(stages)[i := StageElementsReset(old(stages[i]))]
      ensures channels == StageReset(old(stages[i]), old(channels), |old(stages[i])|)
    {
      var stage := stages[i];
      var after := [];
      for j := 0 to |stage|
        invariant stages == old(stages) && channels == StageReset(stage, old(channels), j)
        invariant |after| == j && forall j' :: 0 <= j' < j ==> after[j'] == ResetOf(stage[j'])
      {
        var e := ResetElement(stage[j]);
        after := after + [e];
      }
      assert after == StageElementsReset(stage);
      stages := stages[i := after];
    }

    method Reset()
      requires AllStagesValid(stages, |channels|)
      modifies this
      ensures stages == ElementsReset(old(stages), |old(stages)|)
      ensures channels == PassReset(old(stages), old(channels), |old(stages)|)
    {
      ghost var start, cs := stages, channels;
      for i := 0 to |stages|
        invariant |channels| == |cs| && stages == ElementsReset(start, i) && channels == PassReset(start, cs, i)
      {
        ElementsResetAt(start, i);
        ResetStage(i);
      }
    }
  }
}
