/** Configuration of an audio pipeline, and the checker that accepts it. */
module PipelineConfig {
  datatype Kind = DtmfSource | SineSource | SaiSource | SaiSink | Routing | Pll | Unknown

  datatype Side = In | Out

  /** sane: the settings of the element other than its ports are valid. */
  datatype ElementConfig = ElementConfig(kind: Kind, inputs: seq<nat>, outputs: seq<nat>, sane: bool) {
    function Ports(side: Side): seq<nat> {
      if side.In? then inputs else outputs
    }

    predicate Checked() {
      match kind
      case DtmfSource => inputs == [] && |outputs| == 1 && sane
      case SineSource => inputs == [] && |outputs| == 1 && sane
      case SaiSource => inputs == [] && sane
      case SaiSink => outputs == [] && sane
      case Routing => inputs != [] && outputs != []
      case Pll => true
      case Unknown => false
    }
  }

  type Stage = seq<ElementConfig>

  datatype BufferConfig = BufferConfig(storage: nat, shared: bool, sharedUser: bool, sharedId: nat)

  datatype StorageConfig = StorageConfig(external: bool, periods: nat)

  datatype Config = Config(stages: seq<Stage>, buffers: seq<BufferConfig>, storages: seq<StorageConfig>)

  // Ports, counted

  function Occurrences(s: seq<nat>, b: nat): nat {
    if s == [] then 0 else Occurrences(s[..|s| - 1], b) + if s[|s| - 1] == b then 1 else 0
  }

  /** Ports on a buffer, of the elements of a stage from an element on. */
  function StagePorts(stage: Stage, side: Side, from: nat, b: nat): nat
    requires from <= |stage|
    decreases |stage| - from
  {
    if from == |stage| then 0 else Occurrences(stage[from].Ports(side), b) + StagePorts(stage, side, from + 1, b)
  }

  /** Ports on a buffer, of all elements from a stage on. */
  function PortsFrom(stages: seq<Stage>, side: Side, from: nat, b: nat): nat
    requires from <= |stages|
    decreases |stages| - from
  {
    if from == |stages| then 0 else StagePorts(stages[from], side, 0, b) + PortsFrom(stages, side, from + 1, b)
  }

  lemma {:induction false} Occurs(s: seq<nat>, b: nat)
    ensures Occurrences(s, b) > 0 <==> b in s
  {
    if s != [] {
      var n := |s| - 1;
      Occurs(s[..n], b);
      assert b in s <==> b in s[..n] || s[n] == b;
    }
  }

  lemma {:induction false} OccursTwice(s: seq<nat>, k: nat, k': nat)
    requires k < k' < |s| && s[k] == s[k']
    ensures Occurrences(s, s[k]) >= 2
  {
    var n := |s| - 1;
    if k' < n {
      OccursTwice(s[..n], k, k');
    } else {
      assert s[k] in s[..n];
      Occurs(s[..n], s[k]);
    }
  }

  /** A buffer has a port from an element, or a stage, on exactly when its count is
      positive. */
  lemma {:induction false} StagePortAt(stage: Stage, side: Side, from: nat, b: nat) returns (j: nat)
    requires from <= |stage| && StagePorts(stage, side, from, b) > 0
    ensures from <= j < |stage| && b in stage[j].Ports(side)
    decreases |stage| - from
  {
    Occurs(stage[from].Ports(side), b);
    if b in stage[from].Ports(side) {
      j := from;
    } else {
      j := StagePortAt(stage, side, from + 1, b);
    }
  }

  lemma {:induction false} PortAt(stages: seq<Stage>, side: Side, from: nat, b: nat) returns (i: nat, j: nat)
    requires from <= |stages| && PortsFrom(stages, side, from, b) > 0
    ensures from <= i < |stages| && j < |stages[i]| && b in stages[i][j].Ports(side)
    decreases |stages| - from
  {
    if StagePorts(stages[from], side, 0, b) > 0 {
      i := from;
      j := StagePortAt(stages[from], side, 0, b);
    } else {
      i, j := PortAt(stages, side, from + 1, b);
    }
  }

  lemma {:induction false} StageCounts(stage: Stage, side: Side, from: nat, j: nat, b: nat)
    requires from <= j < |stage|
    ensures Occurrences(stage[j].Ports(side), b) + StagePorts(stage, side, j + 1, b) <= StagePorts(stage, side, from, b)
    decreases j - from
  {
    if from < j {
      StageCounts(stage, side, from + 1, j, b);
    }
  }

  lemma {:induction false} StagesCount(stages: seq<Stage>, side: Side, from: nat, i: nat, b: nat)
    requires from <= i < |stages|
    ensures StagePorts(stages[i], side, 0, b) + PortsFrom(stages, side, i + 1, b) <= PortsFrom(stages, side, from, b)
    decreases i - from
  {
    if from < i {
      StagesCount(stages, side, from + 1, i, b);
    }
  }

  lemma {:induction false} ElementPorts(stages: seq<Stage>, side: Side, from: nat, i: nat, j: nat, b: nat)
    requires from <= i < |stages| && j < |stages[i]|
    ensures Occurrences(stages[i][j].Ports(side), b) <= PortsFrom(stages, side, from, b)
  {
    StageCounts(stages[i], side, 0, j, b);
    StagesCount(stages, side, from, i, b);
  }

  /** Two elements with a port on the same buffer make two ports. */
  lemma TwoPorts(stages: seq<Stage>, side: Side, i: nat, j: nat, i': nat, j': nat, b: nat)
    requires i < |stages| && j < |stages[i]| && i' < |stages| && j' < |stages[i']| && (i, j) != (i', j')
    requires b in stages[i][j].Ports(side) && b in stages[i'][j'].Ports(side)
    ensures PortsFrom(stages, side, 0, b) >= 2
  {
    if i < i' || (i == i' && j < j') {
      PortsInOrder(stages, side, i, j, i', j', b);
    } else {
      PortsInOrder(stages, side, i', j', i, j, b);
    }
  }

  lemma {:induction false} PortsInOrder(stages: seq<Stage>, side: Side, i: nat, j: nat, i': nat, j': nat, b: nat)
    requires i < |stages| && j < |stages[i]| && i' < |stages| && j' < |stages[i']|
    requires i < i' || (i == i' && j < j')
    requires b in stages[i][j].Ports(side) && b in stages[i'][j'].Ports(side)
    ensures PortsFrom(stages, side, 0, b) >= 2
  {
    Occurs(stages[i][j].Ports(side), b);
    Occurs(stages[i'][j'].Ports(side), b);
    StageCounts(stages[i], side, 0, j, b);
    StagesCount(stages, side, 0, i, b);
    if i < i' {
      ElementPorts(stages, side, i + 1, i', j', b);
    } else {
      StageCounts(stages[i], side, j + 1, j', b);
    }
  }

  // What the checker accepts

  /** Element j of stage i has a port on buffer b. */
  ghost predicate HasPort(stages: seq<Stage>, side: Side, i: int, j: int, b: nat) {
    0 <= i < |stages| && 0 <= j < |stages[i]| && b in stages[i][j].Ports(side)
  }

  ghost predicate ReferencesValid(c: Config) {
    forall i, j, side: Side, b: nat :: HasPort(c.stages, side, i, j, b) ==> b < |c.buffers|
  }

  ghost predicate BuffersValid(c: Config) {
    forall b :: 0 <= b < |c.buffers| ==>
      && (c.buffers[b].storage < |c.storages| || c.buffers[b].sharedUser)
      && PortsFrom(c.stages, Out, 0, b) <= 1
  }

  ghost predicate LoopFree(c: Config) {
    forall i, j, b: nat :: HasPort(c.stages, In, i, j, b) ==> PortsFrom(c.stages, Out, i, b) == 0
  }

  ghost predicate ElementsChecked(c: Config) {
    forall i, j :: 0 <= i < |c.stages| && 0 <= j < |c.stages[i]| ==> c.stages[i][j].Checked()
  }

  ghost predicate Accepted(c: Config) {
    ReferencesValid(c) && BuffersValid(c) && LoopFree(c) && ElementsChecked(c)
  }

  /** No loop means: whoever reads a buffer sits in a later stage than whoever
      writes it. */
  lemma LoopFreeMeansForward(c: Config)
    ensures LoopFree(c) <==>
            forall i, j, i', j', b: nat :: (HasPort(c.stages, In, i, j, b) && HasPort(c.stages, Out, i', j', b)) ==>
              i' < i
  {
    if LoopFree(c) {
      forall i, j, i', j', b: nat | HasPort(c.stages, In, i, j, b) && HasPort(c.stages, Out, i', j', b)
        ensures i' < i
      {
        Occurs(c.stages[i'][j'].Ports(Out), b);
        if i' >= i {
          ElementPorts(c.stages, Out, i, i', j', b);
        }
      }
    } else {
      var i: nat, j: nat, b: nat :| HasPort(c.stages, In, i, j, b) && PortsFrom(c.stages, Out, i, b) > 0;
      var i', j' := PortAt(c.stages, Out, i, b);
      assert HasPort(c.stages, Out, i', j', b);
    }
  }

  // The checker

  method CountPorts(c: Config, side: Side, from: nat, b: nat) returns (count: nat)
    requires from <= |c.stages|
    ensures count == PortsFrom(c.stages, side, from, b)
  {
    count := 0;
    for i := from to |c.stages|
      invariant count + PortsFrom(c.stages, side, i, b) == PortsFrom(c.stages, side, from, b)
    {
      var inStage := CountStagePorts(c.stages[i], side, b);
      count := count + inStage;
    }
  }

  method CountStagePorts(stage: Stage, side: Side, b: nat) returns (count: nat)
    ensures count == StagePorts(stage, side, 0, b)
  {
    count := 0;
    for j := 0 to |stage|
      invariant count + StagePorts(stage, side, j, b) == StagePorts(stage, side, 0, b)
    {
      var inElement := CountElementPorts(stage[j].Ports(side), b);
      count := count + inElement;
    }
  }

  method CountElementPorts(ports: seq<nat>, b: nat) returns (count: nat)
    ensures count == Occurrences(ports, b)
  {
    count := 0;
    for k := 0 to |ports|
      invariant count == Occurrences(ports[..k], b)
    {
      assert ports[..k + 1][..k] == ports[..k];
      if ports[k] == b {
        count := count + 1;
      }
    }
    assert ports[..|ports|] == ports;
  }

  method CheckReferences(c: Config) returns (ok: bool)
    ensures ok <==> ReferencesValid(c)
  {
    for i := 0 to |c.stages|
      invariant forall i', j, side: Side, b: nat :: (i' < i && HasPort(c.stages, side, i', j, b)) ==> b < |c.buffers|
    {
      for j := 0 to |c.stages[i]|
        invariant forall j', side: Side, b: nat :: (j' < j && HasPort(c.stages, side, i, j', b)) ==> b < |c.buffers|
      {
        ok := CheckPorts(c, i, j, In);
        if ok {
          ok := CheckPorts(c, i, j, Out);
        }
        if !ok {
          return;
        }
      }
    }
    ok := true;
  }

  method CheckPorts(c: Config, i: nat, j: nat, side: Side) returns (ok: bool)
    requires i < |c.stages| && j < |c.stages[i]|
    ensures ok <==> forall b: nat :: HasPort(c.stages, side, i, j, b) ==> b < |c.buffers|
  {
    var ports := c.stages[i][j].Ports(side);
    for k := 0 to |ports|
      invariant forall k' :: 0 <= k' < k ==> ports[k'] < |c.buffers|
    {
      if ports[k] >= |c.buffers| {
        assert HasPort(c.stages, side, i, j, ports[k]);
        return false;
      }
    }
    ok := true;
  }

  method CheckBuffers(c: Config) returns (ok: bool)
    ensures ok <==> BuffersValid(c)
  {
    for b := 0 to |c.buffers|
      invariant forall b' :: 0 <= b' < b ==>
                  && (c.buffers[b'].storage < |c.storages| || c.buffers[b'].sharedUser)
                  && PortsFrom(c.stages, Out, 0, b') <= 1
    {
      if c.buffers[b].storage >= |c.storages| && !c.buffers[b].sharedUser {
        return false;
      }
      var outputs := CountPorts(c, Out, 0, b);
      if outputs > 1 {
        return false;
      }
    }
    ok := true;
  }

  method CheckLoops(c: Config) returns (ok: bool)
    ensures ok <==> LoopFree(c)
  {
    for i := 0 to |c.stages|
      invariant forall i', j, b: nat :: (i' < i && HasPort(c.stages, In, i', j, b)) ==>
                PortsFrom(c.stages, Out, i', b) == 0
    {
      for j := 0 to |c.stages[i]|
        invariant forall j', b: nat :: (j' < j && HasPort(c.stages, In, i, j', b)) ==>
                    PortsFrom(c.stages, Out, i, b) == 0
      {
        var inputs := c.stages[i][j].inputs;
        for k := 0 to |inputs|
          invariant forall k' :: 0 <= k' < k ==> PortsFrom(c.stages, Out, i, inputs[k']) == 0
        {
          var outputs := CountPorts(c, Out, i, inputs[k]);
          if outputs > 0 {
            assert HasPort(c.stages, In, i, j, inputs[k]);
            return false;
          }
        }
      }
    }
    ok := true;
  }

  method CheckElements(c: Config) returns (ok: bool)
    ensures ok <==> ElementsChecked(c)
  {
    for i := 0 to |c.stages|
      invariant forall i', j :: 0 <= i' < i && 0 <= j < |c.stages[i']| ==> c.stages[i'][j].Checked()
    {
      for j := 0 to |c.stages[i]|
        invariant forall j' :: 0 <= j' < j ==> c.stages[i][j'].Checked()
      {
        if !c.stages[i][j].Checked() {
          return false;
        }
      }
    }
    ok := true;
  }

  method Check(c: Config) returns (ok: bool)
    ensures ok <==> Accepted(c)
  {
    ok := CheckReferences(c);
    if ok {
      ok := CheckBuffers(c);
    }
    if ok {
      ok := CheckLoops(c);
    }
    if ok {
      ok := CheckElements(c);
    }
  }
}
