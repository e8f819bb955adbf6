/** One block of memory per pipeline: its size is summed up first, then the block is
    carved into arrays, element data and buffer storage. */
module MemoryCarving {
  import opened PipelineConfig

  function Sum(s: seq<nat>, n: nat): (total: nat)
    requires n <= |s|
  {
    if n == 0 then 0 else Sum(s, n - 1) + s[n - 1]
  }

  lemma {:induction false} SumLater(s: seq<nat>, n: nat, m: nat)
    requires n <= m <= |s|
    ensures Sum(s, n) <= Sum(s, m)
    decreases m - n
  {
    if n < m {
      SumLater(s, n, m - 1);
    }
  }

  function Totals(rows: seq<seq<nat>>): (s: seq<nat>)
    ensures |s| == |rows| && forall i :: 0 <= i < |s| ==> s[i] == Sum(rows[i], |rows[i]|)
  {
    seq(|rows|, i requires 0 <= i < |rows| => Sum(rows[i], |rows[i]|))
  }

  // The parts of a block, in bytes

  /** Lengths of the parts. A storage with a base of its own is not counted. */
  datatype Plan = Plan(pipeline: nat, stages: nat, elements: seq<nat>, data: seq<seq<nat>>, buffers: nat,
                       storages: seq<nat>, counted: seq<nat>) {
    ghost predicate Valid() {
      && |data| == |elements| && |counted| == |storages|
      && forall s :: 0 <= s < |storages| ==> storages[s] > 0 && (counted[s] == storages[s] || counted[s] == 0)
    }

    ghost predicate AllCounted() {
      counted == storages
    }

    /** Where the sections of the block start: records, arrays, data, storage. */
    function ElementBase(): nat {
      pipeline + stages
    }

    function DataBase(): nat {
      ElementBase() + Sum(elements, |elements|)
    }

    function BufferBase(): nat {
      DataBase() + Sum(Totals(data), |data|)
    }

    function StorageBase(): nat {
      BufferBase() + buffers
    }

    function BlockSize(): nat {
      StorageBase() + Sum(counted, |counted|)
    }

    /** All lengths together. */
    function Total(): nat {
      pipeline + stages + Sum(elements, |elements|) + Sum(Totals(data), |data|) + buffers + Sum(storages, |storages|)
    }
  }

  datatype Range = Range(start: nat, len: nat) {
    predicate Apart(other: Range) {
      start + len <= other.start || other.start + other.len <= start
    }

    predicate Within(size: nat) {
      start + len <= size
    }
  }

  datatype Part =
    | PipelinePart
    | StagesPart
    | ElementsPart(i: nat)
    | DataPart(i: nat, j: nat)
    | BuffersPart
    | StoragePart(id: nat)

  ghost predicate IsPart(plan: Plan, p: Part) {
    match p
    case ElementsPart(i) => i < |plan.elements|
    case DataPart(i, j) => i < |plan.data| && j < |plan.data[i]|
    case StoragePart(id) => id < |plan.storages|
    case _ => true
  }

  ghost function RangeOf(plan: Plan, p: Part): Range
    requires plan.Valid() && IsPart(plan, p)
  {
    match p
    case PipelinePart => Range(0, plan.pipeline)
    case StagesPart => Range(plan.pipeline, plan.stages)
    case ElementsPart(i) => Range(plan.ElementBase() + Sum(plan.elements, i), plan.elements[i])
    case DataPart(i, j) => Range(plan.DataBase() + Sum(Totals(plan.data), i) + Sum(plan.data[i], j), plan.data[i][j])
    case BuffersPart => Range(plan.BufferBase(), plan.buffers)
    case StoragePart(id) => Range(plan.StorageBase() + Sum(plan.counted, id), plan.storages[id])
  }

  function Section(p: Part): nat {
    match p
    case PipelinePart => 0
    case StagesPart => 1
    case ElementsPart(_) => 2
    case DataPart(_, _) => 3
    case BuffersPart => 4
    case StoragePart(_) => 5
  }

  function SectionStart(plan: Plan, section: nat): nat {
    if section == 0 then 0
    else if section == 1 then plan.pipeline
    else if section == 2 then plan.ElementBase()
    else if section == 3 then plan.DataBase()
    else if section == 4 then plan.BufferBase()
    else if section == 5 then plan.StorageBase()
    else plan.BlockSize()
  }

  lemma DataEnds(data: seq<seq<nat>>, i: nat, j: nat, i': nat)
    requires i < i' <= |data| && j < |data[i]|
    ensures Sum(Totals(data), i) + Sum(data[i], j) + data[i][j] <= Sum(Totals(data), i')
  {
    SumLater(data[i], j + 1, |data[i]|);
    SumLater(Totals(data), i + 1, i');
  }

  /** A part lies in its section. */
  lemma InSection(plan: Plan, p: Part)
    requires plan.Valid() && IsPart(plan, p) && (p.StoragePart? ==> plan.counted[p.id] == plan.storages[p.id])
    ensures SectionStart(plan, Section(p)) <= RangeOf(plan, p).start
    ensures RangeOf(plan, p).start + RangeOf(plan, p).len <= SectionStart(plan, Section(p) + 1)
  {
    match p
    case ElementsPart(i) => SumLater(plan.elements, i + 1, |plan.elements|);
    case DataPart(i, j) => DataEnds(plan.data, i, j, |plan.data|);
    case StoragePart(id) => SumLater(plan.counted, id + 1, |plan.counted|);
    case _ =>
  }

  /** Two parts of one section lie apart. */
  lemma WithinSection(plan: Plan, p: Part, q: Part)
    requires plan.Valid() && plan.AllCounted() && IsPart(plan, p) && IsPart(plan, q)
    requires p != q && Section(p) == Section(q)
    ensures RangeOf(plan, p).Apart(RangeOf(plan, q))
  {
    match p
    case ElementsPart(i) =>
      SumLater(plan.elements, if i < q.i then i + 1 else q.i + 1, if i < q.i then q.i else i);
    case DataPart(i, j) =>
      DataApart(plan.data, i, j, q.i, q.j);
    case StoragePart(id) =>
      SumLater(plan.counted, if id < q.id then id + 1 else q.id + 1, if id < q.id then q.id else id);
    case _ =>
  }

  lemma DataInOrder(data: seq<seq<nat>>, i: nat, j: nat, i': nat, j': nat)
    requires i < |data| && j < |data[i]| && i' < |data| && j' < |data[i']|
    requires i < i' || (i == i' && j < j')
    ensures Sum(Totals(data), i) + Sum(data[i], j) + data[i][j] <= Sum(Totals(data), i') + Sum(data[i'], j')
  {
    if i < i' {
      DataEnds(data, i, j, i');
    } else {
      SumLater(data[i], j + 1, j');
    }
  }

  lemma DataApart(data: seq<seq<nat>>, i: nat, j: nat, i': nat, j': nat)
    requires i < |data| && j < |data[i]| && i' < |data| && j' < |data[i']| && (i, j) != (i', j')
    ensures var a, b := Sum(Totals(data), i) + Sum(data[i], j), Sum(Totals(data), i') + Sum(data[i'], j');
            a + data[i][j] <= b || b + data[i'][j'] <= a
  {
    if i < i' || (i == i' && j < j') {
      DataInOrder(data, i, j, i', j');
    } else {
      DataInOrder(data, i', j', i, j);
    }
  }

  lemma SectionsInOrder(plan: Plan, a: nat, b: nat)
    requires a <= b
    ensures SectionStart(plan, a) <= SectionStart(plan, b)
  {
  }

  lemma PartsApart(plan: Plan, p: Part, q: Part)
    requires plan.Valid() && plan.AllCounted() && IsPart(plan, p) && IsPart(plan, q) && p != q
    ensures RangeOf(plan, p).Apart(RangeOf(plan, q))
  {
    if Section(p) == Section(q) {
      WithinSection(plan, p, q);
    } else {
      InSection(plan, p);
      InSection(plan, q);
      if Section(p) < Section(q) {
        SectionsInOrder(plan, Section(p) + 1, Section(q));
      } else {
        SectionsInOrder(plan, Section(q) + 1, Section(p));
      }
    }
  }

  lemma PartWithin(plan: Plan, p: Part)
    requires plan.Valid() && plan.AllCounted() && IsPart(plan, p)
    ensures RangeOf(plan, p).Within(plan.BlockSize())
  {
    InSection(plan, p);
    SectionsInOrder(plan, Section(p) + 1, 6);
  }

  /** When every storage is counted, all parts lie in the block, apart from each other,
      and fill it exactly. */
  lemma PartsTile(plan: Plan)
    requires plan.Valid() && plan.AllCounted()
    ensures forall p :: IsPart(plan, p) ==> RangeOf(plan, p).Within(plan.BlockSize())
    ensures forall p, q :: IsPart(plan, p) && IsPart(plan, q) && p != q ==> RangeOf(plan, p).Apart(RangeOf(plan, q))
    ensures plan.Total() == plan.BlockSize()
  {
    forall p | IsPart(plan, p)
      ensures RangeOf(plan, p).Within(plan.BlockSize())
    {
      PartWithin(plan, p);
    }
    forall p, q | IsPart(plan, p) && IsPart(plan, q) && p != q
      ensures RangeOf(plan, p).Apart(RangeOf(plan, q))
    {
      PartsApart(plan, p, q);
    }
  }

  /** The ranges of the storages that are carved, those named by some buffer, stay in
      the block and apart. */
  ghost predicate StoragesFit(plan: Plan, named: set<nat>)
    requires plan.Valid()
  {
    && (forall id: nat :: id in named && id < |plan.storages| ==>
        RangeOf(plan, StoragePart(id)).Within(plan.BlockSize()))
    && forall id: nat, id': nat :: id in named && id' in named && id < id' < |plan.storages| ==>
         RangeOf(plan, StoragePart(id)).Apart(RangeOf(plan, StoragePart(id')))
  }

  ghost predicate CoveredTo(plan: Plan, id: nat, end: nat)
    requires plan.Valid() && id < end <= |plan.storages|
  {
    plan.counted[id] == 0 ==> Sum(plan.counted, end) - Sum(plan.counted, id) >= plan.storages[id]
  }

  /** A storage with a base of its own is left out of the sums, but the carving ignores
      that base: up to the next carved storage, or the end of the block, there must be
      as many bytes of storages that no buffer names. */
  ghost predicate Covered(plan: Plan, named: set<nat>)
    requires plan.Valid()
  {
    forall id: nat, end: nat {:trigger CoveredTo(plan, id, end)} ::
      id in named && id < end <= |plan.storages| && (end == |plan.storages| || end in named) ==>
        CoveredTo(plan, id, end)
  }

  lemma CarvedBelow(plan: Plan, named: set<nat>, id: nat, end: nat)
    requires plan.Valid() && Covered(plan, named)
    requires id in named && id < end <= |plan.storages| && (end == |plan.storages| || end in named)
    ensures Sum(plan.counted, id) + plan.storages[id] <= Sum(plan.counted, end)
  {
    assert CoveredTo(plan, id, end);
    SumLater(plan.counted, id + 1, end);
  }

  /** The carved storages fit exactly when those that are not counted are covered. */
  lemma StoragesFitExactWhen(plan: Plan, named: set<nat>)
    requires plan.Valid()
    ensures StoragesFit(plan, named) <==> Covered(plan, named)
  {
    var n := |plan.storages|;
    if Covered(plan, named) {
      forall id: nat, end: nat | id in named && id < end <= n && (end == n || end in named)
        ensures Sum(plan.counted, id) + plan.storages[id] <= Sum(plan.counted, end)
      {
        CarvedBelow(plan, named, id, end);
      }
    } else {
      var id: nat, end: nat :| id in named && id < end <= n && (end == n || end in named) && !CoveredTo(plan, id, end);
      SumLater(plan.counted, id, end);
      if end == n {
        assert !RangeOf(plan, StoragePart(id)).Within(plan.BlockSize());
      } else {
        assert !RangeOf(plan, StoragePart(id)).Apart(RangeOf(plan, StoragePart(end)));
      }
    }
  }

  /** When every storage is named, none is covered but those that are counted. */
  lemma CoveredWhenAllNamed(plan: Plan, named: set<nat>)
    requires plan.Valid() && forall id: nat :: id < |plan.storages| ==> id in named
    ensures Covered(plan, named) <==> plan.AllCounted()
  {
    if Covered(plan, named) {
      forall id | 0 <= id < |plan.storages|
        ensures plan.counted[id] == plan.storages[id]
      {
        assert CoveredTo(plan, id, id + 1);
      }
    }
  }

  // Inside the data of a routing element

  datatype RoutingLengths = RoutingLengths(record: nat, inputs: nat, outputs: nat, silence: nat) {
    function Size(): nat {
      record + inputs + outputs + silence
    }
  }

  /** Record, input pointers, outputs and samples of silence, one after the other. */
  function RoutingParts(r: RoutingLengths, at: nat): seq<Range> {
    [Range(at, r.record), Range(at + r.record, r.inputs), Range(at + r.record + r.inputs, r.outputs),
     Range(at + r.record + r.inputs + r.outputs, r.silence)]
  }

  /** The inner arrays of a routing element fill its data exactly, away from each other
      and from every other part of the block. */
  lemma {:induction false} RoutingPartsFit(plan: Plan, r: RoutingLengths, i: nat, j: nat, p: Part)
    requires plan.Valid() && plan.AllCounted() && IsPart(plan, DataPart(i, j)) && plan.data[i][j] == r.Size()
    requires IsPart(plan, p) && p != DataPart(i, j)
    ensures var inner := RoutingParts(r, RangeOf(plan, DataPart(i, j)).start);
            && (forall k :: 0 <= k < |inner| ==> inner[k].Within(plan.BlockSize()) && inner[k].Apart(RangeOf(plan, p)))
            && (forall k, k' :: 0 <= k < k' < |inner| ==> inner[k].Apart(inner[k']))
            && inner[3].start + inner[3].len == RangeOf(plan, DataPart(i, j)).start + plan.data[i][j]
  {
    PartsApart(plan, DataPart(i, j), p);
    PartWithin(plan, DataPart(i, j));
  }

  // The sums and the carving of the program

  /** Sizes, in bytes, of the records of the program, and of the data of each element. */
  datatype Sizes = Sizes(pipeline: nat, stage: nat, element: nat, buffer: nat, sample: nat, period: nat,
                         data: seq<seq<nat>>) {
    ghost predicate Describes(c: Config) {
      && sample > 0 && period > 0 && |data| == |c.stages|
      && (forall i :: 0 <= i < |data| ==> |data[i]| == |c.stages[i]|)
      && forall s :: 0 <= s < |c.storages| ==> c.storages[s].periods > 0
    }
  }

  function Mul(a: nat, b: nat): nat {
    a * b
  }

  function Samples(c: Config, period: nat): (s: seq<nat>)
    ensures |s| == |c.storages| && forall i :: 0 <= i < |s| ==> s[i] == Mul(c.storages[i].periods, period)
  {
    seq(|c.storages|, i requires 0 <= i < |c.storages| => Mul(c.storages[i].periods, period))
  }

  function Counted(c: Config, s: seq<nat>): (k: seq<nat>)
    requires |s| == |c.storages|
    ensures |k| == |s| && forall i :: 0 <= i < |k| ==> k[i] == if c.storages[i].external then 0 else s[i]
  {
    seq(|s|, i requires 0 <= i < |s| => if c.storages[i].external then 0 else s[i])
  }

  function Scaled(s: seq<nat>, factor: nat): (t: seq<nat>)
    ensures |t| == |s| && forall i :: 0 <= i < |t| ==> t[i] == Mul(s[i], factor)
  {
    seq(|s|, i requires 0 <= i < |s| => Mul(s[i], factor))
  }

  function ElementCounts(c: Config): (s: seq<nat>)
    ensures |s| == |c.stages| && forall i :: 0 <= i < |s| ==> s[i] == |c.stages[i]|
  {
    seq(|c.stages|, i requires 0 <= i < |c.stages| => |c.stages[i]|)
  }

  function PlanOf(c: Config, z: Sizes): Plan {
    var samples := Samples(c, z.period);
    Plan(z.pipeline, Mul(|c.stages|, z.stage), Scaled(ElementCounts(c), z.element), z.data, Mul(|c.buffers|, z.buffer),
         Scaled(samples, z.sample), Scaled(Counted(c, samples), z.sample))
  }

  lemma PlanValid(c: Config, z: Sizes)
    requires z.Describes(c)
    ensures PlanOf(c, z).Valid()
    ensures PlanOf(c, z).AllCounted() <==> forall s :: 0 <= s < |c.storages| ==> !c.storages[s].external
  {
  }

  /** Each part of the block is as long as the records it holds: one per stage, element and
      buffer, and the samples of the periods of a storage. */
  ghost predicate HoldsRecords(c: Config, z: Sizes, p: Part, len: nat) {
    match p
    case PipelinePart => len == z.pipeline
    case StagesPart => len == |c.stages| * z.stage
    case ElementsPart(i) => i < |c.stages| && len == |c.stages[i]| * z.element
    case DataPart(i, j) => i < |z.data| && j < |z.data[i]| && len == z.data[i][j]
    case BuffersPart => len == |c.buffers| * z.buffer
    case StoragePart(id) => id < |c.storages| && len == c.storages[id].periods * z.period * z.sample
  }

  lemma PartsHoldRecords(c: Config, z: Sizes, p: Part)
    requires z.Describes(c) && PlanOf(c, z).Valid() && IsPart(PlanOf(c, z), p)
    ensures HoldsRecords(c, z, p, RangeOf(PlanOf(c, z), p).len)
  {
  }

  /** The storage of a buffer of its own is a part of the block, in every configuration the
      checker accepts. */
  lemma AcceptedStorageIsPart(c: Config, z: Sizes, b: nat)
    requires Accepted(c) && z.Describes(c) && b < |c.buffers| && !c.buffers[b].sharedUser
    ensures IsPart(PlanOf(c, z), StoragePart(c.buffers[b].storage))
  {
  }

  /** The size counts a storage exactly when it has no base of its own. */
  lemma CountedExactWhen(c: Config, z: Sizes, id: nat)
    requires z.Describes(c) && id < |c.storages|
    ensures var plan := PlanOf(c, z);
            && |plan.counted| == |plan.storages| == |c.storages|
            && plan.counted[id] == if c.storages[id].external then 0 else plan.storages[id]
  {
  }

  lemma {:induction false} SumScaled(s: seq<nat>, factor: nat, n: nat)
    requires n <= |s|
    ensures Sum(Scaled(s, factor), n) == Mul(Sum(s, n), factor)
  {
    if n > 0 {
      SumScaled(s, factor, n - 1);
      assert (Sum(s, n - 1) + s[n - 1]) * factor == Sum(s, n - 1) * factor + s[n - 1] * factor;
    }
  }

  method ElementSize(c: Config, z: Sizes) returns (size: nat)
    ensures size == Sum(PlanOf(c, z).elements, |c.stages|)
  {
    ghost var elements := PlanOf(c, z).elements;
    size := 0;
    for i := 0 to |c.stages|
      invariant size == Sum(elements, i)
    {
      size := size + Mul(|c.stages[i]|, z.element);
    }
  }

  method ElementDataSizeTotal(data: seq<seq<nat>>) returns (size: nat)
    ensures size == Sum(Totals(data), |data|)
  {
    size := 0;
    for i := 0 to |data|
      invariant size == Sum(Totals(data), i)
    {
      for j := 0 to |data[i]|
        invariant size == Sum(Totals(data), i) + Sum(data[i], j)
      {
        size := size + data[i][j];
      }
    }
  }

  /** In samples. */
  method StorageOffset(c: Config, z: Sizes, id: nat) returns (offset: nat)
    requires id <= |c.storages|
    ensures Mul(offset, z.sample) == Sum(PlanOf(c, z).counted, id)
  {
    ghost var counted := Counted(c, Samples(c, z.period));
    offset := 0;
    for i := 0 to id
      invariant offset == Sum(counted, i)
    {
      if !c.storages[i].external {
        offset := offset + Mul(c.storages[i].periods, z.period);
      }
    }
    SumScaled(counted, z.sample, id);
  }

  /** In bytes. */
  method StorageSize(c: Config, z: Sizes) returns (size: nat)
    ensures size == Sum(PlanOf(c, z).counted, |c.storages|)
  {
    ghost var counted := PlanOf(c, z).counted;
    size := 0;
    for i := 0 to |c.storages|
      invariant size == Sum(counted, i)
    {
      if !c.storages[i].external {
        size := size + Mul(Mul(c.storages[i].periods, z.period), z.sample);
      }
    }
  }

  /** Size of the block to allocate. */
  method Allocate(c: Config, z: Sizes) returns (size: nat)
    ensures size == PlanOf(c, z).BlockSize()
  {
    var elements := ElementSize(c, z);
    var data := ElementDataSizeTotal(z.data);
    var storage := StorageSize(c, z);
    size := z.pipeline + Mul(|c.stages|, z.stage) + elements + data + Mul(|c.buffers|, z.buffer) + storage;
  }

  /** Carves the element arrays and the element data, advancing two bases. */
  method StageInit(c: Config, z: Sizes) returns (elementAt: seq<nat>, dataAt: seq<seq<nat>>)
    requires z.Describes(c) && PlanOf(c, z).Valid()
    ensures Carved(elementAt, PlanOf(c, z).elements, PlanOf(c, z).ElementBase())
    ensures |dataAt| == |c.stages|
    ensures forall i: nat {:trigger dataAt[i]} :: i < |c.stages| ==>
              Carved(dataAt[i], z.data[i], PlanOf(c, z).DataBase() + Sum(Totals(z.data), i))
  {
    ghost var plan := PlanOf(c, z);
    var elements := ElementSize(c, z);
    var elementBase := z.pipeline + Mul(|c.stages|, z.stage);
    var dataBase := elementBase + elements;
    elementAt := ElementInit(c, z, elementBase);
    dataAt := DataInit(dataBase, z.data);
  }

  /** The row of addresses of consecutive blocks. */
  ghost predicate Carved(row: seq<nat>, sizes: seq<nat>, base: nat) {
    |row| == |sizes| && forall j {:trigger row[j]} :: 0 <= j < |row| ==> row[j] == base + Sum(sizes, j)
  }

  /** The carved addresses are the starts of the parts. */
  lemma CarvedAddresses(plan: Plan, elementAt: seq<nat>, dataAt: seq<seq<nat>>, p: Part)
    requires plan.Valid() && Carved(elementAt, plan.elements, plan.ElementBase()) && |dataAt| == |plan.data|
    requires forall i: nat {:trigger dataAt[i]} :: i < |plan.data| ==>
               Carved(dataAt[i], plan.data[i], plan.DataBase() + Sum(Totals(plan.data), i))
    requires IsPart(plan, p)
    ensures p.ElementsPart? ==> RangeOf(plan, p).start == elementAt[p.i]
    ensures p.DataPart? ==> p.j < |dataAt[p.i]| && RangeOf(plan, p).start == dataAt[p.i][p.j]
  {
  }

  /** The outer loop, on the element arrays. */
  method ElementInit(c: Config, z: Sizes, base: nat) returns (row: seq<nat>)
    ensures Carved(row, PlanOf(c, z).elements, base)
  {
    ghost var elements := PlanOf(c, z).elements;
    var next := base;
    row := [];
    for i := 0 to |c.stages|
      invariant |row| == i && next == base + Sum(elements, i)
      invariant forall i' {:trigger row[i']} :: 0 <= i' < i ==> row[i'] == base + Sum(elements, i')
    {
      row := row + [next];
      next := next + Mul(|c.stages[i]|, z.element);
    }
  }

  /** The outer loop, on the element data. */
  method DataInit(base: nat, data: seq<seq<nat>>) returns (rows: seq<seq<nat>>)
    ensures |rows| == |data|
    ensures forall i: nat {:trigger rows[i]} :: i < |data| ==> Carved(rows[i], data[i], base + Sum(Totals(data), i))
  {
    ghost var totals := Totals(data);
    var next := base;
    rows := [];
    for i := 0 to |data|
      invariant |rows| == i && next == base + Sum(totals, i)
      invariant forall i': nat {:trigger rows[i']} :: i' < i ==> Carved(rows[i'], data[i'], base + Sum(totals, i'))
    {
      var row;
      row, next := StageDataInit(next, data[i]);
      rows := rows + [row];
    }
  }

  /** The inner loop, over the elements of a stage. */
  method StageDataInit(base: nat, sizes: seq<nat>) returns (row: seq<nat>, next: nat)
    ensures Carved(row, sizes, base) && next == base + Sum(sizes, |sizes|)
  {
    row, next := [], base;
    for j := 0 to |sizes|
      invariant |row| == j && next == base + Sum(sizes, j)
      invariant forall j' {:trigger row[j']} :: 0 <= j' < j ==> row[j'] == base + Sum(sizes, j')
    {
      row := row + [next];
      next := next + sizes[j];
    }
  }

  /** Carves the storage of a buffer that is not a user of a shared one; size counts
      samples. */
  method BufferStorage(c: Config, z: Sizes, b: nat) returns (at: nat, size: nat)
    requires PlanOf(c, z).Valid() && b < |c.buffers| && c.buffers[b].storage < |c.storages|
    ensures var r := RangeOf(PlanOf(c, z), StoragePart(c.buffers[b].storage));
            at == r.start && Mul(size, z.sample) == r.len
  {
    var elements := ElementSize(c, z);
    var data := ElementDataSizeTotal(z.data);
    var id := c.buffers[b].storage;
    var offset := StorageOffset(c, z, id);
    at := z.pipeline + Mul(|c.stages|, z.stage) + elements + data + Mul(|c.buffers|, z.buffer) + Mul(offset, z.sample);
    size := Mul(c.storages[id].periods, z.period);
  }

  /** Sizes of the record, an input pointer and an output of a routing element. */
  datatype RoutingSizes = RoutingSizes(record: nat, pointer: nat, output: nat)

  /** Data size of a routing element, with one more input pointer for the silence. */
  function RoutingElementSize(r: RoutingSizes, z: Sizes, e: ElementConfig): nat {
    r.record + Mul(|e.inputs| + 1, r.pointer) + Mul(|e.outputs|, r.output) + Mul(z.sample, z.period)
  }

  function RoutingLengthsOf(r: RoutingSizes, z: Sizes, e: ElementConfig): RoutingLengths {
    RoutingLengths(r.record, Mul(|e.inputs| + 1, r.pointer), Mul(|e.outputs|, r.output), Mul(z.sample, z.period))
  }

  /** The initialisation of a routing element carves its inner arrays from its data. */
  method RoutingInit(r: RoutingSizes, z: Sizes, e: ElementConfig, at: nat)
    returns (inputsAt: nat, outputsAt: nat, silenceAt: nat)
    ensures var inner := RoutingParts(RoutingLengthsOf(r, z, e), at);
            && at == inner[0].start && inputsAt == inner[1].start
            && outputsAt == inner[2].start && silenceAt == inner[3].start
    ensures silenceAt + Mul(z.sample, z.period) == at + RoutingElementSize(r, z, e)
  {
    inputsAt := at + r.record;
    outputsAt := inputsAt + Mul(|e.inputs| + 1, r.pointer);
    silenceAt := outputsAt + Mul(|e.outputs|, r.output);
  }

  /** Given the size it declares, the arrays a routing element carves are apart from each
      other and from every other part of the block, and end where its data ends. */
  lemma RoutingDataFits(plan: Plan, r: RoutingSizes, z: Sizes, e: ElementConfig, i: nat, j: nat, p: Part)
    requires plan.Valid() && plan.AllCounted() && IsPart(plan, DataPart(i, j)) && IsPart(plan, p) && p != DataPart(i, j)
    requires plan.data[i][j] == RoutingElementSize(r, z, e)
    ensures var data := RangeOf(plan, DataPart(i, j));
            var inner := RoutingParts(RoutingLengthsOf(r, z, e), data.start);
            && (forall k :: 0 <= k < |inner| ==> inner[k].Within(plan.BlockSize()) && inner[k].Apart(RangeOf(plan, p)))
            && (forall k, k' :: 0 <= k < k' < |inner| ==> inner[k].Apart(inner[k']))
            && inner[3].start + inner[3].len == data.start + data.len
  {
    RoutingPartsFit(plan, RoutingLengthsOf(r, z, e), i, j, p);
  }

  /** The storages that are carved: a user of a shared buffer takes that one's. */
  function Named(c: Config): set<nat> {
    set b | 0 <= b < |c.buffers| && !c.buffers[b].sharedUser :: c.buffers[b].storage
  }

  ghost predicate AllNamed(c: Config) {
    forall id: nat :: id < |c.storages| ==> id in Named(c)
  }

  /** For every configuration: the carved storages stay in the block and apart exactly
      when those with a base of their own are covered. With every storage in use, that
      means that none has a base of its own; and it suffices that none in use has. */
  lemma CarvingExactWhen(c: Config, z: Sizes)
    requires z.Describes(c)
    ensures PlanOf(c, z).Valid()
    ensures StoragesFit(PlanOf(c, z), Named(c)) <==> Covered(PlanOf(c, z), Named(c))
    ensures AllNamed(c) ==>
              (StoragesFit(PlanOf(c, z), Named(c)) <==> forall s :: 0 <= s < |c.storages| ==> !c.storages[s].external)
    ensures (forall s: nat :: s in Named(c) && s < |c.storages| ==> !c.storages[s].external) ==>
              StoragesFit(PlanOf(c, z), Named(c))
  {
    PlanValid(c, z);
    StoragesFitExactWhen(PlanOf(c, z), Named(c));
    if AllNamed(c) {
      CoveredWhenAllNamed(PlanOf(c, z), Named(c));
    }
  }

  /** A storage in use with a base of its own, and nothing behind it: out of the block. */
  lemma ExternalClashExample(c: Config, z: Sizes)
    requires c == Config([], [BufferConfig(0, false, false, 0)], [StorageConfig(true, 2)])
    requires z == Sizes(1, 1, 1, 1, 8, 16, [])
    ensures z.Describes(c) && PlanOf(c, z).Valid() && !StoragesFit(PlanOf(c, z), Named(c))
  {
    assert Named(c) == {c.buffers[0].storage};
    PlanValid(c, z);
    StoragesFitExactWhen(PlanOf(c, z), Named(c));
    CoveredWhenAllNamed(PlanOf(c, z), Named(c));
  }
}
