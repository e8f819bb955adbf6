/** Tracking of two bit clocks by wrapping 32-bit counters, the control loop that turns
    their difference into parts per billion, and the adjustment of a fractional PLL. */
module PllTracking {
  import opened Arithmetic
  import opened Wrappers

  const MAX_PPB: int := 200_000
  const MIN_PPB: int := -200_000
  const BILLION: int := 1_000_000_000
  const KP: int := 4
  const KI: int := 64
  const LOCKING_SAMPLES: nat := 10

  datatype Lock = Unlocked | Locking | Locked

  /** The element. Totals of ticks are kept in 64 bits, which is taken to be enough. */
  datatype Pll = Pll(id: int, enabled: bool, period: nat, count: nat, lock: Lock, sampleCount: nat,
                     srcBcr: U32, dstBcr: U32, srcBclk: nat, dstBclk: nat, offset: int,
                     initialSrc: nat, initialDst: nat, prevSrc: nat,
                     integral: int, prevErr: int, prevPpb: int)

  function Clamped(ppb: int): int {
    if ppb > MAX_PPB then MAX_PPB else if ppb < MIN_PPB then MIN_PPB else ppb
  }

  // One sample

  function Tracked(p: Pll, src: U32, dst: U32): Pll {
    p.(srcBclk := p.srcBclk + Sub32(src, p.srcBcr), dstBclk := p.dstBclk + Sub32(dst, p.dstBcr),
       srcBcr := src, dstBcr := dst, sampleCount := p.sampleCount + 1, count := 0)
  }

  /** Ticks of the source more than of the destination since the loop was unlocked. */
  function ClockError(p: Pll, src: U32, dst: U32): int {
    Tracked(p, src, dst).srcBclk - Tracked(p, src, dst).dstBclk - p.offset
  }

  /** Source ticks since the last sample with an error. */
  function Elapsed(p: Pll, src: U32, dst: U32): int {
    Tracked(p, src, dst).srcBclk - p.prevSrc
  }

  predicate Measures(p: Pll) {
    p.lock.Locked? || (p.lock.Locking? && p.sampleCount >= LOCKING_SAMPLES)
  }

  /** The clocks run: the divisions of the sample are defined. */
  ghost predicate Ticking(p: Pll, src: U32, dst: U32) {
    && (p.lock.Locked? ==> Elapsed(p, src, dst) > 0)
    && (p.lock.Locking? && Measures(p) ==> Tracked(p, src, dst).dstBclk > p.initialDst)
  }

  function Error(p: Pll, src: U32, dst: U32): int
    requires Ticking(p, src, dst) && Measures(p)
  {
    if p.lock.Locked? then TruncDiv(ClockError(p, src, dst) * BILLION, Elapsed(p, src, dst)) else 0
  }

  /** The ratio of the clocks since the loop was unlocked, on top of the last setting. */
  function Ratio(p: Pll, src: U32, dst: U32): int
    requires Ticking(p, src, dst) && Measures(p) && p.lock.Locking?
  {
    var t := Tracked(p, src, dst);
    TruncDiv(BILLION * (t.srcBclk - p.initialSrc), t.dstBclk - p.initialDst) - BILLION + p.prevPpb
  }

  function Integral(p: Pll, src: U32, dst: U32): int
    requires Ticking(p, src, dst) && Measures(p)
  {
    if p.lock.Locked? then p.integral + TruncDiv(Error(p, src, dst) + p.prevErr, 2)
    else (Ratio(p, src, dst) + BILLION) * KI
  }

  function Ppb(p: Pll, src: U32, dst: U32): int
    requires Ticking(p, src, dst) && Measures(p)
  {
    Clamped(if p.lock.Locked? then
              TruncDiv(Error(p, src, dst), KP) + TruncDiv(Integral(p, src, dst), KI) - BILLION
            else Ratio(p, src, dst))
  }

  function Sampled(p: Pll, src: U32, dst: U32): Pll
    requires Ticking(p, src, dst)
  {
    var e := ClockError(p, src, dst);
    var t0 := Tracked(p, src, dst);
    var t := if e != 0 then t0.(prevSrc := t0.srcBclk) else t0;
    if p.lock.Unlocked? then
      t.(offset := t.srcBclk - t.dstBclk, initialSrc := t.srcBclk, initialDst := t.dstBclk, prevSrc := t.srcBclk,
        lock := Locking)
    else if !Measures(p) then t
    else
      t.(lock := Locked, integral := Integral(p, src, dst), prevErr := Error(p, src, dst), prevPpb := Ppb(p, src, dst))
  }

  /** What the sample sends to the PLL, if anything. */
  function Sends(p: Pll, src: U32, dst: U32): Option<int>
    requires Ticking(p, src, dst)
  {
    if Measures(p) && Ppb(p, src, dst) != p.prevPpb then Some(Ppb(p, src, dst)) else None
  }

  predicate Due(p: Pll) {
    p.enabled && p.count + 1 >= p.period
  }

  function RunOnce(p: Pll, src: U32, dst: U32): Pll
    requires Due(p) ==> Ticking(p, src, dst)
  {
    if !p.enabled then p
    else if !Due(p) then p.(count := p.count + 1)
    else Sampled(p, src, dst)
  }

  function Reset(p: Pll): Pll {
    p.(srcBclk := 0, dstBclk := 0, count := p.period, lock := Unlocked, sampleCount := 0)
  }

  // Any interleaving, against the true tick counts

  function Commanded(p: Pll, op: Op): Pll {
    match op
    case RunAt(_, _) => p
    case ResetIt => Reset(p)
    case Enable => Reset(p).(enabled := true)
    case Disable => p.(enabled := false)
    case SetId(id) => Reset(p).(id := id)
  }

  /** A run at which the clocks have ticked src and dst times, or a command. */
  datatype Op = RunAt(src: nat, dst: nat) | ResetIt | Enable | Disable | SetId(id: int)

  /** The element, and the true counts at its last sample and at its last unlocked one, and
      at the last one of the two clocks apart since then. */
  datatype World = World(p: Pll, lastSrc: nat, lastDst: nat, unlockSrc: nat, unlockDst: nat, apartSrc: nat) {
    /** Ticks of the source more than of the destination since the loop was unlocked. */
    function Lead(src: nat, dst: nat): int {
      (src - unlockSrc) - (dst - unlockDst)
    }
  }

  /** Clocks run on; between two samples of one lock, by fewer than 2^32 ticks. */
  ghost predicate Possible(w: World, op: Op) {
    op.RunAt? && Due(w.p) ==>
      && Ticking(w.p, op.src % TWO_32, op.dst % TWO_32)
      && (!w.p.lock.Unlocked? ==>
            w.lastSrc <= op.src < w.lastSrc + TWO_32 && w.lastDst <= op.dst < w.lastDst + TWO_32)
  }

  function After(w: World, op: Op): World
    requires Possible(w, op)
  {
    match op
    case RunAt(src, dst) =>
      var p := RunOnce(w.p, src % TWO_32, dst % TWO_32);
      if !Due(w.p) then w.(p := p)
      else if w.p.lock.Unlocked? then World(p, src, dst, src, dst, src)
      else w.(p := p, lastSrc := src, lastDst := dst, apartSrc := if w.Lead(src, dst) != 0 then src else w.apartSrc)
    case _ => w.(p := Commanded(w.p, op))
  }

  /** Since the last unlocked sample, the totals are the true counts. */
  ghost predicate Exact(w: World) {
    !w.p.lock.Unlocked? ==>
      && w.p.srcBcr == w.lastSrc % TWO_32 && w.p.dstBcr == w.lastDst % TWO_32
      && w.p.srcBclk - w.p.initialSrc == w.lastSrc - w.unlockSrc
      && w.p.dstBclk - w.p.initialDst == w.lastDst - w.unlockDst
      && w.p.offset == w.p.initialSrc - w.p.initialDst
      && w.p.srcBclk - w.p.prevSrc == w.lastSrc - w.apartSrc
      && w.unlockSrc <= w.apartSrc <= w.lastSrc && w.unlockDst <= w.lastDst
  }

  ghost predicate InRange(p: Pll) {
    MIN_PPB <= p.prevPpb <= MAX_PPB
  }

  /** Wrapping does not matter as long as less than a lap was run. */
  lemma LapIsTrue(last: nat, now: nat)
    requires last <= now < last + TWO_32
    ensures Sub32(now % TWO_32, last % TWO_32) == now - last
  {
  }

  lemma StepExact(w: World, op: Op)
    requires Exact(w) && InRange(w.p) && Possible(w, op)
    ensures Exact(After(w, op)) && InRange(After(w, op).p)
  {
    if op.RunAt? && Due(w.p) && !w.p.lock.Unlocked? {
      LapIsTrue(w.lastSrc, op.src);
      LapIsTrue(w.lastDst, op.dst);
    }
  }

  ghost predicate History(worlds: seq<World>, ops: seq<Op>) {
    && |worlds| == |ops| + 1 && worlds[0].p.lock.Unlocked? && worlds[0].p.prevPpb == 0
    && forall k :: 0 <= k < |ops| ==> Possible(worlds[k], ops[k]) && worlds[k + 1] == After(worlds[k], ops[k])
  }

  lemma {:induction false} AlwaysExact(worlds: seq<World>, ops: seq<Op>, k: nat)
    requires History(worlds, ops) && k <= |ops|
    ensures Exact(worlds[k]) && InRange(worlds[k].p)
    decreases k
  {
    if k > 0 {
      AlwaysExact(worlds, ops, k - 1);
      StepExact(worlds[k - 1], ops[k - 1]);
    }
  }

  /** Over any interleaving of runs, resets, enabling, disabling and changes of id: the
      error of every sample is the true difference of ticks since the loop was last
      unlocked, and whatever is sent to the PLL is within the limits. */
  lemma ErrorIsTrue(worlds: seq<World>, ops: seq<Op>, k: nat)
    requires History(worlds, ops) && k < |ops| && ops[k].RunAt? && Due(worlds[k].p) && !worlds[k].p.lock.Unlocked?
    ensures var w, src, dst := worlds[k], ops[k].src % TWO_32, ops[k].dst % TWO_32;
            && ClockError(w.p, src, dst) == w.Lead(ops[k].src, ops[k].dst)
            && Elapsed(w.p, src, dst) == ops[k].src - w.apartSrc && w.unlockSrc <= ops[k].src
            && Tracked(w.p, src, dst).srcBclk - w.p.initialSrc == ops[k].src - w.unlockSrc
            && Tracked(w.p, src, dst).dstBclk - w.p.initialDst == ops[k].dst - w.unlockDst
            && match Sends(w.p, src, dst)
               case Some(ppb) => -200_000 <= ppb <= 200_000
               case None => true
  {
    AlwaysExact(worlds, ops, k);
    LapIsTrue(worlds[k].lastSrc, ops[k].src);
    LapIsTrue(worlds[k].lastDst, ops[k].dst);
  }

  // A loop without error

  /** Locked, with no error behind it: the integral stands for the ppb x before limits. */
  ghost predicate Settled(p: Pll, x: int) {
    p.lock.Locked? && p.prevErr == 0 && p.integral == (x + BILLION) * KI && p.prevPpb == Clamped(x)
  }

  lemma LockingSettles(p: Pll, src: U32, dst: U32)
    requires Ticking(p, src, dst) && p.lock.Locking? && Measures(p)
    ensures Settled(Sampled(p, src, dst), Ratio(p, src, dst))
  {
  }

  /** A sample without error sends nothing and keeps the loop settled. */
  lemma SettledStays(p: Pll, x: int, src: U32, dst: U32)
    requires Settled(p, x) && Ticking(p, src, dst) && ClockError(p, src, dst) == 0
    ensures Settled(Sampled(p, src, dst), x) && Sends(p, src, dst) == None
  {
  }

  lemma {:induction false} SettledHolds(ps: seq<Pll>, samples: seq<(U32, U32)>, x: int)
    requires |ps| == |samples| + 1 && Settled(ps[0], x)
    requires forall k :: 0 <= k < |samples| ==>
               && Ticking(ps[k], samples[k].0, samples[k].1)
               && ClockError(ps[k], samples[k].0, samples[k].1) == 0
               && ps[k + 1] == Sampled(ps[k], samples[k].0, samples[k].1)
    ensures forall k :: 0 <= k <= |samples| ==> Settled(ps[k], x) && ps[k].prevPpb == ps[0].prevPpb
    decreases |samples|
  {
    if samples != [] {
      var n := |samples| - 1;
      SettledHolds(ps[..n + 1], samples[..n], x);
      assert ps[..n + 1][n] == ps[n];
      SettledStays(ps[n], x, samples[n].0, samples[n].1);
    }
  }

  // Which PLL carries the setting

  /** The world, and the last ppb sent to each PLL; none sent is zero. */
  datatype Plant = Plant(w: World, settings: map<int, int>) {
    function Carried(id: int): int {
      if id in settings then settings[id] else 0
    }

    /** The PLL selected carries the ppb the loop holds. */
    predicate Carries() {
      Carried(w.p.id) == w.p.prevPpb
    }
  }

  function Sent(w: World, op: Op): Option<int>
    requires Possible(w, op)
  {
    if op.RunAt? && Due(w.p) then Sends(w.p, op.src % TWO_32, op.dst % TWO_32) else None
  }

  function AfterOp(plant: Plant, op: Op): Plant
    requires Possible(plant.w, op)
  {
    Plant(After(plant.w, op),
          match Sent(plant.w, op)
          case Some(ppb) => plant.settings[plant.w.p.id := ppb]
          case None => plant.settings)
  }

  lemma OpCarries(plant: Plant, op: Op)
    requires Possible(plant.w, op) && !op.SetId?
    ensures AfterOp(plant, op).Carries() <==> Sent(plant.w, op).Some? || plant.Carries()
  {
  }

  ghost predicate Plants(plants: seq<Plant>, ops: seq<Op>) {
    && |plants| == |ops| + 1
    && forall k {:trigger ops[k]} :: 0 <= k < |ops| ==>
         Possible(plants[k].w, ops[k]) && plants[k + 1] == AfterOp(plants[k], ops[k])
  }

  /** The loop keeps its ppb when it is given another PLL. That one carries it, at any
      later time up to the next change, if and only if something was sent since, or it
      carried that very ppb already. */
  lemma {:induction false} CarriesExactWhen(plants: seq<Plant>, ops: seq<Op>, first: nat, last: nat)
    requires Plants(plants, ops) && first < last <= |ops| && ops[first].SetId?
    requires forall k :: first < k < last ==> !ops[k].SetId?
    ensures plants[last].Carries() <==>
            || (exists k :: first < k < last && Possible(plants[k].w, ops[k]) && Sent(plants[k].w, ops[k]).Some?)
            || plants[first].Carried(ops[first].id) == plants[first].w.p.prevPpb
    decreases last
  {
    assert plants[last] == AfterOp(plants[last - 1], ops[last - 1]);
    if first + 1 < last {
      CarriesExactWhen(plants, ops, first, last - 1);
      OpCarries(plants[last - 1], ops[last - 1]);
    }
  }

  /** A new PLL is not told a ppb that stays the same. */
  lemma NotTold(plant: Plant, id: int)
    requires id !in plant.settings && plant.w.p.prevPpb != 0
    ensures !AfterOp(plant, SetId(id)).Carries()
  {
  }

  // The fractional PLL

  const DSM_LIMIT: int := 0x8000

  /** The setting before it is limited. */
  function RawDsm(dsm: int, mainDiv: int, ppb: int): int {
    dsm + TruncDiv(ppb * (0x1_0000 * mainDiv + dsm), BILLION)
  }

  function Dsm(dsm: int, mainDiv: int, ppb: int): (r: int)
    ensures -DSM_LIMIT < r < DSM_LIMIT
  {
    var raw := RawDsm(dsm, mainDiv, ppb);
    if raw <= -DSM_LIMIT then -(DSM_LIMIT - 1) else if raw >= DSM_LIMIT then DSM_LIMIT - 1 else raw
  }

  lemma TruncClose(a: int, b: nat)
    requires b > 0
    ensures 0 - b < TruncDiv(a, b) * b - a < b
  {
  }

  lemma TruncMonotone(x: int, y: int, b: nat)
    requires b > 0 && x <= y
    ensures TruncDiv(x, b) <= TruncDiv(y, b)
  {
    if x >= 0 {
      QuotientAtLeast(x / b, y, b);
    } else if y < 0 {
      QuotientAtLeast((-y) / b, -x, b);
    } else {
      QuotientAtLeast(0, -x, b);
      QuotientAtLeast(0, y, b);
    }
  }

  /** More ppb never give a smaller setting; and the setting is less than one step from
      the exact value, unless it is at its limit, where it is the nearest allowed. */
  lemma AdjustmentIsFaithful(dsm: int, mainDiv: int, ppb: int, more: int)
    requires -DSM_LIMIT <= dsm < DSM_LIMIT && mainDiv >= 1 && ppb <= more
    ensures Dsm(dsm, mainDiv, ppb) <= Dsm(dsm, mainDiv, more)
    ensures var exact := dsm * BILLION + ppb * (0x1_0000 * mainDiv + dsm);
            && (-DSM_LIMIT < RawDsm(dsm, mainDiv, ppb) < DSM_LIMIT ==>
                  -BILLION < Dsm(dsm, mainDiv, ppb) * BILLION - exact < BILLION)
            && (RawDsm(dsm, mainDiv, ppb) <= -DSM_LIMIT ==> exact < (-DSM_LIMIT + 1) * BILLION)
            && (RawDsm(dsm, mainDiv, ppb) >= DSM_LIMIT ==> exact > (DSM_LIMIT - 1) * BILLION)
    ensures ppb == 0 && -DSM_LIMIT < dsm ==> Dsm(dsm, mainDiv, ppb) == dsm
  {
    var k := 0x1_0000 * mainDiv + dsm;
    MulMonotone(ppb, more, k);
    TruncMonotone(ppb * k, more * k, BILLION);
    TruncClose(ppb * k, BILLION);
  }

  /** Writes the setting: 16 bits, less than one step from the exact value, or at the limit
      the exact value lies beyond. */
  method Adjust(dsm: int, mainDiv: int, ppb: int) returns (register: int)
    requires -DSM_LIMIT <= dsm < DSM_LIMIT && mainDiv >= 1
    ensures register == Dsm(dsm, mainDiv, ppb) && -0x8000 < register < 0x8000
    ensures var exact := dsm * BILLION + ppb * (0x1_0000 * mainDiv + dsm);
            || -BILLION < register * BILLION - exact < BILLION
            || (register == -0x7fff && exact < register * BILLION)
            || (register == 0x7fff && exact > register * BILLION)
  {
    AdjustmentIsFaithful(dsm, mainDiv, ppb, ppb);
    register := dsm + TruncDiv(ppb * (0x1_0000 * mainDiv + dsm), BILLION);
    if register <= -DSM_LIMIT {
      register := -(DSM_LIMIT - 1);
    } else if register >= DSM_LIMIT {
      register := DSM_LIMIT - 1;
    }
  }

  // The element in place

  class Element {
    var id: int
    var enabled: bool
    var period: nat
    var count: nat
    var lock: Lock
    var sampleCount: nat
    var srcBcr: U32
    var dstBcr: U32
    var srcBclk: nat
    var dstBclk: nat
    var bclkOffset: int
    var initialSrcBclk: nat
    var initialDstBclk: nat
    var prevSrcBclk: nat
    var integral: int
    var prevErr: int
    var prevBclkPpb: int

    ghost function View(): Pll
      reads this
    {
      Pll(id, enabled, period, count, lock, sampleCount, srcBcr, dstBcr, srcBclk, dstBclk, bclkOffset,
          initialSrcBclk, initialDstBclk, prevSrcBclk, integral, prevErr, prevBclkPpb)
    }

    method Restart()
      modifies this`srcBclk, this`dstBclk, this`count, this`lock, this`sampleCount
      ensures View() == Reset(old(View()))
    {
      srcBclk, dstBclk, count, lock, sampleCount := 0, 0, period, Unlocked, 0;
    }

    /** A command of the client; returns false for any other. */
    method Ctrl(command: Op) returns (ok: bool)
      modifies this
      ensures ok <==> command.Enable? || command.Disable? || command.SetId?
      ensures View() == if ok then Commanded(old(View()), command) else old(View())
    {
      ok := true;
      match command
      case Enable =>
        Restart();
        enabled := true;
      case Disable =>
        enabled := false;
      case SetId(i) =>
        id := i;
        Restart();
      case _ =>
        ok := false;
    }

    /** One run; sent is what goes to the PLL. */
    method Run(src: U32, dst: U32) returns (sent: Option<int>)
      requires Due(View()) ==> Ticking(View(), src, dst)
      modifies this
      ensures View() == RunOnce(old(View()), src, dst)
      ensures sent == if Due(old(View())) then Sends(old(View()), src, dst) else None
    {
      sent := None;
      if !enabled {
        return;
      }
      count := count + 1;
      if count < period {
        return;
      }
      sent := Sample(src, dst);
    }

    method Track(src: U32, dst: U32)
      modifies this`srcBclk, this`dstBclk, this`srcBcr, this`dstBcr, this`sampleCount, this`count
      ensures View() == Tracked(old(View()), src, dst)
    {
      srcBclk, dstBclk := srcBclk + Sub32(src, srcBcr), dstBclk + Sub32(dst, dstBcr);
      srcBcr, dstBcr := src, dst;
      sampleCount, count := sampleCount + 1, 0;
    }

    /** Tracks the clocks, then acts on their difference as far as the loop is locked. */
    method Sample(src: U32, dst: U32) returns (sent: Option<int>)
      requires Ticking(View(), src, dst)
      modifies this
      ensures View() == Sampled(old(View()), src, dst) && sent == Sends(old(View()), src, dst)
    {
      var samples := sampleCount;
      ghost var p := View();
      Track(src, dst);
      var bclkErr := srcBclk - dstBclk - bclkOffset;
      var dt := srcBclk - prevSrcBclk;
      sent := None;
      if bclkErr != 0 {
        prevSrcBclk := srcBclk;
      }
      if lock.Unlocked? {
        bclkOffset, initialSrcBclk, initialDstBclk := srcBclk - dstBclk, srcBclk, dstBclk;
        prevSrcBclk, lock := srcBclk, Locking;
        return;
      }
      if lock.Locking? && samples < LOCKING_SAMPLES {
        return;
      }
      sent := Control(p, src, dst, bclkErr, dt);
    }

    /** The control loop, once the clocks of the sample are tracked. */
    method Control(ghost p: Pll, src: U32, dst: U32, bclkErr: int, dt: int) returns (sent: Option<int>)
      requires Ticking(p, src, dst) && Measures(p) && bclkErr == ClockError(p, src, dst) && dt == Elapsed(p, src, dst)
      requires var t := Tracked(p, src, dst);
               View() == if bclkErr != 0 then t.(prevSrc := t.srcBclk) else t
      modifies this`lock, this`integral, this`prevErr, this`prevBclkPpb
      ensures View() == Sampled(p, src, dst) && sent == Sends(p, src, dst)
    {
      var ppb, err := 0, 0;
      if lock.Locking? {
        ppb := TruncDiv(BILLION * (srcBclk - initialSrcBclk), dstBclk - initialDstBclk) - BILLION + prevBclkPpb;
        integral := (ppb + BILLION) * KI;
        lock := Locked;
      } else {
        err := TruncDiv(bclkErr * BILLION, dt);
        integral := integral + TruncDiv(err + prevErr, 2);
        ppb := TruncDiv(err, KP) + TruncDiv(integral, KI) - BILLION;
      }
      ppb := Clamped(ppb);
      sent := None;
      if ppb != prevBclkPpb {
        sent := Some(ppb);
        prevBclkPpb := ppb;
      }
      prevErr := err;
    }
  }
}
