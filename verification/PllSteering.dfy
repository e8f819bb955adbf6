/** Where the control loop of the PLL steers: towards the source clock, by how much, and
    when it takes its samples and locks. */
module PllSteering {
  import opened Arithmetic
  import opened PllTracking
  import opened Wrappers

  // Quotients towards zero

  lemma TruncOfMultiple(k: int, b: nat)
    requires b > 0
    ensures TruncDiv(k * b, b) == k
  {
    MultipleQuotient(k, b);
    MultipleQuotient(-k, b);
  }

  /** A quotient towards zero has the sign of the dividend, and is one as soon as the
      dividend reaches the divisor. */
  lemma TruncSign(a: int, b: nat)
    requires b > 0
    ensures a >= 0 ==> TruncDiv(a, b) >= 0
    ensures a <= 0 ==> TruncDiv(a, b) <= 0
    ensures a >= b ==> TruncDiv(a, b) >= 1
    ensures a <= 0 - b ==> TruncDiv(a, b) <= -1
  {
    if a >= 0 {
      QuotientAtLeast(0, a, b);
    } else {
      QuotientAtLeast(0, -a, b);
    }
    if a >= b {
      QuotientAtLeast(1, a, b);
    }
    if a <= 0 - b {
      QuotientAtLeast(1, -a, b);
    }
  }

  // One locked sample

  ghost predicate LockedSample(p: Pll, src: U32, dst: U32) {
    p.lock.Locked? && Ticking(p, src, dst)
  }

  /** The error has the sign of the lead of the source, and is the lead per tick of the
      source, in billionths, rounded towards zero. */
  lemma ErrorFollowsLead(p: Pll, src: U32, dst: U32)
    requires LockedSample(p, src, dst)
    ensures var lead, since, e := ClockError(p, src, dst), Elapsed(p, src, dst), Error(p, src, dst);
            && (lead >= 0 ==> e >= 0) && (lead <= 0 ==> e <= 0)
            && 0 - since < e * since - lead * BILLION < since
  {
    TruncSign(ClockError(p, src, dst) * BILLION, Elapsed(p, src, dst));
    TruncClose(ClockError(p, src, dst) * BILLION, Elapsed(p, src, dst));
  }

  /** A lead of the source never lowers the integral unless the lead before was negative,
      and the other way round; it grows by the mean of the last two errors. */
  lemma IntegralFollowsLead(p: Pll, src: U32, dst: U32)
    requires LockedSample(p, src, dst)
    ensures var lead, grown := ClockError(p, src, dst), Integral(p, src, dst) - p.integral;
            && (lead >= 0 && p.prevErr >= 0 ==> grown >= 0)
            && (lead <= 0 && p.prevErr <= 0 ==> grown <= 0)
            && -2 < 2 * grown - (Error(p, src, dst) + p.prevErr) < 2
  {
    ErrorFollowsLead(p, src, dst);
  }

  function Unlimited(p: Pll, src: U32, dst: U32): int
    requires LockedSample(p, src, dst)
  {
    TruncDiv(Error(p, src, dst), KP) + TruncDiv(Integral(p, src, dst), KI) - BILLION
  }

  lemma UnlimitedNear(p: Pll, src: U32, dst: U32)
    requires LockedSample(p, src, dst)
    ensures var e := Error(p, src, dst);
            -258 < 128 * (Unlimited(p, src, dst) + BILLION) - (33 * e + p.prevErr + 2 * p.integral) < 258
  {
    IntegralFollowsLead(p, src, dst);
    TruncClose(Error(p, src, dst), KP);
    TruncClose(Integral(p, src, dst), KI);
  }

  lemma ScaledClose(ppb: int, e: int, rest: int, lead: int, since: nat)
    requires since > 0 && -258 < 128 * ppb - (33 * e + rest) < 258
    requires 0 - since < e * since - lead * BILLION < since
    ensures -291 * since < (128 * ppb - rest) * since - 33 * (lead * BILLION) < 291 * since
  {
    var gap := 128 * ppb - (33 * e + rest);
    MulMonotone(gap, 257, since);
    MulMonotone(-257, gap, since);
    assert (128 * ppb - rest) * since == gap * since + 33 * (e * since);
  }

  /** The setting a locked sample leaves: in between the limits it is, in billionths, the
      lead of the source per tick, weighed by a quarter and a 128th, on top of what the
      integral and the error before stand for, up to less than 3 ppb of truncation. */
  lemma SettingNear(p: Pll, src: U32, dst: U32)
    requires LockedSample(p, src, dst)
    ensures var lead, since, ppb := ClockError(p, src, dst), Elapsed(p, src, dst), Sampled(p, src, dst).prevPpb;
            var exact := 33 * (lead * BILLION);
            var told := (128 * (ppb + BILLION) - p.prevErr - 2 * p.integral) * since;
            && MIN_PPB <= ppb <= MAX_PPB
            && (MIN_PPB < ppb ==> told - exact < 291 * since)
            && (ppb < MAX_PPB ==> told - exact > -291 * since)
    ensures var lead, since, after := ClockError(p, src, dst), Elapsed(p, src, dst), Sampled(p, src, dst);
            && -since < after.prevErr * since - lead * BILLION < since
            && -2 < 2 * (after.integral - p.integral) - (after.prevErr + p.prevErr) < 2
  {
    ErrorFollowsLead(p, src, dst);
    IntegralFollowsLead(p, src, dst);
    UnlimitedNear(p, src, dst);
    var since, raw, rest := Elapsed(p, src, dst), Unlimited(p, src, dst), p.prevErr + 2 * p.integral;
    ScaledClose(raw + BILLION, Error(p, src, dst), rest, ClockError(p, src, dst), since);
    var ppb := Ppb(p, src, dst);
    if ppb < raw {
      MulMonotone(128 * (ppb + BILLION) - rest, 128 * (raw + BILLION) - rest, since);
    } else {
      MulMonotone(128 * (raw + BILLION) - rest, 128 * (ppb + BILLION) - rest, since);
    }
  }

  /** Of two samples with the same source count, the one with the slower destination never
      gets the lower setting. */
  lemma SlowerGetsMore(p: Pll, src: U32, dst: U32, slower: U32)
    requires LockedSample(p, src, dst) && LockedSample(p, src, slower)
    requires Sub32(slower, p.dstBcr) <= Sub32(dst, p.dstBcr)
    ensures Ppb(p, src, slower) >= Ppb(p, src, dst)
  {
    var since := Elapsed(p, src, dst);
    MulMonotone(ClockError(p, src, dst), ClockError(p, src, slower), BILLION);
    TruncMonotone(ClockError(p, src, dst) * BILLION, ClockError(p, src, slower) * BILLION, since);
    var e, more := Error(p, src, dst), Error(p, src, slower);
    TruncMonotone(e + p.prevErr, more + p.prevErr, 2);
    TruncMonotone(Integral(p, src, dst), Integral(p, src, slower), KI);
    TruncMonotone(e, more, KP);
  }

  /** From a settled loop, a source that ran ahead never lowers the setting, one that lags
      never raises it; from a lead of 4 ppb on it moves, unless it is at the limit. */
  lemma SettledFollowsLead(p: Pll, x: int, src: U32, dst: U32)
    requires Settled(p, x) && Ticking(p, src, dst)
    ensures var lead, since, ppb := ClockError(p, src, dst), Elapsed(p, src, dst), Sampled(p, src, dst).prevPpb;
            && (lead >= 0 ==> ppb >= p.prevPpb) && (lead <= 0 ==> ppb <= p.prevPpb)
            && (lead * BILLION >= 4 * since && MIN_PPB <= x < MAX_PPB ==> ppb > p.prevPpb)
            && (lead * BILLION <= -4 * since && MIN_PPB < x <= MAX_PPB ==> ppb < p.prevPpb)
            && Sends(p, src, dst) == if ppb == p.prevPpb then None else Some(ppb)
  {
    var lead, since, e := ClockError(p, src, dst), Elapsed(p, src, dst), Error(p, src, dst);
    ErrorFollowsLead(p, src, dst);
    TruncSign(e, KP);
    TruncSign(e, 2);
    TruncOfMultiple(x + BILLION, KI);
    if lead >= 0 {
      TruncMonotone((x + BILLION) * KI, Integral(p, src, dst), KI);
    }
    if lead <= 0 {
      TruncMonotone(Integral(p, src, dst), (x + BILLION) * KI, KI);
    }
    if lead * BILLION >= 4 * since {
      TruncMonotone(4 * since, lead * BILLION, since);
      TruncOfMultiple(4, since);
    }
    if lead * BILLION <= -4 * since {
      TruncMonotone(lead * BILLION, -4 * since, since);
      TruncOfMultiple(-4, since);
    }
  }

  // Locking

  /** The first estimate: the true ratio of the clocks since the loop was unlocked, less
      than 1 ppb too low, on top of the setting in force. */
  lemma EstimateNear(p: Pll, src: U32, dst: U32)
    requires Ticking(p, src, dst) && p.lock.Locking? && Measures(p) && p.initialSrc <= Tracked(p, src, dst).srcBclk
    ensures var s, d := Tracked(p, src, dst).srcBclk - p.initialSrc, Tracked(p, src, dst).dstBclk - p.initialDst;
            var estimate := Ratio(p, src, dst) - p.prevPpb;
            && 0 <= BILLION * s - (estimate + BILLION) * d < d
            && (s >= d ==> estimate >= 0) && (s <= d ==> estimate <= 0)
  {
    var s, d := Tracked(p, src, dst).srcBclk - p.initialSrc, Tracked(p, src, dst).dstBclk - p.initialDst;
    var q := BILLION * s / d;
    assert BILLION * s == q * d + BILLION * s % d;
    if s >= d {
      MulMonotone(d, s, BILLION);
      QuotientAtLeast(BILLION, BILLION * s, d);
    }
    if s <= d {
      MulMonotone(s, d, BILLION);
      QuotientAtMost(BILLION, BILLION * s, d);
    }
  }

  // Histories, in true counts

  ghost predicate SamplesAt(worlds: seq<World>, ops: seq<Op>, k: nat, lock: Lock) {
    && History(worlds, ops) && k < |ops| && ops[k].RunAt? && Due(worlds[k].p) && worlds[k].p.lock == lock
  }

  lemma TakesSample(worlds: seq<World>, ops: seq<Op>, k: nat, lock: Lock)
    requires SamplesAt(worlds, ops, k, lock)
    ensures var src, dst := ops[k].src % TWO_32, ops[k].dst % TWO_32;
            Ticking(worlds[k].p, src, dst) && worlds[k + 1].p == Sampled(worlds[k].p, src, dst)
  {
    assert Possible(worlds[k], ops[k]) && worlds[k + 1] == After(worlds[k], ops[k]);
  }

  /** Over any history: a locked sample puts its setting, between the limits, within the
      truncation steps of what the true counts of both clocks ask for; it remembers their
      error per tick, and adds the mean of the last two to the integral. */
  lemma SteersAsCounted(worlds: seq<World>, ops: seq<Op>, k: nat)
    requires SamplesAt(worlds, ops, k, Locked)
    ensures var w, p, ppb := worlds[k], worlds[k].p, worlds[k + 1].p.prevPpb;
            var since := ops[k].src - w.apartSrc;
            var exact := 33 * (w.Lead(ops[k].src, ops[k].dst) * BILLION);
            var told := (128 * (ppb + BILLION) - p.prevErr - 2 * p.integral) * since;
            && since > 0 && MIN_PPB <= ppb <= MAX_PPB
            && (MIN_PPB < ppb ==> told - exact < 291 * since)
            && (ppb < MAX_PPB ==> told - exact > -291 * since)
    ensures var w, p, after := worlds[k], worlds[k].p, worlds[k + 1].p;
            var since := ops[k].src - w.apartSrc;
            && -since < after.prevErr * since - w.Lead(ops[k].src, ops[k].dst) * BILLION < since
            && -2 < 2 * (after.integral - p.integral) - (after.prevErr + p.prevErr) < 2
  {
    TakesSample(worlds, ops, k, Locked);
    ErrorIsTrue(worlds, ops, k);
    SettingNear(worlds[k].p, ops[k].src % TWO_32, ops[k].dst % TWO_32);
  }

  /** Over any history: once the loop is settled, a sample steers towards the source. */
  lemma SteersToSource(worlds: seq<World>, ops: seq<Op>, k: nat, x: int)
    requires SamplesAt(worlds, ops, k, Locked) && Settled(worlds[k].p, x)
    ensures var lead := worlds[k].Lead(ops[k].src, ops[k].dst);
            var since, before, ppb := ops[k].src - worlds[k].apartSrc, worlds[k].p.prevPpb, worlds[k + 1].p.prevPpb;
            && (lead >= 0 ==> ppb >= before) && (lead <= 0 ==> ppb <= before)
            && (lead * BILLION >= 4 * since && MIN_PPB <= x < MAX_PPB ==> ppb > before)
            && (lead * BILLION <= -4 * since && MIN_PPB < x <= MAX_PPB ==> ppb < before)
  {
    ErrorIsTrue(worlds, ops, k);
    SettledFollowsLead(worlds[k].p, x, ops[k].src % TWO_32, ops[k].dst % TWO_32);
  }

  lemma LockingSample(p: Pll, src: U32, dst: U32)
    requires Ticking(p, src, dst) && p.lock.Locking? && Measures(p) && p.initialSrc <= Tracked(p, src, dst).srcBclk
    ensures Settled(Sampled(p, src, dst), Ratio(p, src, dst))
    ensures var s, d := Tracked(p, src, dst).srcBclk - p.initialSrc, Tracked(p, src, dst).dstBclk - p.initialDst;
            d > 0 && 0 <= BILLION * s - (Ratio(p, src, dst) - p.prevPpb + BILLION) * d < d
  {
    LockingSettles(p, src, dst);
    EstimateNear(p, src, dst);
  }

  /** Over any history: the sample that locks settles the loop on the true ratio of the
      clocks since it was unlocked, less than 1 ppb too low, on top of the setting before. */
  lemma LocksOnRatio(worlds: seq<World>, ops: seq<Op>, k: nat) returns (x: int)
    requires SamplesAt(worlds, ops, k, Locking) && worlds[k + 1].p.lock.Locked?
    ensures Settled(worlds[k + 1].p, x)
    ensures var s, d := ops[k].src - worlds[k].unlockSrc, ops[k].dst - worlds[k].unlockDst;
            d > 0 && 0 <= BILLION * s - (x - worlds[k].p.prevPpb + BILLION) * d < d
  {
    var p, src, dst := worlds[k].p, ops[k].src % TWO_32, ops[k].dst % TWO_32;
    TakesSample(worlds, ops, k, Locking);
    ErrorIsTrue(worlds, ops, k);
    x := Ratio(p, src, dst);
    LockingSample(p, src, dst);
  }

  // When samples are taken

  /** Runs one after the other, with what the bit clocks read at each. */
  ghost predicate Runs(ps: seq<Pll>, clocks: seq<(U32, U32)>) {
    && |ps| == |clocks| + 1
    && forall k {:trigger clocks[k]} :: 0 <= k < |clocks| ==>
         && (Due(ps[k]) ==> Ticking(ps[k], clocks[k].0, clocks[k].1))
         && ps[k + 1] == RunOnce(ps[k], clocks[k].0, clocks[k].1)
  }

  /** The first run after a reset takes a sample. */
  lemma SampleAfterReset(p: Pll)
    ensures Due(Reset(p)) <==> p.enabled
  {
  }

  /** A command in a history: a reset, enabling and a change of id start the tracking over,
      with a sample due at once if enabled, and keep the setting, the integral and the error;
      disabling stops all samples and forgets nothing. */
  lemma CommandsRestart(w: World, op: Op)
    requires !op.RunAt?
    ensures var p, after := w.p, After(w, op).p;
            && after.prevPpb == p.prevPpb && after.integral == p.integral && after.prevErr == p.prevErr
            && after.enabled == (if op.Enable? then true else if op.Disable? then false else p.enabled)
            && after.id == (if op.SetId? then op.id else p.id)
            && (op.Disable? ==> after == p.(enabled := false) && !Due(after))
            && (!op.Disable? ==>
                  && after.lock == Unlocked && after.sampleCount == 0 && after.srcBclk == after.dstBclk == 0
                  && (Due(after) <==> after.enabled))
  {
  }

  /** From a sample on, the next one is taken by the run that completes the period; until
      then a run does nothing but count. */
  lemma {:induction false} SampleEveryPeriod(ps: seq<Pll>, clocks: seq<(U32, U32)>, k: nat)
    requires Runs(ps, clocks) && k <= |clocks| && ps[0].enabled && ps[0].count == 0
    requires k < ps[0].period || k == 0
    ensures ps[k] == ps[0].(count := k)
    ensures Due(ps[k]) <==> k + 1 >= ps[0].period
  {
    if k > 0 {
      SampleEveryPeriod(ps, clocks, k - 1);
      assert clocks[k - 1] == clocks[k - 1];
    }
  }

  // When the loop locks

  /** Samples one after the other, from a reset on. */
  ghost predicate Samples(ps: seq<Pll>, clocks: seq<(U32, U32)>) {
    && |ps| == |clocks| + 1 && ps[0].lock.Unlocked? && ps[0].sampleCount == 0
    && forall k {:trigger clocks[k]} :: 0 <= k < |clocks| ==>
         Ticking(ps[k], clocks[k].0, clocks[k].1) && ps[k + 1] == Sampled(ps[k], clocks[k].0, clocks[k].1)
  }

  /** The first sample only takes the offset of the clocks; nothing is sent before the
      eleventh sample, which locks. */
  lemma {:induction false} LocksAfterTen(ps: seq<Pll>, clocks: seq<(U32, U32)>, k: nat)
    requires Samples(ps, clocks) && k <= |clocks|
    ensures ps[k].sampleCount == k
    ensures ps[k].lock == if k == 0 then Unlocked else if k <= 10 then Locking else Locked
    ensures k <= 10 ==> ps[k].prevPpb == ps[0].prevPpb && ps[k].integral == ps[0].integral
    ensures k < 10 && k < |clocks| ==> Sends(ps[k], clocks[k].0, clocks[k].1) == None
  {
    if k > 0 {
      LocksAfterTen(ps, clocks, k - 1);
      assert clocks[k - 1] == clocks[k - 1];
    }
  }
}
