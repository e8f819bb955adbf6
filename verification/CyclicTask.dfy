/** The cyclic TSN task: 64-bit schedule times, timestamped frames, the receive
    filter of a socket and the schedule that lets two peers meet. */
module CyclicTask {
  import opened Arithmetic
  import opened Wrappers

  const U64: int := 0x1_0000_0000_0000_0000
  const NSECS_PER_SEC: nat := 1_000_000_000

  type Time = t: int | 0 <= t < U64

  /** Subtraction of 64-bit unsigned times. */
  function Sub64(a: Time, b: nat): Time {
    (a - b) % U64
  }

  datatype Action = Hold | ApplyIq

  datatype IqCommand = IqCommand(device: nat, motor: nat, iq: real)

  /** The two error bits of a device. */
  datatype Status = Status(fault: bool, network: bool) {
    predicate Ok() {
      !fault && !network
    }
  }

  /** A message body; a body of the wrong size keeps only its message id. */
  datatype Message =
    | SetIq(action: Action, commands: seq<IqCommand>)
    | Feedback(status: Status)
    | WrongSize(isSetIq: bool)
    | OtherMessage

  datatype Frame = Frame(src: nat, stamp: Time, message: Message)

  // Receive filter

  predicate StampOk(f: Frame, now: Time, transfer: nat) {
    f.stamp == Sub64(now, transfer)
  }

  predicate Matches(f: Frame, now: Time, transfer: nat, peer: nat) {
    StampOk(f, now, transfer) && f.src == peer
  }

  /** The first frame meant for this cycle and sent by the peer. */
  function Accepted(frames: seq<Frame>, now: Time, transfer: nat, peer: nat): Option<Frame> {
    if frames == [] then None
    else if Matches(frames[0], now, transfer, peer) then Some(frames[0])
    else Accepted(frames[1..], now, transfer, peer)
  }

  lemma {:induction false} AcceptedMeaning(frames: seq<Frame>, now: Time, transfer: nat, peer: nat)
    ensures match Accepted(frames, now, transfer, peer)
            case None => forall k :: 0 <= k < |frames| ==> !Matches(frames[k], now, transfer, peer)
            case Some(f) => f in frames && Matches(f, now, transfer, peer)
  {
    if frames != [] {
      AcceptedMeaning(frames[1..], now, transfer, peer);
      if Accepted(frames, now, transfer, peer) == None {
        assert forall k :: 0 < k < |frames| ==> frames[k] == frames[1..][k - 1];
      }
    }
  }

  function CountStale(frames: seq<Frame>, now: Time, transfer: nat): nat {
    if frames == [] then 0
    else CountStale(frames[..|frames| - 1], now, transfer) +
         (if StampOk(frames[|frames| - 1], now, transfer) then 0 else 1)
  }

  class Socket {
    const peer: nat
    var validFrames: nat
    var errId: nat
    var errTs: nat
    var errUnderflow: nat
    var linkUp: bool

    constructor (peer: nat)
      ensures this.peer == peer
    {
      this.peer := peer;
      validFrames, errId, errTs, errUnderflow, linkUp := 0, 0, 0, 0, false;
    }

    /** Reads frames until one matches or none is left. */
    method Receive(frames: seq<Frame>, now: Time, transfer: nat) returns (accepted: Option<Frame>, consumed: nat)
      modifies this
      ensures accepted == Accepted(frames, now, transfer, peer)
      ensures consumed <= |frames| && (accepted == None ==> consumed == |frames|)
      ensures accepted.Some? ==> consumed > 0 && frames[consumed - 1] == accepted.value
      ensures forall k :: 0 <= k < (if accepted.Some? then consumed - 1 else consumed) ==>
                !Matches(frames[k], now, transfer, peer)
      ensures linkUp == accepted.Some?
      ensures validFrames == old(validFrames) + (if accepted.Some? then 1 else 0)
      ensures errTs == old(errTs) + CountStale(frames[..consumed], now, transfer)
      ensures errTs + errId + validFrames == old(errTs + errId + validFrames) + consumed
      ensures errUnderflow == old(errUnderflow) + (if frames == [] then 1 else 0)
    {
      consumed, accepted := 0, None;
      assert frames[0..] == frames && frames[..0] == [];
      while true
        invariant consumed <= |frames| && accepted == None
        invariant Accepted(frames, now, transfer, peer) == Accepted(frames[consumed..], now, transfer, peer)
        invariant forall k :: 0 <= k < consumed ==> !Matches(frames[k], now, transfer, peer)
        invariant validFrames == old(validFrames) && errUnderflow == old(errUnderflow)
        invariant errTs == old(errTs) + CountStale(frames[..consumed], now, transfer)
        invariant errTs + errId == old(errTs + errId) + consumed
        decreases |frames| - consumed
      {
        if consumed == |frames| {
          if consumed == 0 {
            errUnderflow := errUnderflow + 1;
          }
          linkUp := false;
          return;
        }
        var f := frames[consumed];
        assert frames[consumed..][1..] == frames[consumed + 1..];
        assert frames[..consumed + 1][..consumed] == frames[..consumed];
        consumed := consumed + 1;
        if f.stamp != Sub64(now, transfer) {
          errTs := errTs + 1;
        } else if f.src != peer {
          errId := errId + 1;
        } else {
          validFrames := validFrames + 1;
          linkUp := true;
          accepted := Some(f);
          return;
        }
      }
    }
  }

  // Schedule

  datatype Role = ControllerRole | DeviceRole

  /** Timing parameters derived from the period and the offset setting, in 32 bits. */
  datatype Timing = Timing(period: nat, offset: nat) {
    /** The period divides one second and half of the round trip is whole. */
    predicate Valid() {
      period > 0 && NSECS_PER_SEC % period == 0 && RoundTripTime() % 2 == 0
    }

    function RoundTripTime(): nat {
      (offset + 1) * period % TWO_32
    }

    function Transfer(): nat {
      RoundTripTime() / 2
    }

    function PeriodOffset(role: Role): nat {
      if role == ControllerRole then 0 else Transfer()
    }

    /** The round trip is offset + 1 periods, if that fits 32 bits. */
    predicate Fits() {
      (offset + 1) * period < TWO_32
    }
  }

  /** First wake-up: the rounded second plus one, on a cycle boundary. */
  function AlignedStart(now: nat, period: nat): nat
    requires period > 0
  {
    var start := ((now + NSECS_PER_SEC / 2) / NSECS_PER_SEC + 1) * NSECS_PER_SEC;
    start / period * period
  }

  lemma DivisorAligned(second: nat, period: nat)
    requires period > 0 && NSECS_PER_SEC % period == 0
    ensures second * NSECS_PER_SEC / period * period == second * NSECS_PER_SEC
  {
    var q := NSECS_PER_SEC / period;
    assert NSECS_PER_SEC == q * period;
    var x := second * NSECS_PER_SEC;
    assert x == (second * q) * period;
    MultipleQuotient(second * q, period);
  }

  /** The aligned start lies more than half a second and at most one and a half
      seconds ahead, and on a whole second. */
  lemma StartWindow(now: nat, period: nat)
    requires period > 0 && NSECS_PER_SEC % period == 0
    ensures now + 500_000_000 < AlignedStart(now, period) <= now + 1_500_000_000
    ensures AlignedStart(now, period) % NSECS_PER_SEC == 0 && AlignedStart(now, period) % period == 0
  {
    var second := (now + 500_000_000) / NSECS_PER_SEC + 1;
    DivisorAligned(second, period);
    MultipleQuotient(second * NSECS_PER_SEC / period, period);
  }

  datatype ScheduleEvent = Restart(now: nat) | CycleDone

  class Schedule {
    const timing: Timing
    const role: Role
    var schedTime: nat

    ghost predicate Valid()
      reads this
    {
      timing.Valid() && Congruent(schedTime, timing.PeriodOffset(role), timing.period)
    }

    /** The checked start of the task; an unusable period is refused. */
    method Start(now: nat) returns (ok: bool)
      modifies this
      ensures ok == (timing.period != 0 && NSECS_PER_SEC % timing.period == 0)
      ensures schedTime == if ok then AfterEvent(timing, role, old(schedTime), Restart(now)) else old(schedTime)
      ensures ok && timing.Valid() ==> Valid()
    {
      var period := timing.period;
      if period == 0 || NSECS_PER_SEC / period * period != NSECS_PER_SEC {
        return false;
      }
      var startTime := ((now + NSECS_PER_SEC / 2) / NSECS_PER_SEC + 1) * NSECS_PER_SEC;
      startTime := startTime / period * period + timing.PeriodOffset(role);
      schedTime := startTime + period;
      ok := true;
      if timing.Valid() {
        EventKeepsPhase(timing, role, old(schedTime), Restart(now));
      }
    }

    method StatsEnd()
      requires Valid()
      modifies this
      ensures Valid() && schedTime == AfterEvent(timing, role, old(schedTime), CycleDone)
    {
      EventKeepsPhase(timing, role, schedTime, CycleDone);
      schedTime := schedTime + timing.period;
    }

    constructor (timing: Timing, role: Role)
      ensures this.timing == timing && this.role == role
    {
      this.timing, this.role, schedTime := timing, role, 0;
    }
  }

  ghost predicate Congruent(a: int, b: int, period: nat) {
    exists k: int :: a == b + Times(k, period)
  }

  function Times(k: int, period: nat): int {
    k * period
  }

  function AfterEvent(timing: Timing, role: Role, schedTime: nat, e: ScheduleEvent): nat
    requires timing.period > 0
  {
    match e
    case Restart(now) => AlignedStart(now, timing.period) + timing.PeriodOffset(role) + timing.period
    case CycleDone => schedTime + timing.period
  }

  lemma EventKeepsPhase(timing: Timing, role: Role, schedTime: nat, e: ScheduleEvent)
    requires timing.Valid()
    requires e.Restart? || Congruent(schedTime, timing.PeriodOffset(role), timing.period)
    ensures Congruent(AfterEvent(timing, role, schedTime, e), timing.PeriodOffset(role), timing.period)
  {
    var p := timing.period;
    match e
    case Restart(now) =>
      var start := ((now + NSECS_PER_SEC / 2) / NSECS_PER_SEC + 1) * NSECS_PER_SEC;
      var k := start / p;
      assert Times(k + 1, p) == k * p + p;
      assert AfterEvent(timing, role, schedTime, e) == timing.PeriodOffset(role) + Times(k + 1, p);
    case CycleDone =>
      var k :| schedTime == timing.PeriodOffset(role) + Times(k, p);
      assert Times(k + 1, p) == Times(k, p) + p;
      assert AfterEvent(timing, role, schedTime, e) == timing.PeriodOffset(role) + Times(k + 1, p);
  }

  /** The schedule times of a run that starts with a restart. */
  function ScheduleAfter(timing: Timing, role: Role, first: nat, events: seq<ScheduleEvent>): nat
    requires timing.period > 0
  {
    if events == [] then AfterEvent(timing, role, 0, Restart(first))
    else AfterEvent(timing, role, ScheduleAfter(timing, role, first, events[..|events| - 1]), events[|events| - 1])
  }

  /** Restarts included, controllers stay on multiples of the period and devices
      stay one transfer time behind. */
  lemma {:induction false} PhaseOverRuns(timing: Timing, role: Role, first: nat, events: seq<ScheduleEvent>)
    requires timing.Valid()
    ensures Congruent(ScheduleAfter(timing, role, first, events), timing.PeriodOffset(role), timing.period)
  {
    if events == [] {
      EventKeepsPhase(timing, role, 0, Restart(first));
    } else {
      var before := events[..|events| - 1];
      PhaseOverRuns(timing, role, first, before);
      EventKeepsPhase(timing, role, ScheduleAfter(timing, role, first, before), events[|events| - 1]);
    }
  }

  /** Time of the n-th cycle after a start. */
  function CycleTime(timing: Timing, role: Role, start: nat, n: nat): nat
    requires timing.period > 0
  {
    AlignedStart(start, timing.period) + timing.PeriodOffset(role) + (n + 1) * timing.period
  }

  function Cycles(n: nat): (events: seq<ScheduleEvent>)
    ensures |events| == n && forall k :: 0 <= k < n ==> events[k] == CycleDone
  {
    seq(n, k => CycleDone)
  }

  /** Whatever came before the last start, its n-th cycle is at that time. */
  lemma {:induction false} CycleTimes(timing: Timing, role: Role, first: nat, before: seq<ScheduleEvent>, start: nat,
                                      n: nat)
    requires timing.period > 0
    ensures ScheduleAfter(timing, role, first, before + [Restart(start)] + Cycles(n)) ==
            CycleTime(timing, role, start, n)
    ensures ScheduleAfter(timing, role, start, Cycles(n)) == CycleTime(timing, role, start, n)
  {
    var events := before + [Restart(start)] + Cycles(n);
    if n == 0 {
      assert events[|events| - 1] == Restart(start);
    } else {
      CycleTimes(timing, role, first, before, start, n - 1);
      assert events[..|events| - 1] == before + [Restart(start)] + Cycles(n - 1);
      assert events[|events| - 1] == CycleDone;
      assert Cycles(n)[..n - 1] == Cycles(n - 1);
      assert (n + 1) * timing.period == n * timing.period + timing.period;
    }
  }

  /** Starts lie a whole number of cycles apart. */
  function CyclesBetween(timing: Timing, start: nat, later: nat): int
    requires timing.period > 0
  {
    (AlignedStart(later, timing.period) - AlignedStart(start, timing.period)) / timing.period
  }

  lemma BetweenIsWhole(timing: Timing, start: nat, later: nat)
    requires timing.Valid()
    ensures CyclesBetween(timing, start, later) * timing.period ==
            AlignedStart(later, timing.period) - AlignedStart(start, timing.period)
  {
    var p := timing.period;
    StartWindow(start, p);
    StartWindow(later, p);
    var a, b := AlignedStart(later, p) / p, AlignedStart(start, p) / p;
    assert AlignedStart(later, p) - AlignedStart(start, p) == (a - b) * p;
    MultipleQuotient(a - b, p);
  }

  /** Two starts d cycles apart: which cycles fall together. */
  lemma Meet(a: int, b: int, d: int, i: int, k: int, period: nat)
    requires period > 0 && d * period == a - b
    ensures a + (i + 1) * period == b + (k + 1) * period <==> k == i + d
  {
    var e := k - i - d;
    assert b + (k + 1) * period - (a + (i + 1) * period) == e * period;
    if e * period == 0 {
      SmallMultiple(e, period, 0);
    }
  }

  lemma AnswerMeets(a: int, b: int, d: int, n: int, k: int, periods: nat, period: nat, transfer: nat)
    requires period > 0 && d * period == a - b && 2 * transfer == periods * period
    ensures a + (k + 1) * period == b + transfer + (n + 1) * period + transfer <==> k == n - d + periods
  {
    assert (n + periods + 1) * period == (n + 1) * period + periods * period;
    assert (-d) * period == b - a;
    Meet(b, a, -d, n + periods, k, period);
  }

  /** Cycle k of a device passes the exact timestamp test for the frame of cycle i of
      a controller if and only if it is the one cycle meant for it, counted from the
      two starts. */
  lemma DeviceMeets(timing: Timing, controller: nat, device: nat, i: nat, k: nat)
    requires timing.Valid()
    requires CycleTime(timing, ControllerRole, controller, i) + timing.Transfer() < U64
    requires CycleTime(timing, DeviceRole, device, k) < U64
    ensures (Sub64(CycleTime(timing, DeviceRole, device, k), timing.Transfer()) ==
             CycleTime(timing, ControllerRole, controller, i)) <==>
            k == i + CyclesBetween(timing, device, controller)
  {
    var p, d := timing.period, CyclesBetween(timing, device, controller);
    Sub64Exact(CycleTime(timing, ControllerRole, controller, i), timing.Transfer(),
      CycleTime(timing, DeviceRole, device, k));
    BetweenIsWhole(timing, device, controller);
    Meet(AlignedStart(controller, p), AlignedStart(device, p), d, i, k, p);
  }

  /** Cycle k of the controller passes the test for the feedback of device cycle n if
      and only if it is the one meant for it, offset + 1 periods after the cycle that
      device cycle answers; provided the round trip fits 32 bits. */
  lemma ControllerMeets(timing: Timing, controller: nat, device: nat, n: nat, k: nat)
    requires timing.Valid() && timing.Fits()
    requires CycleTime(timing, DeviceRole, device, n) + timing.Transfer() < U64
    requires CycleTime(timing, ControllerRole, controller, k) < U64
    ensures (Sub64(CycleTime(timing, ControllerRole, controller, k), timing.Transfer()) ==
             CycleTime(timing, DeviceRole, device, n)) <==>
            k == n - CyclesBetween(timing, device, controller) + timing.offset + 1
  {
    var p, d, t := timing.period, CyclesBetween(timing, device, controller), timing.Transfer();
    Sub64Exact(CycleTime(timing, DeviceRole, device, n), t, CycleTime(timing, ControllerRole, controller, k));
    BetweenIsWhole(timing, device, controller);
    RoundTripExactWhen(timing);
    AnswerMeets(AlignedStart(controller, p), AlignedStart(device, p), d, n, k, timing.offset + 1, p, t);
  }

  /** A frame sent in cycle i of a controller is answered in its cycle i + offset + 1,
      and in no other, by the one device cycle that accepts the frame. */
  lemma RoundTrip(timing: Timing, controller: nat, device: nat, i: nat, n: nat, k: nat)
    requires timing.Valid() && timing.Fits()
    requires CycleTime(timing, ControllerRole, controller, i) + timing.Transfer() < U64
    requires CycleTime(timing, DeviceRole, device, n) + timing.Transfer() < U64
    requires CycleTime(timing, ControllerRole, controller, k) < U64
    requires Sub64(CycleTime(timing, DeviceRole, device, n), timing.Transfer()) ==
             CycleTime(timing, ControllerRole, controller, i)
    ensures (Sub64(CycleTime(timing, ControllerRole, controller, k), timing.Transfer()) ==
             CycleTime(timing, DeviceRole, device, n)) <==>
            k == i + timing.offset + 1
  {
    DeviceMeets(timing, controller, device, i, n);
    ControllerMeets(timing, controller, device, n, k);
  }

  /** The round trip takes offset + 1 periods if and only if these fit 32 bits. */
  lemma RoundTripExactWhen(timing: Timing)
    requires timing.Valid()
    ensures 2 * timing.Transfer() == (timing.offset + 1) * timing.period <==> timing.Fits()
  {
  }

  lemma Sub64Exact(sent: Time, delay: nat, now: Time)
    requires sent + delay < U64
    ensures Sub64(now, delay) == sent <==> now == sent + delay
  {
  }

  // Wake-up check

  /** Truncation of a 64-bit difference to a signed 32-bit value. */
  function Int32Of(x: int): int {
    var low := x % TWO_32;
    if low < TWO_32 / 2 then low else low - TWO_32
  }

  /** The wake-up check: late by a period or more, or early, is refused. The
      lateness test compares unsigned values, so an early wake-up fails it too. */
  method StatsStart(now: Time, schedTime: Time, period: nat) returns (ok: bool, missed: bool, early: bool)
    requires period < TWO_32
    ensures ok == OnTime(now - schedTime, period)
    ensures ok == (!missed && !early)
    ensures early ==> (missed <==> (now - schedTime) % TWO_32 >= period)
  {
    var schedErr := Int32Of(now - schedTime);
    missed := schedErr % TWO_32 >= period;
    early := schedErr < 0;
    ok := !missed && !early;
  }

  /** What the check accepts, on the difference of the clock and the schedule. */
  predicate OnTime(late: int, period: nat) {
    late % TWO_32 < TWO_32 / 2 && late % TWO_32 < period
  }

  /** The answer of the check is right if and only if the clock is less than 2^32 ns
      late, or the low 32 bits of the difference are a period or more. */
  lemma WakeUpExactWhen(late: int, period: nat)
    requires 0 < period <= NSECS_PER_SEC
    ensures (OnTime(late, period) <==> 0 <= late < period) <==> (0 <= late < TWO_32 || late % TWO_32 >= period)
  {
  }

  /** Farther away it is fooled: 2^32 ns late looks on time. */
  lemma WakeUpFooled()
    ensures OnTime(TWO_32, 250_000) && !(0 <= TWO_32 < 250_000)
  {
  }
}
