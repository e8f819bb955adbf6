/** Trapezoidal trajectories whose phases are cut to whole cycles. Floats are reals. */
module TrajPlanner {
  import opened Arithmetic

  const NSECS_PER_SEC: real := 1_000_000_000.0

  /** A planned trajectory. */
  datatype Plan = Plan(cyclesAccel: nat, cyclesConstantVel: nat, cyclesTotal: nat, startCycle: U32,
                       posInit: real, speedInit: real, posTarget: real, sign: real, yEndAccel: real,
                       accelMax: real, speedMax: real, loopFreq: real)

  // Formulas of the planner

  function Frequency(periodNs: nat): real
    requires periodNs > 0
  {
    NSECS_PER_SEC / periodNs as real
  }

  function Smaller(x: real, y: real): real {
    if x > y then y else x
  }

  /** Way to top speed and back to rest. */
  function MinDistance(top: real, start: real, accel: real): real
    requires accel != 0.0
  {
    var t := (top - start) / accel;
    0.5 * t * (top + start) + 0.5 * t * top
  }

  /** The square of the speed reached when there is no room for top speed. */
  function Radicand(accel: real, distance: real, start: real): real
    requires accel != 0.0
  {
    (2.0 * accel * accel * distance - accel * start * start) / (2.0 * accel)
  }

  function CruiseTime(distance: real, minDistance: real, top: real): real
    requires top != 0.0
  {
    (distance - minDistance) / top
  }

  function AccelTime(reached: real, start: real, accel: real): real
    requires accel != 0.0
  {
    (reached - start) / accel
  }

  function Cycles(t: real, f: real): int {
    (t * f).Floor
  }

  function RampEnd(at: real, sign: real, start: real, accel: real, ta: real): real {
    at + sign * (start * ta + 0.5 * accel * (ta * ta))
  }

  function AccelPos(at: real, sign: real, start: real, accel: real, t: real): real {
    at + sign * (start * t + 0.5 * accel * (t * t))
  }

  function CruisePos(yEnd: real, sign: real, speed: real, t: real): real {
    yEnd + sign * speed * t
  }

  function BrakingPos(target: real, sign: real, accel: real, left: real): real {
    target - sign * 0.5 * accel * (left * left)
  }

  function Rpm(x: real, sign: real): real {
    x * (SECS_PER_MIN * sign)
  }

  /** What a plan is computed from: speeds in rpm, acceleration in rpm per second. */
  datatype Request = Request(startCycle: U32, posTarget: real, actualPos: real, actualSpeed: real, speedMax: real,
                             periodNs: nat, maxVelRpm: real, maxAccelRpm: real) {
    ghost predicate Valid() {
      periodNs > 0 && speedMax > 0.0 && maxVelRpm > 0.0 && maxAccelRpm > 0.0
    }

    /** Revolutions per second. */
    function TopSpeed(): real {
      Smaller(speedMax, maxVelRpm) / SECS_PER_MIN
    }

    function Accel(): real {
      maxAccelRpm / SECS_PER_MIN
    }

    function InitialSpeed(): real {
      actualSpeed / SECS_PER_MIN
    }

    function Sign(): real {
      if posTarget - actualPos > 0.0 then 1.0 else -1.0
    }

    function Distance(): (d: real)
      ensures d >= 0.0
    {
      Sign() * (posTarget - actualPos)
    }

    predicate Triangular()
      requires Accel() != 0.0
    {
      Distance() < MinDistance(TopSpeed(), InitialSpeed(), Accel())
    }

    /** root is the square root of the radicand, where the program takes it. */
    ghost predicate IsRoot(root: real)
      requires Accel() != 0.0
    {
      Triangular() ==> root >= 0.0 && root * root == Radicand(Accel(), Distance(), InitialSpeed())
    }

    function Reached(root: real): real
      requires Accel() != 0.0
    {
      if Triangular() then root else TopSpeed()
    }

    function Cruise(): real
      requires Accel() != 0.0 && TopSpeed() != 0.0
    {
      if Triangular() then 0.0
      else CruiseTime(Distance(), MinDistance(TopSpeed(), InitialSpeed(), Accel()), TopSpeed())
    }

    function Ramp(root: real): real
      requires Accel() != 0.0
    {
      AccelTime(Reached(root), InitialSpeed(), Accel())
    }

    /** The conversions of the phases to 32-bit cycle counts are defined. */
    ghost predicate Countable(root: real)
      requires Valid()
    {
      && Ramp(root) * Frequency(periodNs) >= 0.0 && Cruise() * Frequency(periodNs) >= 0.0
      && 2 * Cycles(Ramp(root), Frequency(periodNs)) + Cycles(Cruise(), Frequency(periodNs)) < TWO_32
    }

    function Planned(root: real): Plan
      requires Valid() && Countable(root)
    {
      PlanFor(this, Reached(root), Ramp(root), Cruise())
    }
  }

  function PlanFor(r: Request, v: real, ta: real, tv: real): Plan
    requires r.periodNs > 0 && ta * Frequency(r.periodNs) >= 0.0 && tv * Frequency(r.periodNs) >= 0.0
  {
    var f := Frequency(r.periodNs);
    Plan(Cycles(ta, f), Cycles(tv, f), 2 * Cycles(ta, f) + Cycles(tv, f), r.startCycle, r.actualPos, r.InitialSpeed(),
         r.posTarget, r.Sign(), RampEnd(r.actualPos, r.Sign(), r.InitialSpeed(), r.Accel(), ta), r.Accel(), v, f)
  }

  // Setpoints

  datatype Setpoint = Setpoint(pos: real, speed: real, accel: real)

  /** The setpoint of the cycle-th cycle after the start. */
  function At(p: Plan, cycle: nat): Setpoint
    requires p.loopFreq > 0.0
  {
    var t := cycle as real / p.loopFreq;
    if cycle < p.cyclesAccel then
      Setpoint(AccelPos(p.posInit, p.sign, p.speedInit, p.accelMax, t),
               Rpm(p.speedInit + p.accelMax * t, p.sign), Rpm(p.accelMax, p.sign))
    else if cycle < p.cyclesAccel + p.cyclesConstantVel then
      Setpoint(CruisePos(p.yEndAccel, p.sign, p.speedMax, t - p.cyclesAccel as real / p.loopFreq),
               Rpm(p.speedMax, p.sign), 0.0)
    else if cycle < p.cyclesTotal then
      var left := t - p.cyclesTotal as real / p.loopFreq;
      Setpoint(BrakingPos(p.posTarget, p.sign, p.accelMax, left),
               Rpm((-p.accelMax) * left, p.sign), Rpm(-p.accelMax, p.sign))
    else Setpoint(p.posTarget, 0.0, 0.0)
  }

  function Elapsed(p: Plan, cycle: U32): U32 {
    Sub32(cycle, p.startCycle)
  }

  /** Cycle counters wrap; the count since the start does not notice. */
  lemma ElapsedAfterWrap(p: Plan, k: U32)
    ensures Elapsed(p, (p.startCycle + k) % TWO_32) == k
  {
  }

  // Moves from rest, counted in cycles

  /** A move from rest for the time ta up to speed v, a cruise
      of tv, and as long to slow down; the phases are cut to na and nv whole cycles. */
  datatype Move = Move(half: real, ta: real, tv: real, na: nat, nv: nat) {
    ghost predicate Valid() {
      && half > 0.0
      && na as real <= ta < na as real + 1.0
      && nv as real <= tv < nv as real + 1.0
    }

    function Total(): nat {
      2 * na + nv
    }

    function Top(): real {
      (half + half) * ta
    }

    function Way(): real {
      Ramp(ta) + Ramp(ta) + Top() * tv
    }

    function Ramp(t: real): real {
      half * (t * t)
    }

    function Covered(c: nat): real {
      if c < na then Ramp(c as real)
      else if c < na + nv then Ramp(ta) + Top() * (c - na) as real
      else if c < Total() then Way() - Ramp((Total() - c) as real)
      else Way()
    }

    function Speed(c: nat): real {
      if c < na then (half + half) * c as real
      else if c < na + nv then Top()
      else if c < Total() then (half + half) * (Total() - c) as real
      else 0.0
    }
  }

  lemma Product(x: real, y: real)
    requires x >= 0.0 && y >= 0.0
    ensures x * y >= 0.0
  {
  }

  lemma StrictProduct(x: real, y: real)
    requires x > 0.0 && y > 0.0
    ensures x * y > 0.0
  {
  }

  /** Between two instants of the acceleration, the way covered is at most what top
      speed would cover. */
  lemma RampBetween(h: real, ta: real, x: real, y: real)
    requires h > 0.0 && 0.0 <= x <= y <= ta
    ensures 0.0 <= h * (y * y) - h * (x * x) <= (h + h) * ta * (y - x)
  {
    assert h * (y * y) - h * (x * x) == h * ((y - x) * (y + x));
    Product(y - x, y + x);
    Product(h, (y - x) * (y + x));
    Product(y - x, ta + ta - (y + x));
    Product(h, (y - x) * (ta + ta - (y + x)));
    assert (h + h) * ta * (y - x) == h * ((y - x) * (y + x)) + h * ((y - x) * (ta + ta - (y + x)));
  }

  lemma TopOnce(v: real, x: real) returns (way: real)
    requires v >= 0.0 && 0.0 <= x <= 1.0
    ensures way == v * x && 0.0 <= way <= v
  {
    way := v * x;
    Product(v, x);
    Product(v, 1.0 - x);
    assert v * (1.0 - x) == v - way;
  }

  lemma TopTwice(v: real, x: real) returns (way: real)
    requires v >= 0.0 && 0.0 <= x <= 2.0
    ensures way == v * x && 0.0 <= way <= v + v
  {
    way := v * x;
    Product(v, x);
    Product(v, 2.0 - x);
    assert v * (2.0 - x) == v + v - way;
  }

  lemma RampScalarsOnce(h: real, ta: real, x: real, y: real)
    requires h > 0.0 && 0.0 <= x <= y <= ta && y - x <= 1.0
    ensures 0.0 <= h * (y * y) - h * (x * x) <= (h + h) * ta
  {
    RampBetween(h, ta, x, y);
    Product(h + h, ta);
    var way := TopOnce((h + h) * ta, y - x);
  }

  lemma RampScalarsTwice(h: real, ta: real, x: real, y: real)
    requires h > 0.0 && 0.0 <= x <= y <= ta && y - x <= 2.0
    ensures 0.0 <= h * (y * y) - h * (x * x) <= (h + h) * ta + (h + h) * ta
  {
    RampBetween(h, ta, x, y);
    Product(h + h, ta);
    var way := TopTwice((h + h) * ta, y - x);
  }

  /** On the ramp, at most one cycle apart. */
  lemma RampOnce(m: Move, x: real, y: real)
    requires m.Valid() && 0.0 <= x <= y <= m.ta && y - x <= 1.0
    ensures 0.0 <= m.Ramp(y) - m.Ramp(x) <= m.Top()
  {
    RampScalarsOnce(m.half, m.ta, x, y);
  }

  /** On the ramp, at most two cycles apart. */
  lemma RampTwice(m: Move, x: real, y: real)
    requires m.Valid() && 0.0 <= x <= y <= m.ta && y - x <= 2.0
    ensures 0.0 <= m.Ramp(y) - m.Ramp(x) <= m.Top() + m.Top()
  {
    RampScalarsTwice(m.half, m.ta, x, y);
  }

  /** The cycle counts cut less than a cycle off each phase. */
  lemma CutOff(m: Move)
    requires m.Valid()
    ensures m.Top() >= 0.0
    ensures 0.0 <= m.Ramp(m.ta) - m.Ramp(m.na as real) <= m.Top()
  {
    RampOnce(m, m.na as real, m.ta);
  }

  lemma StepOfAcceleration(m: Move, c: nat)
    requires m.Valid() && c + 1 < m.na
    ensures 0.0 <= m.Covered(c + 1) - m.Covered(c) <= m.Top()
  {
    RampOnce(m, c as real, (c + 1) as real);
  }

  lemma LastRamp(m: Move, c: nat)
    requires m.Valid() && c + 1 == m.na
    ensures 0.0 <= m.Ramp(m.ta) - m.Covered(c) <= m.Top() + m.Top()
  {
    RampTwice(m, c as real, m.ta);
  }

  lemma ShortCruise(m: Move) returns (cruise: real)
    requires m.Valid() && m.nv == 0
    ensures cruise == m.Top() * m.tv && 0.0 <= cruise <= m.Top()
  {
    cruise := TopOnce(m.Top(), m.tv);
  }

  lemma LastBeforeBraking(m: Move, c: nat)
    requires m.Valid() && c + 1 == m.na && m.nv == 0
    ensures 0.0 <= m.Covered(c + 1) - m.Covered(c) <= m.Top() + m.Top() + m.Top() + m.Top()
  {
    var cruise := ShortCruise(m);
    LastRamp(m, c);
    CutOff(m);
    assert m.Total() - (c + 1) == m.na;
    assert m.Covered(c + 1) == m.Ramp(m.ta) + m.Ramp(m.ta) + cruise - m.Ramp(m.na as real);
  }

  lemma LastBeforeCruise(m: Move, c: nat)
    requires m.Valid() && c + 1 == m.na && m.nv > 0
    ensures 0.0 <= m.Covered(c + 1) - m.Covered(c) <= m.Top() + m.Top()
  {
    LastRamp(m, c);
  }

  lemma LastOfAcceleration(m: Move, c: nat)
    requires m.Valid() && c + 1 == m.na
    ensures 0.0 <= m.Covered(c + 1) - m.Covered(c) <= m.Top() + m.Top() + m.Top() + m.Top()
  {
    if m.nv > 0 {
      LastBeforeCruise(m, c);
    } else {
      LastBeforeBraking(m, c);
    }
  }

  lemma RestOfCruise(m: Move, c: nat)
    requires m.Valid() && m.na <= c && c + 1 == m.na + m.nv && m.Top() >= 0.0
    ensures 0.0 <= m.Ramp(m.ta) + m.Top() * m.tv - m.Covered(c) <= m.Top() + m.Top()
  {
    RestScalars(m.Covered(c), m.Ramp(m.ta), m.Top(), m.tv, (c - m.na) as real);
  }

  lemma RestScalars(covered: real, ramp: real, v: real, tv: real, x: real)
    requires v >= 0.0 && 0.0 <= tv - x <= 2.0 && covered == ramp + v * x
    ensures 0.0 <= ramp + v * tv - covered <= v + v
  {
    var rest := TopTwice(v, tv - x);
    assert v * (tv - x) == v * tv - v * x;
  }

  lemma LastOfCruise(m: Move, c: nat)
    requires m.Valid() && m.na <= c && c + 1 == m.na + m.nv
    ensures 0.0 <= m.Covered(c + 1) - m.Covered(c) <= m.Top() + m.Top() + m.Top() + m.Top()
  {
    CutOff(m);
    RestOfCruise(m, c);
    assert m.Total() - (c + 1) == m.na && m.Ramp(0.0) == 0.0;
    assert m.Covered(c + 1) == m.Way() - m.Ramp(m.na as real);
  }

  lemma StepOfBraking(m: Move, c: nat)
    requires m.Valid() && m.na + m.nv <= c < m.Total()
    ensures 0.0 <= m.Covered(c + 1) - m.Covered(c) <= m.Top()
  {
    var left := (m.Total() - c) as real;
    assert (m.Total() - (c + 1)) as real == left - 1.0;
    RampOnce(m, left - 1.0, left);
  }

  lemma StepOfCruise(m: Move, c: nat)
    requires m.Valid() && m.na <= c && c + 1 < m.na + m.nv
    ensures 0.0 <= m.Covered(c + 1) - m.Covered(c) <= m.Top()
  {
    var v, x := m.Top(), (c - m.na) as real;
    assert (c + 1 - m.na) as real == x + 1.0;
    assert v * (x + 1.0) == v * x + v;
    Product(m.half + m.half, m.ta);
  }

  /** From one cycle to the next a move never goes back, and never covers more than
      four cycles at top speed. */
  lemma StepBounded(m: Move, c: nat)
    requires m.Valid()
    ensures 0.0 <= m.Covered(c + 1) - m.Covered(c) <= m.Top() + m.Top() + m.Top() + m.Top()
  {
    Product(m.half + m.half, m.ta);
    if c + 1 < m.na {
      StepOfAcceleration(m, c);
    } else if c < m.na {
      LastOfAcceleration(m, c);
    } else if c + 1 < m.na + m.nv {
      StepOfCruise(m, c);
    } else if c < m.na + m.nv {
      LastOfCruise(m, c);
    } else if c < m.Total() {
      StepOfBraking(m, c);
    }
  }

  /** The first setpoint is as close to the start. */
  lemma FirstBounded(m: Move)
    requires m.Valid()
    ensures 0.0 <= m.Covered(0) <= m.Top() + m.Top() + m.Top() + m.Top()
  {
    Product(m.half + m.half, m.ta);
    if m.na > 0 {
      assert m.Ramp(0.0) == 0.0;
    } else if m.nv > 0 {
      FirstRamp(m);
      assert m.Top() * 0.0 == 0.0;
    } else {
      NoCycles(m);
    }
  }

  lemma NoCycles(m: Move)
    requires m.Valid() && m.na == 0 && m.nv == 0
    ensures 0.0 <= m.Way() <= m.Top() + m.Top() + m.Top() + m.Top()
  {
    FirstRamp(m);
    var cruise := ShortCruise(m);
  }

  lemma FirstRamp(m: Move)
    requires m.Valid() && m.na == 0
    ensures 0.0 <= m.Ramp(m.ta) <= m.Top()
  {
    RampOnce(m, 0.0, m.ta);
    assert m.Ramp(0.0) == 0.0;
  }

  /** A move never goes back over any number of cycles. */
  lemma {:induction false} NeverBack(m: Move, c: nat, d: nat)
    requires m.Valid() && c <= d
    ensures m.Covered(c) <= m.Covered(d)
    decreases d - c
  {
    if c < d {
      StepBounded(m, d - 1);
      NeverBack(m, c, d - 1);
    }
  }

  lemma BelowWay(m: Move, d: nat)
    requires m.Valid()
    ensures m.Covered(d) <= m.Way()
  {
    if d < m.Total() {
      NeverBack(m, d, m.Total());
    }
  }

  lemma SpeedBounded(m: Move, c: nat)
    requires m.Valid()
    ensures 0.0 <= m.Speed(c) <= m.Top()
  {
    var k := if c < m.na then c else if m.na + m.nv <= c < m.Total() then m.Total() - c else 0;
    Product(m.half + m.half, k as real);
    Product(m.half + m.half, m.ta - k as real);
    assert (m.half + m.half) * (m.ta - k as real) == m.Top() - (m.half + m.half) * k as real;
  }

  // Arithmetic of the phases

  lemma Cancel(x: real, y: real)
    requires y != 0.0
    ensures (x * y) / y == x
  {
  }

  // From times to cycles

  /** Speed and times of a move over the distance d, by half the acceleration. */
  ghost predicate Shape(half: real, top: real, d: real, v: real, ta: real, tv: real) {
    half > 0.0 && v == (half + half) * ta && v * ta + v * tv == d && 0.0 <= v <= top
  }

  function InCycles(half: real, ta: real, tv: real, f: real): Move
    requires f > 0.0 && ta * f >= 0.0 && tv * f >= 0.0
  {
    Move(half / f / f, ta * f, tv * f, Cycles(ta, f), Cycles(tv, f))
  }

  // Plans that describe a move

  /** The plan p is the move m, where a cycle takes 1/f. */
  ghost predicate Describes(p: Plan, m: Move, f: real) {
    && m.Valid() && f > 0.0 && p.loopFreq == f
    && p.cyclesAccel == m.na && p.cyclesConstantVel == m.nv && p.cyclesTotal == m.Total()
    && p.accelMax == m.half * f * f + m.half * f * f && p.speedMax == m.Top() * f && p.speedInit == 0.0
    && (p.sign == 1.0 || p.sign == -1.0)
    && p.sign * (p.posTarget - p.posInit) == m.Way()
    && p.yEndAccel == p.posInit + p.sign * m.Ramp(m.ta)
  }

  /** The ramp to an instant of x cycles, as the program computes it. */
  lemma RampWay(start: real, a: real, b: real, x: real, f: real) returns (way: real)
    requires f > 0.0 && a == b * f * f + b * f * f && start == 0.0
    ensures way == start * (x / f) + 0.5 * a * (x / f * (x / f)) && way == b * (x * x)
  {
    var half, t := b * f * f, x / f;
    way := b * (x * x);
    assert t * f == x;
    assert half * (t * t) == b * ((t * f) * (t * f));
    assert start * t == 0.0 && 0.5 * a == half;
  }

  /** The speed at such an instant. */
  lemma RampSpeed(start: real, a: real, b: real, x: real, f: real) returns (speed: real)
    requires f > 0.0 && a == b * f * f + b * f * f && start == 0.0
    ensures speed == start + a * (x / f) && speed == (b + b) * x * f
  {
    var u, t := (b + b) * f, x / f;
    speed := u * x;
    assert t * f == x && a == u * f;
    assert a * t == u * (t * f);
  }

  lemma AccelOfPlan(p: Plan, b: real, c: nat) returns (way: real, speed: real)
    requires p.loopFreq > 0.0 && p.accelMax == b * p.loopFreq * p.loopFreq + b * p.loopFreq * p.loopFreq
    requires p.speedInit == 0.0 && c < p.cyclesAccel
    ensures At(p, c).pos == p.posInit + p.sign * way && way == b * (c as real * c as real)
    ensures At(p, c).speed == speed * (SECS_PER_MIN * p.sign) && speed == (b + b) * c as real * p.loopFreq
  {
    way := RampWay(p.speedInit, p.accelMax, b, c as real, p.loopFreq);
    speed := RampSpeed(p.speedInit, p.accelMax, b, c as real, p.loopFreq);
  }

  lemma AccelPosition(p: Plan, m: Move, f: real, c: nat) returns (way: real)
    requires Describes(p, m, f) && c < m.na
    ensures At(p, c).pos == p.posInit + p.sign * way && way == m.Covered(c)
  {
    var speed;
    way, speed := AccelOfPlan(p, m.half, c);
  }

  lemma AccelSpeed(p: Plan, m: Move, f: real, c: nat) returns (speed: real)
    requires Describes(p, m, f) && c < m.na
    ensures At(p, c).speed == speed * (SECS_PER_MIN * p.sign) && speed == m.Speed(c) * f
  {
    var way;
    way, speed := AccelOfPlan(p, m.half, c);
  }

  lemma CruiseWay(v: real, u: real, x: real, n: real, f: real) returns (cruise: real)
    requires f > 0.0 && v == u * f
    ensures cruise == v * (x / f - n / f) && cruise == u * (x - n)
  {
    var t := x / f - n / f;
    cruise := u * (x - n);
    assert x / f * f == x && n / f * f == n;
    assert t * f == x - n;
    assert v * t == u * (t * f);
  }

  lemma CruiseSetpoint(yEnd: real, at: real, sign: real, ramp: real, v: real, u: real, c: nat, n: nat, f: real)
      returns (way: real)
    requires f > 0.0 && v == u * f && (sign == 1.0 || sign == -1.0) && yEnd == at + sign * ramp
    ensures yEnd + sign * v * (c as real / f - n as real / f) == at + sign * way
    ensures way == ramp + u * (c as real - n as real)
  {
    var cruise := CruiseWay(v, u, c as real, n as real, f);
    way := ramp + cruise;
    assert sign * v * (c as real / f - n as real / f) == sign * cruise;
  }

  lemma CruiseOfPlan(p: Plan, ramp: real, u: real, c: nat) returns (way: real)
    requires p.loopFreq > 0.0 && p.speedMax == u * p.loopFreq && (p.sign == 1.0 || p.sign == -1.0)
    requires p.yEndAccel == p.posInit + p.sign * ramp && p.cyclesAccel <= c < p.cyclesAccel + p.cyclesConstantVel
    ensures At(p, c).pos == p.posInit + p.sign * way && way == ramp + u * (c as real - p.cyclesAccel as real)
  {
    way := CruiseSetpoint(p.yEndAccel, p.posInit, p.sign, ramp, p.speedMax, u, c, p.cyclesAccel, p.loopFreq);
  }

  lemma CruisePosition(p: Plan, m: Move, f: real, c: nat) returns (way: real)
    requires Describes(p, m, f) && m.na <= c < m.na + m.nv
    ensures At(p, c).pos == p.posInit + p.sign * way && way == m.Covered(c)
  {
    way := CruiseOfPlan(p, m.Ramp(m.ta), m.Top(), c);
  }

  lemma Negated(x: real, f: real, left: real) returns (rest: real)
    requires f > 0.0 && left == (-x) / f
    ensures rest == x / f && left == -rest
  {
    rest := x / f;
    assert rest * f == x && left * f == -x;
    assert (left + rest) * f == 0.0;
  }

  /** What is left of the ramp down, as the program computes it: x cycles. */
  lemma BrakingWay(a: real, b: real, c: nat, total: nat, f: real) returns (ramp: real)
    requires f > 0.0 && a == b * f * f + b * f * f
    ensures var left := c as real / f - total as real / f; ramp == 0.5 * a * (left * left)
    ensures var x := total as real - c as real; ramp == b * (x * x)
  {
    var x := total as real - c as real;
    var left := c as real / f - total as real / f;
    var rest := Negated(x, f, left);
    ramp := RampWay(0.0, a, b, x, f);
    assert left * left == rest * rest;
  }

  lemma BrakingRate(a: real, b: real, c: nat, total: nat, f: real) returns (speed: real)
    requires f > 0.0 && a == b * f * f + b * f * f
    ensures speed == (-a) * (c as real / f - total as real / f)
    ensures speed == (b + b) * (total as real - c as real) * f
  {
    var left := c as real / f - total as real / f;
    var rest := Negated(total as real - c as real, f, left);
    speed := RampSpeed(0.0, a, b, total as real - c as real, f);
  }

  lemma BrakingSetpoint(target: real, at: real, sign: real, a: real, b: real, c: nat, total: nat, f: real, all: real)
      returns (way: real)
    requires f > 0.0 && a == b * f * f + b * f * f && (sign == 1.0 || sign == -1.0) && sign * (target - at) == all
    ensures var left := c as real / f - total as real / f;
            target - sign * 0.5 * a * (left * left) == at + sign * way
    ensures var x := total as real - c as real; way == all - b * (x * x)
  {
    var ramp := BrakingWay(a, b, c, total, f);
    way := all - ramp;
    var left := c as real / f - total as real / f;
    assert sign * 0.5 * a * (left * left) == sign * ramp;
  }

  lemma BrakingCovered(m: Move, c: nat)
    requires m.Valid() && m.na + m.nv <= c < m.Total()
    ensures var x := m.Total() as real - c as real; m.Covered(c) == m.Way() - m.half * (x * x)
  {
  }

  lemma BrakingOfPlan(p: Plan, b: real, c: nat, all: real) returns (way: real)
    requires p.loopFreq > 0.0 && p.accelMax == b * p.loopFreq * p.loopFreq + b * p.loopFreq * p.loopFreq
    requires (p.sign == 1.0 || p.sign == -1.0) && p.sign * (p.posTarget - p.posInit) == all
    requires p.cyclesAccel + p.cyclesConstantVel <= c < p.cyclesTotal && p.cyclesAccel <= c
    ensures At(p, c).pos == p.posInit + p.sign * way
    ensures var x := p.cyclesTotal as real - c as real; way == all - b * (x * x)
  {
    way := BrakingSetpoint(p.posTarget, p.posInit, p.sign, p.accelMax, b, c, p.cyclesTotal, p.loopFreq, all);
  }

  lemma BrakingPosition(p: Plan, m: Move, f: real, c: nat) returns (way: real)
    requires Describes(p, m, f) && m.na + m.nv <= c < m.Total()
    ensures At(p, c).pos == p.posInit + p.sign * way && way == m.Covered(c)
  {
    way := BrakingOfPlan(p, m.half, c, m.Way());
    BrakingCovered(m, c);
  }

  lemma BrakingSpeed(p: Plan, m: Move, f: real, c: nat) returns (speed: real)
    requires Describes(p, m, f) && m.na + m.nv <= c < m.Total()
    ensures At(p, c).speed == speed * (SECS_PER_MIN * p.sign) && speed == m.Speed(c) * f
  {
    speed := BrakingRate(p.accelMax, m.half, c, p.cyclesTotal, p.loopFreq);
  }

  /** Setpoints, as way covered in the direction of the move. */
  lemma PositionOfMove(p: Plan, m: Move, f: real, c: nat) returns (way: real)
    requires Describes(p, m, f)
    ensures At(p, c).pos == p.posInit + p.sign * way && way == m.Covered(c)
  {
    if c < m.na {
      way := AccelPosition(p, m, f, c);
    } else if c < m.na + m.nv {
      way := CruisePosition(p, m, f, c);
    } else if c < m.Total() {
      way := BrakingPosition(p, m, f, c);
    } else {
      way := m.Way();
    }
  }

  lemma SpeedOfMove(p: Plan, m: Move, f: real, c: nat) returns (speed: real)
    requires Describes(p, m, f)
    ensures At(p, c).speed == speed * (SECS_PER_MIN * p.sign) && speed == m.Speed(c) * f
  {
    if c < m.na {
      speed := AccelSpeed(p, m, f, c);
    } else if c < m.na + m.nv {
      speed := p.speedMax;
    } else if c < m.Total() {
      speed := BrakingSpeed(p, m, f, c);
    } else {
      speed := 0.0;
    }
  }

  // The bound, for plans that describe a move

  function Abs(x: real): real {
    if x < 0.0 then -x else x
  }

  /** How far a setpoint is on the way to the target. */
  function Toward(p: Plan, c: nat): real
    requires p.loopFreq > 0.0
  {
    p.sign * (At(p, c).pos - p.posInit)
  }

  lemma TowardOfMove(p: Plan, m: Move, f: real, c: nat)
    requires Describes(p, m, f)
    ensures Toward(p, c) == m.Covered(c)
  {
    var way := PositionOfMove(p, m, f, c);
  }

  /** Setpoints of a move go towards the target, never back and never beyond it. */
  lemma MoveMonotone(p: Plan, m: Move, f: real, c: nat, d: nat)
    requires Describes(p, m, f) && c <= d
    ensures 0.0 <= Toward(p, c) <= Toward(p, d) <= p.sign * (p.posTarget - p.posInit)
  {
    FirstBounded(m);
    NeverBack(m, 0, c);
    NeverBack(m, c, d);
    BelowWay(m, d);
    TowardOfMove(p, m, f, c);
    TowardOfMove(p, m, f, d);
  }

  /** Two setpoints in a row are at most four cycles at the planned speed apart, and so
      is the first from the actual position. */
  lemma MoveSteps(p: Plan, m: Move, f: real, c: nat)
    requires Describes(p, m, f)
    ensures Abs(At(p, c + 1).pos - At(p, c).pos) <= 4.0 * (p.speedMax / p.loopFreq)
    ensures Abs(At(p, 0).pos - p.posInit) <= 4.0 * (p.speedMax / p.loopFreq)
  {
    var u := p.speedMax / p.loopFreq;
    assert u == m.Top() by { Cancel(m.Top(), f); }
    StepBounded(m, c);
    FirstBounded(m);
    var x := PositionOfMove(p, m, f, c);
    var y := PositionOfMove(p, m, f, c + 1);
    var first := PositionOfMove(p, m, f, 0);
  }

  lemma MoveSpeeds(p: Plan, m: Move, f: real, c: nat)
    requires Describes(p, m, f)
    ensures Abs(At(p, c).speed) <= SECS_PER_MIN * p.speedMax
  {
    var speed := SpeedOfMove(p, m, f, c);
    SpeedBounded(m, c);
    Product(m.Speed(c), f);
    Product(m.Top() - m.Speed(c), f);
    assert (m.Top() - m.Speed(c)) * f == p.speedMax - speed;
    assert speed * (SECS_PER_MIN * p.sign) == p.sign * (SECS_PER_MIN * speed);
  }

  // Plans from rest are such moves

  ghost predicate FromRest(r: Request, root: real) {
    r.Valid() && r.actualSpeed == 0.0 && r.IsRoot(root) && r.Countable(root)
  }

  function MoveOf(r: Request, root: real): Move
    requires r.Valid() && r.Countable(root) && Frequency(r.periodNs) > 0.0
  {
    InCycles(r.Accel() / 2.0, r.Ramp(root), r.Cruise(), Frequency(r.periodNs))
  }

  lemma RadicandFromRest(a: real, d: real, start: real)
    requires a > 0.0 && start == 0.0
    ensures Radicand(a, d, start) == a * d
  {
  }

  lemma MinDistanceFromRest(top: real, a: real, start: real)
    requires a != 0.0 && start == 0.0
    ensures MinDistance(top, start, a) == top * (top / a)
  {
    var t := (top - start) / a;
    assert 0.5 * t * (top + start) == 0.5 * (t * top);
  }

  lemma TriangleWay(a: real, v: real, d: real)
    requires a > 0.0 && v * v == a * d
    ensures v * (v / a) == d
  {
    var t := v / a;
    assert t * a == v;
    assert (v * t) * a == v * (t * a);
    assert (v * t - d) * a == 0.0;
  }

  lemma SquareAbove(x: real, y: real)
    requires 0.0 < y <= x
    ensures x * x >= y * y
  {
    Product(x - y, x);
    Product(x - y, y);
    assert x * x - y * y == (x - y) * x + (x - y) * y;
  }

  lemma SquareBelow(x: real, y: real)
    requires y > 0.0 && x * x < y * y
    ensures x < y
  {
    if x >= y {
      SquareAbove(x, y);
    }
  }

  lemma TriangleSpeed(a: real, v: real, d: real, top: real)
    requires a > 0.0 && top > 0.0 && v * v == a * d && d < top * (top / a)
    ensures v <= top
  {
    var t := top / a;
    assert t * a == top;
    assert a * (top * t) == top * (t * a);
    StrictProduct(a, top * t - d);
    assert a * (top * t - d) == top * top - v * v;
    SquareBelow(v, top);
  }

  lemma TriangleShape(a: real, top: real, d: real, v: real, start: real)
    requires a > 0.0 && top > 0.0 && start == 0.0 && v >= 0.0 && v * v == Radicand(a, d, start)
    requires d < MinDistance(top, start, a)
    ensures Shape(a / 2.0, top, d, v, AccelTime(v, start, a), 0.0)
  {
    RadicandFromRest(a, d, start);
    MinDistanceFromRest(top, a, start);
    TriangleWay(a, v, d);
    TriangleSpeed(a, v, d, top);
    assert (a / 2.0 + a / 2.0) * (v / a) == v;
  }

  lemma TrapezeShape(a: real, top: real, d: real, start: real)
    requires a > 0.0 && top > 0.0 && start == 0.0
    ensures Shape(a / 2.0, top, d, top, AccelTime(top, start, a), CruiseTime(d, MinDistance(top, start, a), top))
  {
    var ta, min := top / a, MinDistance(top, start, a);
    MinDistanceFromRest(top, a, start);
    assert (d - min) / top * top == d - min;
    assert (a / 2.0 + a / 2.0) * ta == top;
  }

  lemma RestShape(r: Request, root: real)
    requires FromRest(r, root)
    ensures Shape(r.Accel() / 2.0, r.TopSpeed(), r.Distance(), r.Reached(root), r.Ramp(root), r.Cruise())
  {
    if r.Triangular() {
      TriangleShape(r.Accel(), r.TopSpeed(), r.Distance(), root, r.InitialSpeed());
    } else {
      TrapezeShape(r.Accel(), r.TopSpeed(), r.Distance(), r.InitialSpeed());
    }
  }

  /** What a plan made of such times needs, value by value. */
  lemma ShapeScales(half: real, v: real, ta: real, tv: real, d: real, f: real)
    requires f > 0.0 && half > 0.0 && ta * f >= 0.0 && tv * f >= 0.0
    requires v == (half + half) * ta && v * ta + v * tv == d
    ensures var m := InCycles(half, ta, tv, f);
            m.Valid() && v == m.Top() * f && m.Way() == d
  {
    var m := InCycles(half, ta, tv, f);
    TopScales(half, ta, f, m.Top());
    RampScales(half, ta, f, m.Ramp(m.ta));
    CruiseScales(v, tv, f, m.Top());
    assert v * ta == half * (ta * ta) + half * (ta * ta);
  }

  lemma TopScales(half: real, ta: real, f: real, top: real)
    requires f > 0.0 && top == (half / f / f + half / f / f) * (ta * f)
    ensures top * f == (half + half) * ta
  {
    var b := half / f / f;
    assert b * f == half / f && half / f * f == half;
    assert (b + b) * (ta * f) * f == (b * f * f + b * f * f) * ta;
  }

  lemma RampScales(half: real, ta: real, f: real, ramp: real)
    requires f > 0.0 && ramp == half / f / f * (ta * f * (ta * f))
    ensures ramp == half * (ta * ta)
  {
    var b := half / f / f;
    assert b * f == half / f && half / f * f == half;
    assert b * (ta * f * (ta * f)) == b * f * f * (ta * ta);
  }

  lemma CruiseScales(v: real, tv: real, f: real, top: real)
    requires top * f == v
    ensures top * (tv * f) == v * tv
  {
  }

  /** Half the acceleration per cycle, and where the ramp ends. */
  lemma RampPerCycle(p: Plan, a: real, ta: real, f: real)
    requires f > 0.0 && a > 0.0 && p.speedInit == 0.0 && p.yEndAccel == RampEnd(p.posInit, p.sign, p.speedInit, a, ta)
    ensures var b := a / 2.0 / f / f;
            a == b * f * f + b * f * f && p.yEndAccel == p.posInit + p.sign * (b * (ta * f * (ta * f)))
  {
    var half, b := a / 2.0, a / 2.0 / f / f;
    assert b * f == half / f && half / f * f == half;
    RampScales(half, ta, f, b * (ta * f * (ta * f)));
    assert p.speedInit * ta == 0.0 && 0.5 * a * (ta * ta) == half * (ta * ta);
  }

  lemma PlanDescribes(p: Plan, a: real, v: real, ta: real, tv: real, f: real)
    requires f > 0.0 && a > 0.0 && ta * f >= 0.0 && tv * f >= 0.0
    requires v == (a / 2.0 + a / 2.0) * ta && p.sign * (p.posTarget - p.posInit) == v * ta + v * tv
    requires p.cyclesAccel == Cycles(ta, f) && p.cyclesConstantVel == Cycles(tv, f)
    requires p.cyclesTotal == 2 * p.cyclesAccel + p.cyclesConstantVel && (p.sign == 1.0 || p.sign == -1.0)
    requires p.loopFreq == f && p.speedMax == v && p.accelMax == a && p.speedInit == 0.0
    requires p.yEndAccel == RampEnd(p.posInit, p.sign, p.speedInit, a, ta)
    ensures Describes(p, InCycles(a / 2.0, ta, tv, f), f)
  {
    ShapeScales(a / 2.0, v, ta, tv, v * ta + v * tv, f);
    RampPerCycle(p, a, ta, f);
  }

  lemma ShapeDescribes(r: Request, v: real, ta: real, tv: real, f: real)
    requires r.Valid() && r.actualSpeed == 0.0 && f == Frequency(r.periodNs) > 0.0
    requires ta * f >= 0.0 && tv * f >= 0.0 && Shape(r.Accel() / 2.0, r.TopSpeed(), r.Distance(), v, ta, tv)
    ensures Describes(PlanFor(r, v, ta, tv), InCycles(r.Accel() / 2.0, ta, tv, f), f)
  {
    PlanDescribes(PlanFor(r, v, ta, tv), r.Accel(), v, ta, tv, f);
  }

  lemma RestDescribes(r: Request, root: real)
    requires FromRest(r, root)
    ensures Frequency(r.periodNs) > 0.0 && Describes(r.Planned(root), MoveOf(r, root), Frequency(r.periodNs))
    ensures 0.0 <= r.Planned(root).speedMax <= r.TopSpeed()
  {
    RestShape(r, root);
    ShapeDescribes(r, r.Reached(root), r.Ramp(root), r.Cruise(), Frequency(r.periodNs));
  }

  /** For every move from rest: the setpoints go towards the target and never back,
      never beyond it, and by at most four cycles at the planned speed at a time, from
      the actual position on. */
  lemma PathFromRest(r: Request, root: real, c: nat, d: nat)
    requires FromRest(r, root) && c <= d
    ensures var p := r.Planned(root);
            && p.loopFreq > 0.0
            && 0.0 <= Toward(p, c) <= Toward(p, d) <= p.sign * (p.posTarget - p.posInit)
            && Abs(At(p, c + 1).pos - At(p, c).pos) <= 4.0 * (p.speedMax / p.loopFreq)
            && Abs(At(p, 0).pos - p.posInit) <= 4.0 * (p.speedMax / p.loopFreq)
  {
    RestDescribes(r, root);
    MoveMonotone(r.Planned(root), MoveOf(r, root), Frequency(r.periodNs), c, d);
    MoveSteps(r.Planned(root), MoveOf(r, root), Frequency(r.periodNs), c);
  }

  /** The counter value c cycles after the start. */
  function Counter(p: Plan, c: nat): U32 {
    (p.startCycle + c) % TWO_32
  }

  lemma AtTarget(p: Plan, c: nat)
    requires p.loopFreq > 0.0 && p.cyclesAccel + p.cyclesConstantVel <= p.cyclesTotal <= c < TWO_32
    ensures At(p, Elapsed(p, Counter(p, c))) == Setpoint(p.posTarget, 0.0, 0.0)
  {
    ElapsedAfterWrap(p, c);
  }

  /** The speed is never above the planned one, which is never above the limits asked
      for; from the last cycle on, until the counter has made a lap, the setpoint is the
      target, at rest. */
  lemma SpeedFromRest(r: Request, root: real, c: nat)
    requires FromRest(r, root)
    ensures var p := r.Planned(root);
            && p.loopFreq > 0.0 && Abs(At(p, c).speed) <= SECS_PER_MIN * p.speedMax
            && SECS_PER_MIN * p.speedMax <= r.speedMax && SECS_PER_MIN * p.speedMax <= r.maxVelRpm
            && (p.cyclesTotal <= c < TWO_32 ==> At(p, Elapsed(p, Counter(p, c))) == Setpoint(r.posTarget, 0.0, 0.0))
  {
    RestDescribes(r, root);
    MoveSpeeds(r.Planned(root), MoveOf(r, root), Frequency(r.periodNs), c);
    if r.Planned(root).cyclesTotal <= c < TWO_32 {
      AtTarget(r.Planned(root), c);
    }
  }

  lemma TurnsInRpm(x: real, sign: real)
    requires x != 0.0 && (sign == 1.0 || sign == -1.0)
    ensures Rpm(x, sign) != 0.0
  {
  }

  /** On the way, the speed or the acceleration is not zero. */
  lemma OnTheWay(p: Plan, e: nat)
    requires p.loopFreq > 0.0 && (p.sign == 1.0 || p.sign == -1.0) && p.accelMax != 0.0
    requires p.cyclesConstantVel > 0 ==> p.speedMax != 0.0
    requires e < p.cyclesTotal
    ensures At(p, e) != Setpoint(p.posTarget, 0.0, 0.0)
  {
    if e < p.cyclesAccel {
      TurnsInRpm(p.accelMax, p.sign);
      assert At(p, e).accel == Rpm(p.accelMax, p.sign);
    } else if e < p.cyclesAccel + p.cyclesConstantVel {
      TurnsInRpm(p.speedMax, p.sign);
      assert At(p, e).speed == Rpm(p.speedMax, p.sign);
    } else {
      TurnsInRpm(-p.accelMax, p.sign);
      assert At(p, e).accel == Rpm(-p.accelMax, p.sign);
    }
  }

  /** A plan with cycles at constant speed has one. */
  lemma CruiseMoves(r: Request, root: real)
    requires FromRest(r, root)
    ensures r.TopSpeed() > 0.0 && r.Accel() > 0.0
    ensures r.Planned(root).cyclesConstantVel > 0 ==> r.Planned(root).speedMax > 0.0
  {
    assert r.Triangular() ==> r.Planned(root).cyclesConstantVel == Cycles(0.0, Frequency(r.periodNs)) == 0;
  }

  /** The setpoint is the target, at rest, exactly in the cycles whose number, cut to 32
      bits, is not below the total: a finished move is repeated after a lap. */
  lemma OnTargetExactWhen(r: Request, root: real, c: nat)
    requires FromRest(r, root)
    ensures var p := r.Planned(root);
            && p.loopFreq > 0.0
            && (At(p, Elapsed(p, Counter(p, c))) == Setpoint(r.posTarget, 0.0, 0.0) <==> c % TWO_32 >= p.cyclesTotal)
  {
    var p, e := r.Planned(root), c % TWO_32;
    RestDescribes(r, root);
    CruiseMoves(r, root);
    LapsDoNotCount(p, c);
    if e < p.cyclesTotal {
      OnTheWay(p, e);
    } else {
      AtTarget(p, e);
      ElapsedAfterWrap(p, e);
    }
  }

  lemma LapsDoNotCount(p: Plan, c: nat)
    ensures Elapsed(p, Counter(p, c)) == c % TWO_32
  {
  }

  /** Two moves from rest, at 4000 cycles per second: one with a cruise at the rated
      speed, and one backwards that is too short to reach it. */
  lemma LongMove(r: Request)
    requires r == Request(0, 4.0, 0.0, 0.0, 900.0, 250_000, 600.0, 6000.0)
    ensures FromRest(r, 0.0) && !r.Triangular()
    ensures r.Planned(0.0).cyclesAccel == 400 && r.Planned(0.0).cyclesConstantVel == 1200
  {
    assert r.TopSpeed() == 10.0 && r.Accel() == 100.0 && r.InitialSpeed() == 0.0 && r.Distance() == 4.0;
    assert Frequency(r.periodNs) == 4000.0;
    assert MinDistance(10.0, 0.0, 100.0) == 1.0 && CruiseTime(4.0, 1.0, 10.0) == 0.3;
    assert AccelTime(10.0, 0.0, 100.0) == 0.1;
    assert Cycles(0.1, 4000.0) == 400 && Cycles(0.3, 4000.0) == 1200;
  }

  /** A lap of the counter later, the finished move is set from its start again. */
  lemma LapRepeatsMove(r: Request)
    requires r == Request(0, 4.0, 0.0, 0.0, 900.0, 250_000, 600.0, 6000.0)
    ensures FromRest(r, 0.0)
    ensures var p := r.Planned(0.0);
            p.loopFreq > 0.0 && At(p, Elapsed(p, Counter(p, TWO_32))).pos == 0.0 && p.posTarget == 4.0
  {
    LongMove(r);
  }

  lemma ShortMove(r: Request)
    requires r == Request(0, -0.25, 0.0, 0.0, 900.0, 250_000, 600.0, 6000.0)
    ensures FromRest(r, 5.0) && r.Triangular()
    ensures r.Planned(5.0).cyclesAccel == 200 && r.Planned(5.0).cyclesTotal == 400
  {
    assert r.TopSpeed() == 10.0 && r.Accel() == 100.0 && r.InitialSpeed() == 0.0 && r.Distance() == 0.25;
    assert Frequency(r.periodNs) == 4000.0;
    assert MinDistance(10.0, 0.0, 100.0) == 1.0 && Radicand(100.0, 0.25, 0.0) == 25.0;
    assert AccelTime(5.0, 0.0, 100.0) == 0.05;
    assert Cycles(0.05, 4000.0) == 200 && Cycles(0.0, 4000.0) == 0;
  }

  // The planner in place

  /** A plan and the flag that asks for a new one. */
  datatype Traj = Traj(plan: Plan, reset: bool)

  ghost predicate Plannable(r: Request, root: real) {
    r.Valid() && r.IsRoot(root) && r.Countable(root)
  }

  /** A call plans only for a new target or after a reset; any other does nothing. */
  predicate Replans(t: Traj, r: Request) {
    r.posTarget != t.plan.posTarget || t.reset
  }

  function Computed(t: Traj, r: Request, root: real): Traj
    requires Replans(t, r) ==> Plannable(r, root)
  {
    if Replans(t, r) then Traj(r.Planned(root), false) else t
  }

  /** After a reset, or for another target, a call plans, whatever was planned before. */
  lemma ResetPlansAgain(t: Traj, r: Request, root: real)
    requires Plannable(r, root) && (t.reset || r.posTarget != t.plan.posTarget)
    ensures Computed(t, r, root) == Traj(r.Planned(root), false)
    ensures Computed(t, r, root).plan.posTarget == r.posTarget && Computed(t, r, root).plan.posInit == r.actualPos
  {
  }

  /** Computing again, in any cycle and from any position and speed, for the same target
      and without a reset in between, leaves the plan of the first time. */
  lemma {:induction false} ComputingAgainKeeps(trajs: seq<Traj>, rs: seq<Request>, roots: seq<real>)
    requires |trajs| == |rs| + 1 == |roots| + 1 && |rs| > 0
    requires forall k :: 0 <= k < |rs| ==> rs[k].posTarget == rs[0].posTarget
    requires forall k :: 0 <= k < |rs| ==> Replans(trajs[k], rs[k]) ==> Plannable(rs[k], roots[k])
    requires forall k :: 0 <= k < |rs| ==> trajs[k + 1] == Computed(trajs[k], rs[k], roots[k])
    ensures trajs[|rs|] == trajs[1]
    decreases |rs|
  {
    var n := |rs| - 1;
    if n > 0 {
      ComputingAgainKeeps(trajs[..n + 1], rs[..n], roots[..n]);
    }
  }

  /** The plan made for a move from rest stays in force however often it is computed
      again on the way, so that the bounds on its setpoints hold for the whole move. */
  lemma PlanInForce(trajs: seq<Traj>, rs: seq<Request>, roots: seq<real>)
    requires |trajs| == |rs| + 1 == |roots| + 1 && |rs| > 0
    requires Replans(trajs[0], rs[0]) && FromRest(rs[0], roots[0])
    requires forall k :: 0 <= k < |rs| ==> rs[k].posTarget == rs[0].posTarget
    requires forall k :: 0 <= k < |rs| ==> Replans(trajs[k], rs[k]) ==> Plannable(rs[k], roots[k])
    requires forall k :: 0 <= k < |rs| ==> trajs[k + 1] == Computed(trajs[k], rs[k], roots[k])
    ensures trajs[|rs|] == Traj(rs[0].Planned(roots[0]), false)
  {
    ComputingAgainKeeps(trajs, rs, roots);
  }

  /** Halfway through the braking of the long move, its target could not be planned for
      again, whatever the root. */
  lemma BrakingNotPlannable(r: Request, root: real)
    requires r == Request(1800, 4.0, 3.875, 300.0, 900.0, 250_000, 600.0, 6000.0)
    ensures !Plannable(r, root)
  {
    assert r.Accel() == 100.0 && r.InitialSpeed() == 5.0 && r.TopSpeed() == 10.0 && r.Distance() == 0.125;
    assert AccelTime(10.0, 5.0, 100.0) == 0.05;
    assert MinDistance(10.0, 5.0, 100.0) == 0.625;
    assert Radicand(100.0, 0.125, 5.0) == (2500.0 - 2500.0) / 200.0;
    assert Frequency(r.periodNs) == 4000.0;
    if r.IsRoot(root) {
      SquareBelow(root, 5.0);
      assert AccelTime(root, 5.0, 100.0) < 0.0;
    }
  }

  class TrajTrapez {
    var cyclesAccel: nat
    var cyclesConstantVel: nat
    var cyclesTotal: nat
    var startCycle: U32
    var ffCurrent: real
    var posInit: real
    var speedInit: real
    var posTarget: real
    var signTraj: real
    var yEndAccel: real
    var accelMax: real
    var speedMax: real
    var loopFreq: real
    var resetFlag: bool

    ghost function View(): Traj
      reads this
    {
      Traj(Plan(cyclesAccel, cyclesConstantVel, cyclesTotal, startCycle, posInit, speedInit, posTarget, signTraj,
                yEndAccel, accelMax, speedMax, loopFreq), resetFlag)
    }

    static method MakePlan(r: Request, root: real) returns (p: Plan)
      requires Plannable(r, root)
      ensures p == r.Planned(root)
    {
      if r.Distance() < MinDistance(r.TopSpeed(), r.InitialSpeed(), r.Accel()) {
        assert r.Triangular();
        p := PlanFor(r, root, AccelTime(root, r.InitialSpeed(), r.Accel()), 0.0);
      } else {
        assert !r.Triangular();
        p := PlanFor(r, r.TopSpeed(), AccelTime(r.TopSpeed(), r.InitialSpeed(), r.Accel()),
          CruiseTime(r.Distance(), MinDistance(r.TopSpeed(), r.InitialSpeed(), r.Accel()), r.TopSpeed()));
      }
    }

    method Compute(r: Request, root: real)
      requires Replans(View(), r) ==> Plannable(r, root)
      modifies this
      ensures View() == Computed(old(View()), r, root) && ffCurrent == old(ffCurrent)
    {
      if r.posTarget != posTarget || resetFlag {
        resetFlag := false;
        var p := MakePlan(r, root);
        Store(p);
      }
    }

    /** Assigns every field a plan has. */
    method Store(p: Plan)
      modifies this
      ensures View() == Traj(p, old(resetFlag)) && ffCurrent == old(ffCurrent)
    {
      loopFreq, startCycle, accelMax, speedInit, posInit := p.loopFreq, p.startCycle, p.accelMax, p.speedInit,
        p.posInit;
      posTarget, signTraj, speedMax, yEndAccel := p.posTarget, p.sign, p.speedMax, p.yEndAccel;
      cyclesAccel, cyclesConstantVel, cyclesTotal := p.cyclesAccel, p.cyclesConstantVel, p.cyclesTotal;
    }

    method Evaluate(cycle: U32) returns (s: Setpoint)
      requires loopFreq > 0.0
      ensures s == At(View().plan, Elapsed(View().plan, cycle))
    {
      var elapsed := Sub32(cycle, startCycle);
      var t := elapsed as real / loopFreq;
      var pos, speed, accel: real;
      if elapsed < cyclesAccel {
        pos := AccelPos(posInit, signTraj, speedInit, accelMax, t);
        speed := speedInit + accelMax * t;
        accel := accelMax;
      } else if elapsed < cyclesAccel + cyclesConstantVel {
        pos := CruisePos(yEndAccel, signTraj, speedMax, t - cyclesAccel as real / loopFreq);
        speed := speedMax;
        accel := 0.0;
      } else if elapsed < cyclesTotal {
        var left := t - cyclesTotal as real / loopFreq;
        pos := BrakingPos(posTarget, signTraj, accelMax, left);
        speed := (-accelMax) * left;
        accel := -accelMax;
      } else {
        return Setpoint(posTarget, 0.0, 0.0);
      }
      s := Setpoint(pos, Rpm(speed, signTraj), Rpm(accel, signTraj));
    }

    /** Whatever comes next is planned anew, even for the target zero. */
    method Reset()
      modifies this
      ensures View() == Traj(Plan(0, 0, 0, old(startCycle), 0.0, 0.0, 0.0, 0.0, 0.0, 0.0, 0.0, old(loopFreq)), true)
      ensures ffCurrent == 0.0
    {
      resetFlag := true;
      cyclesAccel, cyclesConstantVel, cyclesTotal := 0, 0, 0;
      ffCurrent, posInit, speedInit, posTarget, signTraj, yEndAccel := 0.0, 0.0, 0.0, 0.0, 0.0, 0.0;
      accelMax, speedMax := 0.0, 0.0;
    }
  }
}
