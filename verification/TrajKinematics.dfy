/** The setpoints of a trajectory agree with each other: the acceleration of each phase, the
    speed as its sum, and the position as the sum of the speed. */
module TrajKinematics {
  import opened Arithmetic
  import opened TrajPlanner

  /** Cycles c and c + 1 are in the same phase; braking includes its end. */
  predicate SamePhase(p: Plan, c: nat) {
    || c + 1 < p.cyclesAccel
    || (p.cyclesAccel <= c && c + 1 < p.cyclesAccel + p.cyclesConstantVel)
    || p.cyclesAccel + p.cyclesConstantVel <= c
  }

  ghost predicate Usable(p: Plan) {
    p.loopFreq > 0.0 && (p.sign == 1.0 || p.sign == -1.0) && p.cyclesAccel + p.cyclesConstantVel <= p.cyclesTotal
  }

  lemma PlannedUsable(r: Request, root: real)
    requires r.Valid() && r.Countable(root)
    ensures Usable(r.Planned(root))
  {
    assert Frequency(r.periodNs) * r.periodNs as real == NSECS_PER_SEC;
  }

  // Instants

  lemma NextInstant(c: int, f: real)
    requires f > 0.0
    ensures (c + 1) as real / f == c as real / f + 1.0 / f
  {
    var t, u, next := c as real / f, 1.0 / f, (c + 1) as real / f;
    assert t * f == c as real && u * f == 1.0 && next * f == c as real + 1.0;
    assert (next - t - u) * f == 0.0;
  }

  // Scalars of the three phases, for a cycle of u seconds from t on

  /** A setpoint and the next, u seconds later, agree. */
  ghost predicate Agree(here: Setpoint, next: Setpoint, u: real) {
    && next.speed - here.speed == here.accel * u
    && next.pos - here.pos == (here.speed + next.speed) / 2.0 / 60.0 * u
  }

  /** In turns per second, along the way. */
  lemma AgreeAlong(here: Setpoint, next: Setpoint, sign: real, x: real, y: real, a: real, way: real, u: real)
    requires sign == 1.0 || sign == -1.0
    requires here.speed == Rpm(x, sign) && next.speed == Rpm(y, sign) && here.accel == Rpm(a, sign)
    requires y - x == a * u && next.pos - here.pos == sign * way && way == (x + y) / 2.0 * u
    ensures Agree(here, next, u)
  {
    var mean := (here.speed + next.speed) / 2.0 / 60.0;
    if sign == 1.0 {
      assert mean == (x + y) / 2.0;
      assert here.accel * u == 60.0 * (a * u);
    } else {
      assert mean == -((x + y) / 2.0);
      assert here.accel * u == -60.0 * (a * u);
    }
  }

  lemma SquareStep(a: real, t: real, u: real)
    ensures 0.5 * a * ((t + u) * (t + u)) - 0.5 * a * (t * t) == (a * t + 0.5 * (a * u)) * u
  {
    assert (t + u) * (t + u) == t * t + 2.0 * (t * u) + u * u;
    var tt, tu, uu := t * t, t * u, u * u;
    assert 0.5 * a * (tt + 2.0 * tu + uu) == 0.5 * a * tt + a * tu + 0.5 * (a * uu);
    assert a * tu == a * t * u && a * uu == a * u * u;
  }

  lemma AccelWay(at: real, sign: real, v: real, a: real, t: real, u: real) returns (x: real, y: real, way: real)
    requires sign == 1.0 || sign == -1.0
    ensures x == v + a * t && y == v + a * (t + u) && y - x == a * u
    ensures AccelPos(at, sign, v, a, t + u) - AccelPos(at, sign, v, a, t) == sign * way
    ensures way == (x + y) / 2.0 * u
  {
    var at', au := a * t, a * u;
    assert a * (t + u) == at' + au;
    x, y := v + at', v + (at' + au);
    SquareStep(a, t, u);
    assert v * (t + u) == v * t + v * u;
    var before, after := v * t + 0.5 * a * (t * t), v * (t + u) + 0.5 * a * ((t + u) * (t + u));
    way := after - before;
    assert way == v * u + (at' + 0.5 * au) * u;
    assert way == (v + (at' + 0.5 * au)) * u;
    assert (x + y) / 2.0 == v + (at' + 0.5 * au);
  }

  lemma BrakingWay(target: real, sign: real, a: real, t: real, u: real) returns (x: real, y: real, way: real)
    requires sign == 1.0 || sign == -1.0
    ensures x == (-a) * t && y == (-a) * (t + u) && y - x == (-a) * u
    ensures BrakingPos(target, sign, a, t + u) - BrakingPos(target, sign, a, t) == sign * way
    ensures way == (x + y) / 2.0 * u
  {
    var at', au := a * t, a * u;
    assert (-a) * (t + u) == -(at' + au) && (-a) * t == -at' && (-a) * u == -au;
    x, y := -at', -(at' + au);
    SquareStep(a, t, u);
    way := 0.5 * a * (t * t) - 0.5 * a * ((t + u) * (t + u));
    assert way == (-(at' + 0.5 * au)) * u;
    assert (x + y) / 2.0 == -(at' + 0.5 * au);
    SignedHalf(sign, a, t * t);
    SignedHalf(sign, a, (t + u) * (t + u));
  }

  lemma SignedHalf(sign: real, a: real, square: real)
    requires sign == 1.0 || sign == -1.0
    ensures sign * 0.5 * a * square == sign * (0.5 * a * square)
  {
  }

  lemma CruiseWay(yEnd: real, sign: real, v: real, t: real, u: real) returns (way: real)
    requires sign == 1.0 || sign == -1.0
    ensures CruisePos(yEnd, sign, v, t + u) - CruisePos(yEnd, sign, v, t) == sign * way
    ensures way == (v + v) / 2.0 * u
  {
    way := v * u;
    assert sign * v * (t + u) == sign * v * t + sign * v * u;
  }

  // Setpoints

  /** The acceleration asked for: the largest allowed, towards the target while speeding up
      and away from it while braking, and none in between and afterwards. */
  lemma AccelerationOfPhase(r: Request, root: real, c: nat)
    requires r.Valid() && r.Countable(root)
    ensures var p := r.Planned(root);
            var forward := if r.posTarget > r.actualPos then r.maxAccelRpm else -r.maxAccelRpm;
            At(p, c).accel ==
            if c < p.cyclesAccel then forward
            else if c < p.cyclesAccel + p.cyclesConstantVel then 0.0
            else if c < p.cyclesTotal then -forward
            else 0.0
  {
    PlannedUsable(r, root);
  }

  /** Speeding up, from the instant t to the instant t'. */
  lemma AccelAgrees(at: real, sign: real, v: real, a: real, t: real, t': real, u: real)
    requires (sign == 1.0 || sign == -1.0) && t' == t + u
    ensures Agree(Setpoint(AccelPos(at, sign, v, a, t), Rpm(v + a * t, sign), Rpm(a, sign)),
                  Setpoint(AccelPos(at, sign, v, a, t'), Rpm(v + a * t', sign), Rpm(a, sign)), u)
  {
    var x, y, way := AccelWay(at, sign, v, a, t, u);
    AgreeAlong(Setpoint(AccelPos(at, sign, v, a, t), Rpm(x, sign), Rpm(a, sign)),
      Setpoint(AccelPos(at, sign, v, a, t'), Rpm(y, sign), Rpm(a, sign)), sign, x, y, a, way, u);
  }

  lemma CruiseAgrees(yEnd: real, sign: real, v: real, t: real, t': real, u: real)
    requires (sign == 1.0 || sign == -1.0) && t' == t + u
    ensures Agree(Setpoint(CruisePos(yEnd, sign, v, t), Rpm(v, sign), 0.0),
                  Setpoint(CruisePos(yEnd, sign, v, t'), Rpm(v, sign), 0.0), u)
  {
    var way := CruiseWay(yEnd, sign, v, t, u);
    AgreeAlong(Setpoint(CruisePos(yEnd, sign, v, t), Rpm(v, sign), 0.0),
      Setpoint(CruisePos(yEnd, sign, v, t'), Rpm(v, sign), 0.0), sign, v, v, 0.0, way, u);
  }

  lemma BrakingAgrees(target: real, sign: real, a: real, t: real, t': real, u: real)
    requires (sign == 1.0 || sign == -1.0) && t' == t + u
    ensures Agree(Setpoint(BrakingPos(target, sign, a, t), Rpm((-a) * t, sign), Rpm(-a, sign)),
                  Setpoint(BrakingPos(target, sign, a, t'), Rpm((-a) * t', sign), Rpm(-a, sign)), u)
  {
    var x, y, way := BrakingWay(target, sign, a, t, u);
    AgreeAlong(Setpoint(BrakingPos(target, sign, a, t), Rpm(x, sign), Rpm(-a, sign)),
      Setpoint(BrakingPos(target, sign, a, t'), Rpm(y, sign), Rpm(-a, sign)), sign, x, y, -a, way, u);
  }

  /** The end of braking is the target, at rest. */
  lemma BrakingEnds(target: real, sign: real, a: real, left: real)
    requires left == 0.0
    ensures BrakingPos(target, sign, a, left) == target && Rpm((-a) * left, sign) == 0.0
  {
    assert left * left == 0.0 && (-a) * left == 0.0;
  }

  // Plans

  lemma AccelPhase(p: Plan, c: nat, t: real, t': real, u: real)
    requires Usable(p) && c + 1 < p.cyclesAccel
    requires t == c as real / p.loopFreq && t' == (c + 1) as real / p.loopFreq && t' == t + u
    ensures Agree(At(p, c), At(p, c + 1), u)
  {
    AccelAgrees(p.posInit, p.sign, p.speedInit, p.accelMax, t, t', u);
  }

  lemma CruisePhase(p: Plan, c: nat, t: real, t': real, start: real, u: real)
    requires Usable(p) && p.cyclesAccel <= c && c + 1 < p.cyclesAccel + p.cyclesConstantVel
    requires t == c as real / p.loopFreq && t' == (c + 1) as real / p.loopFreq && t' == t + u
    requires start == p.cyclesAccel as real / p.loopFreq
    ensures Agree(At(p, c), At(p, c + 1), u)
  {
    CruiseAgrees(p.yEndAccel, p.sign, p.speedMax, t - start, t' - start, u);
  }

  function Braking(p: Plan, left: real): Setpoint {
    Setpoint(BrakingPos(p.posTarget, p.sign, p.accelMax, left), Rpm((-p.accelMax) * left, p.sign),
             Rpm(-p.accelMax, p.sign))
  }

  lemma AtBraking(p: Plan, c: nat, left: real)
    requires Usable(p) && p.cyclesAccel + p.cyclesConstantVel <= c < p.cyclesTotal
    requires left == c as real / p.loopFreq - p.cyclesTotal as real / p.loopFreq
    ensures At(p, c) == Braking(p, left)
  {
  }

  lemma BrakingStep(p: Plan, left: real, left': real, u: real)
    requires Usable(p) && left' == left + u
    ensures Agree(Braking(p, left), Braking(p, left'), u)
  {
    BrakingAgrees(p.posTarget, p.sign, p.accelMax, left, left', u);
  }

  lemma BrakingPhase(p: Plan, c: nat, left: real, left': real, u: real)
    requires Usable(p) && p.cyclesAccel + p.cyclesConstantVel <= c && c + 1 < p.cyclesTotal
    requires left == c as real / p.loopFreq - p.cyclesTotal as real / p.loopFreq
    requires left' == (c + 1) as real / p.loopFreq - p.cyclesTotal as real / p.loopFreq && left' == left + u
    ensures Agree(At(p, c), At(p, c + 1), u)
  {
    AtBraking(p, c, left);
    AtBraking(p, c + 1, left');
    BrakingStep(p, left, left', u);
    AgreeSame(Braking(p, left), At(p, c), Braking(p, left'), At(p, c + 1), u);
  }

  lemma AgreeSame(here: Setpoint, here': Setpoint, next: Setpoint, next': Setpoint, u: real)
    requires here == here' && next == next' && Agree(here, next, u)
    ensures Agree(here', next', u)
  {
  }

  lemma BrakingLast(p: Plan, c: nat, left: real, left': real, u: real)
    requires Usable(p) && p.cyclesAccel + p.cyclesConstantVel <= c && c + 1 == p.cyclesTotal
    requires left == c as real / p.loopFreq - p.cyclesTotal as real / p.loopFreq && left' == 0.0 == left + u
    ensures Agree(At(p, c), At(p, c + 1), u)
  {
    BrakingAgrees(p.posTarget, p.sign, p.accelMax, left, left', u);
    BrakingEnds(p.posTarget, p.sign, p.accelMax, left');
    AgreeEither(At(p, c), Braking(p, left'), At(p, c + 1), u);
  }

  lemma AgreeEither(here: Setpoint, next: Setpoint, other: Setpoint, u: real)
    requires Agree(here, next, u) && other.pos == next.pos && other.speed == next.speed
    ensures Agree(here, other, u)
  {
  }

  /** Within a phase, the speed changes from one cycle to the next by the acceleration of
      the cycle, and the position by the mean of the two speeds. */
  lemma SetpointsAgree(p: Plan, c: nat)
    requires Usable(p) && SamePhase(p, c)
    ensures Agree(At(p, c), At(p, c + 1), 1.0 / p.loopFreq)
  {
    var f := p.loopFreq;
    NextInstant(c, f);
    var t, t', u := c as real / f, (c + 1) as real / f, 1.0 / f;
    if c + 1 < p.cyclesAccel {
      AccelPhase(p, c, t, t', u);
    } else if c + 1 < p.cyclesAccel + p.cyclesConstantVel {
      CruisePhase(p, c, t, t', p.cyclesAccel as real / f, u);
    } else if c < p.cyclesTotal {
      var end := p.cyclesTotal as real / f;
      if c + 1 < p.cyclesTotal {
        BrakingPhase(p, c, t - end, t' - end, u);
      } else {
        BrakingLast(p, c, t - end, t' - end, u);
      }
    }
  }

  // Moves that start at speed

  /** The cycles of a plan count from the one of its request, across the wrap of the counter. */
  lemma CountsFromRequest(r: Request, root: real, k: U32)
    requires r.Valid() && r.Countable(root)
    ensures Elapsed(r.Planned(root), (r.startCycle + k) % TWO_32) == k
  {
    ElapsedAfterWrap(r.Planned(root), k);
  }

  lemma AtZero(f: real, x: real)
    requires f > 0.0
    ensures 0 as real / f == 0.0 && x * (0 as real / f) == 0.0
  {
  }

  /** The first setpoint of a ramp is the actual position; its speed is the actual one taken
      along the way, and so the actual one exactly when the target lies ahead, or at rest. */
  lemma StartsExactWhen(r: Request, root: real)
    requires r.Valid() && r.Countable(root) && r.Planned(root).cyclesAccel > 0
    ensures var p := r.Planned(root);
            && p.loopFreq > 0.0 && At(p, 0).pos == r.actualPos
            && At(p, 0).speed == (if r.posTarget > r.actualPos then r.actualSpeed else -r.actualSpeed)
            && (At(p, 0).speed == r.actualSpeed <==> r.posTarget > r.actualPos || r.actualSpeed == 0.0)
  {
    var p := r.Planned(root);
    PlannedUsable(r, root);
    AtZero(p.loopFreq, p.accelMax);
    AtZero(p.loopFreq, p.speedInit);
    AtZero(p.loopFreq, 0 as real / p.loopFreq);
  }

  /** The way up to speed v, the cruise and the way down, against the distance. */
  lemma TrapezeGap(a: real, v: real, s: real, ta: real, d: real, min: real, cruise: real)
    requires a * ta == v - s && min == 0.5 * ta * (v + s) + 0.5 * ta * v && cruise == d - min
    ensures d - (s * ta + 0.5 * a * (ta * ta) + cruise) - 0.5 * a * (ta * ta) == 0.5 * ta * s
  {
    var ts, tv := ta * s, ta * v;
    assert a * (ta * ta) == tv - ts by {
      assert a * (ta * ta) == (a * ta) * ta;
    }
    assert 0.5 * a * (ta * ta) == 0.5 * (a * (ta * ta));
  }

  lemma TriangleGap(a: real, v: real, s: real, ta: real, d: real)
    requires a > 0.0 && a * ta == v - s && v * v == Radicand(a, d, s)
    ensures 2.0 * a * (d - (s * ta + 0.5 * a * (ta * ta)) - 0.5 * a * (ta * ta)) == s * (s + 2.0 * v)
  {
    var vv, ss, vs, ad := v * v, s * s, v * s, a * d;
    assert 2.0 * vv == 2.0 * ad - ss by {
      var q := (2.0 * a * a * d - a * s * s) / (2.0 * a);
      assert q * (2.0 * a) == a * (2.0 * ad - ss);
      assert (2.0 * q - (2.0 * ad - ss)) * a == 0.0;
    }
    assert 0.5 * a * (ta * ta) == 0.5 * ((v - s) * ta) by {
      assert a * (ta * ta) == (a * ta) * ta;
    }
    assert s * ta + (v - s) * ta == v * ta;
    assert a * (v * ta) == v * (v - s);
  }

  lemma Along(sign: real, at: real, target: real, way: real, cruise: real, back: real)
    requires sign == 1.0 || sign == -1.0
    ensures sign * ((target - sign * back) - (at + sign * way + sign * cruise)) ==
            sign * (target - at) - (way + cruise) - back
  {
  }

  /** Where the ramp and the cruise of a plan lead, before the phases are cut to cycles. */
  function CruiseEnd(r: Request, root: real): real
    requires r.Valid()
  {
    CruisePos(RampEnd(r.actualPos, r.Sign(), r.InitialSpeed(), r.Accel(), r.Ramp(root)), r.Sign(), r.Reached(root),
      r.Cruise())
  }

  /** Where the braking of a plan begins: it takes as long as the ramp. */
  function BrakingStart(r: Request, root: real): real
    requires r.Valid()
  {
    BrakingPos(r.posTarget, r.Sign(), r.Accel(), r.Ramp(root))
  }

  lemma RampTimes(v: real, s: real, a: real)
    requires a > 0.0
    ensures a * AccelTime(v, s, a) == v - s
  {
  }

  lemma CruiseWayIs(d: real, min: real, top: real)
    requires top > 0.0
    ensures top * CruiseTime(d, min, top) == d - min
  {
  }

  /** The gap between the two, along the way, in terms of speeds and times. */
  lemma GapAlong(at: real, target: real, sign: real, s: real, v: real, a: real, ta: real, tv: real)
    requires sign == 1.0 || sign == -1.0
    ensures sign * (BrakingPos(target, sign, a, ta) - CruisePos(RampEnd(at, sign, s, a, ta), sign, v, tv)) ==
            sign * (target - at) - (s * ta + 0.5 * a * (ta * ta) + v * tv) - 0.5 * a * (ta * ta)
  {
    var square, cruise := ta * ta, v * tv;
    SignedHalf(sign, a, square);
    assert sign * v * tv == sign * cruise;
    Along(sign, at, target, s * ta + 0.5 * a * square, cruise, 0.5 * a * square);
  }

  /** How much further along the way braking begins than the cruise ends. */
  function Gap(r: Request, root: real): real
    requires r.Valid()
  {
    r.Sign() * (BrakingStart(r, root) - CruiseEnd(r, root))
  }

  lemma GapIs(r: Request, root: real)
    returns (a: real, v: real, s: real, ta: real, d: real, cruise: real, gap: real)
    requires r.Valid()
    ensures a == r.Accel() > 0.0 && v == r.Reached(root) && s == r.InitialSpeed() && ta == r.Ramp(root)
    ensures d == r.Distance() && gap == Gap(r, root) && cruise == v * r.Cruise() && a * ta == v - s
    ensures gap == d - (s * ta + 0.5 * a * (ta * ta) + cruise) - 0.5 * a * (ta * ta)
  {
    a, v, s, ta, d := r.Accel(), r.Reached(root), r.InitialSpeed(), r.Ramp(root), r.Distance();
    gap, cruise := Gap(r, root), v * r.Cruise();
    RampTimes(v, s, a);
    GapAlong(r.actualPos, r.posTarget, r.Sign(), s, v, a, ta, r.Cruise());
  }

  lemma TriangleScalars(a: real, v: real, s: real, ta: real, d: real, gap: real, cruise: real)
    requires a > 0.0 && a * ta == v - s && v * v == Radicand(a, d, s) && cruise == 0.0
    requires gap == d - (s * ta + 0.5 * a * (ta * ta) + cruise) - 0.5 * a * (ta * ta)
    ensures 2.0 * a * gap == s * (s + 2.0 * v)
  {
    TriangleGap(a, v, s, ta, d);
    assert gap == d - (s * ta + 0.5 * a * (ta * ta)) - 0.5 * a * (ta * ta);
  }

  /** A plan to top speed brakes too late by half the ramp at the speed it started from. */
  lemma TrapezeMeets(r: Request, root: real) returns (ta: real, s: real, gap: real)
    requires r.Valid() && !r.Triangular()
    ensures ta == r.Ramp(root) && s == r.InitialSpeed() && gap == Gap(r, root)
    ensures gap == 0.5 * ta * s
  {
    var a, v, d, cruise;
    a, v, s, ta, d, cruise, gap := GapIs(r, root);
    var min := MinDistance(v, s, a);
    CruiseWayIs(d, min, v);
    TrapezeGap(a, v, s, ta, d, min, cruise);
  }

  lemma TriangleHas(r: Request, root: real, a: real, d: real, s: real, v: real, cruise: real)
    requires r.Valid() && r.IsRoot(root) && r.Triangular()
    requires a == r.Accel() && d == r.Distance() && s == r.InitialSpeed() && v == r.Reached(root)
    requires cruise == v * r.Cruise()
    ensures v == root && cruise == 0.0 && v * v == Radicand(a, d, s)
  {
  }

  /** A plan without room for top speed, by the start speed and twice the speed reached. */
  lemma TriangleMeets(r: Request, root: real) returns (a: real, s: real, gap: real)
    requires r.Valid() && r.IsRoot(root) && r.Triangular()
    ensures a == r.Accel() && s == r.InitialSpeed() && gap == Gap(r, root)
    ensures 2.0 * a * gap == s * (s + 2.0 * root)
  {
    var v, ta, d, cruise;
    a, v, s, ta, d, cruise, gap := GapIs(r, root);
    TriangleHas(r, root, a, d, s, v, cruise);
    TriangleScalars(a, v, s, ta, d, gap, cruise);
  }

  /** Braking goes on from where the cruise ends, with its position and its speed, exactly
      when the motor starts at rest. */
  lemma PhasesMeetExactWhen(r: Request, root: real) returns (a: real, v: real, ta: real)
    requires r.Valid() && r.IsRoot(root)
    ensures a == r.Accel() && v == r.Reached(root) && ta == r.Ramp(root)
    ensures BrakingStart(r, root) == CruiseEnd(r, root) && a * ta == v <==> r.actualSpeed == 0.0
  {
    var s, d, cruise, gap;
    a, v, s, ta, d, cruise, gap := GapIs(r, root);
    if r.actualSpeed == 0.0 {
      if r.Triangular() {
        var a', s', gap' := TriangleMeets(r, root);
        NoGap(2.0 * a', gap');
      } else {
        var ta', s', gap' := TrapezeMeets(r, root);
      }
      NoGap(r.Sign(), BrakingStart(r, root) - CruiseEnd(r, root));
    }
  }

  lemma NoGap(factor: real, gap: real)
    requires factor != 0.0 && factor * gap == 0.0
    ensures gap == 0.0
  {
  }
}
