/** Which way the motor current drives: the direction of the speed and position loops, what
    each mode listens to, and the law of the controller as long as it is not limited. */
module CurrentDirection {
  import opened CurrentControl

  // Scalars

  lemma ScaleOrder(gain: real, x: real, y: real)
    requires gain >= 0.0 && x <= y
    ensures gain * x <= gain * y && x * gain <= y * gain
  {
  }

  lemma ScaleStrict(gain: real, x: real)
    requires gain > 0.0
    ensures x > 0.0 <==> gain * x > 0.0
    ensures x < 0.0 <==> gain * x < 0.0
  {
  }

  /** A difference of quotients is the quotient of the difference. */
  lemma QuotientDifference(x: real, y: real, scale: real)
    requires scale != 0.0
    ensures x / scale - y / scale == (x - y) / scale
    ensures (x - y) / scale * scale == x - y
  {
    var a, b := x / scale, y / scale;
    assert (a - b) * scale == x - y;
  }

  lemma QuotientSign(x: real, scale: real)
    requires scale > 0.0
    ensures x > 0.0 <==> x / scale > 0.0
    ensures x < 0.0 <==> x / scale < 0.0
  {
    var q := x / scale;
    assert q * scale == x;
    ScaleStrict(scale, q);
  }

  lemma ClampOrder(x: real, y: real, lo: real, hi: real)
    requires x <= y && lo <= hi
    ensures Clamp(x, lo, hi) <= Clamp(y, lo, hi)
  {
  }

  lemma LimitedOrder(gain: real, x: real, y: real, limit: real)
    requires gain >= 0.0 && x <= y && limit >= 0.0
    ensures Clamp(x * gain, -limit, limit) <= Clamp(y * gain, -limit, limit)
  {
    ScaleOrder(gain, x, y);
  }

  lemma ClampSign(x: real, lo: real, hi: real)
    requires lo < 0.0 < hi
    ensures x > 0.0 <==> Clamp(x, lo, hi) > 0.0
    ensures x < 0.0 <==> Clamp(x, lo, hi) < 0.0
  {
  }

  // The direction of the loops

  /** A controller that can steer: valid, with a positive scale and no negative gain. */
  ghost predicate Steers(p: Params) {
    && p.Valid() && p.speedAngularScale > 0.0 && p.posKp >= 0.0 && p.posGain >= 0.0 && p.speedGain >= 0.0
  }

  /** The error of a sample: how much too slow the motor is, in units of the scale. */
  lemma ErrorIsDifference(p: Params, speedReal: real, target: real)
    requires p.speedAngularScale != 0.0
    ensures Error(p, speedReal, target) == (target - speedReal) / p.speedAngularScale
  {
    QuotientDifference(target, speedReal, p.speedAngularScale);
  }

  lemma ErrorOrder(p: Params, speedReal: real, target: real, more: real)
    requires p.speedAngularScale > 0.0 && target <= more
    ensures Error(p, speedReal, target) <= Error(p, speedReal, more)
  {
    ErrorIsDifference(p, speedReal, target);
    ErrorIsDifference(p, speedReal, more);
    QuotientDifference(more - speedReal, target - speedReal, p.speedAngularScale);
    QuotientSign(more - target, p.speedAngularScale);
  }

  lemma SpeedOutOrder(p: Params, integral: real, e: real, more: real)
    requires p.Valid() && e <= more
    ensures SpeedOut(p, integral, e) <= SpeedOut(p, integral, more)
  {
    ScaleOrder(p.speedKp, e, more);
    ScaleOrder(p.speedKi, integral + e, integral + more);
  }

  lemma PositionOrder(p: Params, posReal: real, posCmd: real, more: real)
    requires Steers(p) && posCmd <= more
    ensures PositionOut(p, posReal, posCmd) <= PositionOut(p, posReal, more)
  {
    LimitedOrder(p.posKp, posCmd - posReal, more - posReal, p.maxVelRpm * 60.0);
  }

  lemma TargetOrder(p: Params, m: Memory, s: Sample, more: Sample)
    requires Steers(p) && s.posReal == more.posReal && s.posCmd <= more.posCmd && s.speedCmd <= more.speedCmd
    ensures SpeedTarget(p, m, s) <= SpeedTarget(p, m, more)
  {
    match m.mode
    case Trajectory =>
      PositionOrder(p, s.posReal, s.posCmd, more.posCmd);
      ScaleOrder(p.posGain, PositionOut(p, s.posReal, s.posCmd), PositionOut(p, more.posReal, more.posCmd));
    case Position =>
      PositionOrder(p, s.posReal, s.posCmd, more.posCmd);
    case Speed =>
  }

  /** The two parts of a command, before it is limited. */
  function SpeedPart(p: Params, m: Memory, s: Sample): real
    requires p.speedAngularScale != 0.0
  {
    p.speedGain * SpeedOut(p, m.integral, Error(p, s.speedReal, SpeedTarget(p, m, s)))
  }

  function FeedPart(p: Params, s: Sample): real {
    p.ffGain * FeedForward(p, s.speedReal, s.accelCmd)
  }

  lemma SpeedPartOrder(p: Params, m: Memory, s: Sample, more: Sample)
    requires Steers(p) && s.posReal == more.posReal && s.speedReal == more.speedReal
    requires s.posCmd <= more.posCmd && s.speedCmd <= more.speedCmd
    ensures SpeedPart(p, m, s) <= SpeedPart(p, m, more)
  {
    var target, target' := SpeedTarget(p, m, s), SpeedTarget(p, m, more);
    TargetOrder(p, m, s, more);
    ErrorOrder(p, s.speedReal, target, target');
    var e, e' := Error(p, s.speedReal, target), Error(p, s.speedReal, target');
    SpeedOutOrder(p, m.integral, e, e');
    ScaleOrder(p.speedGain, SpeedOut(p, m.integral, e), SpeedOut(p, m.integral, e'));
  }

  lemma FeedPartOrder(p: Params, s: Sample, more: Sample)
    requires s.speedReal == more.speedReal
    requires s.accelCmd == more.accelCmd || (p.J >= 0.0 && p.ffGain >= 0.0 && s.accelCmd <= more.accelCmd)
    ensures FeedPart(p, s) <= FeedPart(p, more)
  {
    if s.accelCmd != more.accelCmd {
      ScaleOrder(p.J, s.accelCmd, more.accelCmd);
      ScaleOrder(p.ffGain, FeedForward(p, s.speedReal, s.accelCmd), FeedForward(p, s.speedReal, more.accelCmd));
    }
  }

  lemma CommandParts(p: Params, m: Memory, s: Sample)
    requires p.speedAngularScale != 0.0
    ensures Command(p, m, s) == Clamp(FeedPart(p, s) + SpeedPart(p, m, s), p.iqMin, p.iqMax)
  {
  }

  lemma PartsOrder(p: Params, m: Memory, s: Sample, more: Sample, less: real, greater: real)
    requires p.Valid() && less == FeedPart(p, s) + SpeedPart(p, m, s)
    requires greater == FeedPart(p, more) + SpeedPart(p, m, more) && less <= greater
    ensures Command(p, m, s) <= Command(p, m, more)
  {
    CommandParts(p, m, s);
    CommandParts(p, m, more);
    ClampOrder(less, greater, p.iqMin, p.iqMax);
  }

  /** Asked for more - a higher speed, a position further on, or, with an inertia and a
      feed-forward that are not negative, a higher acceleration - the controller never
      drives less. */
  lemma MoreNeverDrivesLess(p: Params, m: Memory, s: Sample, more: Sample)
    requires Steers(p) && s.posReal == more.posReal && s.speedReal == more.speedReal
    requires s.posCmd <= more.posCmd && s.speedCmd <= more.speedCmd
    requires s.accelCmd == more.accelCmd || (p.J >= 0.0 && p.ffGain >= 0.0 && s.accelCmd <= more.accelCmd)
    ensures Command(p, m, s) <= Command(p, m, more)
  {
    SpeedPartOrder(p, m, s, more);
    FeedPartOrder(p, s, more);
    PartsOrder(p, m, s, more, FeedPart(p, s) + SpeedPart(p, m, s), FeedPart(p, more) + SpeedPart(p, m, more));
  }

  /** A sample that asks for no feed-forward, and a controller that can drive both ways. */
  ghost predicate Drives(p: Params) {
    Steers(p) && p.ffGain == 0.0 && p.speedGain > 0.0 && p.speedKp + p.speedKi > 0.0 && p.iqMin < 0.0 < p.iqMax
  }

  lemma DrivesTowardsTarget(p: Params, m: Memory, s: Sample)
    requires Drives(p) && m.integral == 0.0
    ensures Command(p, m, s) > 0.0 <==> SpeedTarget(p, m, s) > s.speedReal
    ensures Command(p, m, s) < 0.0 <==> SpeedTarget(p, m, s) < s.speedReal
  {
    var target := SpeedTarget(p, m, s);
    var e := Error(p, s.speedReal, target);
    ErrorIsDifference(p, s.speedReal, target);
    QuotientSign(target - s.speedReal, p.speedAngularScale);
    var out := SpeedOut(p, 0.0, e);
    assert out == (p.speedKp + p.speedKi) * e;
    ScaleStrict(p.speedKp + p.speedKi, e);
    ScaleStrict(p.speedGain, out);
    var ff := FeedForward(p, s.speedReal, s.accelCmd);
    assert p.ffGain * ff == 0.0;
    ClampSign(p.speedGain * out, p.iqMin, p.iqMax);
  }

  /** In speed mode, from a fresh start: the motor is driven forward exactly when it is
      slower than asked for, and backward exactly when it is faster. */
  lemma DrivesTowardsSpeed(p: Params, m: Memory, s: Sample)
    requires Drives(p) && m.integral == 0.0 && m.mode.Speed?
    ensures Command(p, m, s) > 0.0 <==> s.speedCmd > s.speedReal
    ensures Command(p, m, s) < 0.0 <==> s.speedCmd < s.speedReal
  {
    DrivesTowardsTarget(p, m, s);
  }

  lemma PositionSign(p: Params, posReal: real, posCmd: real)
    requires p.posKp > 0.0 && p.maxVelRpm > 0.0
    ensures PositionOut(p, posReal, posCmd) > 0.0 <==> posCmd > posReal
    ensures PositionOut(p, posReal, posCmd) < 0.0 <==> posCmd < posReal
  {
    var d := posCmd - posReal;
    ScaleStrict(p.posKp, d);
    ScaleStrict(60.0, p.maxVelRpm);
    var limit := p.maxVelRpm * 60.0;
    ClampSign(d * p.posKp, -limit, limit);
  }

  /** In position mode, and in trajectory mode with no speed of its own, a motor at rest is
      driven towards the position asked for. */
  lemma DrivesTowardsPosition(p: Params, m: Memory, s: Sample)
    requires Drives(p) && m.integral == 0.0 && s.speedReal == 0.0 && p.posKp > 0.0 && p.maxVelRpm > 0.0
    requires m.mode.Position? || (m.mode.Trajectory? && s.speedCmd == 0.0 && p.posGain > 0.0)
    ensures Command(p, m, s) > 0.0 <==> s.posCmd > s.posReal
    ensures Command(p, m, s) < 0.0 <==> s.posCmd < s.posReal
  {
    DrivesTowardsTarget(p, m, s);
    PositionSign(p, s.posReal, s.posCmd);
    var out := PositionOut(p, s.posReal, s.posCmd);
    if m.mode.Trajectory? {
      ScaleStrict(p.posGain, out);
    }
  }

  // What each mode listens to

  /** Position mode does not look at the speed asked for. */
  lemma PositionIgnoresSpeed(p: Params, m: Memory, s: Sample, speedCmd: real)
    requires p.speedAngularScale != 0.0 && m.mode.Position?
    ensures Command(p, m, s.(speedCmd := speedCmd)) == Command(p, m, s)
    ensures AfterSample(p, m, s.(speedCmd := speedCmd)) == AfterSample(p, m, s)
  {
  }

  /** Speed mode does not look at positions. */
  lemma SpeedIgnoresPosition(p: Params, m: Memory, s: Sample, posReal: real, posCmd: real)
    requires p.speedAngularScale != 0.0 && m.mode.Speed?
    ensures Command(p, m, s.(posReal := posReal, posCmd := posCmd)) == Command(p, m, s)
    ensures AfterSample(p, m, s.(posReal := posReal, posCmd := posCmd)) == AfterSample(p, m, s)
  {
  }

  // The law of the controller

  function Sum(s: seq<real>): real {
    if s == [] then 0.0 else Sum(s[..|s| - 1]) + s[|s| - 1]
  }

  /** The speed wanted in each mode: the one asked for, the one that brings the motor to its
      position, up to the rated speed, or both. */
  function Wanted(p: Params, mode: Mode, s: Sample): real {
    var toPosition := Limited((s.posCmd - s.posReal) * p.posKp, p.maxVelRpm * 60.0);
    match mode
    case Speed => s.speedCmd
    case Position => toPosition
    case Trajectory => s.speedCmd + p.posGain * toPosition
  }

  function Limited(x: real, limit: real): real {
    if x > limit then limit else if x < -limit then -limit else x
  }

  lemma LimitedIsClamp(x: real, limit: real)
    requires limit >= 0.0
    ensures Clamp(x, -limit, limit) == Limited(x, limit)
  {
  }

  /** e is how much too slow the motor is at a sample, in units of the scale. */
  ghost predicate Lag(p: Params, mode: Mode, s: Sample, e: real) {
    e * p.speedAngularScale == Wanted(p, mode, s) - s.speedReal
  }

  lemma TargetIsWanted(p: Params, m: Memory, s: Sample)
    requires p.maxVelRpm >= 0.0
    ensures SpeedTarget(p, m, s) == Wanted(p, m.mode, s)
  {
    LimitedIsClamp((s.posCmd - s.posReal) * p.posKp, p.maxVelRpm * 60.0);
  }

  /** The output of the speed loop is strictly between its limits. */
  ghost predicate Unlimited(p: Params, e: real, sum: real) {
    p.iqMin < p.speedKp * e + p.speedKi * sum < p.iqMax
  }

  /** Samples with their errors, at each of which the speed loop is not limited. */
  ghost predicate Regular(p: Params, mode: Mode, samples: seq<Sample>, errors: seq<real>)
    decreases |samples|
  {
    && |errors| == |samples|
    && (samples != [] ==>
          var n := |samples| - 1;
          && Regular(p, mode, samples[..n], errors[..n])
          && Lag(p, mode, samples[n], errors[n]) && Unlimited(p, errors[n], Sum(errors)))
  }

  function Controls(samples: seq<Sample>): seq<Step> {
    seq(|samples|, k requires 0 <= k < |samples| => Control(samples[k]))
  }

  lemma ErrorFromProduct(p: Params, speedReal: real, target: real, e: real)
    requires p.speedAngularScale != 0.0 && e * p.speedAngularScale == target - speedReal
    ensures Error(p, speedReal, target) == e
  {
    ErrorIsDifference(p, speedReal, target);
    var q := (target - speedReal) / p.speedAngularScale;
    assert q * p.speedAngularScale == target - speedReal;
    assert (q - e) * p.speedAngularScale == 0.0;
  }

  lemma AddsError(p: Params, m: Memory, s: Sample, e: real)
    requires p.speedAngularScale != 0.0 && p.maxVelRpm >= 0.0 && Lag(p, m.mode, s, e) && Unlimited(p, e, m.integral + e)
    ensures AfterSample(p, m, s).integral == m.integral + e
  {
    TargetIsWanted(p, m, s);
    ErrorFromProduct(p, s.speedReal, SpeedTarget(p, m, s), e);
    assert SpeedOut(p, m.integral, e) == p.speedKp * e + p.speedKi * (m.integral + e);
  }

  lemma StepAdds(p: Params, start: Memory, front: seq<Step>, s: Sample, e: real)
    requires p.speedAngularScale != 0.0 && p.maxVelRpm >= 0.0
    requires var m := After(p, start, front); Lag(p, m.mode, s, e) && Unlimited(p, e, m.integral + e)
    ensures var m, after := After(p, start, front), After(p, start, front + [Control(s)]);
            after.mode == m.mode && after.integral == m.integral + e
  {
    assert (front + [Control(s)])[..|front|] == front;
    AddsError(p, After(p, start, front), s, e);
  }

  /** As long as the output stays within its limits, the integral is the sum of all errors
      since the start: none is lost or counted twice. */
  lemma {:induction false} IntegralIsSum(p: Params, mode: Mode, left: real, samples: seq<Sample>, errors: seq<real>)
    requires p.Valid() && Regular(p, mode, samples, errors)
    ensures var m := After(p, Initial(mode, left), Controls(samples));
            m.mode == mode && m.integral == Sum(errors)
    decreases |samples|
  {
    if samples != [] {
      var n := |samples| - 1;
      IntegralIsSum(p, mode, left, samples[..n], errors[..n]);
      assert Controls(samples) == Controls(samples[..n]) + [Control(samples[n])];
      StepAdds(p, Initial(mode, left), Controls(samples[..n]), samples[n], errors[n]);
    }
  }

  /** The law of the controller: the feed-forward for inertia, friction and load, a part for
      the present error and one for the sum of the errors, limited. */
  function Law(p: Params, s: Sample, e: real, sum: real): real {
    var feedForward := p.J * s.accelCmd + p.b * s.speedReal + p.Tm;
    var iq := p.ffGain * feedForward + p.speedGain * (p.speedKp * e + p.speedKi * sum);
    if iq >= p.iqMax then p.iqMax else if iq <= p.iqMin then p.iqMin else iq
  }

  lemma CommandIs(p: Params, m: Memory, s: Sample, e: real)
    requires p.speedAngularScale != 0.0 && p.maxVelRpm >= 0.0 && Lag(p, m.mode, s, e)
    ensures Command(p, m, s) == Law(p, s, e, m.integral + e)
  {
    TargetIsWanted(p, m, s);
    ErrorFromProduct(p, s.speedReal, SpeedTarget(p, m, s), e);
    assert SpeedOut(p, m.integral, e) == p.speedKp * e + p.speedKi * (m.integral + e);
  }

  /** As long as the speed loop stayed within its limits, the current follows the law, on
      the sum of all errors. */
  lemma ControlLaw(p: Params, mode: Mode, left: real, samples: seq<Sample>, errors: seq<real>, s: Sample, e: real)
    requires p.Valid() && Regular(p, mode, samples, errors) && Lag(p, mode, s, e)
    ensures Command(p, After(p, Initial(mode, left), Controls(samples)), s) == Law(p, s, e, Sum(errors) + e)
  {
    IntegralIsSum(p, mode, left, samples, errors);
    CommandIs(p, After(p, Initial(mode, left), Controls(samples)), s, e);
  }

  /** Outside the limits an error that would drive further out is not added up; every
      other error is. */
  lemma AddedExactWhen(p: Params, m: Memory, s: Sample, e: real)
    requires p.Valid() && p.iqMin < p.iqMax && Lag(p, m.mode, s, e)
    ensures var out := p.speedKp * e + p.speedKi * (m.integral + e);
            var grown := AfterSample(p, m, s).integral - m.integral;
            && ((out >= p.iqMax && e > 0.0) || (out <= p.iqMin && e < 0.0) ==> grown == 0.0)
            && (!(out >= p.iqMax && e > 0.0) && !(out <= p.iqMin && e < 0.0) ==> grown == e)
  {
    TargetIsWanted(p, m, s);
    ErrorFromProduct(p, s.speedReal, SpeedTarget(p, m, s), e);
    assert SpeedOut(p, m.integral, e) == p.speedKp * e + p.speedKi * (m.integral + e);
  }
}
