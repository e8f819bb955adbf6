/** Current (Iq) control of a motor: a position loop around a speed loop with
    anti-windup. Floats are reals. */
module CurrentControl {
  import opened Arithmetic

  datatype Mode = Trajectory | Position | Speed

  datatype Params = Params(posKp: real, posGain: real, speedAngularScale: real, speedKp: real, speedKi: real,
                           maxVelRpm: real, speedGain: real, iqMax: real, iqMin: real,
                           J: real, b: real, Tm: real, ffGain: real) {
    /** The limits enclose zero and the gains of the speed loop are not negative. */
    ghost predicate Valid() {
      speedAngularScale != 0.0 && speedKp >= 0.0 && speedKi >= 0.0 && iqMin <= 0.0 <= iqMax && maxVelRpm >= 0.0
    }
  }

  datatype Sample = Sample(posReal: real, speedReal: real, posCmd: real, speedCmd: real, accelCmd: real)

  /** What changes over time. */
  datatype Memory = Memory(mode: Mode, integral: real, speedFromPosErr: real)

  function Initial(mode: Mode, speedFromPosErr: real): Memory {
    Memory(mode, 0.0, speedFromPosErr)
  }

  function Clamp(x: real, lo: real, hi: real): real {
    if x >= hi then hi else if x <= lo then lo else x
  }

  function PositionOut(p: Params, posReal: real, posCmd: real): real {
    var limit := p.maxVelRpm * SECS_PER_MIN;
    Clamp((posCmd - posReal) * p.posKp, -limit, limit)
  }

  // The speed loop

  function SpeedOut(p: Params, integral: real, e: real): real {
    e * p.speedKp + (integral + e) * p.speedKi
  }

  /** The error is not added up while the output is out of its limits and the error
      drives it further out. */
  predicate Frozen(p: Params, integral: real, e: real) {
    if SpeedOut(p, integral, e) >= p.iqMax then e > 0.0
    else SpeedOut(p, integral, e) <= p.iqMin && e < 0.0
  }

  function NextIntegral(p: Params, integral: real, e: real): real {
    if Frozen(p, integral, e) then integral else integral + e
  }

  ghost predicate WithinLimits(p: Params, integral: real) {
    p.iqMin <= p.speedKi * integral <= p.iqMax
  }

  lemma ProductSign(gain: real, e: real)
    requires gain >= 0.0
    ensures e >= 0.0 ==> gain * e >= 0.0
    ensures e <= 0.0 ==> gain * e <= 0.0
  {
  }

  /** Anti-windup: what the integral contributes never leaves the limits. */
  lemma IntegralKeeps(p: Params, integral: real, e: real)
    requires p.Valid() && WithinLimits(p, integral)
    ensures WithinLimits(p, NextIntegral(p, integral, e))
  {
    ProductSign(p.speedKp, e);
    ProductSign(p.speedKi, e);
    assert p.speedKi * (integral + e) == p.speedKi * integral + p.speedKi * e;
    var out := SpeedOut(p, integral, e);
    assert out == p.speedKp * e + p.speedKi * (integral + e);
    if !Frozen(p, integral, e) {
      if e > 0.0 {
        assert out < p.iqMax && p.speedKi * (integral + e) <= out;
      } else if e < 0.0 {
        assert out >= p.iqMin && p.speedKi * (integral + e) >= out;
      }
    }
  }

  function Error(p: Params, speedReal: real, speedCmd: real): real
    requires p.speedAngularScale != 0.0
  {
    speedCmd / p.speedAngularScale - speedReal / p.speedAngularScale
  }

  // One command

  function SpeedTarget(p: Params, m: Memory, s: Sample): real {
    match m.mode
    case Trajectory => s.speedCmd + p.posGain * PositionOut(p, s.posReal, s.posCmd)
    case Position => PositionOut(p, s.posReal, s.posCmd)
    case Speed => s.speedCmd
  }

  function FeedForward(p: Params, speedReal: real, accelCmd: real): real {
    p.J * accelCmd + p.b * speedReal + p.Tm
  }

  function AfterSample(p: Params, m: Memory, s: Sample): Memory
    requires p.speedAngularScale != 0.0
  {
    var e := Error(p, s.speedReal, SpeedTarget(p, m, s));
    m.(integral := NextIntegral(p, m.integral, e),
       speedFromPosErr := if m.mode.Trajectory? then PositionOut(p, s.posReal, s.posCmd) else m.speedFromPosErr)
  }

  function Command(p: Params, m: Memory, s: Sample): real
    requires p.speedAngularScale != 0.0
  {
    var e := Error(p, s.speedReal, SpeedTarget(p, m, s));
    Clamp(p.ffGain * FeedForward(p, s.speedReal, s.accelCmd) + p.speedGain * SpeedOut(p, m.integral, e),
      p.iqMin, p.iqMax)
  }

  // Any sequence of samples and new starts

  datatype Step = Start(mode: Mode) | Control(sample: Sample)

  function After(p: Params, m: Memory, steps: seq<Step>): Memory
    requires p.speedAngularScale != 0.0
    decreases |steps|
  {
    if steps == [] then m
    else
      var before := After(p, m, steps[..|steps| - 1]);
      match steps[|steps| - 1]
      case Start(mode) => Initial(mode, before.speedFromPosErr)
      case Control(s) => AfterSample(p, before, s)
  }

  /** From initialisation on, whatever is measured and asked for: the integral part
      stays within the current limits, and so does every command. */
  lemma {:induction false} LimitsHold(p: Params, mode: Mode, left: real, steps: seq<Step>, s: Sample)
    requires p.Valid()
    ensures var m := After(p, Initial(mode, left), steps);
            WithinLimits(p, m.integral) && p.iqMin <= Command(p, m, s) <= p.iqMax
    decreases |steps|
  {
    if steps != [] {
      var front, last := steps[..|steps| - 1], steps[|steps| - 1];
      LimitsHold(p, mode, left, front, s);
      if last.Control? {
        var before := After(p, Initial(mode, left), front);
        IntegralKeeps(p, before.integral, Error(p, last.sample.speedReal, SpeedTarget(p, before, last.sample)));
      }
    }
  }

  /** The speed asked for by the position loop stays within the rated speed, has the
      sign of the position error, and is exact below the limit. */
  lemma PositionLoop(p: Params, posReal: real, posCmd: real)
    requires p.maxVelRpm >= 0.0 && p.posKp >= 0.0
    ensures var out, limit := PositionOut(p, posReal, posCmd), p.maxVelRpm * SECS_PER_MIN;
            && -limit <= out <= limit
            && (posCmd >= posReal ==> out >= 0.0) && (posCmd <= posReal ==> out <= 0.0)
            && (-limit < (posCmd - posReal) * p.posKp < limit <==> -limit < out < limit)
            && (-limit < out < limit ==> out == (posCmd - posReal) * p.posKp)
  {
  }

  // The controller in place

  class IqControl {
    var params: Params
    var ctrlMode: Mode
    var speedIntegralError: real
    var speedFromPosErr: real
    var speedMax: real

    ghost predicate Valid()
      reads this
    {
      params.Valid() && speedMax == params.maxVelRpm * SECS_PER_MIN
    }

    ghost function View(): Memory
      reads this
    {
      Memory(ctrlMode, speedIntegralError, speedFromPosErr)
    }

    method Init(mode: Mode, p: Params)
      requires p.Valid()
      modifies this
      ensures Valid() && params == p && View() == Initial(mode, old(speedFromPosErr))
    {
      ctrlMode := mode;
      params := p;
      speedIntegralError := 0.0;
      speedMax := p.maxVelRpm * SECS_PER_MIN;
    }

    method PositionControl(posReal: real, posCmd: real) returns (out: real)
      requires Valid()
      ensures out == PositionOut(params, posReal, posCmd)
    {
      out := (posCmd - posReal) * params.posKp;
      if out >= speedMax {
        out := speedMax;
      } else if out <= -speedMax {
        out := -speedMax;
      }
    }

    method SpeedControl(speedReal: real, speedCmd: real) returns (iqOut: real)
      requires Valid()
      modifies this`speedIntegralError
      ensures var e := Error(params, speedReal, speedCmd);
              iqOut == SpeedOut(params, old(speedIntegralError), e) &&
              speedIntegralError == NextIntegral(params, old(speedIntegralError), e)
    {
      var speedError := speedCmd / params.speedAngularScale - speedReal / params.speedAngularScale;
      iqOut := speedError * params.speedKp + (speedIntegralError + speedError) * params.speedKi;
      if iqOut >= params.iqMax {
        if speedError > 0.0 {
          return;
        }
      } else if iqOut <= params.iqMin {
        if speedError < 0.0 {
          return;
        }
      }
      speedIntegralError := speedIntegralError + speedError;
    }

    /** The speed asked for, in each mode. */
    method Target(s: Sample) returns (speedCmd: real)
      requires Valid()
      modifies this`speedFromPosErr
      ensures Valid() && speedCmd == SpeedTarget(params, old(View()), s)
      ensures speedFromPosErr ==
              if ctrlMode.Trajectory? then PositionOut(params, s.posReal, s.posCmd) else old(speedFromPosErr)
    {
      speedCmd := s.speedCmd;
      match ctrlMode {
        case Trajectory =>
          speedFromPosErr := PositionControl(s.posReal, s.posCmd);
          speedCmd := speedCmd + params.posGain * speedFromPosErr;
        case Position =>
          speedCmd := PositionControl(s.posReal, s.posCmd);
        case Speed =>
      }
    }

    method GetIqCommand(s: Sample) returns (iq: real)
      requires Valid()
      modifies this`speedIntegralError, this`speedFromPosErr
      ensures Valid() && View() == AfterSample(params, old(View()), s) && iq == Command(params, old(View()), s)
      ensures params.iqMin <= iq <= params.iqMax
    {
      var speedCmd := Target(s);
      iq := params.ffGain * FeedForward(params, s.speedReal, s.accelCmd);
      var speedPart := SpeedControl(s.speedReal, speedCmd);
      iq := iq + params.speedGain * speedPart;
      if iq >= params.iqMax {
        iq := params.iqMax;
      } else if iq <= params.iqMin {
        iq := params.iqMin;
      }
    }
  }
}
