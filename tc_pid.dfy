/** The PID regulator of tinyg_tc.c (the `pid` struct with pid_init, pid_reset and
    pid_calculate). */
module TcPid {
  import opened TcConfig

  datatype PidState = PidOff | PidOn

  datatype PidView = PidView(
    state: PidState,
    output: real,       // also used for anti-windup on the integral term
    outputMax: real,    // saturation filter max
    outputMin: real,    // saturation filter min
    error: real,        // current error term
    prevError: real,    // error term from the previous pass
    integral: real,
    derivative: real,
    dt: real,           // time constant
    kp: real,
    ki: real,
    kd: real,
    temperature: real,  // last temperature passed in
    setpoint: real      // last setpoint passed in
  )

  /** The time constant is positive (it divides) and the saturation range is not empty. */
  predicate PidValid(p: PidView) {
    p.dt > 0.0 && p.outputMin <= p.outputMax
  }

  /** Gains, limits, time constant and on/off state: what pid_calculate never changes. */
  predicate SameTuning(p: PidView, q: PidView) {
    p.state == q.state && p.outputMax == q.outputMax && p.outputMin == q.outputMin &&
    p.dt == q.dt && p.kp == q.kp && p.ki == q.ki && p.kd == q.kd
  }

  /** pid_init: every field zero, then the constants, and the regulator on. */
  function PidInit(k: Constants): (p: PidView)
    requires k.Valid()
    ensures PidValid(p) && p.state == PidOn && p.integral == 0.0 && p.prevError == 0.0
    ensures p.dt == k.pidDt && p.kp == k.pidKp && p.ki == k.pidKi && p.kd == k.pidKd
    ensures p.outputMax == k.pidMaxOutput && p.outputMin == k.pidMinOutput
    ensures p.output == 0.0 && p.error == 0.0 && p.derivative == 0.0
    ensures p.temperature == 0.0 && p.setpoint == 0.0
  {
    PidView(PidOn, 0.0, k.pidMaxOutput, k.pidMinOutput, 0.0, 0.0, 0.0, 0.0,
            k.pidDt, k.pidKp, k.pidKi, k.pidKd, 0.0, 0.0)
  }

  /** pid_reset: a cold start of the integral and derivative history. */
  function PidReset(p: PidView): (r: PidView)
    ensures SameTuning(p, r) && r.integral == 0.0 && r.prevError == 0.0
    ensures r.(integral := p.integral, prevError := p.prevError) == p
  {
    p.(integral := 0.0, prevError := 0.0)
  }

  /** The saturation filter. */
  function Saturate(x: real, lo: real, hi: real): (r: real)
    requires lo <= hi
    ensures lo <= r <= hi
    ensures lo <= x <= hi ==> r == x
    ensures x > hi ==> r == hi
    ensures x < lo ==> r == lo
  {
    if x > hi then hi else if x < lo then lo else x
  }

  datatype PidStep = PidStep(pid: PidView, output: real)

  /** The unsaturated output: the proportional, integral and derivative terms. */
  function Terms(kp: real, error: real, ki: real, integral: real, kd: real, derivative: real): real {
    kp * error + ki * integral + kd * derivative
  }

  /** pid_calculate(setpoint, temperature) with PID_EPSILON = eps. */
  function PidCalculate(p: PidView, eps: real, setpoint: real, temperature: real): (r: PidStep)
    requires PidValid(p)
    ensures PidValid(r.pid) && SameTuning(p, r.pid)
    ensures p.state == PidOff ==> r == PidStep(p, 0.0)
    ensures p.state == PidOn ==> p.outputMin <= r.output <= p.outputMax && r.pid.output == r.output
    ensures p.state == PidOn ==> r.pid.error == setpoint - temperature && r.pid.prevError == r.pid.error
    ensures p.state == PidOn && Abs(setpoint - temperature) > eps ==>
              r.pid.integral == p.integral + (setpoint - temperature) * p.dt
    ensures p.state == PidOn && Abs(setpoint - temperature) <= eps ==> r.pid.integral == p.integral
    ensures p.state == PidOn ==> r.pid.derivative == (r.pid.error - p.prevError) / p.dt
    ensures p.state == PidOn ==>
              r.output == Saturate(Terms(p.kp, r.pid.error, p.ki, r.pid.integral, p.kd, r.pid.derivative),
                                   p.outputMin, p.outputMax)
    ensures p.state == PidOn ==> r.pid.setpoint == setpoint && r.pid.temperature == temperature
  {
    if p.state == PidOff then PidStep(p, 0.0)
    else
      var error := setpoint - temperature;
      var integral := if Abs(error) > eps then p.integral + error * p.dt else p.integral;
      var derivative := (error - p.prevError) / p.dt;
      var q := p.(setpoint := setpoint, temperature := temperature, error := error,
                  integral := integral, derivative := derivative, prevError := error);
      var output := Saturate(Terms(p.kp, error, p.ki, integral, p.kd, derivative), p.outputMin, p.outputMax);
      PidStep(q.(output := output), output)
  }

  /** n calls of pid_calculate with the same inputs. */
  function PidRepeat(p: PidView, eps: real, setpoint: real, temperature: real, n: nat): (r: PidStep)
    requires PidValid(p)
    ensures PidValid(r.pid) && SameTuning(p, r.pid)
    decreases n
  {
    if n == 0 then PidStep(p, p.output)
    else PidCalculate(PidRepeat(p, eps, setpoint, temperature, n - 1).pid, eps, setpoint, temperature)
  }

  /** At (or within PID_EPSILON of) the setpoint the integral never moves, and from the
      second call on the derivative term vanishes, so the output settles at the saturated
      proportional-plus-integral value. */
  lemma {:induction false} SteadyStateHoldsIntegral(p: PidView, eps: real, setpoint: real,
                                                    temperature: real, n: nat)
    requires PidValid(p) && p.state == PidOn && Abs(setpoint - temperature) <= eps
    ensures PidRepeat(p, eps, setpoint, temperature, n).pid.integral == p.integral
    ensures n >= 1 ==> PidRepeat(p, eps, setpoint, temperature, n).pid.prevError == setpoint - temperature
    ensures n >= 2 ==>
              var r := PidRepeat(p, eps, setpoint, temperature, n);
              r.pid.derivative == 0.0 &&
              r.output == Saturate(p.kp * (setpoint - temperature) + p.ki * p.integral,
                                   p.outputMin, p.outputMax)
  {
    if n > 0 {
      SteadyStateHoldsIntegral(p, eps, setpoint, temperature, n - 1);
      var q := PidRepeat(p, eps, setpoint, temperature, n - 1).pid;
      assert PidRepeat(p, eps, setpoint, temperature, n) == PidCalculate(q, eps, setpoint, temperature);
      if n >= 2 {
        CalculateAtRest(p, q, eps, setpoint, temperature);
      }
    }
  }

  /** One call, from a state with p's tuning and integral, whose error equals the previous
      one and lies within eps. */
  lemma CalculateAtRest(p: PidView, q: PidView, eps: real, setpoint: real, temperature: real)
    requires PidValid(q) && q.state == PidOn && Abs(setpoint - temperature) <= eps
    requires SameTuning(p, q) && q.integral == p.integral
    requires q.prevError == setpoint - temperature
    ensures var r := PidCalculate(q, eps, setpoint, temperature);
      r.pid.derivative == 0.0 &&
      r.output == Saturate(p.kp * (setpoint - temperature) + p.ki * p.integral, p.outputMin, p.outputMax)
  {
    var e := setpoint - temperature;
    assert (e - q.prevError) / q.dt == 0.0;
    assert q.kd * 0.0 == 0.0;
  }

  class Pid {
    var state: PidState
    var output: real
    var outputMax: real
    var outputMin: real
    var error: real
    var prevError: real
    var integral: real
    var derivative: real
    var dt: real
    var kp: real
    var ki: real
    var kd: real
    var temperature: real
    var setpoint: real

    ghost predicate Valid()
      reads this
    {
      PidValid(View())
    }

    function View(): PidView
      reads this
    {
      PidView(state, output, outputMax, outputMin, error, prevError, integral, derivative,
              dt, kp, ki, kd, temperature, setpoint)
    }

    /** pid_init */
    constructor (k: Constants)
      requires k.Valid()
      ensures Valid() && View() == PidInit(k)
    {
      state, output, error, prevError, integral, derivative := PidOn, 0.0, 0.0, 0.0, 0.0, 0.0;
      temperature, setpoint := 0.0, 0.0;
      dt, kp, ki, kd := k.pidDt, k.pidKp, k.pidKi, k.pidKd;
      outputMax, outputMin := k.pidMaxOutput, k.pidMinOutput;
    }

    /** pid_reset */
    method Reset()
      requires Valid()
      modifies this
      ensures Valid() && View() == PidReset(old(View()))
    {
      integral := 0.0;
      prevError := 0.0;
    }

    /** pid_calculate: PID_EPSILON is passed in as eps. */
    method Calculate(eps: real, setpoint: real, temperature: real) returns (out: real)
      requires Valid()
      modifies this
      ensures Valid()
      ensures PidStep(View(), out) == PidCalculate(old(View()), eps, setpoint, temperature)
    {
      if state == PidOff {
        return 0.0;
      }
      this.setpoint := setpoint;
      this.temperature := temperature;
      error := setpoint - temperature;
      if Abs(error) > eps {
        integral := integral + error * dt;
      }
      derivative := (error - prevError) / dt;
      output := Terms(kp, error, ki, integral, kd, derivative);
      ghost var raw := output;
      if output > outputMax {
        output := outputMax;
      } else if output < outputMin {
        output := outputMin;
      }
      assert output == Saturate(raw, outputMin, outputMax);
      prevError := error;
      ghost var q := old(View()).(setpoint := setpoint, temperature := temperature, error := error,
                                  integral := integral, derivative := derivative, prevError := error);
      assert View() == q.(output := output);
      return output;
    }
  }
}
