/** The heater of tinyg_tc.c (the `heater` struct with heater_init, heater_on,
    heater_off and heater_callback), over the PWM output, the PID regulator and the
    temperature sensor it drives. */
module TcHeater {
  import opened TcConfig
  import opened TcDevice
  import opened TcPid
  import opened TcSensor

  datatype HeaterState = HeaterOff | HeaterHeating | HeaterAtTarget | HeaterShutdown

  /** HeaterNoCode is the zero that heater_init's memset leaves in `code`. */
  datatype HeaterCode = HeaterNoCode | HeaterAmbientTimedOut | HeaterRegulationTimedOut

  datatype HeaterView = HeaterView(
    state: HeaterState,
    code: HeaterCode,
    temperature: real,          // last temperature taken from the sensor
    setpoint: real,
    regulationTimer: real,      // seconds spent heating
    ambientTimeout: real,       // seconds to leave ambient temperature
    regulationTimeout: real,    // seconds to reach the setpoint
    ambientTemperature: real,
    overheatTemperature: real
  )

  /** The PWM registers, heater, PID and sensor structs together. */
  datatype Tc = Tc(pwm: PwmView, heater: HeaterView, pid: PidView, sensor: SensorView)

  predicate TcValid(t: Tc) {
    PwmValid(t.pwm) && PidValid(t.pid) && SensorValid(t.sensor)
  }

  /** heater_init: the heater struct cleared and its limits set, then sensor_init and
      pid_init. The PWM registers are left to device_init. */
  function HeaterInit(k: Constants, pwm: PwmView): (t: Tc)
    requires k.Valid() && PwmValid(pwm)
    ensures TcValid(t) && t.pwm == pwm
    ensures t.heater.state == HeaterOff && t.heater.code == HeaterNoCode
    ensures t.heater.regulationTimer == 0.0 && t.heater.temperature == 0.0 && t.heater.setpoint == 0.0
    ensures t.heater.ambientTimeout == k.ambientTimeout && t.heater.regulationTimeout == k.regulationTimeout
    ensures t.heater.ambientTemperature == k.ambientTemperature
    ensures t.heater.overheatTemperature == k.overheatTemperature
    ensures t.sensor == SensorInit(k) && t.pid == PidInit(k)
  {
    Tc(pwm,
       HeaterView(HeaterOff, HeaterNoCode, 0.0, 0.0, 0.0, k.ambientTimeout, k.regulationTimeout,
                  k.ambientTemperature, k.overheatTemperature),
       PidInit(k), SensorInit(k))
  }

  /** The limits only heater_init writes. */
  predicate SameLimits(h: HeaterView, r: HeaterView) {
    r.ambientTimeout == h.ambientTimeout && r.regulationTimeout == h.regulationTimeout &&
    r.ambientTemperature == h.ambientTemperature && r.overheatTemperature == h.overheatTemperature
  }

  predicate Active(h: HeaterView) {
    h.state == HeaterHeating || h.state == HeaterAtTarget
  }

  /** heater_on: no action when already heating or at target; otherwise the PID history
      is cleared, PWM is started at PWM_FREQUENCY with the output off, and the heater heats
      towards the setpoint. sensor_on does nothing, and the regulation timer is kept. */
  function HeaterOn(k: Constants, t: Tc, setpoint: real): (r: Tc)
    requires k.Valid() && TcValid(t)
    ensures TcValid(r)
    ensures Active(t.heater) ==> r == t
    ensures !Active(t.heater) ==>
              r.heater == t.heater.(state := HeaterHeating, setpoint := setpoint) &&
              r.pid == PidReset(t.pid) && r.sensor == t.sensor &&
              r.pwm == PwmOn(k, k.pwmFrequency, 0.0) &&
              r.pwm.pwmFreq == PeriodOf(k, k.pwmFrequency) && r.pwm.ocr2b == 255
  {
    if Active(t.heater) then t
    else
      Tc(PwmOn(k, k.pwmFrequency, 0.0),
         t.heater.(setpoint := setpoint, state := HeaterHeating),
         PidReset(t.pid),
         t.sensor)
  }

  /** heater_off(state, code): the output is forced off, the sensor stops, and the heater
      takes the given state and code. */
  function SwitchOff(k: Constants, t: Tc, state: HeaterState, code: HeaterCode): (r: Tc)
    requires k.Valid() && TcValid(t)
    ensures TcValid(r) && r.pid == t.pid
    ensures r.pwm.ocr2b == 255 && r.pwm == PwmOff(k)
    ensures r.sensor == t.sensor.(state := SensorOff)
    ensures r.heater == t.heater.(state := state, code := code)
  {
    Tc(PwmOff(k), t.heater.(state := state, code := code), t.pid, t.sensor.(state := SensorOff))
  }

  /** The exception checks at the end of heater_callback, for a heater that is heating:
      the regulation timer advances by one heater tick, then too long below ambient
      temperature, and after that too long below the setpoint, shuts the heater down. */
  function HeaterExceptions(k: Constants, t: Tc): (r: Tc)
    requires k.Valid() && TcValid(t)
    ensures TcValid(r) && r.pid == t.pid
    ensures var h := t.heater;
      var timer := h.regulationTimer + k.heaterTickSeconds;
      var ambient := h.temperature < h.ambientTemperature && timer > h.ambientTimeout;
      var regulation := h.temperature < h.setpoint && timer > h.regulationTimeout;
      r.heater.regulationTimer == timer &&
      (ambient ==> r == SwitchOff(k, t.(heater := h.(regulationTimer := timer)),
                                  HeaterShutdown, HeaterAmbientTimedOut)) &&
      (!ambient && regulation ==> r == SwitchOff(k, t.(heater := h.(regulationTimer := timer)),
                                                 HeaterShutdown, HeaterRegulationTimedOut)) &&
      (!ambient && !regulation ==> r == t.(heater := h.(regulationTimer := timer)))
  {
    var h := t.heater.(regulationTimer := t.heater.regulationTimer + k.heaterTickSeconds);
    var t1 := t.(heater := h);
    if h.temperature < h.ambientTemperature && h.regulationTimer > h.ambientTimeout then
      SwitchOff(k, t1, HeaterShutdown, HeaterAmbientTimedOut)
    else if h.temperature < h.setpoint && h.regulationTimer > h.regulationTimeout then
      SwitchOff(k, t1, HeaterShutdown, HeaterRegulationTimedOut)
    else t1
  }

  /** heater_callback, run every 100 ms: a heater that is off or shut down is left alone;
      otherwise a new sensor reading is started, and when the sensor has data its
      temperature goes through pid_calculate into the PWM duty cycle before the exception
      checks. */
  function HeaterCallback(k: Constants, t: Tc): (r: Tc)
    requires k.Valid() && TcValid(t)
    ensures TcValid(r) && SameLimits(t.heater, r.heater) && SameSettings(t.sensor, r.sensor)
    ensures r.sensor.temperature == t.sensor.temperature && r.sensor.code == t.sensor.code
    ensures r.sensor.state == t.sensor.state || r.sensor.state == SensorOff
    ensures t.heater.state == HeaterOff || t.heater.state == HeaterShutdown ==> r == t
    ensures !(t.heater.state == HeaterOff || t.heater.state == HeaterShutdown) ==> r.sensor.samples == 0
    ensures (!(t.heater.state == HeaterOff || t.heater.state == HeaterShutdown) &&
             t.sensor.state != SensorHasData) ==> r == t.(sensor := t.sensor.(samples := 0))
    ensures r.heater.state == HeaterShutdown && t.heater.state != HeaterShutdown ==>
              t.heater.state == HeaterHeating && t.sensor.state == SensorHasData &&
              r.pwm == PwmOff(k) && r.sensor.state == SensorOff &&
              r.heater.temperature == t.sensor.temperature &&
              (r.heater.code == HeaterAmbientTimedOut || r.heater.code == HeaterRegulationTimedOut)
    ensures r.heater.state != HeaterShutdown && t.heater.state != HeaterOff && t.sensor.state == SensorHasData ==>
              r.heater.temperature == t.sensor.temperature &&
              r.pid == PidCalculate(t.pid, k.pidEpsilon, t.heater.setpoint, t.sensor.temperature).pid &&
              r.pwm == PwmSetDuty(k, t.pwm,
                                  PidCalculate(t.pid, k.pidEpsilon, t.heater.setpoint, t.sensor.temperature).output)
    ensures t.heater.state == HeaterHeating && t.sensor.state == SensorHasData ==>
              var step := PidCalculate(t.pid, k.pidEpsilon, t.heater.setpoint, t.sensor.temperature);
              r == HeaterExceptions(k, Tc(PwmSetDuty(k, t.pwm, step.output),
                                          t.heater.(temperature := t.sensor.temperature),
                                          step.pid, t.sensor.(samples := 0)))
  {
    if t.heater.state == HeaterOff || t.heater.state == HeaterShutdown then t
    else
      var sensor := t.sensor.(samples := 0);
      if sensor.state != SensorHasData then t.(sensor := sensor)
      else
        var temperature := SensorTemperature(k, sensor);
        var step := PidCalculate(t.pid, k.pidEpsilon, t.heater.setpoint, temperature);
        var t1 := Tc(PwmSetDuty(k, t.pwm, step.output), t.heater.(temperature := temperature),
                     step.pid, sensor);
        if t1.heater.state == HeaterHeating then HeaterExceptions(k, t1) else t1
  }

  /** heater_on is idempotent: a second call, whatever its setpoint, changes nothing. */
  lemma HeaterOnIdempotent(k: Constants, t: Tc, sp1: real, sp2: real)
    requires k.Valid() && TcValid(t)
    ensures HeaterOn(k, HeaterOn(k, t, sp1), sp2) == HeaterOn(k, t, sp1)
  {
  }

  /** n successive heater callbacks with nothing else in between. */
  function HeaterRepeat(k: Constants, t: Tc, n: nat): (r: Tc)
    requires k.Valid() && TcValid(t)
    ensures TcValid(r) && SameLimits(t.heater, r.heater)
    decreases n
  {
    if n == 0 then t else HeaterCallback(k, HeaterRepeat(k, t, n - 1))
  }

  /** A shut-down heater stays shut down: heater_callback never leaves HEATER_SHUTDOWN. */
  lemma {:induction false} ShutdownIsSticky(k: Constants, t: Tc, n: nat)
    requires k.Valid() && TcValid(t) && t.heater.state == HeaterShutdown
    ensures HeaterRepeat(k, t, n) == t
    decreases n
  {
    if n > 0 {
      ShutdownIsSticky(k, t, n - 1);
    }
  }

  /** A sensor that has shut down (its retries exhausted) never has data, so
      heater_callback returns before advancing the regulation timer: a heating heater
      stays heating with its code, timer, PID and output untouched, and neither time-out
      can fire. */
  lemma {:induction false} SensorShutdownStallsHeating(k: Constants, t: Tc, n: nat)
    requires k.Valid() && TcValid(t)
    requires t.heater.state == HeaterHeating && t.sensor.state == SensorShutdown
    ensures var r := HeaterRepeat(k, t, n);
      r.heater == t.heater && r.pwm == t.pwm && r.pid == t.pid &&
      r.sensor == t.sensor.(samples := if n == 0 then t.sensor.samples else 0)
    decreases n
  {
    if n > 0 {
      SensorShutdownStallsHeating(k, t, n - 1);
    }
  }

  /** A heater heating from a steady reading below ambient temperature (a sensor whose
      reading has completed is never refreshed, so the reading is steady) accumulates one
      heater tick per callback and shuts down with the ambient time-out exactly once its
      timer passes the ambient time-out, with the output forced off and the sensor off. */
  lemma {:induction false} AmbientTimeoutLatches(k: Constants, t: Tc, n: nat)
    requires k.Valid() && TcValid(t) && k.heaterTickSeconds > 0.0
    requires t.heater.state == HeaterHeating && t.sensor.state == SensorHasData
    requires t.sensor.temperature < t.heater.ambientTemperature
    requires t.heater.ambientTimeout <= t.heater.regulationTimeout
    requires t.heater.regulationTimer <= t.heater.ambientTimeout
    ensures LatchedAfter(k, t, HeaterRepeat(k, t, n), Elapsed(t.heater.regulationTimer, k.heaterTickSeconds, n))
    decreases n
  {
    if n > 0 {
      AmbientTimeoutLatches(k, t, n - 1);
      LatchStep(k, t, n, Elapsed(t.heater.regulationTimer, k.heaterTickSeconds, n - 1),
                Elapsed(t.heater.regulationTimer, k.heaterTickSeconds, n));
    }
  }

  /** A timer started at `start` after n ticks of `tick` seconds. */
  function Elapsed(start: real, tick: real, n: nat): (r: real)
    ensures r == start + n as real * tick
    decreases n
  {
    if n == 0 then start else Elapsed(start, tick, n - 1) + tick
  }

  /** Where AmbientTimeoutLatches says a heater started from t is once its timer has
      reached `timer`. */
  predicate LatchedAfter(k: Constants, t: Tc, r: Tc, timer: real)
    requires k.Valid()
  {
    SameLimits(t.heater, r.heater) &&
    (timer <= t.heater.ambientTimeout ==>
       r.heater.state == HeaterHeating && r.heater.regulationTimer == timer &&
       r.sensor.state == SensorHasData && r.sensor.temperature == t.sensor.temperature) &&
    (timer > t.heater.ambientTimeout ==>
       r.heater.state == HeaterShutdown && r.heater.code == HeaterAmbientTimedOut &&
       r.pwm == PwmOff(k) && r.sensor.state == SensorOff)
  }

  /** The induction step of AmbientTimeoutLatches. */
  lemma LatchStep(k: Constants, t: Tc, n: nat, before: real, timer: real)
    requires k.Valid() && TcValid(t) && k.heaterTickSeconds > 0.0 && n > 0
    requires t.sensor.temperature < t.heater.ambientTemperature
    requires t.heater.ambientTimeout <= t.heater.regulationTimeout
    requires timer == before + k.heaterTickSeconds
    requires LatchedAfter(k, t, HeaterRepeat(k, t, n - 1), before)
    ensures LatchedAfter(k, t, HeaterRepeat(k, t, n), timer)
  {
    var prev := HeaterRepeat(k, t, n - 1);
    assert HeaterRepeat(k, t, n) == HeaterCallback(k, prev);
    if before > t.heater.ambientTimeout {
      assert HeaterCallback(k, prev) == prev;
    } else {
      HeatingStep(k, prev, t.heater);
    }
  }

  /** One callback from a heating state with h0's limits and a reading below ambient. */
  lemma HeatingStep(k: Constants, p: Tc, h0: HeaterView)
    requires k.Valid() && TcValid(p)
    requires p.heater.state == HeaterHeating && p.sensor.state == SensorHasData
    requires SameLimits(h0, p.heater)
    requires p.sensor.temperature < h0.ambientTemperature && h0.ambientTimeout <= h0.regulationTimeout
    ensures var r := HeaterCallback(k, p);
      var timer := p.heater.regulationTimer + k.heaterTickSeconds;
      r.sensor.temperature == p.sensor.temperature &&
      (timer <= h0.ambientTimeout ==>
         r.heater.state == HeaterHeating && r.heater.regulationTimer == timer &&
         r.sensor.state == SensorHasData) &&
      (timer > h0.ambientTimeout ==>
         r.heater.state == HeaterShutdown && r.heater.code == HeaterAmbientTimedOut &&
         r.pwm == PwmOff(k) && r.sensor.state == SensorOff)
  {
  }

  /** heater_on after a shutdown: the heater reports HEATING again, but heater_off left the
      sensor off and sensor_on does not turn it back on, so later callbacks never regulate
      and the output stays off. */
  lemma {:induction false} RestartAfterShutdownStalls(k: Constants, t: Tc, setpoint: real, n: nat)
    requires k.Valid() && TcValid(t)
    requires t.heater.state == HeaterShutdown && t.sensor.state == SensorOff
    ensures var on := HeaterOn(k, t, setpoint);
      var r := HeaterRepeat(k, on, n);
      r.heater == on.heater && r.heater.state == HeaterHeating && r.pwm == on.pwm &&
      r.pwm.ocr2b == 255 && r.sensor.state == SensorOff
    decreases n
  {
    if n > 0 {
      RestartAfterShutdownStalls(k, t, setpoint, n - 1);
    }
  }

  // ---------------------------------------------------------------------------
  // The heater struct

  class Heater {
    const k: Constants
    const device: Device
    const sensor: Sensor
    const pid: Pid
    var state: HeaterState
    var code: HeaterCode
    var temperature: real
    var setpoint: real
    var regulationTimer: real
    var ambientTimeout: real
    var regulationTimeout: real
    var ambientTemperature: real
    var overheatTemperature: real

    ghost predicate Valid()
      reads this, device, sensor, pid
    {
      device.Valid() && sensor.Valid() && pid.Valid() && device.k == k && sensor.k == k
    }

    function View(): HeaterView
      reads this
    {
      HeaterView(state, code, temperature, setpoint, regulationTimer, ambientTimeout,
                 regulationTimeout, ambientTemperature, overheatTemperature)
    }

    function System(): Tc
      reads this, device, sensor, pid
    {
      Tc(device.Pwm(), View(), pid.View(), sensor.View())
    }

    /** heater_init, over an initialised device. */
    constructor (k: Constants, device: Device)
      requires device.Valid() && device.k == k
      ensures Valid() && this.k == k && this.device == device && fresh(sensor) && fresh(pid)
      ensures System() == HeaterInit(k, device.Pwm())
    {
      this.k := k;
      this.device := device;
      state, code := HeaterOff, HeaterNoCode;
      temperature, setpoint, regulationTimer := 0.0, 0.0, 0.0;
      ambientTimeout, regulationTimeout := k.ambientTimeout, k.regulationTimeout;
      ambientTemperature, overheatTemperature := k.ambientTemperature, k.overheatTemperature;
      sensor := new Sensor(k);
      pid := new Pid(k);
    }

    /** heater_on */
    method On(setpoint: real)
      requires Valid()
      modifies this, device, pid
      ensures Valid() && System() == HeaterOn(k, old(System()), setpoint)
      ensures device.Tick() == old(device.Tick())
    {
      if state == HeaterHeating || state == HeaterAtTarget {
        return;
      }
      sensor.On();
      pid.Reset();
      device.PwmOnWith(k.pwmFrequency, 0.0);
      this.setpoint := setpoint;
      state := HeaterHeating;
    }

    /** heater_off */
    method Off(state: HeaterState, code: HeaterCode)
      requires Valid()
      modifies this, device, sensor
      ensures Valid() && System() == SwitchOff(k, old(System()), state, code)
      ensures device.Tick() == old(device.Tick())
    {
      device.PwmStop();
      sensor.Off();
      this.state := state;
      this.code := code;
    }

    /** The exception checks of heater_callback. */
    method Exceptions()
      requires Valid()
      modifies this, device, sensor
      ensures Valid() && System() == HeaterExceptions(k, old(System()))
      ensures device.Tick() == old(device.Tick())
    {
      regulationTimer := regulationTimer + k.heaterTickSeconds;
      if temperature < ambientTemperature && regulationTimer > ambientTimeout {
        Off(HeaterShutdown, HeaterAmbientTimedOut);
        return;
      }
      if temperature < setpoint && regulationTimer > regulationTimeout {
        Off(HeaterShutdown, HeaterRegulationTimedOut);
        return;
      }
    }

    /** heater_callback */
    method Callback()
      requires Valid()
      modifies this, device, sensor, pid
      ensures Valid() && System() == HeaterCallback(k, old(System()))
      ensures device.Tick() == old(device.Tick())
    {
      if state == HeaterOff || state == HeaterShutdown {
        return;
      }
      sensor.StartTemperatureReading();
      if sensor.GetState() != SensorHasData {
        return;
      }
      temperature := sensor.GetTemperature();
      var duty := pid.Calculate(k.pidEpsilon, setpoint, temperature);
      var _ := device.SetDuty(duty);
      if state == HeaterHeating {
        Exceptions();
      }
    }
  }
}
