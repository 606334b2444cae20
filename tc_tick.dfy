/** The board as a whole in tinyg_tc.c: device_init and heater_init, the timer 0
    interrupt, tick_callback with its 10 ms / 100 ms / 1 s handlers, and the two-entry
    `_controller` dispatch loop. */
module TcTick {
  import opened Status
  import opened TcConfig
  import opened TcDevice
  import opened TcSensor
  import opened TcHeater
  import opened Dispatch

  /** The tick counters together with everything the heater reaches. */
  datatype Board = Board(tick: TickView, tc: Tc)

  predicate BoardValid(b: Board) {
    TickValid(b.tick) && TcValid(b.tc)
  }

  /** device_init (tick_init and pwm_init) followed by heater_init. */
  function BoardInit(k: Constants): (b: Board)
    requires k.Valid()
    ensures BoardValid(b) && b.tick == TickView(false, 10, 10)
    ensures b.tc == HeaterInit(k, PwmInit())
    ensures b.tc.heater.state == HeaterOff && b.tc.sensor.state == SensorHasNoData
  {
    Board(TickView(false, 10, 10), HeaterInit(k, PwmInit()))
  }

  /** tick_callback, with `adc` the conversions sensor_callback reads in tick_10ms. */
  function TickStep(k: Constants, b: Board, adc: seq<int>): (r: (Stat, Board))
    requires k.Valid() && BoardValid(b) && |adc| > b.tc.sensor.retries
    ensures BoardValid(r.1) && SameSettings(b.tc.sensor, r.1.tc.sensor)
    ensures !b.tick.tickFlag <==> r.0 == Noop
    ensures !b.tick.tickFlag ==> r.1 == b
    ensures b.tick.tickFlag ==>
              r.0 == Ok && !r.1.tick.tickFlag &&
              r.1.tick == Countdown(b.tick.(tickFlag := false)).counters
    ensures b.tick.tickFlag ==>
              var sensed := b.tc.(sensor := SensorCallback(k, b.tc.sensor, adc));
              r.1.tc == if b.tick.tick100msCount == 1 then HeaterCallback(k, sensed) else sensed
  {
    if !b.tick.tickFlag then (Noop, b)
    else
      var sensed := b.tc.(sensor := SensorCallback(k, b.tc.sensor, adc));
      var c := Countdown(b.tick.(tickFlag := false));
      (Ok, Board(c.counters, if c.ran100ms then HeaterCallback(k, sensed) else sensed))
  }

  /** _controller: kinen_callback's status `kinen` first; SC_EAGAIN ends the pass before
      tick_callback runs. */
  function ControllerPass(k: Constants, b: Board, kinen: Stat, adc: seq<int>): (r: Board)
    requires k.Valid() && BoardValid(b) && |adc| > b.tc.sensor.retries
    ensures BoardValid(r)
    ensures kinen == Eagain ==> r == b
    ensures kinen != Eagain ==> r == TickStep(k, b, adc).1
  {
    if kinen == Eagain then b else TickStep(k, b, adc).1
  }

  /** The two entries of `_controller`'s DISPATCH list. */
  datatype TcTask = KinenTask | TickTask

  /** How `_controller` runs its entries: kinen_callback's status is an input; a board
      outside TickStep's domain is left as it is. */
  function TcRun(k: Constants, kinen: Stat, adc: seq<int>): (TcTask, Board) -> (Stat, Board) {
    (t: TcTask, b: Board) =>
      match t
      case KinenTask => (kinen, b)
      case TickTask =>
        if k.Valid() && BoardValid(b) && |adc| > b.tc.sensor.retries then TickStep(k, b, adc) else (Ok, b)
  }

  /** `_controller` is the DISPATCH driver over [kinen_callback, tick_callback]. */
  lemma ControllerIsDispatch(k: Constants, b: Board, kinen: Stat, adc: seq<int>)
    requires k.Valid() && BoardValid(b) && |adc| > b.tc.sensor.retries
    ensures var r := Pass(TcRun(k, kinen, adc), [KinenTask, TickTask], b);
      r.world == ControllerPass(k, b, kinen, adc) &&
      r.trace == if kinen == Eagain then [Eagain] else [kinen, TickStep(k, b, adc).0]
  {
    var run := TcRun(k, kinen, adc);
    var tasks := [KinenTask, TickTask];
    assert tasks[1..] == [TickTask];
    assert [TickTask][1..] == [];
  }

  /** Successive timer interrupts, each followed by tick_callback. */
  function Ticks(k: Constants, b: Board, adcs: seq<seq<int>>): (r: Board)
    requires k.Valid() && BoardValid(b)
    requires forall i :: 0 <= i < |adcs| ==> |adcs[i]| > b.tc.sensor.retries
    ensures BoardValid(r) && SameSettings(b.tc.sensor, r.tc.sensor)
    decreases |adcs|
  {
    if adcs == [] then b
    else
      var prev := Ticks(k, b, adcs[..|adcs| - 1]);
      TickStep(k, prev.(tick := prev.tick.(tickFlag := true)), adcs[|adcs| - 1]).1
  }

  /** Once a reading has completed, sensor_callback returns at once on every later tick
      (heater_callback's sensor_start_temperature_reading clears only the sample count),
      so the temperature the heater regulates on never changes again; the sensor keeps its
      data until the heater turns it off. */
  lemma {:induction false} CompletedReadingIsFrozen(k: Constants, b: Board, adcs: seq<seq<int>>)
    requires k.Valid() && BoardValid(b)
    requires forall i :: 0 <= i < |adcs| ==> |adcs[i]| > b.tc.sensor.retries
    requires b.tc.sensor.code == SensorReadingComplete && b.tc.sensor.state == SensorHasData
    ensures var r := Ticks(k, b, adcs).tc.sensor;
      r.code == SensorReadingComplete && r.temperature == b.tc.sensor.temperature &&
      (r.state == SensorHasData || r.state == SensorOff)
    decreases |adcs|
  {
    if adcs != [] {
      var init := adcs[..|adcs| - 1];
      assert forall i :: 0 <= i < |init| ==> init[i] == adcs[i];
      CompletedReadingIsFrozen(k, b, init);
    }
  }

  /** A sensor shut down by bad readings stays shut down on every tick, and because
      heater_callback treats it like a sensor without data, a heating heater on the board
      keeps its state, code and regulation timer, its PID and its PWM output for ever. */
  lemma {:induction false} SensorShutdownNeverTimesOut(k: Constants, b: Board, adcs: seq<seq<int>>)
    requires k.Valid() && BoardValid(b)
    requires forall i :: 0 <= i < |adcs| ==> |adcs[i]| > b.tc.sensor.retries
    requires b.tc.heater.state == HeaterHeating && b.tc.sensor.state == SensorShutdown
    ensures var r := Ticks(k, b, adcs).tc;
      r.heater == b.tc.heater && r.pwm == b.tc.pwm && r.pid == b.tc.pid &&
      r.sensor.state == SensorShutdown && r.sensor.code == b.tc.sensor.code
    decreases |adcs|
  {
    if adcs != [] {
      var init := adcs[..|adcs| - 1];
      assert forall i :: 0 <= i < |init| ==> init[i] == adcs[i];
      SensorShutdownNeverTimesOut(k, b, init);
    }
  }

  // ---------------------------------------------------------------------------
  // The board

  class TinyTc {
    const k: Constants
    const device: Device
    const heater: Heater

    ghost predicate Valid()
      reads this, device, heater, heater.device, heater.sensor, heater.pid
    {
      heater.Valid() && heater.device == device && heater.k == k
    }

    function State(): Board
      reads this, device, heater, heater.device, heater.sensor, heater.pid
    {
      Board(device.Tick(), heater.System())
    }

    /** device_init, then heater_init. */
    constructor (k: Constants)
      requires k.Valid()
      ensures Valid() && this.k == k && State() == BoardInit(k)
    {
      this.k := k;
      var d := new Device(k);
      device := d;
      heater := new Heater(k, d);
    }

    /** The timer 0 overflow interrupt. */
    method Interrupt()
      requires Valid()
      modifies device
      ensures Valid() && State() == old(State()).(tick := old(State()).tick.(tickFlag := true))
    {
      device.SetTickFlag();
    }

    /** tick_callback: tick_10ms runs sensor_callback, tick_100ms heater_callback, and
        tick_1sec does nothing. */
    method TickCallback(adc: seq<int>) returns (st: Stat)
      requires Valid() && |adc| > heater.sensor.retries
      modifies device, heater, heater.sensor, heater.pid
      ensures Valid() && (st, State()) == TickStep(k, old(State()), adc)
    {
      if !device.tickFlag {
        return Noop;
      }
      device.tickFlag := false;
      heater.sensor.Callback(adc);
      device.tick100msCount := device.tick100msCount - 1;
      if device.tick100msCount != 0 {
        return Ok;
      }
      device.tick100msCount := 10;
      heater.Callback();
      device.tick1secCount := device.tick1secCount - 1;
      if device.tick1secCount != 0 {
        return Ok;
      }
      device.tick1secCount := 10;
      return Ok;
    }

    /** _controller */
    method Controller(kinen: Stat, adc: seq<int>)
      requires Valid() && |adc| > heater.sensor.retries
      modifies device, heater, heater.sensor, heater.pid
      ensures Valid() && State() == ControllerPass(k, old(State()), kinen, adc)
    {
      if kinen == Eagain {
        return;
      }
      var _ := TickCallback(adc);
    }
  }
}
