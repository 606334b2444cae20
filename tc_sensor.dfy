/** The temperature sensor of tinyg_tc.c (the `sensor` struct, sensor_* and
    _sensor_sample). The ADC is not modelled: each call receives the raw conversions the
    ADC would deliver next, in order, as a sequence. */
module TcSensor {
  import opened TcConfig

  datatype SensorState = SensorOff | SensorHasNoData | SensorHasData | SensorShutdown

  /** SensorNoCode is the zero that sensor_init's memset leaves in `code`. */
  datatype SensorCode =
    | SensorNoCode
    | SensorIsReading
    | SensorReadingComplete
    | SensorReadingFailedBadReadings
    | SensorReadingFailedDisconnected
    | SensorReadingFailedNoPower

  datatype SensorView = SensorView(
    state: SensorState,
    code: SensorCode,
    samplesPerReading: int,   // uint8_t
    samples: int,             // int8_t: samples taken, 0 starts a reading
    retries: int,             // uint8_t
    temperature: real,        // high-confidence reading
    previousTemp: real,       // last accepted sample, for the variance test
    accumulator: real,        // sum of the samples of the current reading
    variance: real,           // largest allowed change between samples
    disconnectTemperature: real,
    noPowerTemperature: real
  )

  predicate SensorValid(s: SensorView) {
    0 < s.samplesPerReading <= 255 && -128 <= s.samples <= 127 && 0 <= s.retries <= 255
  }

  /** The fields only sensor_init writes. */
  predicate SameSettings(s: SensorView, r: SensorView) {
    r.samplesPerReading == s.samplesPerReading && r.retries == s.retries &&
    r.variance == s.variance && r.disconnectTemperature == s.disconnectTemperature &&
    r.noPowerTemperature == s.noPowerTemperature
  }

  /** sensor_init */
  function SensorInit(k: Constants): (s: SensorView)
    requires k.Valid()
    ensures SensorValid(s) && s.state == SensorHasNoData && s.samples == 0
    ensures s.code == SensorNoCode && s.temperature == k.absoluteZero
    ensures s.samplesPerReading == k.samplesPerReading && s.retries == k.retries
    ensures s.variance == k.varianceRange
    ensures s.disconnectTemperature == k.disconnectedTemperature
    ensures s.noPowerTemperature == k.noPowerTemperature
    ensures s.previousTemp == 0.0 && s.accumulator == 0.0
  {
    SensorView(SensorHasNoData, SensorNoCode, k.samplesPerReading, 0, k.retries, k.absoluteZero,
               0.0, 0.0, k.varianceRange, k.disconnectedTemperature, k.noPowerTemperature)
  }

  /** sensor_get_temperature */
  function SensorTemperature(k: Constants, s: SensorView): (t: real)
    ensures s.state == SensorHasData ==> t == s.temperature
    ensures s.state != SensorHasData ==> t == k.surfaceOfTheSun
  {
    if s.state == SensorHasData then s.temperature else k.surfaceOfTheSun
  }

  /** The int8_t pre-increment of `samples`, which wraps from 127 to -128. */
  function Int8Increment(x: int): (r: int)
    requires -128 <= x <= 127
    ensures -128 <= r <= 127
    ensures (r - (x + 1)) % 256 == 0
  {
    if x == 127 then -128 else x + 1
  }

  // ---------------------------------------------------------------------------
  // Sampling with outlier rejection

  /** SAMPLE(a): the linear calibration of one raw ADC conversion. */
  function Calibrate(k: Constants, raw: int): real {
    raw as real * k.sensorSlope + k.sensorOffset
  }

  /** The variance test of _sensor_sample. */
  predicate Within(sample: real, prev: real, variance: real) {
    Abs(sample - prev) < variance
  }

  /** The position of the first of the first `checks` conversions that passes the variance
      test, or `checks` when none does. */
  function FirstWithin(k: Constants, adc: seq<int>, prev: real, variance: real, checks: nat): (j: nat)
    requires checks <= |adc|
    ensures j <= checks
    ensures forall i :: 0 <= i < j ==> !Within(Calibrate(k, adc[i]), prev, variance)
    ensures j < checks ==> Within(Calibrate(k, adc[j]), prev, variance)
    decreases checks
  {
    if checks == 0 || Within(Calibrate(k, adc[0]), prev, variance) then 0
    else 1 + FirstWithin(k, adc[1..], prev, variance, checks - 1)
  }

  /** The value _sensor_sample returns, the new `previous_temp`, and how many
      conversions it reads. */
  datatype Sampled = Sampled(value: real, previousTemp: real, used: nat)

  /** _sensor_sample: the first sample of a period is taken as it is; otherwise up to
      `retries` samples are tested against the previous accepted one, and when all of them
      fail HOTTER_THAN_THE_SUN is returned and `previous_temp` is kept. */
  function SampleOutcome(k: Constants, adc: seq<int>, prev: real, variance: real, retries: int,
                         newPeriod: bool): (r: Sampled)
    requires 0 <= retries < |adc|
    ensures 1 <= r.used <= retries + 1
    ensures newPeriod ==> r.value == Calibrate(k, adc[0]) && r.previousTemp == r.value && r.used == 1
    ensures !newPeriod && (forall j :: 0 <= j < retries ==> !Within(Calibrate(k, adc[j]), prev, variance)) ==>
              r == Sampled(k.hotterThanTheSun, prev, retries + 1)
    ensures !newPeriod && (exists j :: 0 <= j < retries && Within(Calibrate(k, adc[j]), prev, variance)) ==>
              r.used <= retries && r.value == Calibrate(k, adc[r.used - 1]) &&
              r.previousTemp == r.value && Within(r.value, prev, variance) &&
              forall j :: 0 <= j < r.used - 1 ==> !Within(Calibrate(k, adc[j]), prev, variance)
  {
    if newPeriod then
      Sampled(Calibrate(k, adc[0]), Calibrate(k, adc[0]), 1)
    else
      var j := FirstWithin(k, adc, prev, variance, retries);
      if j < retries then Sampled(Calibrate(k, adc[j]), Calibrate(k, adc[j]), j + 1)
      else Sampled(k.hotterThanTheSun, prev, retries + 1)
  }

  // ---------------------------------------------------------------------------
  // sensor_callback

  /** The code and state sensor_callback gives a completed reading. */
  function ReadingCode(k: Constants, t: real): (c: SensorCode)
    ensures c == SensorReadingFailedDisconnected <==> t > k.disconnectedTemperature
    ensures c == SensorReadingFailedNoPower <==> t <= k.disconnectedTemperature && t < k.noPowerTemperature
    ensures c == SensorReadingComplete <==> k.noPowerTemperature <= t <= k.disconnectedTemperature
  {
    if t > k.disconnectedTemperature then SensorReadingFailedDisconnected
    else if t < k.noPowerTemperature then SensorReadingFailedNoPower
    else SensorReadingComplete
  }

  function ReadingState(c: SensorCode): (st: SensorState)
    ensures st == SensorHasData <==> c == SensorReadingComplete
    ensures st == SensorHasData || st == SensorHasNoData
  {
    if c == SensorReadingComplete then SensorHasData else SensorHasNoData
  }

  /** The start of sensor_callback's work: a sample count of zero opens a new reading. */
  function BeginReading(s: SensorView): (r: SensorView)
    ensures s.samples == 0 ==> r == s.(accumulator := 0.0, code := SensorIsReading)
    ensures s.samples != 0 ==> r == s
  {
    if s.samples == 0 then s.(accumulator := 0.0, code := SensorIsReading) else s
  }

  /** The rest of sensor_callback once a sample is in: an out-of-range sample shuts the
      sensor down; otherwise it is accumulated, and the samples_per_reading-th sample
      completes the reading with the mean of the accumulated samples. */
  function AddSample(k: Constants, s: SensorView, value: real): (r: SensorView)
    requires SensorValid(s)
    ensures SensorValid(r) && SameSettings(s, r)
    ensures value > k.surfaceOfTheSun ==>
              r == s.(code := SensorReadingFailedBadReadings, state := SensorShutdown)
    ensures value <= k.surfaceOfTheSun ==>
              r.accumulator == s.accumulator + value && r.samples == Int8Increment(s.samples) &&
              r.previousTemp == s.previousTemp
    ensures value <= k.surfaceOfTheSun && r.samples < s.samplesPerReading ==>
              r == s.(accumulator := r.accumulator, samples := r.samples)
    ensures value <= k.surfaceOfTheSun && r.samples >= s.samplesPerReading ==>
              r.temperature == r.accumulator / r.samples as real &&
              r.code == ReadingCode(k, r.temperature) && r.state == ReadingState(r.code)
  {
    if value > k.surfaceOfTheSun then
      s.(code := SensorReadingFailedBadReadings, state := SensorShutdown)
    else
      var n := Int8Increment(s.samples);
      var s1 := s.(accumulator := s.accumulator + value, samples := n);
      if n < s1.samplesPerReading then s1
      else
        var t := s1.accumulator / n as real;
        var c := ReadingCode(k, t);
        s1.(temperature := t, code := c, state := ReadingState(c))
  }

  /** sensor_callback, given the conversions the ADC delivers during the call. */
  function SensorCallback(k: Constants, s: SensorView, adc: seq<int>): (r: SensorView)
    requires SensorValid(s) && |adc| > s.retries
    ensures SensorValid(r) && SameSettings(s, r)
    ensures s.state == SensorOff || s.state == SensorShutdown || s.code == SensorReadingComplete ==> r == s
    ensures r.state == SensorShutdown ==> s.state == SensorShutdown || r.code == SensorReadingFailedBadReadings
    ensures (s.state == SensorHasData ==> s.code == SensorReadingComplete) ==>
              (r.state == SensorHasData ==> r.code == SensorReadingComplete)
    ensures !(s.state == SensorOff || s.state == SensorShutdown || s.code == SensorReadingComplete) ==>
              var s1 := BeginReading(s);
              var sample := SampleOutcome(k, adc, s1.previousTemp, s1.variance, s1.retries, s.samples == 0);
              r == AddSample(k, s1.(previousTemp := sample.previousTemp), sample.value)
  {
    if s.state == SensorOff || s.state == SensorShutdown then s
    else if s.code == SensorReadingComplete then s
    else
      var s1 := BeginReading(s);
      var sample := SampleOutcome(k, adc, s1.previousTemp, s1.variance, s1.retries, s.samples == 0);
      AddSample(k, s1.(previousTemp := sample.previousTemp), sample.value)
  }

  /** A sample that fails every variance test shuts the sensor down with the bad-readings
      code and leaves the reading's accumulator and sample count as they were. */
  lemma BadReadingsShutDown(k: Constants, s: SensorView, adc: seq<int>)
    requires k.Valid() && SensorValid(s) && |adc| > s.retries
    requires s.state == SensorHasNoData || s.state == SensorHasData
    requires s.code != SensorReadingComplete && s.samples != 0
    requires forall j :: 0 <= j < s.retries ==> !Within(Calibrate(k, adc[j]), s.previousTemp, s.variance)
    ensures var r := SensorCallback(k, s, adc);
      r.state == SensorShutdown && r.code == SensorReadingFailedBadReadings &&
      r.accumulator == s.accumulator && r.samples == s.samples && r.previousTemp == s.previousTemp
  {
    var sample := SampleOutcome(k, adc, s.previousTemp, s.variance, s.retries, false);
    assert sample.value == k.hotterThanTheSun;
  }

  /** Successive calls of sensor_callback, one sequence of conversions per call. */
  function Callbacks(k: Constants, s: SensorView, adcs: seq<seq<int>>): (r: SensorView)
    requires SensorValid(s)
    requires forall i :: 0 <= i < |adcs| ==> |adcs[i]| > s.retries
    ensures SensorValid(r) && SameSettings(s, r)
    decreases |adcs|
  {
    if adcs == [] then s
    else
      var prev := Callbacks(k, s, adcs[..|adcs| - 1]);
      SensorCallback(k, prev, adcs[|adcs| - 1])
  }

  /** The calibrated first conversion of a call. */
  function Lead(k: Constants, adc: seq<int>): real
    requires |adc| > 0
  {
    Calibrate(k, adc[0])
  }

  /** The sum of the first conversions of successive calls. */
  function SumLeads(k: Constants, adcs: seq<seq<int>>): real
    requires forall i :: 0 <= i < |adcs| ==> |adcs[i]| > 0
    decreases |adcs|
  {
    if adcs == [] then 0.0 else SumLeads(k, adcs[..|adcs| - 1]) + Lead(k, adcs[|adcs| - 1])
  }

  /** What a reading started with samples == 0 looks like when every sample passes the
      variance test at its first try and none is out of range. */
  predicate SteadySamples(k: Constants, s: SensorView, adcs: seq<seq<int>>) {
    s.retries >= 0 &&
    (forall i :: 0 <= i < |adcs| ==> |adcs[i]| > s.retries) &&
    (forall i :: 0 < i < |adcs| ==> Within(Lead(k, adcs[i]), Lead(k, adcs[i - 1]), s.variance)) &&
    (forall i :: 0 <= i < |adcs| ==> Lead(k, adcs[i]) <= k.surfaceOfTheSun)
  }

  /** With samples_per_reading above 127 the int8_t sample count wraps to -128 before it
      reaches the target, so a reading never completes: the code never becomes COMPLETE,
      the temperature is never written, and a sensor without data never gets any. */
  lemma {:induction false} WideReadingNeverCompletes(k: Constants, s: SensorView, adcs: seq<seq<int>>)
    requires k.Valid() && SensorValid(s) && s.samplesPerReading >= 128
    requires s.code != SensorReadingComplete
    requires forall i :: 0 <= i < |adcs| ==> |adcs[i]| > s.retries
    ensures var r := Callbacks(k, s, adcs);
      r.code != SensorReadingComplete && r.temperature == s.temperature &&
      (s.state != SensorHasData ==> r.state != SensorHasData)
    decreases |adcs|
  {
    if adcs != [] {
      var init := adcs[..|adcs| - 1];
      assert forall i :: 0 <= i < |init| ==> init[i] == adcs[i];
      WideReadingNeverCompletes(k, s, init);
    }
  }

  /** While fewer than samples_per_reading samples are in, the reading is still in
      progress and accumulates exactly the samples taken. */
  lemma {:induction false} ReadingAccumulates(k: Constants, s: SensorView, adcs: seq<seq<int>>)
    requires k.Valid() && SensorValid(s) && s.samplesPerReading <= 127
    requires s.state == SensorHasNoData || s.state == SensorHasData
    requires s.code != SensorReadingComplete && s.samples == 0 && s.retries >= 1
    requires 0 < |adcs| < s.samplesPerReading && SteadySamples(k, s, adcs)
    ensures var r := Callbacks(k, s, adcs);
      r.state == s.state && r.code == SensorIsReading && r.samples == |adcs| &&
      r.accumulator == SumLeads(k, adcs) && r.previousTemp == Lead(k, adcs[|adcs| - 1])
    decreases |adcs|
  {
    var m := |adcs| - 1;
    var init := adcs[..m];
    SteadyPrefix(k, s, adcs);
    if m == 0 {
      assert Callbacks(k, s, init) == s;
      assert SumLeads(k, init) == 0.0;
      EarlySample(k, s, adcs[m], true);
    } else {
      ReadingAccumulates(k, s, init);
      assert init[m - 1] == adcs[m - 1];
      EarlySample(k, Callbacks(k, s, init), adcs[m], false);
    }
  }

  /** A call that brings in a sample before the last one of the reading: the sample is
      added to the accumulator and becomes the previous temperature. */
  lemma EarlySample(k: Constants, p: SensorView, adc: seq<int>, first: bool)
    requires k.Valid() && SensorValid(p) && p.samplesPerReading <= 127 && 1 <= p.retries < |adc|
    requires p.state == SensorHasNoData || p.state == SensorHasData
    requires p.code != SensorReadingComplete && 0 <= p.samples < p.samplesPerReading - 1
    requires first <==> p.samples == 0
    requires !first ==> p.code == SensorIsReading
    requires Lead(k, adc) <= k.surfaceOfTheSun
    requires !first ==> Within(Lead(k, adc), p.previousTemp, p.variance)
    ensures var r := SensorCallback(k, p, adc);
      r.state == p.state && r.code == SensorIsReading && r.samples == p.samples + 1 &&
      r.accumulator == (if first then 0.0 else p.accumulator) + Lead(k, adc) &&
      r.previousTemp == Lead(k, adc)
  {
    var p1 := BeginReading(p);
    var sample := SampleOutcome(k, adc, p1.previousTemp, p1.variance, p1.retries, first);
    assert sample.value == Lead(k, adc);
    assert Int8Increment(p.samples) == p.samples + 1;
  }

  /** After exactly samples_per_reading steady samples the reading completes: the
      temperature is their mean, classified as disconnected, no power or complete. */
  lemma ReadingCompletes(k: Constants, s: SensorView, adcs: seq<seq<int>>)
    requires k.Valid() && SensorValid(s) && s.samplesPerReading <= 127
    requires s.state == SensorHasNoData || s.state == SensorHasData
    requires s.code != SensorReadingComplete && s.samples == 0 && s.retries >= 1
    requires |adcs| == s.samplesPerReading && SteadySamples(k, s, adcs)
    ensures var r := Callbacks(k, s, adcs);
      r.samples == s.samplesPerReading &&
      r.temperature == SumLeads(k, adcs) / s.samplesPerReading as real &&
      r.code == ReadingCode(k, r.temperature) && r.state == ReadingState(r.code)
  {
    if |adcs| == 1 {
      SingleSampleReading(k, s, adcs);
    } else {
      LongerReading(k, s, adcs);
    }
  }

  /** A reading of one sample completes on its first call. */
  lemma SingleSampleReading(k: Constants, s: SensorView, adcs: seq<seq<int>>)
    requires k.Valid() && SensorValid(s) && s.samplesPerReading == 1
    requires s.state == SensorHasNoData || s.state == SensorHasData
    requires s.code != SensorReadingComplete && s.samples == 0 && s.retries >= 1
    requires |adcs| == 1 && SteadySamples(k, s, adcs)
    ensures var r := Callbacks(k, s, adcs);
      r.samples == 1 && r.temperature == SumLeads(k, adcs) / 1 as real &&
      r.code == ReadingCode(k, r.temperature) && r.state == ReadingState(r.code)
  {
    SteadyPrefix(k, s, adcs);
    assert Callbacks(k, s, adcs[..0]) == s && SumLeads(k, adcs[..0]) == 0.0;
    LastSampleCompletes(k, s, adcs[0], true);
  }

  /** A reading of two or more samples completes on its last call, with the mean of the
      first conversions. */
  lemma LongerReading(k: Constants, s: SensorView, adcs: seq<seq<int>>)
    requires k.Valid() && SensorValid(s) && s.samplesPerReading <= 127
    requires s.state == SensorHasNoData || s.state == SensorHasData
    requires s.code != SensorReadingComplete && s.samples == 0 && s.retries >= 1
    requires 1 < |adcs| == s.samplesPerReading && SteadySamples(k, s, adcs)
    ensures var r := Callbacks(k, s, adcs);
      r.samples == s.samplesPerReading &&
      r.temperature == SumLeads(k, adcs) / s.samplesPerReading as real &&
      r.code == ReadingCode(k, r.temperature) && r.state == ReadingState(r.code)
  {
    var m := |adcs| - 1;
    var prev := Callbacks(k, s, adcs[..m]);
    BeforeLastSample(k, s, adcs);
    LastSampleCompletes(k, prev, adcs[m], false);
  }

  /** The sensor just before the last call of a steady run of at least two calls: still
      reading, holding the sum of the earlier first conversions, and the last one lies
      within the variance of the one before. */
  lemma BeforeLastSample(k: Constants, s: SensorView, adcs: seq<seq<int>>)
    requires k.Valid() && SensorValid(s) && s.samplesPerReading <= 127
    requires s.state == SensorHasNoData || s.state == SensorHasData
    requires s.code != SensorReadingComplete && s.samples == 0 && s.retries >= 1
    requires 1 < |adcs| <= s.samplesPerReading && SteadySamples(k, s, adcs)
    ensures var m := |adcs| - 1;
      var prev := Callbacks(k, s, adcs[..m]);
      SensorValid(prev) && SameSettings(s, prev) && 1 <= prev.retries < |adcs[m]| &&
      (prev.state == SensorHasNoData || prev.state == SensorHasData) &&
      prev.code != SensorReadingComplete && prev.samples == m &&
      Within(Lead(k, adcs[m]), prev.previousTemp, prev.variance) &&
      prev.accumulator + Lead(k, adcs[m]) == SumLeads(k, adcs)
  {
    var m := |adcs| - 1;
    var init := adcs[..m];
    SteadyPrefix(k, s, adcs);
    ReadingAccumulates(k, s, init);
    assert init[m - 1] == adcs[m - 1];
  }

  /** A non-empty steady run splits into a steady run and a last call that is steady
      with respect to it. */
  lemma SteadyPrefix(k: Constants, s: SensorView, adcs: seq<seq<int>>)
    requires |adcs| > 0 && SteadySamples(k, s, adcs)
    ensures var m := |adcs| - 1;
      SteadySamples(k, s, adcs[..m]) && |adcs[m]| > s.retries && Lead(k, adcs[m]) <= k.surfaceOfTheSun &&
      adcs[..m] + [adcs[m]] == adcs &&
      SumLeads(k, adcs) == SumLeads(k, adcs[..m]) + Lead(k, adcs[m]) &&
      (m > 0 ==> Within(Lead(k, adcs[m]), Lead(k, adcs[m - 1]), s.variance))
  {
    var m := |adcs| - 1;
    assert forall i :: 0 <= i < m ==> adcs[..m][i] == adcs[i];
  }

  /** The call that brings in the samples_per_reading-th sample. */
  lemma LastSampleCompletes(k: Constants, p: SensorView, adc: seq<int>, first: bool)
    requires k.Valid() && SensorValid(p) && p.samplesPerReading <= 127 && 1 <= p.retries < |adc|
    requires p.state == SensorHasNoData || p.state == SensorHasData
    requires p.code != SensorReadingComplete && p.samples == p.samplesPerReading - 1
    requires first <==> p.samples == 0
    requires Lead(k, adc) <= k.surfaceOfTheSun
    requires !first ==> Within(Lead(k, adc), p.previousTemp, p.variance)
    ensures var r := SensorCallback(k, p, adc);
      r.samples == p.samplesPerReading &&
      r.temperature == ((if first then 0.0 else p.accumulator) + Lead(k, adc)) / p.samplesPerReading as real &&
      r.code == ReadingCode(k, r.temperature) && r.state == ReadingState(r.code)
  {
    var p1 := BeginReading(p);
    var sample := SampleOutcome(k, adc, p1.previousTemp, p1.variance, p1.retries, first);
    assert sample.value == Lead(k, adc);
    assert Int8Increment(p.samples) == p.samplesPerReading;
  }

  // ---------------------------------------------------------------------------
  // The sensor struct

  class Sensor {
    const k: Constants
    var state: SensorState
    var code: SensorCode
    var samplesPerReading: int
    var samples: int
    var retries: int
    var temperature: real
    var previousTemp: real
    var accumulator: real
    var variance: real
    var disconnectTemperature: real
    var noPowerTemperature: real

    ghost predicate Valid()
      reads this
    {
      k.Valid() && SensorValid(View())
    }

    function View(): SensorView
      reads this
    {
      SensorView(state, code, samplesPerReading, samples, retries, temperature, previousTemp,
                 accumulator, variance, disconnectTemperature, noPowerTemperature)
    }

    /** sensor_init */
    constructor (k: Constants)
      requires k.Valid()
      ensures Valid() && this.k == k && View() == SensorInit(k)
    {
      this.k := k;
      state, code := SensorHasNoData, SensorNoCode;
      samplesPerReading, samples, retries := k.samplesPerReading, 0, k.retries;
      temperature, previousTemp, accumulator := k.absoluteZero, 0.0, 0.0;
      variance := k.varianceRange;
      disconnectTemperature, noPowerTemperature := k.disconnectedTemperature, k.noPowerTemperature;
    }

    /** sensor_on: no action occurs. */
    method On()
      requires Valid()
      ensures Valid() && View() == old(View())
    {
    }

    /** sensor_off */
    method Off()
      requires Valid()
      modifies this
      ensures Valid() && View() == old(View()).(state := SensorOff)
    {
      state := SensorOff;
    }

    /** sensor_get_temperature */
    function GetTemperature(): (t: real)
      reads this
      ensures t == SensorTemperature(k, View())
    {
      if state == SensorHasData then temperature else k.surfaceOfTheSun
    }

    /** sensor_get_state */
    function GetState(): (s: SensorState)
      reads this
      ensures s == View().state
    {
      state
    }

    /** sensor_get_code */
    function GetCode(): (c: SensorCode)
      reads this
      ensures c == View().code
    {
      code
    }

    /** sensor_start_temperature_reading: only the sample count is cleared. */
    method StartTemperatureReading()
      requires Valid()
      modifies this
      ensures Valid() && View() == old(View()).(samples := 0)
    {
      samples := 0;
    }

    /** _sensor_sample: the retry loop re-reads the ADC after each failed variance test. */
    method Sample(adc: seq<int>, newPeriod: bool) returns (t: real, used: nat)
      requires Valid() && |adc| > retries
      modifies this
      ensures Valid() && View() == old(View()).(previousTemp := previousTemp)
      ensures Sampled(t, previousTemp, used) ==
              SampleOutcome(k, adc, old(previousTemp), variance, retries, newPeriod)
    {
      var sample := Calibrate(k, adc[0]);
      used := 1;
      if newPeriod {
        previousTemp := sample;
        return sample, used;
      }
      var i := retries;
      while i > 0
        invariant 0 <= i <= retries
        invariant used == retries - i + 1
        invariant sample == Calibrate(k, adc[used - 1])
        invariant previousTemp == old(previousTemp)
        invariant forall j :: 0 <= j < used - 1 ==> !Within(Calibrate(k, adc[j]), previousTemp, variance)
      {
        if Abs(sample - previousTemp) < variance {
          previousTemp := sample;
          return sample, used;
        }
        sample := Calibrate(k, adc[used]);
        used := used + 1;
        i := i - 1;
      }
      return k.hotterThanTheSun, used;
    }

    /** sensor_callback */
    method Callback(adc: seq<int>)
      requires Valid() && |adc| > retries
      modifies this
      ensures Valid() && View() == SensorCallback(k, old(View()), adc)
    {
      if state == SensorOff || state == SensorShutdown {
        return;
      }
      if code == SensorReadingComplete {
        return;
      }
      var newPeriod := false;
      if samples == 0 {
        accumulator := 0.0;
        code := SensorIsReading;
        newPeriod := true;
      }
      var t, _ := Sample(adc, newPeriod);
      Accumulate(t);
    }

    /** The part of sensor_callback after _sensor_sample has returned the sample t. */
    method Accumulate(t: real)
      requires Valid()
      modifies this
      ensures Valid() && View() == AddSample(k, old(View()), t)
    {
      if t > k.surfaceOfTheSun {
        code := SensorReadingFailedBadReadings;
        state := SensorShutdown;
        return;
      }
      accumulator := accumulator + t;
      samples := Int8Increment(samples);
      if samples < samplesPerReading {
        return;
      }
      temperature := accumulator / samples as real;
      if temperature > k.disconnectedTemperature {
        code := SensorReadingFailedDisconnected;
        state := SensorHasNoData;
      } else if temperature < k.noPowerTemperature {
        code := SensorReadingFailedNoPower;
        state := SensorHasNoData;
      } else {
        code := SensorReadingComplete;
        state := SensorHasData;
      }
    }
  }
}
