/** The `device` struct of tinyg_tc.c: the tick flag and the 100 ms and 1 s down-counters
    of the regular interval timer, and the PWM state of timer 2 (the saved period
    `pwm_freq` and the OCR2A/OCR2B compare registers, modelled as plain integers). */
module TcDevice {
  import opened Status
  import opened TcConfig

  /** `device.pwm_freq`, timer counts per PWM period. Dividing by a zero frequency, as
      pwm_off does, gives IEEE +infinity, which is `Unbounded` here. */
  datatype Period = Counts(value: real) | Unbounded

  datatype PwmView = PwmView(pwmFreq: Period, ocr2a: int, ocr2b: int)
  datatype TickView = TickView(tickFlag: bool, tick100msCount: int, tick1secCount: int)

  /** Both compare registers are 8-bit. */
  predicate PwmValid(p: PwmView) {
    0 <= p.ocr2a <= 255 && 0 <= p.ocr2b <= 255
  }

  /** Both down-counters stay in 1..10. */
  predicate TickValid(t: TickView) {
    1 <= t.tick100msCount <= 10 && 1 <= t.tick1secCount <= 10
  }

  // ---------------------------------------------------------------------------
  // Conversions

  /** Conversion of a double to an integer: truncation toward zero. */
  function Trunc(x: real): (r: int)
    ensures x >= 0.0 ==> r as real <= x < r as real + 1.0
    ensures x < 0.0 ==> r as real - 1.0 < x <= r as real
  {
    if x >= 0.0 then x.Floor else -((-x).Floor)
  }

  /** The `(uint8_t)` cast of a double: truncation, reduced modulo 256 when out of range. */
  function ToU8(x: real): (r: int)
    ensures 0 <= r < 256
    ensures 0.0 <= x < 256.0 ==> r == x.Floor
  {
    Trunc(x) % 256
  }

  /** The `(uint8_t)` cast of `device.pwm_freq`; the infinite period is taken to 0. */
  function PeriodToU8(p: Period): (r: int)
    ensures 0 <= r < 256
    ensures p.Counts? && 0.0 <= p.value < 256.0 ==> r == p.value.Floor
  {
    match p
    case Counts(x) => ToU8(x)
    case Unbounded => 0
  }

  /** `F_CPU / PWM_PRESCALE / freq` */
  function PeriodOf(k: Constants, freq: real): (p: Period)
    ensures p.Unbounded? <==> freq == 0.0
    ensures freq != 0.0 ==> p == Counts(k.pwmClock / freq)
    ensures freq > 0.0 && k.pwmClock > 0.0 ==> p.value > 0.0
  {
    if freq == 0.0 then Unbounded else Counts(k.pwmClock / freq)
  }

  // ---------------------------------------------------------------------------
  // PWM compare values

  /** The OCR2A value pwm_set_freq loads for a period: the period clamped to
      [PWM_MIN_RES, PWM_MAX_RES] and truncated. */
  function FrequencyCompare(k: Constants, p: Period): (r: int)
    requires k.Valid()
    ensures k.pwmMinRes <= r <= k.pwmMaxRes
    ensures p.Counts? && k.pwmMinRes as real <= p.value < k.pwmMaxRes as real ==> r == p.value.Floor
    ensures p.Counts? && p.value < k.pwmMinRes as real ==> r == k.pwmMinRes
    ensures (p.Unbounded? || p.value >= k.pwmMaxRes as real) ==> r == k.pwmMaxRes
  {
    match p
    case Unbounded => k.pwmMaxRes
    case Counts(x) =>
      if x < k.pwmMinRes as real then k.pwmMinRes
      else if x >= k.pwmMaxRes as real then k.pwmMaxRes
      else ToU8(x)
  }

  /** The OCR2B value pwm_set_duty loads for a duty cycle in percent, given the current
      OCR2A (`top`). The output is inverted in software: 255 is fully off, 0 fully on. */
  function DutyCompare(top: int, duty: real): (r: int)
    requires 0 <= top <= 255
    ensures 0 <= r <= 255
    ensures duty <= 0.0 ==> r == 255
    ensures duty > 100.0 ==> r == 0
    ensures 0.0 < duty <= 100.0 ==>
              r <= top && r as real <= top as real * (1.0 - duty / 100.0) < r as real + 1.0
  {
    if duty <= 0.0 then 255
    else if duty > 100.0 then 0
    else
      var x := top as real * (1.0 - duty / 100.0);
      assert 0.0 <= x <= top as real by { ScaleBounds(top as real, 1.0 - duty / 100.0); }
      ToU8(x)
  }

  lemma ScaleBounds(a: real, f: real)
    requires a >= 0.0 && 0.0 <= f <= 1.0
    ensures 0.0 <= a * f <= a
  {
    assert a * f <= a * 1.0 by { assert a * (1.0 - f) >= 0.0; }
  }

  /** A larger duty cycle never yields a larger OCR2B value (the on-time never shrinks). */
  lemma DutyCompareNonIncreasing(top: int, d1: real, d2: real)
    requires 0 <= top <= 255 && d1 <= d2
    ensures DutyCompare(top, d2) <= DutyCompare(top, d1)
  {
    if 0.0 < d1 && d2 <= 100.0 {
      var f1, f2 := 1.0 - d1 / 100.0, 1.0 - d2 / 100.0;
      var x1, x2 := top as real * f1, top as real * f2;
      ScaleBounds(top as real, f1);
      ScaleBounds(top as real, f2);
      assert f1 - f2 >= 0.0;
      ScaleBounds(top as real, f1 - f2);
      assert x1 - x2 == top as real * (f1 - f2);
      assert DutyCompare(top, d1) == x1.Floor && DutyCompare(top, d2) == x2.Floor;
    }
  }

  // ---------------------------------------------------------------------------
  // PWM operations on the register view

  /** pwm_init: OCR2A, OCR2B and the saved period cleared. */
  function PwmInit(): (r: PwmView)
    ensures PwmValid(r) && r.pwmFreq == Counts(0.0)
    ensures r.ocr2a == 0 && r.ocr2b == 0
  {
    PwmView(Counts(0.0), 0, 0)
  }

  /** pwm_set_freq */
  function PwmSetFreq(k: Constants, p: PwmView, freq: real): (r: PwmView)
    requires k.Valid() && PwmValid(p)
    ensures PwmValid(r) && r.pwmFreq == PeriodOf(k, freq) && r.ocr2b == p.ocr2b
    ensures k.pwmMinRes <= r.ocr2a <= k.pwmMaxRes
    ensures r.ocr2a == FrequencyCompare(k, PeriodOf(k, freq))
  {
    var period := PeriodOf(k, freq);
    PwmView(period, FrequencyCompare(k, period), p.ocr2b)
  }

  /** pwm_set_duty: OCR2B from the duty cycle and the current OCR2A, then OCR2A reloaded
      from the saved (unclamped) period. */
  function PwmSetDuty(k: Constants, p: PwmView, duty: real): (r: PwmView)
    requires PwmValid(p)
    ensures PwmValid(r) && r.pwmFreq == p.pwmFreq
    ensures r.ocr2a == PeriodToU8(p.pwmFreq)
    ensures duty <= 0.0 ==> r.ocr2b == 255
    ensures duty > 100.0 ==> r.ocr2b == 0
    ensures r.ocr2b == DutyCompare(p.ocr2a, duty)
    ensures 0.0 < duty <= 100.0 ==>
              r.ocr2b <= p.ocr2a &&
              r.ocr2b as real <= p.ocr2a as real * (1.0 - duty / 100.0) < r.ocr2b as real + 1.0
  {
    PwmView(p.pwmFreq, PeriodToU8(p.pwmFreq), DutyCompare(p.ocr2a, duty))
  }

  /** pwm_on: pwm_init, then the frequency, then the duty cycle. */
  function PwmOn(k: Constants, freq: real, duty: real): (r: PwmView)
    requires k.Valid()
    ensures PwmValid(r) && r.pwmFreq == PeriodOf(k, freq)
    ensures r.ocr2a == PeriodToU8(PeriodOf(k, freq))
    ensures r.ocr2b == DutyCompare(FrequencyCompare(k, PeriodOf(k, freq)), duty)
    ensures duty <= 0.0 ==> r.ocr2b == 255
  {
    PwmSetDuty(k, PwmSetFreq(k, PwmInit(), freq), duty)
  }

  /** pwm_off = pwm_on(0, 0): the output is forced off. */
  function PwmOff(k: Constants): (r: PwmView)
    requires k.Valid()
    ensures PwmValid(r) && r.ocr2b == 255 && r.ocr2a == 0 && r.pwmFreq == Unbounded
  {
    PwmOn(k, 0.0, 0.0)
  }

  // ---------------------------------------------------------------------------
  // Tick cadence

  /** What one consumed tick does to the down-counters, and which handlers it runs. */
  datatype Cadence = Cadence(counters: TickView, ran100ms: bool, ran1sec: bool)

  /** The counter part of tick_callback, after the flag has been consumed. */
  function Countdown(t: TickView): (c: Cadence)
    requires TickValid(t)
    ensures TickValid(c.counters) && c.counters.tickFlag == t.tickFlag
    ensures c.ran100ms <==> t.tick100msCount == 1
    ensures c.ran1sec <==> t.tick100msCount == 1 && t.tick1secCount == 1
    ensures c.counters.tick100msCount == if c.ran100ms then 10 else t.tick100msCount - 1
    ensures c.counters.tick1secCount ==
              if c.ran1sec then 10 else if c.ran100ms then t.tick1secCount - 1 else t.tick1secCount
  {
    var c100 := t.tick100msCount - 1;
    if c100 != 0 then Cadence(t.(tick100msCount := c100), false, false)
    else
      var c1 := t.tick1secCount - 1;
      if c1 != 0 then Cadence(t.(tick100msCount := 10, tick1secCount := c1), true, false)
      else Cadence(t.(tick100msCount := 10, tick1secCount := 10), true, true)
  }

  /** The counters after n consumed ticks, with the number of 100 ms and 1 s handler runs. */
  datatype Tally = Tally(counters: TickView, runs100ms: nat, runs1sec: nat)

  function CountdownN(t: TickView, n: nat): (r: Tally)
    requires TickValid(t)
    ensures TickValid(r.counters)
    decreases n
  {
    if n == 0 then Tally(t, 0, 0)
    else
      var prev := CountdownN(t, n - 1);
      var c := Countdown(prev.counters);
      Tally(c.counters,
            prev.runs100ms + (if c.ran100ms then 1 else 0),
            prev.runs1sec + (if c.ran1sec then 1 else 0))
  }

  /** From tick_init's counters, n ticks run the 100 ms handler n/10 times and the 1 s
      handler n/100 times, that is once per ten 100 ms runs: the cadences stay phase-locked. */
  lemma {:induction false} CadenceFromReset(n: nat)
    ensures var r := CountdownN(TickView(false, 10, 10), n);
      r.counters.tick100msCount == 10 - n % 10 &&
      r.counters.tick1secCount == 10 - (n / 10) % 10 &&
      r.runs100ms == n / 10 && r.runs1sec == n / 100 &&
      r.runs1sec == r.runs100ms / 10
  {
    if n > 0 {
      CadenceFromReset(n - 1);
      DigitStep(n - 1);
    }
    DivTen(n);
  }

  lemma DigitStep(m: nat)
    ensures (m + 1) % 10 == if m % 10 == 9 then 0 else m % 10 + 1
    ensures (m + 1) / 10 == m / 10 + (if m % 10 == 9 then 1 else 0)
    ensures ((m + 1) / 10) % 10 ==
              if m % 10 != 9 then (m / 10) % 10 else if (m / 10) % 10 == 9 then 0 else (m / 10) % 10 + 1
    ensures (m + 1) / 100 == m / 100 + (if m % 10 == 9 && (m / 10) % 10 == 9 then 1 else 0)
  {
    var q, c := m / 10, m % 10;
    var a, b := q / 10, q % 10;
    DivTen(m);
    DivTen(m + 1);
    if c < 9 {
      SplitTen(m + 1, q, c + 1);
    } else {
      SplitTen(m + 1, q + 1, 0);
      if b < 9 {
        SplitTen(q + 1, a, b + 1);
      } else {
        SplitTen(q + 1, a + 1, 0);
      }
    }
  }

  /** The quotient and remainder by ten are determined by any decomposition n == 10q + r. */
  lemma SplitTen(n: nat, q: nat, r: nat)
    requires r < 10 && n == 10 * q + r
    ensures n / 10 == q && n % 10 == r
  {
  }

  lemma DivTen(n: nat)
    ensures n / 100 == (n / 10) / 10
  {
    var a, b, c := n / 100, (n / 10) % 10, n % 10;
    assert n == 100 * a + 10 * b + c;
  }

  // ---------------------------------------------------------------------------
  // The device struct

  class Device {
    const k: Constants
    var tickFlag: bool          // true = the timer interrupt fired
    var tick100msCount: int     // 100 ms down-counter
    var tick1secCount: int      // 1 s down-counter
    var pwmFreq: Period         // saved period, for stopping and starting PWM
    var ocr2a: int              // timer 2 TOP register: the PWM frequency
    var ocr2b: int              // timer 2 compare register: the duty cycle

    ghost predicate Valid()
      reads this
    {
      k.Valid() && TickValid(Tick()) && PwmValid(Pwm())
    }

    function Tick(): TickView
      reads this
    {
      TickView(tickFlag, tick100msCount, tick1secCount)
    }

    function Pwm(): PwmView
      reads this
    {
      PwmView(pwmFreq, ocr2a, ocr2b)
    }

    /** device_init: tick_init loads both counters with 10, pwm_init clears the PWM state. */
    constructor (k: Constants)
      requires k.Valid()
      ensures Valid() && this.k == k
      ensures Tick() == TickView(false, 10, 10) && Pwm() == PwmInit()
    {
      this.k := k;
      tickFlag := false;
      tick100msCount := 10;
      tick1secCount := 10;
      pwmFreq := Counts(0.0);
      ocr2a := 0;
      ocr2b := 0;
    }

    /** The timer 0 overflow interrupt: it only raises the tick flag. */
    method SetTickFlag()
      requires Valid()
      modifies this
      ensures Valid() && Tick() == old(Tick()).(tickFlag := true) && Pwm() == old(Pwm())
    {
      tickFlag := true;
    }

    /** pwm_init (the timer mode registers are not modelled) */
    method PwmInitialize()
      requires Valid()
      modifies this
      ensures Valid() && Pwm() == PwmInit() && Tick() == old(Tick())
    {
      ocr2a := 0;
      ocr2b := 0;
      pwmFreq := Counts(0.0);
    }

    /** pwm_set_freq */
    method SetFreq(freq: real) returns (st: Stat)
      requires Valid()
      modifies this
      ensures Valid() && st == Ok
      ensures Pwm() == PwmSetFreq(k, old(Pwm()), freq) && Tick() == old(Tick())
    {
      if freq == 0.0 {
        pwmFreq := Unbounded;
      } else {
        pwmFreq := Counts(k.pwmClock / freq);
      }
      match pwmFreq {
        case Unbounded =>
          ocr2a := k.pwmMaxRes;
        case Counts(x) =>
          if x < k.pwmMinRes as real {
            ocr2a := k.pwmMinRes;
          } else if x >= k.pwmMaxRes as real {
            ocr2a := k.pwmMaxRes;
          } else {
            ocr2a := ToU8(x);
          }
      }
      st := Ok;
    }

    /** pwm_set_duty */
    method SetDuty(duty: real) returns (st: Stat)
      requires Valid()
      modifies this
      ensures Valid() && st == Ok
      ensures Pwm() == PwmSetDuty(k, old(Pwm()), duty) && Tick() == old(Tick())
    {
      if duty <= 0.0 {
        ocr2b := 255;
      } else if duty > 100.0 {
        ocr2b := 0;
      } else {
        ocr2b := DutyCompare(ocr2a, duty);
      }
      ocr2a := PeriodToU8(pwmFreq);
      st := Ok;
    }

    /** pwm_on */
    method PwmOnWith(freq: real, duty: real)
      requires Valid()
      modifies this
      ensures Valid() && Pwm() == PwmOn(k, freq, duty) && Tick() == old(Tick())
    {
      PwmInitialize();
      var _ := SetFreq(freq);
      var _ := SetDuty(duty);
    }

    /** pwm_off */
    method PwmStop()
      requires Valid()
      modifies this
      ensures Valid() && Pwm() == PwmOff(k) && Tick() == old(Tick())
    {
      PwmOnWith(0.0, 0.0);
    }
  }
}
