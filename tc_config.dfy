/** The compile-time constants of the temperature controller. Their header is not part of
    this model, so each constant is a field of `Constants`, and `Valid` states what the
    code relies on without checking it. */
module TcConfig {

  datatype Constants = Constants(
    samplesPerReading: int,        // SENSOR_SAMPLES_PER_READING (uint8_t)
    retries: int,                  // SENSOR_RETRIES (uint8_t)
    varianceRange: real,           // SENSOR_VARIANCE_RANGE
    disconnectedTemperature: real, // SENSOR_DISCONNECTED_TEMPERATURE
    noPowerTemperature: real,      // SENSOR_NO_POWER_TEMPERATURE
    absoluteZero: real,            // ABSOLUTE_ZERO
    surfaceOfTheSun: real,         // SURFACE_OF_THE_SUN
    hotterThanTheSun: real,        // HOTTER_THAN_THE_SUN
    sensorSlope: real,             // SENSOR_SLOPE
    sensorOffset: real,            // SENSOR_OFFSET
    pidDt: real,                   // PID_DT
    pidKp: real,                   // PID_Kp
    pidKi: real,                   // PID_Ki
    pidKd: real,                   // PID_Kd
    pidEpsilon: real,              // PID_EPSILON
    pidMaxOutput: real,            // PID_MAX_OUTPUT
    pidMinOutput: real,            // PID_MIN_OUTPUT
    ambientTimeout: real,          // HEATER_AMBIENT_TIMEOUT
    regulationTimeout: real,       // HEATER_REGULATION_TIMEOUT
    ambientTemperature: real,      // HEATER_AMBIENT_TEMPERATURE
    overheatTemperature: real,     // HEATER_OVERHEAT_TEMPERATURE
    heaterTickSeconds: real,       // HEATER_TICK_SECONDS
    pwmFrequency: real,            // PWM_FREQUENCY
    pwmClock: real,                // F_CPU / PWM_PRESCALE, timer 2 counts per second
    pwmMinRes: int,                // PWM_MIN_RES
    pwmMaxRes: int                 // PWM_MAX_RES
  )
  {
    /** The assumptions the code makes about its constants. */
    predicate Valid() {
      0 < samplesPerReading <= 255 && 0 <= retries <= 255 &&
      pidDt > 0.0 && pidMinOutput <= pidMaxOutput &&
      hotterThanTheSun > surfaceOfTheSun &&
      pwmClock > 0.0 && 0 <= pwmMinRes <= pwmMaxRes <= 255
    }
  }

  /** fabs */
  function Abs(x: real): (r: real)
    ensures r >= 0.0 && (r == x || r == -x)
  {
    if x < 0.0 then -x else x
  }

}
