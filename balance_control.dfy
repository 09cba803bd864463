/** The balance controller: one PID step on the pitch angle, the motor
    dead-zone snap, the pitch-sample plausibility filter and the control
    step that drives both motors with one signed command.  Floats are
    modelled as exact reals. */
module Balance {
  import Tb6612

  /** Integral separation: the integral only accumulates below this error. */
  const IntegralSeparation: real := 5.0

  /** A pitch sample further than this from the last accepted one is rejected. */
  const PlausibilityWindow: real := 5.0

  /** MIN_START_PWM: the smallest non-zero command that moves the motors. */
  const MinStartPwm: real := 30.0

  /** GPIO_PIN_14, the MPU6050 data-ready interrupt line. */
  const SensorPin: int := 0x4000

  /** The range of int16_t: the cast of a float outside it is undefined. */
  const Int16Min: int := -0x8000
  const Int16Max: int := 0x7FFF

  function Abs(x: real): (r: real)
    ensures 0.0 <= r && (r == x || r == -x)
  {
    if x < 0.0 then -x else x
  }

  function IntAbs(x: int): (r: int)
    ensures 0 <= r && (r == x || r == -x)
  {
    if x < 0 then -x else x
  }

  /** The source's two-sided clamp: first against the upper limit, then
      against the lower one (so the lower limit wins if they cross). */
  function Clamp(x: real, lo: real, hi: real): (r: real)
    ensures r == lo || (lo <= r <= hi)
    ensures lo <= hi ==> lo <= r <= hi
    ensures lo <= x <= hi ==> r == x
    ensures x > hi && hi >= lo ==> r == hi
    ensures x < lo ==> r == lo
  {
    var y := if x > hi then hi else x;
    if y < lo then lo else y
  }

  /** PID_HandleTypeDef, field for field. */
  datatype PidRecord = PidRecord(
    kp: real, ki: real, kd: real,
    target: real,
    error: real, lastErr: real,
    integral: real,
    output: real,
    maxOut: real, minOut: real,
    ts: real,
    lastCurrent: real,
    diffFiltered: real,
    alpha: real,
    deadband: real)

  /** The error after the deadband: a small error counts as none. */
  function DeadbandError(p: PidRecord, current: real): (e: real)
    ensures Abs(p.target - current) < p.deadband ==> e == 0.0
    ensures Abs(p.target - current) >= p.deadband ==> e == p.target - current
  {
    var e0 := p.target - current;
    if Abs(e0) < p.deadband then 0.0 else e0
  }

  /** The integral bounds tied to the output limits. */
  function IntegralMax(p: PidRecord): real
    requires p.ki != 0.0
  {
    p.maxOut / p.ki
  }

  function IntegralMin(p: PidRecord): real
    requires p.ki != 0.0
  {
    p.minOut / p.ki
  }

  /** The previous output sits strictly inside the limits, so the integral
      may accumulate (anti-windup keys on the previous call's output). */
  predicate Unsaturated(p: PidRecord) {
    p.minOut < p.output < p.maxOut
  }

  /** The unclamped controller output: proportional, integral and filtered
      derivative terms. */
  function PidSum(kp: real, e: real, ki: real, i: real, kd: real, df: real): real {
    kp * e + ki * i + kd * df
  }

  /** The integral after separation, the anti-windup freeze and the clamp,
      for the error `e` of this call. */
  function NextIntegral(p: PidRecord, e: real): (i: real)
    requires p.ki != 0.0
    ensures Abs(e) >= IntegralSeparation ==> i == 0.0
    ensures Abs(e) < IntegralSeparation && !Unsaturated(p) ==> i == p.integral
    ensures Abs(e) < IntegralSeparation && Unsaturated(p) && IntegralMin(p) <= IntegralMax(p) ==>
              IntegralMin(p) <= i <= IntegralMax(p)
  {
    if Abs(e) < IntegralSeparation then
      if Unsaturated(p) then Clamp(p.integral + e * p.ts, IntegralMin(p), IntegralMax(p))
      else p.integral
    else 0.0
  }

  /** The low-pass filtered derivative, taken on the measurement and negated
      (so that it is the error's derivative for a fixed target). */
  function FilteredDiff(p: PidRecord, current: real): (d: real)
    requires p.ts != 0.0
    ensures current == p.lastCurrent ==> d == p.alpha * p.diffFiltered
  {
    p.alpha * p.diffFiltered + (1.0 - p.alpha) * RawDiff(p, current)
  }

  /** The unfiltered derivative term: the measurement's rate of change, negated. */
  function RawDiff(p: PidRecord, current: real): real
    requires p.ts != 0.0
  {
    -((current - p.lastCurrent) / p.ts)
  }

  /** A low-pass filter: with a weight in [0, 1], the filtered derivative
      lies between the previous filtered value and the raw derivative. */
  lemma FilterBetween(p: PidRecord, current: real)
    requires p.ts != 0.0 && 0.0 <= p.alpha <= 1.0
    ensures var raw := RawDiff(p, current);
            && (p.diffFiltered <= raw ==> p.diffFiltered <= FilteredDiff(p, current) <= raw)
            && (raw <= p.diffFiltered ==> raw <= FilteredDiff(p, current) <= p.diffFiltered)
  {
    var a, x, y := p.alpha, p.diffFiltered, RawDiff(p, current);
    assert FilteredDiff(p, current) - x == (1.0 - a) * (y - x);
    assert FilteredDiff(p, current) - y == a * (x - y);
    if x <= y {
      MulNonNegative(1.0 - a, y - x);
      MulNonNegative(a, y - x);
    } else {
      MulNonNegative(1.0 - a, x - y);
      MulNonNegative(a, x - y);
    }
  }

  lemma MulNonNegative(a: real, b: real)
    requires 0.0 <= a && 0.0 <= b
    ensures 0.0 <= a * b
  {
  }

  // The numbered steps of PID_Calculate, each on the record left by the one before.

  function ErrorPhase(p: PidRecord, current: real): PidRecord {
    p.(error := DeadbandError(p, current))
  }

  function IntegralPhase(p: PidRecord): PidRecord
    requires p.ki != 0.0
  {
    p.(integral := NextIntegral(p, p.error))
  }

  function DerivativePhase(p: PidRecord, current: real): PidRecord
    requires p.ts != 0.0
  {
    p.(diffFiltered := FilteredDiff(p, current))
  }

  function OutputPhase(p: PidRecord): PidRecord {
    p.(output := Clamp(PidSum(p.kp, p.error, p.ki, p.integral, p.kd, p.diffFiltered), p.minOut, p.maxOut))
  }

  function HistoryPhase(p: PidRecord, current: real): PidRecord {
    p.(lastErr := p.error, lastCurrent := current)
  }

  /** PID_Calculate as a function of the record before the call. */
  function PidStep(p: PidRecord, current: real): (q: PidRecord)
    requires p.ki != 0.0 && p.ts != 0.0
    // the error after the deadband
    ensures Abs(p.target - current) < p.deadband ==> q.error == 0.0
    ensures Abs(p.target - current) >= p.deadband ==> q.error == p.target - current
    // integral separation and the anti-windup freeze
    ensures Abs(q.error) >= IntegralSeparation ==> q.integral == 0.0
    ensures Abs(q.error) < IntegralSeparation && !Unsaturated(p) ==> q.integral == p.integral
    ensures Abs(q.error) < IntegralSeparation && Unsaturated(p) ==>
              q.integral == Clamp(p.integral + q.error * p.ts, IntegralMin(p), IntegralMax(p))
    // the filtered derivative of the measurement
    ensures q.diffFiltered == p.alpha * p.diffFiltered + (1.0 - p.alpha) * (-((current - p.lastCurrent) / p.ts))
    // the clamped output
    ensures q.output == Clamp(PidSum(p.kp, q.error, p.ki, q.integral, p.kd, q.diffFiltered), p.minOut, p.maxOut)
    ensures q.output == p.minOut || p.minOut <= q.output <= p.maxOut
    ensures p.minOut <= p.maxOut ==> p.minOut <= q.output <= p.maxOut
    // history
    ensures q.lastErr == q.error && q.lastCurrent == current
    // gains, target, limits, sample time, filter constant and deadband are kept
    ensures q.(error := p.error, lastErr := p.lastErr, integral := p.integral, output := p.output,
               lastCurrent := p.lastCurrent, diffFiltered := p.diffFiltered) == p
  {
    var e := DeadbandError(p, current);
    var i := NextIntegral(p, e);
    var df := FilteredDiff(p, current);
    var out := Clamp(PidSum(p.kp, e, p.ki, i, p.kd, df), p.minOut, p.maxOut);
    p.(error := e, lastErr := e, integral := i, output := out, lastCurrent := current, diffFiltered := df)
  }

  /** The step is the composition of its numbered parts. */
  lemma PidStepByPhases(p: PidRecord, current: real)
    requires p.ki != 0.0 && p.ts != 0.0
    ensures PidStep(p, current)
         == HistoryPhase(OutputPhase(DerivativePhase(IntegralPhase(ErrorPhase(p, current)), current)), current)
  {
    var e := DeadbandError(p, current);
    var r1 := ErrorPhase(p, current);
    assert r1 == p.(error := e);
    var i := NextIntegral(p, e);
    var r2 := IntegralPhase(r1);
    assert NextIntegral(r1, r1.error) == i;
    assert r2 == p.(error := e, integral := i);
    var df := FilteredDiff(p, current);
    var r3 := DerivativePhase(r2, current);
    assert FilteredDiff(r2, current) == df;
    assert r3 == p.(error := e, integral := i, diffFiltered := df);
    var r4 := OutputPhase(r3);
    assert PidSum(r3.kp, r3.error, r3.ki, r3.integral, r3.kd, r3.diffFiltered) == PidSum(p.kp, e, p.ki, i, p.kd, df);
  }

  /** Division by a positive constant keeps the order. */
  lemma DivKeepsOrder(a: real, b: real, k: real)
    requires 0.0 < k && a <= b
    ensures a / k <= b / k
  {
    assert (b / k - a / k) * k == b - a;
  }

  /** The controller's standing configuration: what PID_Init establishes and
      every PID step keeps. */
  ghost predicate Configured(p: PidRecord) {
    && 0.0 < p.ki && p.ts != 0.0
    && p.minOut <= 0.0 <= p.maxOut
  }

  /** The integral lies within the limits tied to the output limits. */
  ghost predicate IntegralBounded(p: PidRecord)
    requires p.ki != 0.0
  {
    IntegralMin(p) <= p.integral <= IntegralMax(p)
  }

  /** One step keeps the integral within its bounds. */
  lemma StepKeepsIntegralBounded(p: PidRecord, current: real)
    requires Configured(p) && IntegralBounded(p)
    ensures Configured(PidStep(p, current)) && IntegralBounded(PidStep(p, current))
  {
    DivKeepsOrder(p.minOut, 0.0, p.ki);
    DivKeepsOrder(0.0, p.maxOut, p.ki);
    assert 0.0 / p.ki == 0.0;
  }

  /** The controller fed a sequence of measurements, one call each. */
  function PidRun(p: PidRecord, samples: seq<real>): PidRecord
    requires Configured(p)
    decreases |samples|
  {
    if samples == [] then p
    else
      var q := PidStep(p, samples[0]);
      assert q.ki == p.ki && q.ts == p.ts && q.minOut == p.minOut && q.maxOut == p.maxOut;
      PidRun(q, samples[1..])
  }

  /** Anti-windup over any number of calls: starting from a bounded integral,
      the integral stays within [min_out/ki, max_out/ki] and the output within
      [min_out, max_out], with the configuration unchanged. */
  lemma {:induction false} RunStaysBounded(p: PidRecord, samples: seq<real>)
    requires Configured(p) && IntegralBounded(p) && p.minOut <= p.output <= p.maxOut
    ensures var r := PidRun(p, samples);
            && Configured(r) && IntegralBounded(r) && r.minOut <= r.output <= r.maxOut
            && r.ki == p.ki && r.kp == p.kp && r.kd == p.kd && r.target == p.target
            && r.minOut == p.minOut && r.maxOut == p.maxOut && r.ts == p.ts
    decreases |samples|
  {
    if samples != [] {
      StepKeepsIntegralBounded(p, samples[0]);
      RunStaysBounded(PidStep(p, samples[0]), samples[1..]);
    }
  }

  /** While the output is saturated and the error is not large, the integral
      does not move on this call (the freeze keys on the previous output;
      the step's new output may leave saturation). */
  lemma SaturatedStepFreezes(p: PidRecord, current: real)
    requires p.ki != 0.0 && p.ts != 0.0
    requires p.output == p.maxOut || p.output == p.minOut
    requires Abs(DeadbandError(p, current)) < IntegralSeparation
    ensures PidStep(p, current).integral == p.integral
  {
  }

  /** A record at rest: measurement on target within the deadband, no motion
      since the last sample, no filtered derivative and a bounded integral.
      One step from it reaches a record the next identical sample leaves
      unchanged. */
  lemma {:induction false} RestIsFixedPoint(p: PidRecord, current: real)
    requires Configured(p) && IntegralBounded(p)
    requires Abs(p.target - current) < p.deadband
    requires p.lastCurrent == current && p.diffFiltered == 0.0
    ensures var q := PidStep(p, current);
            && q.error == 0.0 && q.integral == p.integral && q.diffFiltered == 0.0
            && q.output == Clamp(p.ki * p.integral, p.minOut, p.maxOut)
            && PidStep(q, current) == q
  {
    var q := PidStep(p, current);
    assert (current - p.lastCurrent) / p.ts == 0.0;
    assert q.integral == p.integral;
    assert q.diffFiltered == 0.0;
    assert (current - q.lastCurrent) / q.ts == 0.0;
  }

  /** The record PID_Init leaves; `output` is not touched by PID_Init. */
  function InitialRecord(output: real): (p: PidRecord)
    ensures Configured(p) && IntegralBounded(p)
    ensures p.output == output && p.minOut == -p.maxOut
  {
    PidRecord(
      kp := 8.0, ki := 0.03, kd := 0.3,
      target := 10.0,
      error := 0.0, lastErr := 0.0,
      integral := 0.0,
      output := output,
      maxOut := 80.0, minOut := -80.0,
      ts := 0.01,
      lastCurrent := 0.0,
      diffFiltered := 0.0,
      alpha := 0.7,
      deadband := 0.5)
  }

  /** From power-on (output zero), a first sample on target still produces
      a full negative output: last_current starts at 0, so the derivative
      sees a jump of ten degrees in one sample.  A second sample at 9
      degrees then gives -46. */
  lemma StartupSamples()
    ensures PidStep(InitialRecord(0.0), 10.0).output == -80.0
    ensures PidStep(PidStep(InitialRecord(0.0), 10.0), 9.0).output == -46.0
  {
    var p0 := InitialRecord(0.0);
    var p1 := PidStep(p0, 10.0);
    assert p1.error == 0.0;
    assert p1.integral == 0.0;
    assert p1.diffFiltered == -300.0;
    var p2 := PidStep(p1, 9.0);
    assert p2.error == 1.0;
    assert p2.integral == 0.0;
    assert p2.diffFiltered == -180.0;
  }

  /** Motor_Start_Threshold: a non-zero command below MIN_START_PWM in
      magnitude is raised to it, keeping its sign. */
  function MotorStartThreshold(pwm: real): (r: real)
    ensures pwm == 0.0 ==> r == 0.0
    ensures 0.0 < Abs(pwm) < MinStartPwm ==> Abs(r) == MinStartPwm
    ensures Abs(pwm) >= MinStartPwm ==> r == pwm
    ensures (r > 0.0 <==> pwm > 0.0) && (r < 0.0 <==> pwm < 0.0)
    ensures r == 0.0 || Abs(r) >= MinStartPwm
  {
    if Abs(pwm) > 0.0 && Abs(pwm) < MinStartPwm then
      (if pwm > 0.0 then MinStartPwm else -MinStartPwm)
    else pwm
  }

  /** Snapping twice is snapping once. */
  lemma {:induction false} ThresholdIdempotent(pwm: real)
    ensures MotorStartThreshold(MotorStartThreshold(pwm)) == MotorStartThreshold(pwm)
  {
    var r := MotorStartThreshold(pwm);
    assert r == 0.0 || Abs(r) >= MinStartPwm;
  }

  /** The C cast of a float to an integer type: truncation toward zero. */
  function Trunc(x: real): (n: int)
    ensures 0.0 <= x ==> 0 <= n && n as real <= x < n as real + 1.0
    ensures x < 0.0 ==> n <= 0 && n as real - 1.0 < x <= n as real
  {
    if x >= 0.0 then x.Floor else -((-x).Floor)
  }

  /** The signed motor command Balance_Control derives from a PID output:
      the dead-zone snap, then the int16_t cast. */
  function MotorCommand(output: real): (c: int)
    ensures c == 0 <==> output == 0.0
    ensures (c > 0 <==> output > 0.0) && (c < 0 <==> output < 0.0)
    ensures c != 0 ==> MinStartPwm as int <= IntAbs(c)
    ensures Int16Min as real < output <= Int16Max as real ==> Int16Min < c <= Int16Max
  {
    var r := MotorStartThreshold(output);
    assert r == 0.0 || Abs(r) >= MinStartPwm;
    Trunc(r)
  }

  /** The controller's PID record as the global `balance_pid`. */
  class Pid {
    var kp: real
    var ki: real
    var kd: real
    var target: real
    var error: real
    var lastErr: real
    var integral: real
    var output: real
    var maxOut: real
    var minOut: real
    var ts: real
    var lastCurrent: real
    var diffFiltered: real
    var alpha: real
    var deadband: real

    function Record(): PidRecord
      reads this
    {
      PidRecord(kp, ki, kd, target, error, lastErr, integral, output, maxOut, minOut,
                ts, lastCurrent, diffFiltered, alpha, deadband)
    }

    /** A global struct starts zero-filled. */
    constructor ()
      ensures Record() == PidRecord(0.0, 0.0, 0.0, 0.0, 0.0, 0.0, 0.0, 0.0, 0.0, 0.0, 0.0, 0.0, 0.0, 0.0, 0.0)
    {
      kp, ki, kd, target := 0.0, 0.0, 0.0, 0.0;
      error, lastErr, integral, output := 0.0, 0.0, 0.0, 0.0;
      maxOut, minOut, ts := 0.0, 0.0, 0.0;
      lastCurrent, diffFiltered, alpha, deadband := 0.0, 0.0, 0.0, 0.0;
    }

    /** PID_Init */
    method Init()
      modifies this
      ensures Record() == InitialRecord(old(output))
    {
      InitGains();
      InitLimits();
      InitHistory();
    }

    /** The gains and the target angle of PID_Init. */
    method InitGains()
      modifies this
      ensures Record() == old(Record()).(kp := 8.0, ki := 0.03, kd := 0.3, target := 10.0)
    {
      kp := 8.0;
      ki := 0.03;
      kd := 0.3;
      target := 10.0;
    }

    /** The output limits, the period and the filter settings of PID_Init. */
    method InitLimits()
      modifies this
      ensures Record() == old(Record()).(maxOut := 80.0, minOut := -80.0, ts := 0.01,
                                         alpha := 0.7, deadband := 0.5)
    {
      maxOut := 80.0;
      minOut := -80.0;
      ts := 0.01;
      alpha := 0.7;
      deadband := 0.5;
    }

    /** The cleared error history of PID_Init. */
    method InitHistory()
      modifies this
      ensures Record() == old(Record()).(error := 0.0, lastErr := 0.0, integral := 0.0,
                                         lastCurrent := 0.0, diffFiltered := 0.0)
    {
      error := 0.0;
      lastErr := 0.0;
      integral := 0.0;
      lastCurrent := 0.0;
      diffFiltered := 0.0;
    }

    /** PID_Calculate: updates the record in place, step by step, and
        returns the new output. */
    method Calculate(current: real) returns (out: real)
      requires ki != 0.0 && ts != 0.0
      modifies this
      ensures Record() == PidStep(old(Record()), current)
      ensures out == output
    {
      PidStepByPhases(Record(), current);
      ApplyDeadband(current);
      UpdateIntegral();
      UpdateDerivative(current);
      UpdateOutput();
      lastErr := error;
      lastCurrent := current;
      out := output;
    }

    /** Step 1: the error, with the deadband. */
    method ApplyDeadband(current: real)
      modifies this
      ensures Record() == ErrorPhase(old(Record()), current)
    {
      error := target - current;
      if Abs(error) < deadband {
        error := 0.0;
      }
    }

    /** Step 2: integral separation, the anti-windup freeze and the clamp. */
    method UpdateIntegral()
      requires ki != 0.0
      modifies this
      ensures Record() == IntegralPhase(old(Record()))
    {
      if Abs(error) < IntegralSeparation {
        if output < maxOut && output > minOut {
          integral := integral + error * ts;
          var maxIntegral := maxOut / ki;
          var minIntegral := minOut / ki;
          if integral > maxIntegral {
            integral := maxIntegral;
          }
          if integral < minIntegral {
            integral := minIntegral;
          }
        }
      } else {
        integral := 0.0;
      }
    }

    /** Step 3: the filtered derivative of the measurement. */
    method UpdateDerivative(current: real)
      requires ts != 0.0
      modifies this
      ensures Record() == DerivativePhase(old(Record()), current)
    {
      var currentDiff := (current - lastCurrent) / ts;
      diffFiltered := alpha * diffFiltered + (1.0 - alpha) * (-currentDiff);
    }

    /** Steps 4 and 5: the output and its clamp. */
    method UpdateOutput()
      modifies this
      ensures Record() == OutputPhase(old(Record()))
    {
      var sum := kp * error + ki * integral + kd * diffFiltered;
      assert sum == PidSum(kp, error, ki, integral, kd, diffFiltered);
      output := sum;
      if output > maxOut {
        output := maxOut;
      }
      if output < minOut {
        output := minOut;
      }
      assert output == Clamp(sum, minOut, maxOut);
    }
  }

  /** Whether the sample filter accepts a sensor read: the read succeeded
      and the pitch is within the plausibility window of the last accepted one. */
  predicate Accepts(status: int, pitch: real, lastValid: real): (b: bool)
    ensures b <==> status == 0 && lastValid - PlausibilityWindow < pitch < lastValid + PlausibilityWindow
  {
    status == 0 && Abs(pitch - lastValid) < PlausibilityWindow
  }

  /** The globals of the balance controller: `balance_pid`, `current_pitch`,
      `data_ready`, the callback's static `last_valid_pitch`, and the motor
      driver. */
  class BalanceLoop {
    var pid: Pid
    var motors: Tb6612.Driver
    var currentPitch: real
    var dataReady: bool
    var lastValidPitch: real

    ghost predicate Valid()
      reads this, motors
    {
      motors.Valid()
    }

    constructor ()
      ensures Valid() && fresh(pid) && fresh(motors)
      ensures currentPitch == 0.0 && !dataReady && lastValidPitch == 0.0
      ensures pid.output == 0.0
    {
      pid := new Pid();
      motors := new Tb6612.Driver();
      currentPitch := 0.0;
      dataReady := false;
      lastValidPitch := 0.0;
    }

    /** Balance_Init without the sensor initialisation retry and the delays:
        the motor driver, then the PID record. */
    method BalanceInit()
      requires Valid()
      modifies motors, pid
      ensures Valid()
      ensures pid.Record() == InitialRecord(old(pid.output))
      ensures motors.speedA == 0 && motors.speedB == 0
      ensures motors.PinsA() == Tb6612.PinsOf(Tb6612.Stop) && motors.PinsB() == Tb6612.PinsOf(Tb6612.Stop)
    {
      motors.Init();
      pid.Init();
    }

    /** HAL_GPIO_EXTI_Callback with the sensor read given as its result
        (status, pitch).  The read writes the pitch straight into
        `current_pitch`, so a rejected sample still replaces it; only
        `last_valid_pitch` and `data_ready` are withheld. */
    method SampleInterrupt(gpioPin: int, status: int, pitch: real)
      modifies this
      ensures gpioPin != SensorPin ==>
                currentPitch == old(currentPitch) && dataReady == old(dataReady) && lastValidPitch == old(lastValidPitch)
      ensures gpioPin == SensorPin ==> currentPitch == pitch
      ensures gpioPin == SensorPin && Accepts(status, pitch, old(lastValidPitch)) ==>
                lastValidPitch == pitch && dataReady
      ensures gpioPin == SensorPin && !Accepts(status, pitch, old(lastValidPitch)) ==>
                lastValidPitch == old(lastValidPitch) && dataReady == old(dataReady)
      ensures pid == old(pid) && motors == old(motors)
    {
      if gpioPin == SensorPin {
        currentPitch := pitch;
        if status == 0 {
          if Abs(currentPitch - lastValidPitch) < PlausibilityWindow {
            lastValidPitch := currentPitch;
            dataReady := true;
          }
        }
      }
    }

    /** The sample filter its own comment describes: a rejected read falls
        back on the last valid pitch instead of replacing it, so the pitch
        the controller sees is always the last accepted one. */
    method FilteredSampleInterrupt(gpioPin: int, status: int, pitch: real)
      modifies this
      ensures gpioPin != SensorPin ==>
                currentPitch == old(currentPitch) && dataReady == old(dataReady) && lastValidPitch == old(lastValidPitch)
      ensures gpioPin == SensorPin ==> currentPitch == lastValidPitch
      ensures gpioPin == SensorPin && Accepts(status, pitch, old(lastValidPitch)) ==>
                lastValidPitch == pitch && dataReady
      ensures gpioPin == SensorPin && !Accepts(status, pitch, old(lastValidPitch)) ==>
                lastValidPitch == old(lastValidPitch) && dataReady == old(dataReady)
      ensures pid == old(pid) && motors == old(motors)
    {
      if gpioPin == SensorPin {
        if Accepts(status, pitch, lastValidPitch) {
          lastValidPitch := pitch;
          dataReady := true;
        }
        currentPitch := lastValidPitch;
      }
    }

    /** Balance_Control: on a fresh sample, clear the flag, run the PID step
        on the current pitch and drive both motors with the same signed
        command; a zero command hard-stops both. */
    method Control()
      requires Valid()
      requires pid.ki != 0.0 && pid.ts != 0.0
      requires Int16Min as real < pid.minOut <= Int16Max as real
      requires Int16Min as real < pid.maxOut <= Int16Max as real
      modifies this, pid, motors
      ensures Valid() && pid == old(pid) && motors == old(motors)
      ensures currentPitch == old(currentPitch) && lastValidPitch == old(lastValidPitch)
      ensures !old(dataReady) ==>
                && !dataReady && pid.Record() == old(pid.Record())
                && motors.State() == old(motors.State())
                && motors.PinsA() == old(motors.PinsA()) && motors.PinsB() == old(motors.PinsB())
      ensures old(dataReady) ==>
                && !dataReady
                && pid.Record() == PidStep(old(pid.Record()), currentPitch)
      ensures old(dataReady) ==>
                var c := MotorCommand(pid.output);
                && (c > 0 ==>
                      && motors.State() == Tb6612.Store(Tb6612.Store(old(motors.State()), Tb6612.MotorA, c), Tb6612.MotorB, c)
                      && motors.PinsA() == Tb6612.PinsOf(Tb6612.Forward) && motors.PinsB() == Tb6612.PinsOf(Tb6612.Forward))
                && (c < 0 ==>
                      && motors.State() == Tb6612.Store(Tb6612.Store(old(motors.State()), Tb6612.MotorA, -c), Tb6612.MotorB, -c)
                      && motors.PinsA() == Tb6612.PinsOf(Tb6612.Backward) && motors.PinsB() == Tb6612.PinsOf(Tb6612.Backward))
                && (c == 0 ==>
                      && motors.State() == Tb6612.Store(Tb6612.Store(old(motors.State()), Tb6612.MotorA, 0), Tb6612.MotorB, 0)
                      && motors.PinsA() == Tb6612.PinsOf(Tb6612.Stop) && motors.PinsB() == Tb6612.PinsOf(Tb6612.Stop))
                // both motors get the same speed, zero exactly when the snapped command is zero
                && motors.speedA == motors.speedB == Tb6612.Min(IntAbs(c), Tb6612.PwmMax)
                && (motors.speedA == 0 <==> MotorStartThreshold(pid.output) == 0.0)
    {
      if dataReady {
        dataReady := false;
        var balanceOutput := pid.Calculate(currentPitch);
        var optimized := MotorStartThreshold(balanceOutput);
        var motorSpeed := Trunc(optimized);
        assert motorSpeed == MotorCommand(balanceOutput);
        if motorSpeed > 0 {
          motors.SetDirection(Tb6612.MotorA, Tb6612.Forward);
          motors.SetDirection(Tb6612.MotorB, Tb6612.Forward);
          motors.SetSpeed(Tb6612.MotorA, motorSpeed);
          motors.SetSpeed(Tb6612.MotorB, motorSpeed);
        } else if motorSpeed < 0 {
          motors.SetDirection(Tb6612.MotorA, Tb6612.Backward);
          motors.SetDirection(Tb6612.MotorB, Tb6612.Backward);
          motors.SetSpeed(Tb6612.MotorA, -motorSpeed);
          motors.SetSpeed(Tb6612.MotorB, -motorSpeed);
        } else {
          motors.HardStop(Tb6612.MotorA);
          motors.HardStop(Tb6612.MotorB);
        }
      }
    }
  }

  /** Two sensor interrupts before the control loop runs: 1.0 is accepted,
      50.0 is rejected as a jump, and yet the PID step runs on 50.0, because
      the rejected read has already replaced `current_pitch` while
      `data_ready` still stands from the accepted one. */
  method RejectedSampleIsControlled() returns (r: PidRecord)
    ensures !Accepts(0, 50.0, 1.0)
    ensures r == PidStep(InitialRecord(0.0), 50.0)
  {
    var loop := new BalanceLoop();
    loop.BalanceInit();
    loop.SampleInterrupt(SensorPin, 0, 1.0);
    loop.SampleInterrupt(SensorPin, 0, 50.0);
    loop.Control();
    r := loop.pid.Record();
  }

  /** The same two interrupts through the corrected filter: the PID step
      runs on the accepted 1.0. */
  method RejectedSampleIsHeld() returns (r: PidRecord)
    ensures r == PidStep(InitialRecord(0.0), 1.0)
  {
    var loop := new BalanceLoop();
    loop.BalanceInit();
    loop.FilteredSampleInterrupt(SensorPin, 0, 1.0);
    loop.FilteredSampleInterrupt(SensorPin, 0, 50.0);
    loop.Control();
    r := loop.pid.Record();
  }
}
