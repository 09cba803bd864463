/**
 * The TB6612 dual H-bridge driver layer: per-motor stored speed, the PWM
 * compare registers and the IN1/IN2 direction pins, and the speed ramps.
 * GPIO levels and compare-register writes are kept as ghost state;
 * HAL_Delay is a no-op and its delay argument is dropped.
 */
module Tb6612 {

  /** Full-scale PWM compare value (MOTOR_PWM_MAX). */
  const PwmMax: int := 100

  /** Values of the motor selector enum; any other value selects nothing. */
  const MotorA: int := 0
  const MotorB: int := 1

  const U16Modulus: int := 0x1_0000

  /** uint16_t */
  type U16 = x: int | 0 <= x < 0x1_0000

  /** The direction enum. */
  datatype Direction = Forward | Backward | Stop

  predicate IsMotor(motor: int) {
    motor == MotorA || motor == MotorB
  }

  function Min(a: int, b: int): int { if a < b then a else b }

  function Max(a: int, b: int): int { if a < b then b else a }

  /** IN1/IN2 levels that SetDirection drives for a direction (true = GPIO_PIN_SET). */
  function PinsOf(dir: Direction): (bool, bool) {
    match dir
    case Forward => (true, false)
    case Backward => (false, true)
    case Stop => (false, false)
  }

  /** IN1/IN2 levels of a short-circuit brake. */
  const BrakePins: (bool, bool) := (true, true)

  /**
   * The speeds the acceleration loop writes when the motor's stored speed
   * is `c` and the (already capped) target is `t`: each step adds `step`,
   * the last one is cut back to `t`.
   */
  function AccelRamp(c: int, t: int, step: int): (w: seq<int>)
    requires 0 < step
    ensures c >= t ==> w == []
    ensures c < t ==> |w| > 0 && w[|w| - 1] == t
    decreases t - c
  {
    if c >= t then []
    else
      var n := if c + step > t then t else c + step;
      [n] + AccelRamp(n, t, step)
  }

  /** The acceleration ramp strictly increases and stays within (c, t]. */
  lemma {:induction false} AccelRampShape(c: int, t: int, step: int)
    requires 0 < step
    ensures forall i :: 0 <= i < |AccelRamp(c, t, step)| ==> c < AccelRamp(c, t, step)[i] <= t
    ensures forall i, j :: 0 <= i < j < |AccelRamp(c, t, step)| ==> AccelRamp(c, t, step)[i] < AccelRamp(c, t, step)[j]
    decreases t - c
  {
    if c < t {
      var n := if c + step > t then t else c + step;
      AccelRampShape(n, t, step);
      var w, rest := AccelRamp(c, t, step), AccelRamp(n, t, step);
      assert w == [n] + rest;
      forall i | 0 <= i < |w| ensures c < w[i] <= t && (i == 0 || w[i] == rest[i - 1]) {
      }
    }
  }

  /**
   * The speeds a deceleration from `c` down to `t` writes when every step
   * subtracts `step` and the last one stops exactly at `t`.  This is what
   * the source's loop does as long as no uint16 subtraction wraps (see
   * NoWrapFrom and DecelStepsAgreeWithoutWrap).
   */
  function DecelRamp(c: int, t: int, step: int): (w: seq<int>)
    requires 0 < step
    ensures c <= t ==> w == []
    ensures c > t ==> |w| > 0 && w[|w| - 1] == t
    decreases c - t
  {
    if c <= t then []
    else
      var n := if c - step < t then t else c - step;
      [n] + DecelRamp(n, t, step)
  }

  /** The deceleration ramp strictly decreases and stays within [t, c). */
  lemma {:induction false} DecelRampShape(c: int, t: int, step: int)
    requires 0 < step
    ensures forall i :: 0 <= i < |DecelRamp(c, t, step)| ==> t <= DecelRamp(c, t, step)[i] < c
    ensures forall i, j :: 0 <= i < j < |DecelRamp(c, t, step)| ==> DecelRamp(c, t, step)[i] > DecelRamp(c, t, step)[j]
    decreases c - t
  {
    if c > t {
      var n := if c - step < t then t else c - step;
      DecelRampShape(n, t, step);
      var w, rest := DecelRamp(c, t, step), DecelRamp(n, t, step);
      assert w == [n] + rest;
      forall i | 0 <= i < |w| ensures t <= w[i] < c && (i == 0 || w[i] == rest[i - 1]) {
      }
    }
  }

  lemma AccelRampUnfold(c: int, t: int, step: int)
    requires 0 < step && c < t
    ensures AccelRamp(c, t, step) == [Min(c + step, t)] + AccelRamp(Min(c + step, t), t, step)
  {
  }

  lemma DecelRampUnfold(c: int, t: int, step: int)
    requires 0 < step && c > t
    ensures DecelRamp(c, t, step) == [Max(c - step, t)] + DecelRamp(Max(c - step, t), t, step)
  {
  }

  /** Every `current_speed -= step` the deceleration loop from `c` to `t`
      performs stays non-negative, so no uint16 subtraction wraps. */
  predicate NoWrapFrom(c: int, t: int, step: int): (b: bool)
    requires 0 < step
    ensures step <= t + 1 ==> b
    ensures b && c > t ==> step <= c
    decreases c - t
  {
    c <= t || (step <= c && NoWrapFrom(c - step, t, step))
  }

  /** One iteration of the deceleration loop exactly as the source computes
      it: a uint16 subtraction, then the clamp to the target. */
  function DecelStepAsWritten(c: U16, t: U16, step: U16): (n: U16)
    ensures step <= c ==> n == (if c - step < t then t else c - step)
  {
    var d := (c - step) % U16Modulus;
    if d < t then t else d
  }

  /** Within the no-wrap condition the source's step and the saturating
      step of DecelRamp coincide. */
  lemma DecelStepsAgreeWithoutWrap(c: U16, t: U16, step: U16)
    requires 0 < step && c > t && NoWrapFrom(c, t, step)
    ensures DecelStepAsWritten(c, t, step) == DecelRamp(c, t, step)[0]
    ensures NoWrapFrom(DecelRamp(c, t, step)[0], t, step)
  {
  }

  /** Speed to which a deceleration with the given target heads: a target
      above PWM_MAX is replaced by 0. */
  function DecelTarget(targetSpeed: U16): (t: U16)
    ensures t <= PwmMax
    ensures targetSpeed > PwmMax ==> t == 0
    ensures targetSpeed <= PwmMax ==> t == targetSpeed
  {
    if targetSpeed > PwmMax then 0 else targetSpeed
  }

  /** Euclidean remainder is unique. */
  lemma ModUnique(a: int, m: int, q: int, r: int)
    requires 0 < m && a == m * q + r && 0 <= r < m
    ensures a % m == r
  {
    var q', r' := a / m, a % m;
    assert m * q' + r' == a;
    MulDistributes(m, q, q');
    if q > q' {
      MulAtLeast(m, q - q');
    } else if q < q' {
      MulAtLeast(m, q' - q);
      MulDistributes(m, q', q);
    }
  }

  lemma MulDistributes(m: int, x: int, y: int)
    ensures m * (x - y) == m * x - m * y
  {
  }

  lemma MulAtLeast(m: int, k: int)
    requires 0 < m && 1 <= k
    ensures m * k >= m
  {
  }

  lemma ModShift(c: int, step: int)
    requires 0 < step <= c
    ensures (c - step) % step == c % step
  {
    var q, r := c / step, c % step;
    assert c == step * q + r;
    assert c - step == step * (q - 1) + r;
    ModUnique(c - step, step, q - 1, r);
  }

  /** Towards 0 the no-wrap condition is exactly "the step divides the speed". */
  lemma {:induction false} NoWrapToZero(c: nat, step: int)
    requires 0 < step
    ensures NoWrapFrom(c, 0, step) <==> c % step == 0
    decreases c
  {
    if c > 0 {
      if step <= c {
        NoWrapToZero(c - step, step);
        ModShift(c, step);
      } else {
        assert c % step == c;
      }
    }
  }

  /** The speed globals and the two compare-register histories. */
  datatype Channels = Channels(speedA: int, speedB: int, dutyA: seq<int>, dutyB: seq<int>)

  /** Stored speeds never exceed PWM_MAX and equal the latest compare value. */
  predicate ChannelsValid(ch: Channels) {
    && 0 <= ch.speedA <= PwmMax && 0 <= ch.speedB <= PwmMax
    && (ch.dutyA != [] ==> ch.dutyA[|ch.dutyA| - 1] == ch.speedA)
    && (ch.dutyB != [] ==> ch.dutyB[|ch.dutyB| - 1] == ch.speedB)
  }

  /** What one TB6612_SetSpeed call does to the channels: the speed is capped
      at PWM_MAX, written to the selected compare register and stored; a
      selector other than MOTOR_A or MOTOR_B changes nothing. */
  function Store(ch: Channels, motor: int, speed: int): (r: Channels)
    ensures ChannelsValid(ch) && 0 <= speed ==> ChannelsValid(r)
    ensures motor == MotorA ==> r == ch.(speedA := Min(speed, PwmMax), dutyA := ch.dutyA + [Min(speed, PwmMax)])
    ensures motor == MotorB ==> r == ch.(speedB := Min(speed, PwmMax), dutyB := ch.dutyB + [Min(speed, PwmMax)])
    ensures !IsMotor(motor) ==> r == ch
  {
    var s := if speed > PwmMax then PwmMax else speed;
    if motor == MotorA then ch.(speedA := s, dutyA := ch.dutyA + [s])
    else if motor == MotorB then ch.(speedB := s, dutyB := ch.dutyB + [s])
    else ch
  }

  /** SetSpeed called with each speed of `w` in turn. */
  function StoreAll(ch: Channels, motor: int, w: seq<int>): Channels
    decreases |w|
  {
    if w == [] then ch else StoreAll(Store(ch, motor, w[0]), motor, w[1..])
  }

  lemma StoreAllCons(ch: Channels, motor: int, n: int, w: seq<int>)
    ensures StoreAll(ch, motor, [n] + w) == StoreAll(Store(ch, motor, n), motor, w)
  {
    assert ([n] + w)[1..] == w;
  }

  /** One acceleration step, written through Store, leaves the overall
      effect of the remaining ramp unchanged. */
  lemma AccelStepKeepsGoal(ch: Channels, motor: int, c: int, t: int, step: int, goal: Channels)
    requires 0 < step && c < t
    requires StoreAll(ch, motor, AccelRamp(c, t, step)) == goal
    ensures StoreAll(Store(ch, motor, Min(c + step, t)), motor, AccelRamp(Min(c + step, t), t, step)) == goal
  {
    AccelRampUnfold(c, t, step);
    StoreAllCons(ch, motor, Min(c + step, t), AccelRamp(Min(c + step, t), t, step));
  }

  /** One deceleration step, written through Store, leaves the overall
      effect of the remaining ramp unchanged. */
  lemma DecelStepKeepsGoal(ch: Channels, motor: int, c: int, t: int, step: int, goal: Channels)
    requires 0 < step && c > t
    requires StoreAll(ch, motor, DecelRamp(c, t, step)) == goal
    ensures StoreAll(Store(ch, motor, Max(c - step, t)), motor, DecelRamp(Max(c - step, t), t, step)) == goal
  {
    DecelRampUnfold(c, t, step);
    StoreAllCons(ch, motor, Max(c - step, t), DecelRamp(Max(c - step, t), t, step));
  }

  /** Writing speeds within [0, PWM_MAX] appends them unchanged to the
      selected register's history, leaves the last one stored, and leaves the
      other motor alone. */
  lemma {:induction false} StoreAllEffect(ch: Channels, motor: int, w: seq<int>)
    requires forall i :: 0 <= i < |w| ==> 0 <= w[i] <= PwmMax
    ensures ChannelsValid(ch) ==> ChannelsValid(StoreAll(ch, motor, w))
    ensures motor == MotorA ==>
              && StoreAll(ch, motor, w).dutyA == ch.dutyA + w
              && StoreAll(ch, motor, w).speedA == (if w == [] then ch.speedA else w[|w| - 1])
              && StoreAll(ch, motor, w).speedB == ch.speedB && StoreAll(ch, motor, w).dutyB == ch.dutyB
    ensures motor == MotorB ==>
              && StoreAll(ch, motor, w).dutyB == ch.dutyB + w
              && StoreAll(ch, motor, w).speedB == (if w == [] then ch.speedB else w[|w| - 1])
              && StoreAll(ch, motor, w).speedA == ch.speedA && StoreAll(ch, motor, w).dutyA == ch.dutyA
    ensures !IsMotor(motor) ==> StoreAll(ch, motor, w) == ch
    decreases |w|
  {
    if w != [] {
      var ch' := Store(ch, motor, w[0]);
      StoreAllEffect(ch', motor, w[1..]);
      if motor == MotorA {
        assert ch'.dutyA + w[1..] == ch.dutyA + w;
      } else if motor == MotorB {
        assert ch'.dutyB + w[1..] == ch.dutyB + w;
      }
    }
  }

  /** The overall effect of an acceleration ramp written through SetSpeed. */
  lemma AccelEffect(ch: Channels, motor: int, t: int, step: int)
    requires ChannelsValid(ch) && 0 < step && 0 <= t <= PwmMax
    ensures var c := if motor == MotorA then ch.speedA else ch.speedB;
            var r := StoreAll(ch, motor, AccelRamp(c, t, step));
            && ChannelsValid(r)
            && (motor == MotorA ==> r.dutyA == ch.dutyA + AccelRamp(c, t, step) && r.speedA == Max(c, t)
                                    && r.dutyB == ch.dutyB && r.speedB == ch.speedB)
            && (motor == MotorB ==> r.dutyB == ch.dutyB + AccelRamp(c, t, step) && r.speedB == Max(c, t)
                                    && r.dutyA == ch.dutyA && r.speedA == ch.speedA)
            && (!IsMotor(motor) ==> r == ch)
  {
    var c := if motor == MotorA then ch.speedA else ch.speedB;
    AccelRampShape(c, t, step);
    StoreAllEffect(ch, motor, AccelRamp(c, t, step));
  }

  /** The overall effect of a deceleration ramp written through SetSpeed. */
  lemma DecelEffect(ch: Channels, motor: int, t: int, step: int)
    requires ChannelsValid(ch) && 0 < step && 0 <= t
    ensures var c := if motor == MotorA then ch.speedA else ch.speedB;
            var r := StoreAll(ch, motor, DecelRamp(c, t, step));
            && ChannelsValid(r)
            && (motor == MotorA ==> r.dutyA == ch.dutyA + DecelRamp(c, t, step) && r.speedA == Min(c, t)
                                    && r.dutyB == ch.dutyB && r.speedB == ch.speedB)
            && (motor == MotorB ==> r.dutyB == ch.dutyB + DecelRamp(c, t, step) && r.speedB == Min(c, t)
                                    && r.dutyA == ch.dutyA && r.speedA == ch.speedA)
            && (!IsMotor(motor) ==> r == ch)
  {
    var c := if motor == MotorA then ch.speedA else ch.speedB;
    DecelRampShape(c, t, step);
    StoreAllEffect(ch, motor, DecelRamp(c, t, step));
  }

  /** The motor driver's global state: the stored speeds current_speed_a and
      current_speed_b, and (ghost) the pins and compare registers. */
  class Driver {
    var speedA: U16
    var speedB: U16

    /** AIN1, AIN2, BIN1, BIN2 (true = GPIO_PIN_SET). */
    ghost var ain1: bool
    ghost var ain2: bool
    ghost var bin1: bool
    ghost var bin2: bool

    /** Whether HAL_TIM_PWM_Start has been issued for both channels. */
    ghost var pwmStarted: bool

    /** Every value written to the PWMA / PWMB compare register, oldest first. */
    ghost var dutyA: seq<int>
    ghost var dutyB: seq<int>

    ghost function State(): Channels
      reads this
    {
      Channels(speedA, speedB, dutyA, dutyB)
    }

    ghost predicate Valid()
      reads this
    {
      ChannelsValid(State())
    }

    ghost function PinsA(): (bool, bool) reads this { (ain1, ain2) }

    ghost function PinsB(): (bool, bool) reads this { (bin1, bin2) }

    /** Power-on state: both speed globals are zero-initialised. The GPIO
        levels are whatever the board configuration left. */
    constructor ()
      ensures Valid()
      ensures speedA == 0 && speedB == 0 && dutyA == [] && dutyB == [] && !pwmStarted
    {
      speedA, speedB := 0, 0;
      dutyA, dutyB := [], [];
      pwmStarted := false;
    }

    /** TB6612_GetCurrentSpeed: motor A's speed for MOTOR_A, motor B's for
        every other selector value. */
    function CurrentSpeed(motor: int): (s: U16)
      reads this
      ensures motor == MotorA ==> s == speedA
      ensures motor != MotorA ==> s == speedB
      ensures Valid() ==> s <= PwmMax
    {
      if motor == MotorA then speedA else speedB
    }

    /** TB6612_SetDirection: drives the selected bridge's IN1/IN2 pair. */
    method SetDirection(motor: int, dir: Direction)
      requires Valid()
      modifies this
      ensures Valid()
      ensures motor == MotorA ==> PinsA() == PinsOf(dir) && PinsB() == old(PinsB())
      ensures motor == MotorB ==> PinsB() == PinsOf(dir) && PinsA() == old(PinsA())
      ensures !IsMotor(motor) ==> PinsA() == old(PinsA()) && PinsB() == old(PinsB())
      ensures State() == old(State()) && pwmStarted == old(pwmStarted)
    {
      if motor == MotorA {
        match dir {
          case Forward => ain1, ain2 := true, false;
          case Backward => ain1, ain2 := false, true;
          case Stop => ain1, ain2 := false, false;
        }
      } else if motor == MotorB {
        match dir {
          case Forward => bin1, bin2 := true, false;
          case Backward => bin1, bin2 := false, true;
          case Stop => bin1, bin2 := false, false;
        }
      }
    }

    /** TB6612_SetSpeed */
    method SetSpeed(motor: int, speed: U16)
      requires Valid()
      modifies this
      ensures Valid()
      ensures State() == Store(old(State()), motor, speed)
      ensures PinsA() == old(PinsA()) && PinsB() == old(PinsB()) && pwmStarted == old(pwmStarted)
    {
      var s := speed;
      if s > PwmMax {
        s := PwmMax;
      }
      if motor == MotorA {
        dutyA := dutyA + [s];
        speedA := s;
      } else if motor == MotorB {
        dutyB := dutyB + [s];
        speedB := s;
      }
    }

    /** TB6612_Init: both bridges to STOP, PWM started, both speeds 0. */
    method Init()
      requires Valid()
      modifies this
      ensures Valid()
      ensures speedA == 0 && speedB == 0 && pwmStarted
      ensures PinsA() == PinsOf(Stop) && PinsB() == PinsOf(Stop)
      ensures dutyA == old(dutyA) + [0] && dutyB == old(dutyB) + [0]
    {
      SetDirection(MotorA, Stop);
      SetDirection(MotorB, Stop);
      pwmStarted := true;
      SetSpeed(MotorA, 0);
      SetSpeed(MotorB, 0);
    }

    /** TB6612_SmoothAccelerate: raises the selected motor's speed by `step`
        per iteration up to min(target, PWM_MAX), calling SetSpeed each time.
        The precondition keeps `current_speed += step` inside uint16. */
    method SmoothAccelerate(motor: int, targetSpeed: U16, step: U16)
      requires Valid()
      requires 0 < step && PwmMax + step <= U16Modulus
      modifies this
      ensures Valid()
      ensures State() == StoreAll(old(State()), motor, AccelRamp(old(CurrentSpeed(motor)), Min(targetSpeed, PwmMax), step))
      ensures motor == MotorA ==>
                && dutyA == old(dutyA) + AccelRamp(old(speedA), Min(targetSpeed, PwmMax), step)
                && speedA == Max(old(speedA), Min(targetSpeed, PwmMax))
                && dutyB == old(dutyB) && speedB == old(speedB)
      ensures motor == MotorB ==>
                && dutyB == old(dutyB) + AccelRamp(old(speedB), Min(targetSpeed, PwmMax), step)
                && speedB == Max(old(speedB), Min(targetSpeed, PwmMax))
                && dutyA == old(dutyA) && speedA == old(speedA)
      ensures !IsMotor(motor) ==> State() == old(State())
      ensures PinsA() == old(PinsA()) && PinsB() == old(PinsB()) && pwmStarted == old(pwmStarted)
    {
      var current := CurrentSpeed(motor);
      var target := targetSpeed;
      if target > PwmMax {
        target := PwmMax;
      }
      ghost var start := current;
      ghost var ramp := AccelRamp(start, target, step);
      while current < target
        invariant Valid()
        invariant start <= current <= Max(start, target)
        invariant StoreAll(State(), motor, AccelRamp(current, target, step)) == StoreAll(old(State()), motor, ramp)
        invariant PinsA() == old(PinsA()) && PinsB() == old(PinsB()) && pwmStarted == old(pwmStarted)
        decreases target - current
      {
        ghost var before := current;
        assert 0 <= before + step < U16Modulus;
        current := (current + step) % U16Modulus;
        assert current == before + step;
        if current > target {
          current := target;
        }
        assert current == Min(before + step, target);
        AccelStepKeepsGoal(State(), motor, before, target, step, StoreAll(old(State()), motor, ramp));
        SetSpeed(motor, current);
      }
      AccelEffect(old(State()), motor, target, step);
    }

    /** TB6612_SmoothDecelerate: a target above PWM_MAX becomes 0, then the
        selected motor's speed drops by `step` per iteration down to it.
        The precondition excludes the uint16 wrap of `current_speed -= step`
        (SoftStopWrapJumpsToMax and SoftStopNeverEnds show what happens
        otherwise). */
    method SmoothDecelerate(motor: int, targetSpeed: U16, step: U16)
      requires Valid()
      requires 0 < step && NoWrapFrom(CurrentSpeed(motor), DecelTarget(targetSpeed), step)
      modifies this
      ensures Valid()
      ensures State() == StoreAll(old(State()), motor, DecelRamp(old(CurrentSpeed(motor)), DecelTarget(targetSpeed), step))
      ensures motor == MotorA ==>
                && dutyA == old(dutyA) + DecelRamp(old(speedA), DecelTarget(targetSpeed), step)
                && speedA == Min(old(speedA), DecelTarget(targetSpeed))
                && dutyB == old(dutyB) && speedB == old(speedB)
      ensures motor == MotorB ==>
                && dutyB == old(dutyB) + DecelRamp(old(speedB), DecelTarget(targetSpeed), step)
                && speedB == Min(old(speedB), DecelTarget(targetSpeed))
                && dutyA == old(dutyA) && speedA == old(speedA)
      ensures !IsMotor(motor) ==> State() == old(State())
      ensures PinsA() == old(PinsA()) && PinsB() == old(PinsB()) && pwmStarted == old(pwmStarted)
    {
      var current := CurrentSpeed(motor);
      var target := targetSpeed;
      if target > PwmMax {
        target := 0;
      }
      ghost var start := current;
      ghost var ramp := DecelRamp(start, target, step);
      while current > target
        invariant Valid()
        invariant NoWrapFrom(current, target, step)
        invariant Min(start, target) <= current <= start
        invariant StoreAll(State(), motor, DecelRamp(current, target, step)) == StoreAll(old(State()), motor, ramp)
        invariant PinsA() == old(PinsA()) && PinsB() == old(PinsB()) && pwmStarted == old(pwmStarted)
        decreases current
      {
        ghost var before := current;
        assert 0 <= before - step < U16Modulus;
        current := (current - step) % U16Modulus;
        assert current == before - step;
        if current < target {
          current := target;
        }
        assert current == Max(before - step, target);
        DecelStepKeepsGoal(State(), motor, before, target, step, StoreAll(old(State()), motor, ramp));
        SetSpeed(motor, current);
      }
      DecelEffect(old(State()), motor, target, step);
    }

    /** TB6612_SoftStop: decelerate to 0, then set the direction to STOP.
        Without wrap-around this needs the step to divide the current speed. */
    method SoftStop(motor: int, step: U16)
      requires Valid()
      requires 0 < step && CurrentSpeed(motor) % step == 0
      modifies this
      ensures Valid()
      ensures motor == MotorA ==>
                && speedA == 0 && PinsA() == PinsOf(Stop)
                && dutyA == old(dutyA) + DecelRamp(old(speedA), 0, step)
                && speedB == old(speedB) && dutyB == old(dutyB) && PinsB() == old(PinsB())
      ensures motor == MotorB ==>
                && speedB == 0 && PinsB() == PinsOf(Stop)
                && dutyB == old(dutyB) + DecelRamp(old(speedB), 0, step)
                && speedA == old(speedA) && dutyA == old(dutyA) && PinsA() == old(PinsA())
      ensures !IsMotor(motor) ==> State() == old(State()) && PinsA() == old(PinsA()) && PinsB() == old(PinsB())
    {
      NoWrapToZero(CurrentSpeed(motor), step);
      SmoothDecelerate(motor, 0, step);
      SetDirection(motor, Stop);
    }

    /** TB6612_HardStop: speed 0 at once, then direction STOP. */
    method HardStop(motor: int)
      requires Valid()
      modifies this
      ensures Valid()
      ensures State() == Store(old(State()), motor, 0)
      ensures motor == MotorA ==> speedA == 0 && PinsA() == PinsOf(Stop) && PinsB() == old(PinsB())
      ensures motor == MotorB ==> speedB == 0 && PinsB() == PinsOf(Stop) && PinsA() == old(PinsA())
      ensures !IsMotor(motor) ==> PinsA() == old(PinsA()) && PinsB() == old(PinsB())
      ensures pwmStarted == old(pwmStarted)
    {
      SetSpeed(motor, 0);
      SetDirection(motor, Stop);
    }

    /** TB6612_Brake: both inputs of the selected bridge high; speeds untouched. */
    method Brake(motor: int)
      requires Valid()
      modifies this
      ensures Valid()
      ensures motor == MotorA ==> PinsA() == BrakePins && PinsB() == old(PinsB())
      ensures motor == MotorB ==> PinsB() == BrakePins && PinsA() == old(PinsA())
      ensures !IsMotor(motor) ==> PinsA() == old(PinsA()) && PinsB() == old(PinsB())
      ensures State() == old(State()) && pwmStarted == old(pwmStarted)
    {
      if motor == MotorA {
        ain1, ain2 := true, true;
      } else if motor == MotorB {
        bin1, bin2 := true, true;
      }
    }
  }

  // ---------------------------------------------------------------------
  // What the source's deceleration loop does once the subtraction wraps.

  /** `k` iterations of the source's deceleration loop from `c`, stopping
      early once the loop condition `c > t` fails. */
  function DecelIterate(c: U16, t: U16, step: U16, k: nat): (r: U16)
    ensures c <= t ==> r == c
    ensures c > t ==> t <= r
    ensures 0 < step && NoWrapFrom(c, t, step) ==> r <= c
    decreases k
  {
    if k == 0 || c <= t then c else DecelIterate(DecelStepAsWritten(c, t, step), t, step, k - 1)
  }

  /** A soft stop from speed 50 with step 30: the second subtraction wraps to
      65526, the clamp to the target does not fire, and SetSpeed drives the
      motor at full PWM_MAX in the middle of the stop. */
  lemma SoftStopWrapJumpsToMax()
    ensures DecelStepAsWritten(50, 0, 30) == 20
    ensures DecelStepAsWritten(20, 0, 30) == 65526
    ensures Min(DecelStepAsWritten(20, 0, 30), PwmMax) == PwmMax
  {
  }

  /** From an odd speed, every as-written decrement by 2 keeps the value odd. */
  lemma {:induction false} OddStaysOdd(c: U16, k: nat)
    requires c % 2 == 1
    ensures DecelIterate(c, 0, 2, k) % 2 == 1
    decreases k
  {
    if k > 0 {
      var n := DecelStepAsWritten(c, 0, 2);
      assert n % 2 == 1 by {
        if c >= 2 {
          assert n == c - 2;
        } else {
          assert n == 65535;
        }
      }
      OddStaysOdd(n, k - 1);
    }
  }

  /** A soft stop from speed 51 with step 2 never ends: after any number of
      iterations the local speed is still odd, hence still above 0. */
  lemma SoftStopNeverEnds(k: nat)
    ensures DecelIterate(51, 0, 2, k) > 0
  {
    OddStaysOdd(51, k);
  }
}
