/** The brightness ramp of the dimmable channels (`struct pwm` and the
    arithmetic of `handle_pwm`). `unsigned int` is 16 bits wide on the
    target, so its subtraction wraps modulo 2^16. */
module Ramp {

  /** Number of channels with a PWM output (`NUM_PWMS`). */
  const NUM_PWMS: nat := 3
  /** Brightness added per tick while a channel is on (`PWM_STEP_ON`). */
  const STEP_ON: nat := 15
  /** Brightness removed per tick while a channel is off (`PWM_STEP_OFF`). */
  const STEP_OFF: nat := 50
  /** The ceiling `init_pwm` gives every channel. */
  const FULL: nat := 0xFFFF

  /** A 16-bit `unsigned int`. */
  type U16 = x: int | 0 <= x <= 0xFFFF

  /** Reduction of an integer to 16 bits, as unsigned arithmetic does. */
  function Wrap16(x: int): (r: U16)
    ensures 0 <= x <= 0xFFFF ==> r == x
    ensures x < 0 && x >= -0x1_0000 ==> r == x + 0x1_0000
  {
    x % 0x1_0000
  }

  /** `max` is the brightness ceiling, `cur` the current brightness. */
  datatype Pwm = Pwm(max: U16, cur: U16)

  /** One `handle_pwm` update of a valid channel: while on, climb toward
      `max` by STEP_ON, snapping to `max` when the (16-bit) guard
      `cur > max - STEP_ON` holds; while off, fall toward 0 by STEP_OFF,
      snapping to 0 below STEP_OFF. */
  function Step(p: Pwm, on: bool): (r: Pwm)
    ensures r.max == p.max
  {
    if on && p.cur < p.max then
      if p.cur > Wrap16(p.max - STEP_ON) then p.(cur := p.max)
      else p.(cur := Wrap16(p.cur + STEP_ON))
    else if !on && p.cur > 0 then
      if p.cur < STEP_OFF then p.(cur := 0)
      else p.(cur := p.cur - STEP_OFF)
    else p
  }

  /** The value written to the compare register: the high byte of `cur`. */
  function Duty(cur: U16): (d: nat)
    ensures d <= 255
    ensures d * 0x100 <= cur < (d + 1) * 0x100
  {
    cur / 0x100
  }

  /** While on, and with a ceiling of at least one step, the brightness
      never passes the ceiling and grows by exactly one step or lands
      exactly on the ceiling. */
  lemma StepOnBounded(p: Pwm)
    requires p.max >= STEP_ON
    requires p.cur <= p.max
    ensures Step(p, true).cur <= p.max
    ensures Step(p, true).cur == p.cur + STEP_ON || Step(p, true).cur == p.max
  {
  }

  /** While off, the brightness never underflows: it drops by exactly one
      step or lands exactly on 0. */
  lemma StepOffBounded(p: Pwm)
    ensures Step(p, false).cur == p.cur - STEP_OFF || Step(p, false).cur == 0
    ensures Step(p, false).cur <= p.cur
  {
  }

  /** The ramp is monotone: never down while on, never up while off. */
  lemma StepMonotone(p: Pwm, on: bool)
    ensures on ==> Step(p, on).cur >= p.cur
    ensures !on ==> Step(p, on).cur <= p.cur
  {
  }

  /** Once saturated the ramp is idempotent: on at the ceiling, or off
      at 0, a step changes nothing. */
  lemma StepSaturated(p: Pwm, on: bool)
    requires if on then p.cur == p.max else p.cur == 0
    ensures Step(p, on) == p
  {
  }

  /** The ceiling of at least one step is needed: with a smaller ceiling
      the 16-bit guard `max - STEP_ON` wraps to a large number and the
      brightness overshoots the ceiling. `init_pwm` always sets FULL, so
      this never happens in the running controller. */
  lemma SmallCeilingOvershoots()
    ensures Step(Pwm(10, 0), true).cur == 15 > 10
  {
  }

  /** The brightness after n consecutive ticks in the same on/off state. */
  function Steps(p: Pwm, on: bool, n: nat): (r: Pwm)
    ensures r.max == p.max
    decreases n
  {
    if n == 0 then p else Steps(Step(p, on), on, n - 1)
  }

  /** While a whole step fits below the ceiling each tick, n ticks on
      raise the brightness by exactly n steps. */
  lemma {:induction false} StepsOnLinear(p: Pwm, n: nat)
    requires p.cur + n * STEP_ON <= p.max
    ensures Steps(p, true, n).cur == p.cur + n * STEP_ON
    decreases n
  {
    if n > 0 {
      var q := Step(p, true);
      assert q.cur == p.cur + STEP_ON;
      StepsOnLinear(q, n - 1);
    }
  }

  /** While a whole step lies above 0 each tick, n ticks off lower the
      brightness by exactly n steps. */
  lemma {:induction false} StepsOffLinear(p: Pwm, n: nat)
    requires n * STEP_OFF <= p.cur
    ensures Steps(p, false, n).cur == p.cur - n * STEP_OFF
    decreases n
  {
    if n > 0 {
      var q := Step(p, false);
      assert q.cur == p.cur - STEP_OFF;
      StepsOffLinear(q, n - 1);
    }
  }

  /** Steps composes: n + m ticks are n ticks followed by m ticks. */
  lemma {:induction false} StepsAdd(p: Pwm, on: bool, n: nat, m: nat)
    ensures Steps(p, on, n + m) == Steps(Steps(p, on, n), on, m)
    decreases n
  {
    if n > 0 {
      StepsAdd(Step(p, on), on, n - 1, m);
    }
  }

  /** Held on for any number of ticks, with a ceiling of at least one
      step, the brightness only rises and never passes the ceiling. */
  lemma {:induction false} StepsOnBounded(p: Pwm, n: nat)
    requires p.max >= STEP_ON
    requires p.cur <= p.max
    ensures p.cur <= Steps(p, true, n).cur <= p.max
    decreases n
  {
    if n > 0 {
      StepOnBounded(p);
      StepsOnBounded(Step(p, true), n - 1);
    }
  }

  /** A full fade-in from dark to FULL takes exactly 4369 ticks: after
      4368 ticks the brightness is one step short, the next tick reaches
      the ceiling. */
  lemma FullFadeIn()
    ensures Steps(Pwm(FULL, 0), true, 4368).cur == FULL - STEP_ON
    ensures Steps(Pwm(FULL, 0), true, 4369).cur == FULL
  {
    StepsOnLinear(Pwm(FULL, 0), 4368);
    StepsAdd(Pwm(FULL, 0), true, 4368, 1);
  }

  /** A full fade-out from FULL to dark takes exactly 1311 ticks: 1310
      whole steps leave 35, and the next tick snaps to 0. */
  lemma FullFadeOut()
    ensures Steps(Pwm(FULL, FULL), false, 1310).cur == 35
    ensures Steps(Pwm(FULL, FULL), false, 1311).cur == 0
  {
    StepsOffLinear(Pwm(FULL, FULL), 1310);
    StepsAdd(Pwm(FULL, FULL), false, 1310, 1);
  }
}
