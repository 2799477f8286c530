/** One touch channel's toggle state (`struct kpair`) and the per-tick
    step that the control loop applies to it: edge-triggered toggling
    followed by a lockout countdown. */
module Keys {

  /** Number of touch channels (`NUM_KEYS`). */
  const NUM_KEYS: nat := 8

  /** The value `tout` is armed with when a channel toggles. The same
      tick counts it down once, so the next LOCKOUT - 1 ticks ignore rising
      edges and two toggles are at least LOCKOUT ticks apart. */
  const LOCKOUT: nat := 300

  /** `key` is the last raw sample, `port` the logical on/off state,
      `tout` the lockout countdown. All three are C `int`s. */
  datatype KPair = KPair(key: int, port: int, tout: int)

  /** The all-zero record the channels start from. */
  const INITIAL: KPair := KPair(0, 0, 0)

  /** The condition under which `pinval` toggles: the sample is non-zero,
      differs from the previous sample and no lockout is running. */
  predicate RisingEdge(k: KPair, pin: int)
  {
    pin != 0 && k.key != pin && k.tout == 0
  }

  /** `pinval`: on a rising edge outside lockout, flip `port` (C's logical
      `!`) and arm the lockout; in every case remember the sample. */
  function PinVal(k: KPair, pin: int): (r: KPair)
    ensures r.key == pin
  {
    var k' := if RisingEdge(k, pin)
              then k.(port := if k.port != 0 then 0 else 1, tout := LOCKOUT)
              else k;
    k'.(key := pin)
  }

  /** The `tout` decrement the control loop applies after `pinval`. */
  function CountDown(k: KPair): (r: KPair)
    ensures r.key == k.key && r.port == k.port
    ensures k.tout > 0 ==> r.tout == k.tout - 1
    ensures k.tout <= 0 ==> r.tout == k.tout
  {
    if k.tout > 0 then k.(tout := k.tout - 1) else k
  }

  /** What one tick does to one channel's record. */
  function ChannelStep(k: KPair, pin: int): (r: KPair)
    ensures r.key == pin
  {
    CountDown(PinVal(k, pin))
  }

  /** A well-formed channel record: binary sample and state, and a
      countdown that is never negative and below the lockout length. */
  predicate ChannelOk(k: KPair)
  {
    (k.key == 0 || k.key == 1) && (k.port == 0 || k.port == 1) && 0 <= k.tout < LOCKOUT
  }

  /** The port toggles exactly on a rising edge; a toggle flips a binary
      port and arms the lockout, anything else leaves port and countdown
      alone. The sample is stored either way, so an edge that arrives
      during lockout is dropped, not deferred. */
  lemma PinValToggles(k: KPair, pin: int)
    requires k.port == 0 || k.port == 1
    ensures PinVal(k, pin).port != k.port <==> RisingEdge(k, pin)
    ensures RisingEdge(k, pin) ==> PinVal(k, pin).port == 1 - k.port && PinVal(k, pin).tout == LOCKOUT
    ensures !RisingEdge(k, pin) ==> PinVal(k, pin).port == k.port && PinVal(k, pin).tout == k.tout
    ensures PinVal(k, pin).key == pin
  {
  }

  /** One tick keeps a well-formed record well-formed when the sample is
      a single bit; in particular `port` stays in {0, 1} and `tout`
      never goes negative. */
  lemma ChannelStepOk(k: KPair, pin: int)
    requires ChannelOk(k)
    requires pin == 0 || pin == 1
    ensures ChannelOk(ChannelStep(k, pin))
  {
  }

  /** The countdown after one tick: a toggle leaves LOCKOUT - 1 ticks of
      lockout, otherwise a positive countdown drops by exactly one. */
  lemma ChannelStepCountdown(k: KPair, pin: int)
    requires k.tout >= 0
    ensures RisingEdge(k, pin) ==> ChannelStep(k, pin).tout == LOCKOUT - 1
    ensures !RisingEdge(k, pin) && k.tout > 0 ==> ChannelStep(k, pin).tout == k.tout - 1
    ensures !RisingEdge(k, pin) && k.tout == 0 ==> ChannelStep(k, pin).tout == 0
    ensures ChannelStep(k, pin).tout >= 0
  {
  }

  /** A channel after running through a sequence of samples, one per tick. */
  function Run(k: KPair, pins: seq<int>): (r: KPair)
    ensures pins != [] ==> r.key == pins[|pins| - 1]
    ensures pins == [] ==> r == k
    decreases |pins|
  {
    if pins == [] then k else Run(ChannelStep(k, pins[0]), pins[1..])
  }

  /** Well-formedness survives any run of single-bit samples. */
  lemma {:induction false} RunOk(k: KPair, pins: seq<int>)
    requires ChannelOk(k)
    requires forall j :: 0 <= j < |pins| ==> pins[j] == 0 || pins[j] == 1
    ensures ChannelOk(Run(k, pins))
    decreases |pins|
  {
    if pins != [] {
      ChannelStepOk(k, pins[0]);
      RunOk(ChannelStep(k, pins[0]), pins[1..]);
    }
  }

  /** How many times the channel toggles while running through `pins`. */
  function Toggles(k: KPair, pins: seq<int>): nat
    decreases |pins|
  {
    if pins == [] then 0
    else (if RisingEdge(k, pins[0]) then 1 else 0) + Toggles(ChannelStep(k, pins[0]), pins[1..])
  }

  /** While the countdown outlasts the samples, no sample toggles the
      channel, its port is kept and the countdown drops by one per tick. */
  lemma {:induction false} LockoutQuiet(k: KPair, pins: seq<int>)
    requires k.tout >= |pins|
    ensures Toggles(k, pins) == 0
    ensures Run(k, pins).port == k.port
    ensures Run(k, pins).tout == k.tout - |pins|
    decreases |pins|
  {
    if pins != [] {
      LockoutQuiet(ChannelStep(k, pins[0]), pins[1..]);
    }
  }

  /** Two toggles of one channel are at least LOCKOUT ticks apart: after
      a toggle, none of the next LOCKOUT - 1 samples toggles again, and
      the countdown has exactly reached zero after LOCKOUT - 1 of them,
      so the tick LOCKOUT after the toggle may toggle again. */
  lemma ToggleSpacing(k: KPair, pin: int, pins: seq<int>)
    requires RisingEdge(k, pin)
    requires |pins| < LOCKOUT
    ensures Toggles(ChannelStep(k, pin), pins) == 0
    ensures Run(ChannelStep(k, pin), pins).tout == LOCKOUT - 1 - |pins|
  {
    LockoutQuiet(ChannelStep(k, pin), pins);
  }

  /** Running through two runs of samples is running through the first,
      then the second from where the first left off. */
  lemma {:induction false} RunAppend(k: KPair, a: seq<int>, b: seq<int>)
    ensures Run(k, a + b) == Run(Run(k, a), b)
    ensures Toggles(k, a + b) == Toggles(k, a) + Toggles(Run(k, a), b)
    decreases |a|
  {
    if a != [] {
      assert (a + b)[0] == a[0] && (a + b)[1..] == a[1..] + b;
      RunAppend(ChannelStep(k, a[0]), a[1..], b);
    } else {
      assert a + b == b;
    }
  }

  /** The spacing of ToggleSpacing is tight: after a toggle and LOCKOUT - 1
      released ticks, a touch on the next tick, LOCKOUT ticks after the
      first, toggles the channel again. */
  lemma RetoggleAtLockout(k: KPair)
    requires RisingEdge(k, 1)
    ensures Toggles(k, [1] + seq(LOCKOUT - 1, _ => 0) + [1]) == 2
  {
    var idle := seq(LOCKOUT - 1, _ => 0);
    var k1 := ChannelStep(k, 1);
    RunAppend(k, [1], idle + [1]);
    assert [1] + idle + [1] == [1] + (idle + [1]);
    RunAppend(k1, idle, [1]);
    LockoutQuiet(k1, idle);
  }

  /** A sample held non-zero never toggles the channel once it has been
      stored, however long the lockout has left to run: a touch that is
      held through the lockout does not toggle again when it ends. */
  lemma {:induction false} HeldPinNoRetoggle(k: KPair, pins: seq<int>)
    requires k.key != 0
    requires forall j :: 0 <= j < |pins| ==> pins[j] == k.key
    ensures Toggles(k, pins) == 0
    ensures Run(k, pins).port == k.port
    decreases |pins|
  {
    if pins != [] {
      HeldPinNoRetoggle(ChannelStep(k, pins[0]), pins[1..]);
    }
  }

  /** An isolated tap: from an idle, released channel, a single high
      sample toggles it exactly once. */
  lemma TapToggles(k: KPair)
    requires k.key == 0 && k.tout == 0
    ensures RisingEdge(k, 1)
    ensures Toggles(k, [1]) == 1
  {
  }
}
