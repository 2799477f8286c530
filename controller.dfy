/** The controller's global state and its per-tick control loop: eight
    touch channels, the first three of which also drive a dimmable PWM
    output. */
module Controller {
  import opened Bits
  import opened Keys
  import opened Ramp

  datatype Option<T> = None | Some(value: T)

  /** The one-bit sample of channel i in the input register:
      `!!(PINC & (1 << i))`. */
  function Sample(pinc: nat, i: nat): (pin: int)
    ensures pin == 0 || pin == 1
    ensures pin == 1 <==> Bit(pinc, i)
  {
    if Bit(pinc, i) then 1 else 0
  }

  /** Which channels of a sequence of records are on. */
  function PortsOn(ks: seq<KPair>): (on: seq<bool>)
    ensures |on| == |ks|
    decreases |ks|
  {
    if ks == [] then [] else PortsOn(ks[..|ks| - 1]) + [ks[|ks| - 1].port != 0]
  }

  lemma {:induction false} PortsOnAt(ks: seq<KPair>, j: nat)
    requires j < |ks|
    ensures PortsOn(ks)[j] <==> ks[j].port != 0
    decreases |ks|
  {
    if j < |ks| - 1 {
      PortsOnAt(ks[..|ks| - 1], j);
    }
  }

  /** Bit j of the indicator mask of a run of channel records is set
      exactly when record j is on, and for the eight channels the mask
      fits the output byte. */
  lemma {:induction false} MaskOfPorts(ks: seq<KPair>)
    ensures forall j :: 0 <= j < |ks| ==> (Bit(MaskOf(PortsOn(ks)), j) <==> ks[j].port != 0)
    ensures |ks| == NUM_KEYS ==> MaskOf(PortsOn(ks)) < 0x100
  {
    forall j | 0 <= j < |ks|
      ensures Bit(MaskOf(PortsOn(ks)), j) <==> ks[j].port != 0
    {
      MaskOfBit(PortsOn(ks), j);
      PortsOnAt(ks, j);
    }
    assert Pow2(NUM_KEYS) == 0x100;
  }

  /** Extending a run of records by the next one extends the indicator
      mask by that record's bit. */
  lemma {:induction false} PortsOnSnoc(ks: seq<KPair>, i: nat)
    requires i < |ks|
    ensures MaskOf(PortsOn(ks[..i + 1])) == MaskOf(PortsOn(ks[..i])) + (if ks[i].port != 0 then Pow2(i) else 0)
  {
    assert ks[..i + 1][..i] == ks[..i];
    MaskOfSnoc(PortsOn(ks[..i]), ks[i].port != 0);
  }

  /** The channel records after one tick, each channel stepped on its
      own bit of the input register. */
  function NextKeys(ks: seq<KPair>, pinc: nat): (r: seq<KPair>)
    ensures |r| == |ks|
    decreases |ks|
  {
    if ks == [] then []
    else NextKeys(ks[..|ks| - 1], pinc) + [ChannelStep(ks[|ks| - 1], Sample(pinc, |ks| - 1))]
  }

  /** Channel j's record after a tick depends only on its own record and
      its own input bit. */
  lemma {:induction false} NextKeysAt(ks: seq<KPair>, pinc: nat, j: nat)
    requires j < |ks|
    ensures NextKeys(ks, pinc)[j] == ChannelStep(ks[j], Sample(pinc, j))
    decreases |ks|
  {
    if j < |ks| - 1 {
      NextKeysAt(ks[..|ks| - 1], pinc, j);
    }
  }

  /** The brightness records after one tick, each ramped toward the new
      state of the channel with the same index. */
  function NextPwms(ps: seq<Pwm>, ks: seq<KPair>): (r: seq<Pwm>)
    requires |ps| <= |ks|
    ensures |r| == |ps|
    decreases |ps|
  {
    if ps == [] then []
    else NextPwms(ps[..|ps| - 1], ks) + [Step(ps[|ps| - 1], ks[|ps| - 1].port != 0)]
  }

  /** Dimmable channel j's brightness after a tick depends only on its own
      brightness and its own channel's new state. */
  lemma {:induction false} NextPwmsAt(ps: seq<Pwm>, ks: seq<KPair>, j: nat)
    requires |ps| <= |ks|
    requires j < |ps|
    ensures NextPwms(ps, ks)[j] == Step(ps[j], ks[j].port != 0)
    decreases |ps|
  {
    if j < |ps| - 1 {
      NextPwmsAt(ps[..|ps| - 1], ks, j);
    }
  }

  /** Every channel record is well-formed. */
  ghost predicate KeysOk(ks: seq<KPair>)
  {
    forall j :: 0 <= j < |ks| ==> ChannelOk(ks[j])
  }

  /** Every brightness record has the ceiling `init_pwm` gives it. */
  ghost predicate PwmsFull(ps: seq<Pwm>)
  {
    forall j :: 0 <= j < |ps| ==> ps[j].max == FULL
  }

  /** A tick keeps every channel record well-formed. */
  lemma {:induction false} NextKeysOk(ks: seq<KPair>, pinc: nat)
    requires KeysOk(ks)
    ensures KeysOk(NextKeys(ks, pinc))
  {
    forall j | 0 <= j < |ks|
      ensures ChannelOk(NextKeys(ks, pinc)[j])
    {
      NextKeysAt(ks, pinc, j);
      ChannelStepOk(ks[j], Sample(pinc, j));
    }
  }

  /** A tick keeps every ceiling. */
  lemma {:induction false} NextPwmsFull(ps: seq<Pwm>, ks: seq<KPair>)
    requires |ps| <= |ks|
    requires PwmsFull(ps)
    ensures PwmsFull(NextPwms(ps, ks))
  {
    forall j | 0 <= j < |ps|
      ensures NextPwms(ps, ks)[j].max == FULL
    {
      NextPwmsAt(ps, ks, j);
    }
  }

  /** The channel records after a run of ticks, one input register read
      per tick. */
  function Ticks(ks: seq<KPair>, pincs: seq<nat>): (r: seq<KPair>)
    ensures |r| == |ks|
    decreases |pincs|
  {
    if pincs == [] then ks else Ticks(NextKeys(ks, pincs[0]), pincs[1..])
  }

  /** Channel j's samples across a run of input register reads. */
  function ChannelSamples(pincs: seq<nat>, j: nat): (pins: seq<int>)
    ensures |pins| == |pincs|
    decreases |pincs|
  {
    if pincs == [] then [] else [Sample(pincs[0], j)] + ChannelSamples(pincs[1..], j)
  }

  /** Across any number of ticks each channel evolves on its own: its
      record is that of the channel run alone on its own input bits, so
      the single-channel lockout properties (LockoutQuiet, ToggleSpacing)
      hold for every channel of the controller. */
  lemma {:induction false} TicksChannel(ks: seq<KPair>, pincs: seq<nat>, j: nat)
    requires j < |ks|
    ensures Ticks(ks, pincs)[j] == Run(ks[j], ChannelSamples(pincs, j))
    decreases |pincs|
  {
    if pincs != [] {
      NextKeysAt(ks, pincs[0], j);
      TicksChannel(NextKeys(ks, pincs[0]), pincs[1..], j);
      var s := ChannelSamples(pincs, j);
      assert s[0] == Sample(pincs[0], j) && s[1..] == ChannelSamples(pincs[1..], j);
    }
  }

  class Controller {
    /** `kpairs`: one toggle record per touch channel. */
    var kpairs: array<KPair>
    /** `pwms`: one brightness record per dimmable channel. */
    var pwms: array<Pwm>

    /** The state every tick starts and ends in: the array sizes, well-formed
        channel records, and the ceiling `init_pwm` set. */
    ghost predicate Valid()
      reads this, kpairs, pwms
    {
      kpairs.Length == NUM_KEYS && pwms.Length == NUM_PWMS &&
      KeysOk(kpairs[..]) && PwmsFull(pwms[..])
    }

    /** Start-up: the channel records are zeroed, the brightness records
        start zeroed as all globals do, and `init_pwm` sets their ceilings. */
    constructor ()
      ensures Valid()
      ensures fresh(kpairs) && fresh(pwms)
      ensures forall j :: 0 <= j < NUM_KEYS ==> kpairs[j] == INITIAL
      ensures forall j :: 0 <= j < NUM_PWMS ==> pwms[j] == Pwm(FULL, 0)
    {
      kpairs := new KPair[NUM_KEYS](_ => INITIAL);
      pwms := new Pwm[NUM_PWMS](_ => Pwm(0, 0));
      new;
      InitPwm();
    }

    /** The modelled part of `init_pwm`: every ceiling becomes FULL and the
        current brightness is kept. */
    method InitPwm()
      modifies pwms
      ensures forall j :: 0 <= j < pwms.Length ==> pwms[j] == old(pwms[j]).(max := FULL)
    {
      var i := 0;
      while i < pwms.Length
        invariant 0 <= i <= pwms.Length
        invariant forall j :: 0 <= j < i ==> pwms[j] == old(pwms[j]).(max := FULL)
        invariant forall j :: i <= j < pwms.Length ==> pwms[j] == old(pwms[j])
      {
        pwms[i] := pwms[i].(max := FULL);
        i := i + 1;
      }
    }

    /** `pinval` on channel i's record, in place; no other record changes. */
    method PinVal(i: nat, pin: int)
      requires i < kpairs.Length
      modifies kpairs
      ensures kpairs[..] == old(kpairs[..])[i := Keys.PinVal(old(kpairs[i]), pin)]
    {
      var k := kpairs[i];
      if pin != 0 && k.key != pin && k.tout == 0 {
        k := k.(port := if k.port != 0 then 0 else 1, tout := LOCKOUT);
      }
      kpairs[i] := k.(key := pin);
    }

    /** `handle_pwm`: an index past the dimmable channels changes nothing
        and writes nothing; otherwise that channel's brightness takes one
        ramp step in the direction of the channel's state, the others are
        kept, and the high byte of the new brightness is written out. */
    method HandlePwm(index: nat, k: KPair) returns (duty: Option<nat>)
      requires pwms.Length == NUM_PWMS
      modifies pwms
      ensures index >= NUM_PWMS ==> duty == None && pwms[..] == old(pwms[..])
      ensures index < NUM_PWMS ==>
        pwms[..] == old(pwms[..])[index := Step(old(pwms[index]), k.port != 0)] &&
        duty == Some(Duty(pwms[index].cur))
    {
      if index >= NUM_PWMS {
        return None;
      }
      var p := pwms[index];
      if k.port != 0 && p.cur < p.max {
        if p.cur > Wrap16(p.max - STEP_ON) {
          p := p.(cur := p.max);
        } else {
          p := p.(cur := p.cur + STEP_ON);
        }
      } else if k.port == 0 && p.cur > 0 {
        if p.cur < STEP_OFF {
          p := p.(cur := 0);
        } else {
          p := p.(cur := p.cur - STEP_OFF);
        }
      }
      pwms[index] := p;
      duty := Some(p.cur / 0x100);
    }

    /** The body of the control loop for channel i, with `pin` its sample:
        `pinval`, the lockout countdown and `handle_pwm`. Only channel i's
        records change. */
    method ServeChannel(i: nat, pin: int) returns (duty: Option<nat>)
      requires kpairs.Length == NUM_KEYS && pwms.Length == NUM_PWMS
      requires i < NUM_KEYS
      modifies kpairs, pwms
      ensures kpairs[i] == ChannelStep(old(kpairs[i]), pin)
      ensures forall j :: 0 <= j < NUM_KEYS && j != i ==> kpairs[j] == old(kpairs[j])
      ensures i < NUM_PWMS ==> pwms[i] == Step(old(pwms[i]), kpairs[i].port != 0)
      ensures forall j :: 0 <= j < NUM_PWMS && j != i ==> pwms[j] == old(pwms[j])
      ensures duty == if i < NUM_PWMS then Some(Duty(pwms[i].cur)) else None
    {
      PinVal(i, pin);
      if kpairs[i].tout > 0 {
        kpairs[i] := kpairs[i].(tout := kpairs[i].tout - 1);
      }
      duty := HandlePwm(i, kpairs[i]);
    }

    /** One pass of the control loop. `pinc` is the input register read
        and `val` the byte written to the indicator port. Each channel takes
        one ChannelStep on its own bit of `pinc`, each dimmable channel one
        ramp step toward its channel's new state (HandlePwm writes the
        Duty of that new brightness), and bit i of `val` is set exactly
        when channel i is on afterwards. */
    method Tick(pinc: nat) returns (val: nat)
      requires Valid()
      modifies kpairs, pwms
      ensures Valid()
      ensures kpairs[..] == NextKeys(old(kpairs[..]), pinc)
      ensures pwms[..] == NextPwms(old(pwms[..]), kpairs[..])
      ensures val == MaskOf(PortsOn(kpairs[..]))
      ensures forall j :: 0 <= j < NUM_KEYS ==> (Bit(val, j) <==> kpairs[j].port != 0)
      ensures val < 0x100
    {
      ghost var k0, p0 := kpairs[..], pwms[..];
      ghost var k1 := NextKeys(k0, pinc);
      ghost var p1 := NextPwms(p0, k1);
      val := 0;
      for i := 0 to NUM_KEYS
        invariant forall j :: 0 <= j < i ==> kpairs[j] == k1[j]
        invariant forall j :: i <= j < NUM_KEYS ==> kpairs[j] == k0[j]
        invariant forall j :: 0 <= j < NUM_PWMS ==> pwms[j] == if j < i then p1[j] else p0[j]
        invariant val == MaskOf(PortsOn(k1[..i]))
      {
        NextKeysAt(k0, pinc, i);
        if i < NUM_PWMS {
          NextPwmsAt(p0, k1, i);
        }
        var mask := Pow2(i);
        var _ := ServeChannel(i, Sample(pinc, i));
        if kpairs[i].port != 0 {
          OrClearBit(val, i);
          val := Or(val, mask);
        }
        PortsOnSnoc(k1, i);
      }
      assert kpairs[..] == k1 && k1[..NUM_KEYS] == k1;
      assert pwms[..] == p1;
      MaskOfPorts(k1);
      NextKeysOk(k0, pinc);
      NextPwmsFull(p0, k1);
    }
  }
}
