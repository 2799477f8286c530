# Touch-toggle light controller

A model of the firmware of an AVR touch-toggle light controller
(`source/main.c`). Eight touch channels are sampled from one input
register on every pass of the control loop. A rising edge on a channel
toggles that channel's lamp, after which the channel ignores edges for
the next 299 passes, so two toggles of a channel are at least 300 passes
apart. Each channel's on/off state is shown on one bit of an output
port. The first three channels also drive a dimmable PWM output: while the
channel is on, its brightness climbs toward the ceiling by 15 per pass, and
while it is off the brightness falls toward 0 by 50 per pass. The high
byte of the brightness is written to the channel's compare register.

Layout:

- `bits.dfy` (module `Bits`): the bit view of the 8-bit port registers.
  `Bit` tests one bit, `Or` is bitwise or, and `MaskOf` builds the
  indicator byte from per-channel flags.
- `keys.dfy` (module `Keys`): the per-channel toggle record `KPair`
  (`struct kpair`). It holds `pinval` as the function `PinVal` and the
  lockout countdown as `CountDown`. One pass for one channel is
  `ChannelStep`, and `Run` is many passes. The lemmas cover toggling,
  lockout spacing and well-formedness.
- `ramp.dfy` (module `Ramp`): the brightness record `Pwm` (`struct pwm`),
  with 16-bit `unsigned int` arithmetic made explicit (`U16`, `Wrap16`).
  `Step` is one `handle_pwm` update of a valid channel and `Duty` is the
  compare-register value. The lemmas cover the bounds, monotonicity,
  saturation and full-fade durations.
- `controller.dfy` (module `Controller`): the global state as the class
  `Controller`, with `array<KPair>` of length 8 and `array<Pwm>` of
  length 3. Its constructor does the start-up zeroing and `init_pwm`. Its
  methods are `PinVal`, `HandlePwm`, `ServeChannel` (one channel of the
  loop body) and `Tick` (one pass of the loop). Each is proved against the
  pure functions. `NextKeys` and `NextPwms` give the whole state after one
  pass. `Ticks` gives the channel records, but not the brightness records,
  after many passes.

## Model

| member | source | states |
|---|---|---|
| `Bits.MaskOf` | source/main.c:85-92 | the indicator mask built from n channel flags is below 2^n, so eight channels fit the output byte |
| `Bits.OrBit` | source/main.c:91 | bit j of the bitwise or of a and b is set iff bit j of a or bit j of b is set |
| `Bits.OrClearBit` | source/main.c:87-91 | or-ing `1 << i` into a value below `1 << i`, whose bit i is clear, adds `2^i` to it |
| `Bits.MaskOfSnoc` | source/main.c:87-92 | adding `2^i` to the mask of the first i flags when flag i is set gives the mask of the first i + 1 flags; with `OrClearBit` this is the loop's or-assignment of `mask` into `val` |
| `Bits.MaskOfBit` | source/main.c:90-92 | bit j of the mask is set iff flag j is set, and no bit beyond the flags is set |
| `Keys.PinVal` | source/main.c:23-30 | after `pinval` the record's `key` equals the new sample, whether or not it toggled |
| `Keys.PinValToggles` | source/main.c:25-29 | `port` changes iff the sample is non-zero, differs from `key` and `tout == 0`; a toggle flips a binary `port` and sets `tout` to 300; otherwise `port` and `tout` are unchanged; `key` always becomes the sample |
| `Keys.CountDown` | source/main.c:93-95 | a positive `tout` drops by exactly 1; a zero one stays; `key` and `port` are untouched |
| `Keys.ChannelStep` | source/main.c:89-95 | after a channel's pass its `key` is that pass's sample |
| `Keys.ChannelStepOk` | source/main.c:23-30 | with single-bit samples, a pass keeps `key` and `port` in {0, 1} and `tout` in 0..299 |
| `Keys.ChannelStepCountdown` | source/main.c:86-95 | after a pass `tout` is 299 if the channel toggled, otherwise one less if it was positive, otherwise 0; it is never negative |
| `Keys.Run` | source/main.c:84-97 | after a run of passes the channel's `key` is the last sample, and an empty run changes nothing |
| `Keys.RunOk` | source/main.c:82-97 | well-formedness (binary `key`/`port`, `tout` in 0..299) holds after any run of single-bit samples |
| `Keys.LockoutQuiet` | source/main.c:93-95 | while `tout` is at least the number of passes, the channel never toggles, keeps its `port`, and `tout` drops by one per pass |
| `Keys.ToggleSpacing` | source/main.c:25-28 | after a toggle, none of the next 299 passes toggles, and after exactly 299 of them `tout` is 0; so two toggles of a channel are at least 300 passes apart |
| `Keys.RetoggleAtLockout` | source/main.c:25-28 | the 300-pass spacing is tight: after a toggle and 299 released passes, a touch on the next pass toggles again |
| `Keys.HeldPinNoRetoggle` | source/main.c:25-29 | a sample held at the stored non-zero value never toggles, however long it is held: an edge seen during lockout is dropped, not deferred |
| `Keys.TapToggles` | source/main.c:25-28 | from an idle, released channel, one high sample is a rising edge and toggles exactly once |
| `Ramp.Wrap16` | source/main.c:51 | 16-bit reduction is the identity on 0..65535 and adds 2^16 to a small negative value |
| `Ramp.Step` | source/main.c:49-62 | a ramp step never changes the ceiling `max` |
| `Ramp.Duty` | source/main.c:63-73 | the compare value is the high byte of `cur`: at most 255, with `d * 256 <= cur < (d + 1) * 256` |
| `Ramp.StepOnBounded` | source/main.c:50-55 | while on, with `max >= 15` and `cur <= max`, `cur` stays at most `max` and either grows by exactly 15 or becomes exactly `max` |
| `Ramp.StepOffBounded` | source/main.c:56-61 | while off, `cur` never underflows: it drops by exactly 50 or becomes exactly 0 |
| `Ramp.StepMonotone` | source/main.c:50-62 | a step never lowers `cur` while on and never raises it while off |
| `Ramp.StepSaturated` | source/main.c:50-62 | on with `cur == max`, or off with `cur == 0`, a step changes nothing |
| `Ramp.SmallCeilingOvershoots` | source/main.c:51 | with a ceiling below 15 the wrapped guard lets `cur` pass `max` (ceiling 10, `cur` 0 gives 15); `init_pwm` never sets such a ceiling |
| `Ramp.Steps` | source/main.c:96 | any number of ramp steps keeps the ceiling |
| `Ramp.StepsOnBounded` | source/main.c:50-55 | held on for any number of passes, with `max >= 15`, `cur` only rises and never exceeds `max` |
| `Ramp.StepsOnLinear` | source/main.c:50-55 | while n whole steps fit below `max`, n passes on raise `cur` by exactly 15n |
| `Ramp.StepsOffLinear` | source/main.c:56-61 | while n whole steps lie above 0, n passes off lower `cur` by exactly 50n |
| `Ramp.FullFadeIn` | source/main.c:41-55 | from dark with ceiling 0xffff, the lamp is 15 short after 4368 passes and at full brightness after 4369 |
| `Ramp.FullFadeOut` | source/main.c:56-61 | from full brightness, 1310 passes off leave 35 and the 1311th reaches 0 |
| `Controller.Sample` | source/main.c:87-89 | a channel's sample `!!(PINC & mask)` is 0 or 1, and 1 iff its bit of the input register is set |
| `Controller.MaskOfPorts` | source/main.c:85-92 | bit j of the indicator mask is set iff channel j's `port` is non-zero, and for eight channels the mask is below 256 |
| `Controller.NextKeysAt` | source/main.c:86-95 | in one pass channel j's new record depends only on its old record and its own input bit |
| `Controller.NextPwmsAt` | source/main.c:86-96 | in one pass PWM channel j's new brightness depends only on its old brightness and channel j's new `port` |
| `Controller.NextKeysOk` | source/main.c:82-97 | a pass keeps all eight channel records well-formed |
| `Controller.NextPwmsFull` | source/main.c:40-42 | a pass keeps every ceiling at 0xffff |
| `Controller.TicksChannel` | source/main.c:84-99 | over any number of passes, channel j's record equals that channel run alone on its own input bits, so the lockout lemmas hold for every channel |
| `Controller.Controller.constructor` | source/main.c:82-83 | start-up leaves every channel record all-zero and every PWM record with ceiling 0xffff and brightness 0 |
| `Controller.Controller.InitPwm` | source/main.c:40-42 | every ceiling becomes 0xffff and every brightness is kept |
| `Controller.Controller.PinVal` | source/main.c:23-30 | channel i's record becomes `PinVal` of its old record, and every other record is unchanged |
| `Controller.Controller.HandlePwm` | source/main.c:45-74 | an index of 3 or more changes nothing and writes nothing; otherwise only that channel's brightness takes one `Step` toward its `port`, and the written value is the `Duty` of the new brightness |
| `Controller.Controller.ServeChannel` | source/main.c:86-96 | only channel i's records change: its record takes a `ChannelStep`, and if it is dimmable its brightness takes a `Step` toward the new `port` |
| `Controller.Controller.Tick` | source/main.c:84-98 | one pass gives every channel its `ChannelStep` on its own input bit and every dimmable channel its `Step`. Bit i of the output byte is set iff channel i is on afterwards, and the output is below 256. The state stays well-formed with ceilings 0xffff |

## Left out

- Register setup is not modelled: the port directions (`DDRD`, `DDRC`, `DDRB`) and the timer and PWM configuration in `init_pwm`. It is hardware configuration with no logic.
- The input register `PINC` is a parameter of `Tick`. The writes to `OCR1A`, `OCR1B`, `OCR2` and `PORTD` become returned values.
- `PINC` is read once per channel inside the `for` loop, so one pass reads it eight times. `Tick` takes a single `pinc`. This matches the code as long as channel i only looks at bit i of its own read, which is all the loop does. A bit that changes between two reads within one pass is not modelled.
- The endless `while (1)` loop is modelled as one `Tick`, plus functions over finite runs of passes (`Run`, `Ticks`, `Steps`).
- `F_CPU` and the delay header are left out. The wall-clock length of a pass does not appear in the code.
- Controller.Controller.Tick: does not return the three compare-register values. `HandlePwm` returns each one, and each is the `Duty` of the channel's new brightness, which `Tick`'s ensures fix. Accumulating them in the loop made the proof too costly.
- C `int` is 16 bits on this target. `key`, `port` and `tout` are unbounded integers here, because `ChannelStepOk` shows they stay within 0..300 and never overflow.
- `handle_pwm` takes a signed `int` index. The model takes a natural number, since the loop only passes 0..7.
- A later revision of this firmware adds a debouncer with press/tap/release events and a six-state light machine. None of it is in `source/main.c`, so none of it is modelled.
