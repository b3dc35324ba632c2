/** The two-phase ADC sampling state machine of the sensor tag: the `SD14_ADC`
    interrupt handler and the `SetupSD14` arming routine it shares with the
    foreground loop.

    Every handler invocation is one atomic step (interrupts do not nest). A step
    is described twice: as the ordered log of register and variable writes the
    handler performs (`Handler`), and as the machine that results from applying
    that log (`Step`). Ordering properties are stated on the log, effects on
    the resulting machine. */
module Sampling {

  // Values of `enum state_type`. The static initial value of `State` is 0,
  // which is none of them.
  const IDLE_STATE: bv8 := 1
  const ONE_SHOT_TEMP_REFERENCE_SAMPLE_STATE: bv8 := 2
  const ONE_SHOT_TEMP_THERMISTOR_SAMPLE_STATE: bv8 := 3

  // Values of `enum Channel_Types`.
  const ADC0_CHANNEL: bv8 := 0x0
  const INTERNAL_TEMPERATURE_CHANNEL: bv8 := 0x1
  const THERMISTOR_ADC2_CHANNEL: bv8 := 0x2
  const REFERENCE_ADC1_CHANNEL: bv8 := 0x3

  /** `u16_t SamplesBuffer[4]`: slot 0 holds the reference-resistor code,
      slot 1 the thermistor code, slots 2 and 3 are never written. */
  type Buffer = b: seq<bv16> | |b| == 4 witness [0, 0, 0, 0]
  type Slot = i: int | 0 <= i < 4

  /** The SD14 converter registers, reduced to abstract flags.
      `excitation` stands for the fixed part of SD14CTL1 written with the
      channel (current source, unipolar mode, gain, interrupt delay);
      `interruptEnabled` for the fixed part of SD14CTL0 (interrupt enable,
      single conversion, clock divider). */
  datatype Adc = Adc(
    channel: bv8,
    excitation: bool,
    interruptEnabled: bool,
    enabled: bool,
    started: bool,
    overflow: bool,
    dataReady: bool)

  /** The variables the handler owns, the converter, and whether the current
      handler invocation asked the processor to leave low-power mode on exit. */
  datatype Machine = Machine(state: bv8, samples: Buffer, adc: Adc, wakeRequested: bool)

  /** The interrupt source reported by SD14IV: none pending, SD14IV__OV, or
      SD14IV__RES, a finished conversion carrying SD14MEM0. */
  datatype Event = None | Overflow | Conversion(code: bv16)

  /** One write performed by the handler or by `SetupSD14`. */
  datatype Effect =
    | WriteCtl1(channel: bv8)   // SD14CTL1 = fixed configuration + channel
    | WriteCtl0                 // SD14CTL0 = SD14IE + SD14SGL + SD14DIV1
    | SetEnable                 // SD14CTL0 |= SD14EN
    | SetStart                  // SD14CTL0 |= SD14SC
    | ClearEnable               // SD14CTL0 &= ~SD14EN
    | ClearOverflowFlag         // SD14CTL0 &= ~SD14OVIFG
    | ClearDataReadyFlag        // SD14CTL0 &= ~SD14IFG
    | SetState(value: bv8)      // State = value
    | StoreSample(slot: Slot, code: bv16)  // SamplesBuffer[slot] = SD14MEM0
    | WakeOnExit                // __bic_SR_register_on_exit(LPM4_bits)

  /** The converter as `SetupSD14` leaves it: configured for `channel`,
      enabled, conversion started, no flag pending. */
  function ArmedAdc(channel: bv8): Adc {
    Adc(channel, true, true, true, true, false, false)
  }

  function Apply(m: Machine, e: Effect): Machine {
    match e
    case WriteCtl1(c) => m.(adc := m.adc.(channel := c, excitation := true))
    // A whole-register write: every SD14CTL0 bit outside the three written
    // ones, the enable, start and both flags among them, becomes 0.
    case WriteCtl0 =>
      m.(adc := m.adc.(interruptEnabled := true, enabled := false, started := false,
                       overflow := false, dataReady := false))
    case SetEnable => m.(adc := m.adc.(enabled := true))
    case SetStart => m.(adc := m.adc.(started := true))
    case ClearEnable => m.(adc := m.adc.(enabled := false))
    case ClearOverflowFlag => m.(adc := m.adc.(overflow := false))
    case ClearDataReadyFlag => m.(adc := m.adc.(dataReady := false))
    case SetState(v) => m.(state := v)
    case StoreSample(i, code) => m.(samples := m.samples[i := code])
    case WakeOnExit => m.(wakeRequested := true)
  }

  /** Applies a log of writes in order. */
  function ApplyAll(m: Machine, es: seq<Effect>): Machine
    decreases |es|
  {
    if es == [] then m else ApplyAll(Apply(m, es[0]), es[1..])
  }

  lemma {:induction false} ApplyAllConcat(m: Machine, a: seq<Effect>, b: seq<Effect>)
    ensures ApplyAll(m, a + b) == ApplyAll(ApplyAll(m, a), b)
    decreases |a|
  {
    if a == [] {
      assert a + b == b;
    } else {
      assert (a + b)[1..] == a[1..] + b;
      ApplyAllConcat(Apply(m, a[0]), a[1..], b);
    }
  }

  /** Every occurrence of `a` in `log` comes before every occurrence of `b`,
      and both occur. */
  ghost predicate Before<T>(log: seq<T>, a: T, b: T) {
    && a in log
    && b in log
    && forall i, j :: 0 <= i < |log| && 0 <= j < |log| && log[i] == a && log[j] == b ==> i < j
  }

  /** The writes of `SetupSD14(channel)`. */
  function SetupSD14(channel: bv8): seq<Effect> {
    [WriteCtl1(channel), WriteCtl0, SetEnable, SetStart]
  }

  /** `SetupSD14` selects the channel, clears every pending flag, enables the
      converter and only then starts the conversion; nothing but the
      converter changes. */
  lemma SetupSD14Arms(m: Machine, channel: bv8)
    ensures ApplyAll(m, SetupSD14(channel)) == m.(adc := ArmedAdc(channel))
    ensures Before(SetupSD14(channel), WriteCtl1(channel), SetEnable)
    ensures Before(SetupSD14(channel), WriteCtl0, SetEnable)
    ensures Before(SetupSD14(channel), SetEnable, SetStart)
  {
    var es := SetupSD14(channel);
    var m1 := Apply(m, WriteCtl1(channel));
    var m2 := Apply(m1, WriteCtl0);
    var m3 := Apply(m2, SetEnable);
    calc {
      ApplyAll(m, es);
      ApplyAll(m1, es[1..]);
      { assert es[1..][1..] == [SetEnable, SetStart]; }
      ApplyAll(m2, [SetEnable, SetStart]);
      { assert [SetEnable, SetStart][1..] == [SetStart]; }
      ApplyAll(m3, [SetStart]);
      { assert [SetStart][1..] == []; }
      Apply(m3, SetStart);
    }
  }

  /** The writes `SD14_ADC` performs for interrupt source `ev` when `State`
      holds `m.state`. */
  function Handler(m: Machine, ev: Event): seq<Effect> {
    match ev
    case None => []
    case Overflow => [ClearOverflowFlag]
    case Conversion(code) =>
      [ClearDataReadyFlag] +
      if m.state == ONE_SHOT_TEMP_REFERENCE_SAMPLE_STATE then
        [SetState(ONE_SHOT_TEMP_THERMISTOR_SAMPLE_STATE), StoreSample(0, code)]
        + SetupSD14(THERMISTOR_ADC2_CHANNEL)
      else if m.state == ONE_SHOT_TEMP_THERMISTOR_SAMPLE_STATE then
        [StoreSample(1, code), ClearEnable, SetState(IDLE_STATE), WakeOnExit]
      else
        []
  }

  /** One invocation of `SD14_ADC`. The wake request belongs to this
      invocation only, so it starts out cleared. */
  function Step(m: Machine, ev: Event): Machine {
    ApplyAll(m.(wakeRequested := false), Handler(m, ev))
  }

  /** No interrupt pending, an overflow, or a result outside the two sampling
      states: `State` and the buffer stay as they were and no wake is
      requested. An overflow clears the overflow flag and nothing else; a
      result clears the data-ready flag and nothing else. */
  lemma NonSamplingEvents(m: Machine, ev: Event)
    requires ev.Conversion? ==> m.state != ONE_SHOT_TEMP_REFERENCE_SAMPLE_STATE
    requires ev.Conversion? ==> m.state != ONE_SHOT_TEMP_THERMISTOR_SAMPLE_STATE
    ensures Step(m, ev).state == m.state
    ensures Step(m, ev).samples == m.samples
    ensures !Step(m, ev).wakeRequested
    ensures ev.None? ==> Step(m, ev) == m.(wakeRequested := false)
    ensures ev.Overflow? ==> Step(m, ev) == m.(adc := m.adc.(overflow := false), wakeRequested := false)
    ensures ev.Conversion? ==> Step(m, ev) == m.(adc := m.adc.(dataReady := false), wakeRequested := false)
  {
    var m0 := m.(wakeRequested := false);
    match ev
    case None =>
    case Overflow =>
      assert ApplyAll(m0, [ClearOverflowFlag]) == ApplyAll(Apply(m0, ClearOverflowFlag), []);
    case Conversion(code) =>
      assert Handler(m, ev) == [ClearDataReadyFlag];
      assert ApplyAll(m0, [ClearDataReadyFlag]) == ApplyAll(Apply(m0, ClearDataReadyFlag), []);
  }

  /** A result in the reference phase: the data-ready flag is cleared first,
      the code lands in slot 0, `State` moves to the thermistor phase and the
      converter is re-armed on the thermistor channel within the same
      invocation, without a wake request. */
  lemma ReferenceResult(m: Machine, r: bv16)
    requires m.state == ONE_SHOT_TEMP_REFERENCE_SAMPLE_STATE
    ensures Step(m, Conversion(r)).state == ONE_SHOT_TEMP_THERMISTOR_SAMPLE_STATE
    ensures Step(m, Conversion(r)).samples == m.samples[0 := r]
    ensures Step(m, Conversion(r)).adc == ArmedAdc(THERMISTOR_ADC2_CHANNEL)
    ensures !Step(m, Conversion(r)).wakeRequested
  {
    var head := [ClearDataReadyFlag, SetState(ONE_SHOT_TEMP_THERMISTOR_SAMPLE_STATE), StoreSample(0, r)];
    var es := Handler(m, Conversion(r));
    assert es == head + SetupSD14(THERMISTOR_ADC2_CHANNEL);
    var m0 := m.(wakeRequested := false);
    var m1 := Apply(m0, ClearDataReadyFlag);
    var m2 := Apply(m1, SetState(ONE_SHOT_TEMP_THERMISTOR_SAMPLE_STATE));
    var m3 := Apply(m2, StoreSample(0, r));
    calc {
      ApplyAll(m0, head);
      ApplyAll(m1, head[1..]);
      { assert head[1..][1..] == [StoreSample(0, r)]; }
      ApplyAll(m2, [StoreSample(0, r)]);
      { assert [StoreSample(0, r)][1..] == []; }
      m3;
    }
    ApplyAllConcat(m0, head, SetupSD14(THERMISTOR_ADC2_CHANNEL));
    SetupSD14Arms(m3, THERMISTOR_ADC2_CHANNEL);
  }

  /** In the reference phase the data-ready flag is cleared first, the code
      is stored before the converter is reconfigured, and the converter is
      enabled before the new conversion is started. */
  lemma ReferenceResultOrder(m: Machine, r: bv16)
    requires m.state == ONE_SHOT_TEMP_REFERENCE_SAMPLE_STATE
    ensures Handler(m, Conversion(r))[0] == ClearDataReadyFlag
    ensures Before(Handler(m, Conversion(r)), StoreSample(0, r), WriteCtl1(THERMISTOR_ADC2_CHANNEL))
    ensures Before(Handler(m, Conversion(r)), SetEnable, SetStart)
  {
    var es := Handler(m, Conversion(r));
    assert es == [ClearDataReadyFlag, SetState(ONE_SHOT_TEMP_THERMISTOR_SAMPLE_STATE), StoreSample(0, r),
                  WriteCtl1(THERMISTOR_ADC2_CHANNEL), WriteCtl0, SetEnable, SetStart];
  }

  /** A result in the thermistor phase: the data-ready flag is cleared first,
      the code lands in slot 1, the converter is switched off, `State`
      returns to idle and a wake-on-exit is requested as the last write. */
  lemma ThermistorResult(m: Machine, r: bv16)
    requires m.state == ONE_SHOT_TEMP_THERMISTOR_SAMPLE_STATE
    ensures Step(m, Conversion(r)).state == IDLE_STATE
    ensures Step(m, Conversion(r)).samples == m.samples[1 := r]
    ensures Step(m, Conversion(r)).adc == m.adc.(enabled := false, dataReady := false)
    ensures Step(m, Conversion(r)).wakeRequested
    ensures Handler(m, Conversion(r))[0] == ClearDataReadyFlag
    ensures Before(Handler(m, Conversion(r)), StoreSample(1, r), WakeOnExit)
    ensures Before(Handler(m, Conversion(r)), ClearEnable, WakeOnExit)
  {
    var es := Handler(m, Conversion(r));
    assert es == [ClearDataReadyFlag, StoreSample(1, r), ClearEnable, SetState(IDLE_STATE), WakeOnExit];
    var m0 := m.(wakeRequested := false);
    var m1 := Apply(m0, ClearDataReadyFlag);
    var m2 := Apply(m1, StoreSample(1, r));
    var m3 := Apply(m2, ClearEnable);
    var m4 := Apply(m3, SetState(IDLE_STATE));
    calc {
      ApplyAll(m0, es);
      ApplyAll(m1, es[1..]);
      { assert es[1..][1..] == [ClearEnable, SetState(IDLE_STATE), WakeOnExit]; }
      ApplyAll(m2, [ClearEnable, SetState(IDLE_STATE), WakeOnExit]);
      { assert [ClearEnable, SetState(IDLE_STATE), WakeOnExit][1..] == [SetState(IDLE_STATE), WakeOnExit]; }
      ApplyAll(m3, [SetState(IDLE_STATE), WakeOnExit]);
      { assert [SetState(IDLE_STATE), WakeOnExit][1..] == [WakeOnExit]; }
      ApplyAll(m4, [WakeOnExit]);
      { assert [WakeOnExit][1..] == []; }
      Apply(m4, WakeOnExit);
    }
  }

  /** `State` only ever moves reference -> thermistor -> idle, one phase per
      step. */
  ghost predicate Advances(from: bv8, to: bv8) {
    || (from == ONE_SHOT_TEMP_REFERENCE_SAMPLE_STATE && to == ONE_SHOT_TEMP_THERMISTOR_SAMPLE_STATE)
    || (from == ONE_SHOT_TEMP_THERMISTOR_SAMPLE_STATE && to == IDLE_STATE)
  }

  /** Every step either keeps `State` or advances it one phase along the
      cycle; a wake is requested exactly when a result completes the
      thermistor phase; slots 2 and 3 are never written. */
  lemma StepFollowsCycle(m: Machine, ev: Event)
    ensures Step(m, ev).state == m.state || Advances(m.state, Step(m, ev).state)
    ensures Step(m, ev).wakeRequested <==> ev.Conversion? && m.state == ONE_SHOT_TEMP_THERMISTOR_SAMPLE_STATE
    ensures Step(m, ev).samples[2..] == m.samples[2..]
  {
    if ev.Conversion? && m.state == ONE_SHOT_TEMP_REFERENCE_SAMPLE_STATE {
      ReferenceResult(m, ev.code);
    } else if ev.Conversion? && m.state == ONE_SHOT_TEMP_THERMISTOR_SAMPLE_STATE {
      ThermistorResult(m, ev.code);
    } else {
      NonSamplingEvents(m, ev);
    }
  }
}
