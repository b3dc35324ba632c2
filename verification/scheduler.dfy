/** The foreground loop of `main` (the `while(1)` body) and what sequences of
    `SD14_ADC` invocations do to the sampling machine.

    The foreground arms the reference phase, sleeps until an interrupt asks
    it to wake, then sleeps a second time. Only the thermistor-phase result
    requests a wake, so the second sleep is never left and the loop body
    runs exactly once: `SecondSleepIsFinal` proves it rather than assuming
    it. */
module Scheduler {
  import opened Sampling

  /** Lines 211-212: `State = ONE_SHOT_TEMP_REFERENCE_SAMPLE_STATE;
      SetupSD14(REFERENCE_ADC1_CHANNEL);`. */
  function ArmEffects(): seq<Effect> {
    [SetState(ONE_SHOT_TEMP_REFERENCE_SAMPLE_STATE)] + SetupSD14(REFERENCE_ADC1_CHANNEL)
  }

  function Arm(m: Machine): Machine {
    ApplyAll(m, ArmEffects())
  }

  /** Arming enters the reference phase with the converter started on the
      reference channel; the buffer and the wake flag are left alone. */
  lemma ArmStartsReferencePhase(m: Machine)
    ensures Arm(m) == m.(state := ONE_SHOT_TEMP_REFERENCE_SAMPLE_STATE, adc := ArmedAdc(REFERENCE_ADC1_CHANNEL))
  {
    var m1 := Apply(m, SetState(ONE_SHOT_TEMP_REFERENCE_SAMPLE_STATE));
    assert ApplyAll(m, [SetState(ONE_SHOT_TEMP_REFERENCE_SAMPLE_STATE)]) == m1;
    ApplyAllConcat(m, [SetState(ONE_SHOT_TEMP_REFERENCE_SAMPLE_STATE)], SetupSD14(REFERENCE_ADC1_CHANNEL));
    SetupSD14Arms(m1, REFERENCE_ADC1_CHANNEL);
  }

  /** The machine after one handler invocation per event, in order. */
  function Run(m: Machine, evs: seq<Event>): Machine
    decreases |evs|
  {
    if evs == [] then m else Run(Step(m, evs[0]), evs[1..])
  }

  /** How many of those invocations requested a wake. */
  function WakeCount(m: Machine, evs: seq<Event>): nat
    decreases |evs|
  {
    if evs == [] then 0
    else (if Step(m, evs[0]).wakeRequested then 1 else 0) + WakeCount(Step(m, evs[0]), evs[1..])
  }

  /** `State` lies in `states` before the run and after every invocation. */
  ghost predicate Within(m: Machine, evs: seq<Event>, states: set<bv8>)
    decreases |evs|
  {
    m.state in states && (evs == [] || Within(Step(m, evs[0]), evs[1..], states))
  }

  /** Events that are not conversion results. */
  ghost predicate Quiet(evs: seq<Event>) {
    forall i :: 0 <= i < |evs| ==> !evs[i].Conversion?
  }

  lemma {:induction false} RunConcat(m: Machine, a: seq<Event>, b: seq<Event>, states: set<bv8>)
    ensures Run(m, a + b) == Run(Run(m, a), b)
    ensures WakeCount(m, a + b) == WakeCount(m, a) + WakeCount(Run(m, a), b)
    ensures Within(m, a + b, states) <== Within(m, a, states) && Within(Run(m, a), b, states)
    decreases |a|
  {
    if a == [] {
      assert a + b == b;
    } else {
      assert (a + b)[1..] == a[1..] + b;
      RunConcat(Step(m, a[0]), a[1..], b, states);
    }
  }

  /** Overflows and empty interrupts leave `State` and the buffer alone and
      never wake the foreground. */
  lemma {:induction false} QuietRun(m: Machine, evs: seq<Event>, states: set<bv8>)
    requires Quiet(evs)
    requires m.state in states
    ensures Run(m, evs).state == m.state
    ensures Run(m, evs).samples == m.samples
    ensures WakeCount(m, evs) == 0
    ensures Within(m, evs, states)
    decreases |evs|
  {
    if evs != [] {
      NonSamplingEvents(m, evs[0]);
      assert Quiet(evs[1..]) by {
        forall i | 0 <= i < |evs[1..]| ensures !evs[1..][i].Conversion? {
          assert evs[1..][i] == evs[i + 1];
        }
      }
      QuietRun(Step(m, evs[0]), evs[1..], states);
    }
  }

  /** Outside the two sampling phases every event, results included, leaves
      `State` and the buffer alone and never wakes the foreground. */
  lemma {:induction false} IdleRun(m: Machine, evs: seq<Event>, states: set<bv8>)
    requires m.state != ONE_SHOT_TEMP_REFERENCE_SAMPLE_STATE
    requires m.state != ONE_SHOT_TEMP_THERMISTOR_SAMPLE_STATE
    requires m.state in states
    ensures Run(m, evs).state == m.state
    ensures Run(m, evs).samples == m.samples
    ensures Run(m, evs).adc.enabled == m.adc.enabled
    ensures WakeCount(m, evs) == 0
    ensures Within(m, evs, states)
    decreases |evs|
  {
    if evs != [] {
      NonSamplingEvents(m, evs[0]);
      IdleRun(Step(m, evs[0]), evs[1..], states);
    }
  }

  /** The reference phase: empty and overflow interrupts, then the result
      `r`, which lands in slot 0 and moves `State` to the thermistor phase
      without waking the foreground. */
  lemma {:induction false} ReferencePhase(m: Machine, quiet: seq<Event>, r: bv16)
    requires m.state == ONE_SHOT_TEMP_REFERENCE_SAMPLE_STATE
    requires Quiet(quiet)
    ensures Run(m, quiet + [Conversion(r)]).state == ONE_SHOT_TEMP_THERMISTOR_SAMPLE_STATE
    ensures Run(m, quiet + [Conversion(r)]).samples == m.samples[0 := r]
    ensures WakeCount(m, quiet + [Conversion(r)]) == 0
    ensures Within(m, quiet + [Conversion(r)], {1, 2, 3})
  {
    QuietRun(m, quiet, {1, 2, 3});
    var a := Run(m, quiet);
    ReferenceResult(a, r);
    assert Run(a, [Conversion(r)]) == Step(a, Conversion(r));
    assert WakeCount(a, [Conversion(r)]) == 0;
    assert Within(a, [Conversion(r)], {1, 2, 3});
    RunConcat(m, quiet, [Conversion(r)], {1, 2, 3});
  }

  /** The thermistor phase: empty and overflow interrupts, then the result
      `r`, which lands in slot 1, switches the converter off, returns `State`
      to idle and wakes the foreground once. */
  lemma {:induction false} ThermistorPhase(m: Machine, quiet: seq<Event>, r: bv16)
    requires m.state == ONE_SHOT_TEMP_THERMISTOR_SAMPLE_STATE
    requires Quiet(quiet)
    ensures Run(m, quiet + [Conversion(r)]).state == IDLE_STATE
    ensures Run(m, quiet + [Conversion(r)]).samples == m.samples[1 := r]
    ensures !Run(m, quiet + [Conversion(r)]).adc.enabled
    ensures WakeCount(m, quiet) == 0
    ensures WakeCount(m, quiet + [Conversion(r)]) == 1
    ensures Within(m, quiet + [Conversion(r)], {1, 2, 3})
  {
    QuietRun(m, quiet, {1, 2, 3});
    var a := Run(m, quiet);
    ThermistorResult(a, r);
    assert Run(a, [Conversion(r)]) == Step(a, Conversion(r));
    assert WakeCount(a, [Conversion(r)]) == 1;
    assert Within(a, [Conversion(r)], {1, 2, 3});
    RunConcat(m, quiet, [Conversion(r)], {1, 2, 3});
  }

  /** One sampling cycle. From the arming of lines 211-212, any mix of empty
      and overflow interrupts around the reference result `r0` and the
      thermistor result `r1`, followed by any events at all, leaves `r0` in
      slot 0, `r1` in slot 1, slots 2 and 3 as they were, `State` idle and
      the converter off; exactly one invocation requests a wake, and `State`
      never leaves the three values of `enum state_type`. */
  lemma FullCycle(m0: Machine, pre: seq<Event>, r0: bv16, mid: seq<Event>, r1: bv16, post: seq<Event>)
    requires Quiet(pre) && Quiet(mid)
    ensures Run(Arm(m0), pre + [Conversion(r0)] + mid + [Conversion(r1)] + post).samples
         == [r0, r1, m0.samples[2], m0.samples[3]]
    ensures Run(Arm(m0), pre + [Conversion(r0)] + mid + [Conversion(r1)] + post).state == IDLE_STATE
    ensures !Run(Arm(m0), pre + [Conversion(r0)] + mid + [Conversion(r1)] + post).adc.enabled
    ensures WakeCount(Arm(m0), pre + [Conversion(r0)] + mid + [Conversion(r1)] + post) == 1
    ensures Within(Arm(m0), pre + [Conversion(r0)] + mid + [Conversion(r1)] + post, {1, 2, 3})
  {
    var m := Arm(m0);
    var e1 := pre + [Conversion(r0)];
    var e2 := mid + [Conversion(r1)];
    assert pre + [Conversion(r0)] + mid + [Conversion(r1)] + post == e1 + e2 + post;
    ArmStartsReferencePhase(m0);
    ReferencePhase(m, pre, r0);
    var b := Run(m, e1);
    ThermistorPhase(b, mid, r1);
    var d := Run(b, e2);
    IdleRun(d, post, {1, 2, 3});
    RunConcat(m, e1, e2, {1, 2, 3});
    RunConcat(m, e1 + e2, post, {1, 2, 3});
    assert d.samples == [r0, r1, m0.samples[2], m0.samples[3]];
  }

  /** Where the foreground is parked: the low-power wait of line 213 or the
      one of line 218. */
  datatype Foreground = FirstSleep | SecondSleep

  datatype Board = Board(fg: Foreground, m: Machine)

  /** `main` reaches the first sleep right after arming. */
  function Boot(m: Machine): Board {
    Board(FirstSleep, Arm(m))
  }

  /** One handler invocation, and the foreground code it releases: a wake in
      the first sleep runs on to the second sleep; a wake in the second
      sleep would run on around the loop, re-arm, and sleep again. */
  function Deliver(b: Board, ev: Event): Board {
    var m' := Step(b.m, ev);
    if !m'.wakeRequested then Board(b.fg, m')
    else if b.fg == FirstSleep then Board(SecondSleep, m')
    else Board(FirstSleep, Arm(m'))
  }

  function RunBoard(b: Board, evs: seq<Event>): Board
    decreases |evs|
  {
    if evs == [] then b else RunBoard(Deliver(b, evs[0]), evs[1..])
  }

  /** Without a wake request the foreground stays where it is. */
  lemma {:induction false} NoWakeNoProgress(b: Board, evs: seq<Event>)
    requires WakeCount(b.m, evs) == 0
    ensures RunBoard(b, evs) == Board(b.fg, Run(b.m, evs))
    decreases |evs|
  {
    if evs != [] {
      NoWakeNoProgress(Deliver(b, evs[0]), evs[1..]);
    }
  }

  /** Once parked in the second sleep with the machine idle, the foreground
      stays there whatever interrupts follow: the loop never re-arms. */
  lemma SecondSleepIsFinal(m: Machine, evs: seq<Event>)
    requires m.state == IDLE_STATE
    ensures RunBoard(Board(SecondSleep, m), evs).fg == SecondSleep
    ensures RunBoard(Board(SecondSleep, m), evs).m.state == IDLE_STATE
    ensures RunBoard(Board(SecondSleep, m), evs).m.samples == m.samples
  {
    IdleRun(m, evs, {IDLE_STATE});
    NoWakeNoProgress(Board(SecondSleep, m), evs);
  }

  /** From power-up the foreground completes one sampling cycle and ends in
      the second sleep with both codes in the buffer and the machine idle. */
  lemma OneCycleThenSleep(m0: Machine, pre: seq<Event>, r0: bv16, mid: seq<Event>, r1: bv16, post: seq<Event>)
    requires Quiet(pre) && Quiet(mid)
    ensures RunBoard(Boot(m0), pre + [Conversion(r0)] + mid + [Conversion(r1)] + post).fg == SecondSleep
    ensures RunBoard(Boot(m0), pre + [Conversion(r0)] + mid + [Conversion(r1)] + post).m.state == IDLE_STATE
    ensures RunBoard(Boot(m0), pre + [Conversion(r0)] + mid + [Conversion(r1)] + post).m.samples
         == [r0, r1, m0.samples[2], m0.samples[3]]
  {
    var m := Arm(m0);
    var e1 := pre + [Conversion(r0)];
    var e2 := e1 + mid;
    assert pre + [Conversion(r0)] + mid + [Conversion(r1)] + post == e2 + [Conversion(r1)] + post;
    ArmStartsReferencePhase(m0);
    // no wake until `r1`
    ReferencePhase(m, pre, r0);
    var b := Run(m, e1);
    QuietRun(b, mid, {1, 2, 3});
    RunConcat(m, e1, mid, {1, 2, 3});
    NoWakeNoProgress(Boot(m0), e2);
    // `r1` wakes the first sleep
    var c := Run(m, e2);
    ThermistorResult(c, r1);
    var d := Step(c, Conversion(r1));
    assert RunBoard(Board(FirstSleep, c), [Conversion(r1)]) == Board(SecondSleep, d);
    RunBoardConcat(Boot(m0), e2, [Conversion(r1)]);
    // and nothing wakes the second
    SecondSleepIsFinal(d, post);
    RunBoardConcat(Boot(m0), e2 + [Conversion(r1)], post);
    assert d.samples == [r0, r1, m0.samples[2], m0.samples[3]];
  }

  lemma {:induction false} RunBoardConcat(b: Board, x: seq<Event>, y: seq<Event>)
    ensures RunBoard(b, x + y) == RunBoard(RunBoard(b, x), y)
    decreases |x|
  {
    if x == [] {
      assert x + y == y;
    } else {
      assert (x + y)[1..] == x[1..] + y;
      RunBoardConcat(Deliver(b, x[0]), x[1..], y);
    }
  }
}
