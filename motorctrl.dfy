/**
 * The motor drivers: a stepper controller that drives several DRV8825 boards
 * in parallel, and a servo controller for the pen. Every GPIO call is an
 * event appended to a shared trace; the timing of the calls is not modelled
 * beyond the sleep events.
 */
module Motor {
  import opened Common

  /** One GPIO call. Levels are 0 and 1. */
  datatype Event =
    | Setup(pins: seq<int>)                     // GPIO.setup(pins, OUT)
    | Output(pins: seq<int>, levels: seq<int>)  // GPIO.output(pins, levels)
    | PwmStart(pin: int, freq: real, duty: real)
    | PwmDuty(pin: int, duty: real)             // ChangeDutyCycle of the pin's PWM
    | Sleep(seconds: real)

  /** The GPIO library, seen as the trace of calls made to it. */
  class Gpio {
    var events: seq<Event>

    constructor ()
      ensures events == []
    {
      events := [];
    }
  }

  // ------------------------------------------------------------ microstepping

  /** The levels of the three mode pins for a microstepping factor; None for other factors. */
  function MicrostepPattern(factor: int): Option<seq<int>>
  {
    if factor == 1 then Some([0, 0, 0])
    else if factor == 2 then Some([1, 0, 0])
    else if factor == 4 then Some([0, 1, 0])
    else if factor == 8 then Some([1, 1, 0])
    else if factor == 16 then Some([0, 0, 1])
    else if factor == 32 then Some([1, 0, 1])
    else None
  }

  function Pow2(k: nat): nat
  {
    if k == 0 then 1 else 2 * Pow2(k - 1)
  }

  /** The three low bits of k, least significant first. */
  function Bits3(k: nat): seq<int>
  {
    [k % 2, (k / 2) % 2, (k / 4) % 2]
  }

  /**
   * The table is the driver's mode encoding: factor 2^k, for k up to 5, sets
   * the mode pins to the binary digits of k; no other factor is accepted.
   */
  lemma MicrostepPatternIsBinary(factor: int)
    ensures MicrostepPattern(factor).Some? <==> exists k :: 0 <= k <= 5 && factor == Pow2(k)
    ensures forall k :: 0 <= k <= 5 ==> MicrostepPattern(Pow2(k)) == Some(Bits3(k))
  {
    assert Pow2(0) == 1 && Pow2(1) == 2 && Pow2(2) == 4;
    assert Pow2(3) == 8 && Pow2(4) == 16 && Pow2(5) == 32;
    forall k | 0 <= k <= 5
      ensures MicrostepPattern(Pow2(k)) == Some(Bits3(k))
    {
      assert k == 0 || k == 1 || k == 2 || k == 3 || k == 4 || k == 5;
    }
    if MicrostepPattern(factor).Some? {
      var k := if factor == 1 then 0 else if factor == 2 then 1 else if factor == 4 then 2
        else if factor == 8 then 3 else if factor == 16 then 4 else 5;
      assert factor == Pow2(k);
    }
  }

  /** Different factors give different patterns. */
  lemma MicrostepPatternInjective(f: int, g: int)
    requires MicrostepPattern(f).Some? && MicrostepPattern(f) == MicrostepPattern(g)
    ensures f == g
  {
  }

  /** The same pattern written to each group of mode pins, in order. */
  function PatternWrites(groups: seq<seq<int>>, pattern: seq<int>): (es: seq<Event>)
    ensures |es| == |groups|
    ensures forall k :: 0 <= k < |groups| ==> es[k] == Output(groups[k], pattern)
  {
    if groups == [] then [] else PatternWrites(groups[..|groups| - 1], pattern) + [Output(groups[|groups| - 1], pattern)]
  }

  function SetupEach(groups: seq<seq<int>>): (es: seq<Event>)
    ensures |es| == |groups|
    ensures forall k :: 0 <= k < |groups| ==> es[k] == Setup(groups[k])
  {
    if groups == [] then [] else SetupEach(groups[..|groups| - 1]) + [Setup(groups[|groups| - 1])]
  }

  // ------------------------------------------------------------ pulse planning

  /** `max(steps)`. */
  function Max(steps: seq<nat>): (m: nat)
    requires steps != []
    ensures forall k :: 0 <= k < |steps| ==> steps[k] <= m
    ensures exists k :: 0 <= k < |steps| && steps[k] == m
  {
    if |steps| == 1 then steps[0]
    else
      var m := Max(steps[..|steps| - 1]);
      assert forall k :: 0 <= k < |steps| - 1 ==> steps[..|steps| - 1][k] == steps[k];
      if steps[|steps| - 1] > m then steps[|steps| - 1] else m
  }

  /** `np.linspace(start, stop, n)` over the reals: n evenly spaced values, both ends included. */
  function Linspace(start: real, stop: real, n: nat): (r: seq<real>)
    ensures |r| == n
    ensures n >= 1 ==> r[0] == start
    ensures n >= 2 ==> r[n - 1] == stop
  {
    if n == 1 then [start]
    else
      var step := (stop - start) / (n - 1) as real;
      var r := seq(n, k requires 0 <= k < n => start + k as real * step);
      assert n >= 2 ==> r[n - 1] == start + (n - 1) as real * ((stop - start) / (n - 1) as real);
      r
  }

  lemma LinspaceAt(start: real, stop: real, n: nat, k: nat)
    requires 2 <= n && k < n
    ensures Linspace(start, stop, n)[k] == start + k as real * ((stop - start) / (n - 1) as real)
  {
  }

  /** The planned pulse positions of a channel with n steps in a move of maxSteps ticks. */
  function Planned(n: nat, maxSteps: nat): seq<real>
  {
    Linspace(0.0, (maxSteps as real - 1.0), n)
  }

  lemma QuotientAtLeastOne(a: real, b: real)
    requires 0.0 < b <= a
    ensures a / b >= 1.0
  {
    var q := a / b;
    assert q * b == a;
    if q < 1.0 {
      MulMonotone(q, 1.0, b);
    }
  }

  lemma MulMonotone(a: real, b: real, c: real)
    requires a <= b && c >= 0.0
    ensures a * c <= b * c
  {
  }

  /**
   * The planned positions of a channel that steps no more than the longest
   * one lie in [0, maxSteps - 1] and are at least one tick apart.
   */
  lemma PlannedSpacing(n: nat, maxSteps: nat)
    requires n <= maxSteps
    ensures forall k :: 0 <= k < n ==> 0.0 <= Planned(n, maxSteps)[k] <= (maxSteps as real - 1.0)
    ensures forall k :: 0 <= k < n - 1 ==> Planned(n, maxSteps)[k] + 1.0 <= Planned(n, maxSteps)[k + 1]
  {
    forall k | 0 <= k < n
      ensures 0.0 <= Planned(n, maxSteps)[k] <= (maxSteps as real - 1.0)
    {
      PlannedBounds(n, maxSteps, k);
    }
    forall k | 0 <= k < n - 1
      ensures Planned(n, maxSteps)[k] + 1.0 <= Planned(n, maxSteps)[k + 1]
    {
      PlannedGap(n, maxSteps, k);
    }
  }

  /** The gap between two planned positions of a channel with n >= 2 steps. */
  function PlanStep(n: nat, maxSteps: nat): real
    requires n >= 2
  {
    (maxSteps as real - 1.0) / (n - 1) as real
  }

  lemma PlannedAt(n: nat, maxSteps: nat, k: nat)
    requires 2 <= n && k < n
    ensures Planned(n, maxSteps)[k] == k as real * PlanStep(n, maxSteps)
  {
    LinspaceAt(0.0, maxSteps as real - 1.0, n, k);
  }

  lemma PlanStepBounds(n: nat, maxSteps: nat)
    requires 2 <= n <= maxSteps
    ensures PlanStep(n, maxSteps) >= 1.0
    ensures (n - 1) as real * PlanStep(n, maxSteps) == maxSteps as real - 1.0
  {
    QuotientAtLeastOne(maxSteps as real - 1.0, (n - 1) as real);
  }

  lemma PlannedBounds(n: nat, maxSteps: nat, k: nat)
    requires n <= maxSteps && k < n
    ensures 0.0 <= Planned(n, maxSteps)[k] <= maxSteps as real - 1.0
  {
    if n >= 2 {
      PlannedAt(n, maxSteps, k);
      PlanStepBounds(n, maxSteps);
      BetweenMultiples(k as real, (n - 1) as real, PlanStep(n, maxSteps), maxSteps as real - 1.0);
    } else {
      assert k == 0 && Planned(n, maxSteps)[k] == 0.0;
    }
  }

  lemma BetweenMultiples(k: real, m: real, step: real, top: real)
    requires 0.0 <= k <= m && step >= 0.0 && m * step == top
    ensures 0.0 <= k * step <= top
  {
    MulMonotone(0.0, k, step);
    MulMonotone(k, m, step);
  }

  lemma PlannedGap(n: nat, maxSteps: nat, k: nat)
    requires n <= maxSteps && k + 1 < n
    ensures Planned(n, maxSteps)[k] + 1.0 <= Planned(n, maxSteps)[k + 1]
  {
    PlannedAt(n, maxSteps, k);
    PlannedAt(n, maxSteps, k + 1);
    PlanStepBounds(n, maxSteps);
    NextMultiple(k as real, PlanStep(n, maxSteps));
  }

  lemma NextMultiple(a: real, step: real)
    ensures (a + 1.0) * step == a * step + step
  {
  }

  // ------------------------------------------------------------ pulse counting

  const High: int := 1
  const Low: int := 0

  /** One step pulse on a pin: high, low, then the step delay. */
  function Pulse(pin: int, delay: real): seq<Event>
  {
    [Output([pin], [High]), Output([pin], [Low]), Sleep(delay)]
  }

  /** es is a sequence of step pulses, each on one of the pins. */
  ghost predicate PulseTrain(es: seq<Event>, pins: seq<int>, delay: real)
    decreases |es|
  {
    es == [] || (|es| >= 3 && (exists s :: 0 <= s < |pins| && es[..3] == Pulse(pins[s], delay))
                 && PulseTrain(es[3..], pins, delay))
  }

  /** The number of rising edges on a pin. */
  function Pulses(es: seq<Event>, pin: int): nat
  {
    if es == [] then 0
    else Pulses(es[..|es| - 1], pin) + (if es[|es| - 1] == Output([pin], [High]) then 1 else 0)
  }

  /** The number of steps the channels on a pin are asked for. */
  function StepsOnPin(pins: seq<int>, steps: seq<nat>, pin: int): nat
    requires |steps| <= |pins|
  {
    if steps == [] then 0
    else StepsOnPin(pins, steps[..|steps| - 1], pin) + (if pins[|steps| - 1] == pin then steps[|steps| - 1] else 0)
  }

  /** The number of pulses issued so far on a pin: each channel's planned positions already removed. */
  function Issued(pins: seq<int>, steps: seq<nat>, left: seq<seq<real>>, pin: int): int
    requires |steps| <= |pins| && |left| == |steps|
  {
    if steps == [] then 0
    else
      var n := |steps| - 1;
      Issued(pins, steps[..n], left[..n], pin) + (if pins[n] == pin then steps[n] - |left[n]| else 0)
  }

  lemma {:induction false} PulsesAppend(es: seq<Event>, more: seq<Event>, pin: int)
    ensures Pulses(es + more, pin) == Pulses(es, pin) + Pulses(more, pin)
    decreases |more|
  {
    if more == [] {
      assert es + more == es;
    } else {
      var init := more[..|more| - 1];
      assert (es + more)[..|es + more| - 1] == es + init;
      assert (es + more)[|es + more| - 1] == more[|more| - 1];
      PulsesAppend(es, init, pin);
    }
  }

  lemma PulseCount(pin: int, delay: real, q: int)
    ensures Pulses(Pulse(pin, delay), q) == if pin == q then 1 else 0
  {
    var p := Pulse(pin, delay);
    var p2, p1 := p[..2], p[..1];
    assert p[..|p| - 1] == p2 && p2[..|p2| - 1] == p1 && p1[..|p1| - 1] == [];
    assert Pulses(p1, q) == if pin == q then 1 else 0;
    assert Pulses(p2, q) == Pulses(p1, q);
  }

  lemma {:induction false} PulseTrainAppend(es: seq<Event>, pins: seq<int>, delay: real, s: nat)
    requires PulseTrain(es, pins, delay) && s < |pins|
    ensures PulseTrain(es + Pulse(pins[s], delay), pins, delay)
    decreases |es|
  {
    var p := Pulse(pins[s], delay);
    if es == [] {
      assert es + p == p && p[..3] == p && p[3..] == [];
    } else {
      assert (es + p)[..3] == es[..3];
      assert (es + p)[3..] == es[3..] + p;
      PulseTrainAppend(es[3..], pins, delay, s);
    }
  }

  /** Removing the next planned position of channel s counts one more pulse on its pin. */
  lemma {:induction false} IssuedStep(pins: seq<int>, steps: seq<nat>, left: seq<seq<real>>, s: nat, pin: int)
    requires |steps| <= |pins| && |left| == |steps| && s < |steps| && left[s] != []
    ensures Issued(pins, steps, left[s := left[s][1..]], pin)
      == Issued(pins, steps, left, pin) + (if pins[s] == pin then 1 else 0)
  {
    var n := |steps| - 1;
    var left' := left[s := left[s][1..]];
    if s < n {
      assert left'[..n] == left[..n][s := left[s][1..]];
      IssuedStep(pins, steps[..n], left[..n], s, pin);
    } else {
      assert left'[..n] == left[..n];
    }
  }

  /** With nothing left to issue, every channel issued all its steps. */
  lemma {:induction false} IssuedAll(pins: seq<int>, steps: seq<nat>, left: seq<seq<real>>, pin: int)
    requires |steps| <= |pins| && |left| == |steps|
    requires forall t :: 0 <= t < |left| ==> left[t] == []
    ensures Issued(pins, steps, left, pin) == StepsOnPin(pins, steps, pin)
  {
    if steps != [] {
      var n := |steps| - 1;
      IssuedAll(pins, steps[..n], left[..n], pin);
    }
  }

  /** Before any pulse nothing is issued. */
  lemma {:induction false} IssuedNone(pins: seq<int>, steps: seq<nat>, left: seq<seq<real>>, pin: int)
    requires |steps| <= |pins| && |left| == |steps|
    requires forall t :: 0 <= t < |left| ==> |left[t]| == steps[t]
    ensures Issued(pins, steps, left, pin) == 0
  {
    if steps != [] {
      var n := |steps| - 1;
      IssuedNone(pins, steps[..n], left[..n], pin);
    }
  }

  // ------------------------------------------------------------ pulse schedule

  /** The planned positions of every stepper of a move: `step_pos` before the first tick. */
  function Plans(steps: seq<nat>, maxSteps: nat): (plan: seq<seq<real>>)
    ensures |plan| == |steps|
  {
    if steps == [] then [] else Plans(steps[..|steps| - 1], maxSteps) + [Planned(steps[|steps| - 1], maxSteps)]
  }

  lemma {:induction false} PlansAt(steps: seq<nat>, maxSteps: nat)
    ensures forall t :: 0 <= t < |steps| ==> Plans(steps, maxSteps)[t] == Planned(steps[t], maxSteps)
  {
    if steps != [] {
      PlansAt(steps[..|steps| - 1], maxSteps);
    }
  }

  /** A stepper with these positions left pulses on tick i: it has one left that is at most i + 0.5. */
  predicate Due(l: seq<real>, i: nat)
  {
    l != [] && l[0] - i as real <= 0.5
  }

  /** The pulses of tick i from the first n steppers, in stepper order. */
  function TickPrefix(pins: seq<int>, left: seq<seq<real>>, i: nat, delay: real, n: nat): seq<Event>
    requires n <= |left| <= |pins|
  {
    if n == 0 then []
    else TickPrefix(pins, left, i, delay, n - 1) + (if Due(left[n - 1], i) then Pulse(pins[n - 1], delay) else [])
  }

  /** The pulses of tick i: one for each stepper that is due, in stepper order. */
  function TickEvents(pins: seq<int>, left: seq<seq<real>>, i: nat, delay: real): seq<Event>
    requires |left| <= |pins|
  {
    TickPrefix(pins, left, i, delay, |left|)
  }

  /** The positions left after tick i: every stepper that was due loses its next position. */
  function TickLeft(left: seq<seq<real>>, i: nat): (after: seq<seq<real>>)
    ensures |after| == |left|
  {
    PopPrefix(left, i, |left|)
  }

  lemma AfterFirst(prefix: seq<Event>, trace: seq<Event>, events: seq<Event>)
    requires events == prefix + trace && trace != []
    ensures events[|prefix| + 1..] == trace[1..]
  {
  }

  /** The pulses of ticks i, i + 1, ..., maxSteps - 1, starting from the positions left. */
  function Schedule(pins: seq<int>, left: seq<seq<real>>, i: nat, maxSteps: nat, delay: real): seq<Event>
    requires |left| <= |pins|
    decreases maxSteps - i
  {
    if i >= maxSteps then []
    else TickEvents(pins, left, i, delay) + Schedule(pins, TickLeft(left, i), i + 1, maxSteps, delay)
  }

  /** The whole trace of `doSteps(dirs, steps)`: the direction write, then every tick's pulses. */
  function StepTrace(dirPins: seq<int>, stepPins: seq<int>, dirs: seq<int>, steps: seq<nat>, delay: real): seq<Event>
    requires steps != [] && |steps| <= |stepPins|
  {
    [Output(dirPins, dirs)] + Schedule(stepPins, Plans(steps, Max(steps)), 0, Max(steps), delay)
  }

  // ------------------------------------------------------------ failing sleeps

  /** A sleep of negative length: `time.sleep` raises ValueError on it, so neither it nor any later call is made. */
  predicate BadSleep(e: Event)
  {
    e.Sleep? && e.seconds < 0.0
  }

  /** The calls of es that are made when es is carried out in order: all of those before the first failing sleep. */
  function Performed(es: seq<Event>): (done: seq<Event>)
    ensures |done| <= |es|
  {
    if es == [] || BadSleep(es[0]) then [] else [es[0]] + Performed(es[1..])
  }

  /** The calls made are the longest start of es without a failing sleep: the next call, if any, is one. */
  lemma {:induction false} PerformedPrefix(es: seq<Event>)
    ensures Performed(es) <= es
    ensures forall k :: 0 <= k < |Performed(es)| ==> !BadSleep(Performed(es)[k])
    ensures |Performed(es)| < |es| ==> BadSleep(es[|Performed(es)|])
  {
    if es != [] && !BadSleep(es[0]) {
      PerformedPrefix(es[1..]);
      assert Performed(es) == [es[0]] + Performed(es[1..]);
    }
  }

  /** Carrying out es raises: some of its calls are never made. */
  predicate Raises(es: seq<Event>)
  {
    |Performed(es)| < |es|
  }

  /** Carrying out a then b: b is reached only when a completes. */
  lemma {:induction false} PerformedAppend(a: seq<Event>, b: seq<Event>)
    ensures Performed(a + b) == if Raises(a) then Performed(a) else a + Performed(b)
    ensures Raises(a + b) <==> Raises(a) || Raises(b)
  {
    if a != [] && !BadSleep(a[0]) {
      assert (a + b)[1..] == a[1..] + b;
      PerformedAppend(a[1..], b);
    } else if a == [] {
      assert a + b == b;
    }
  }

  /** A pulse with a negative delay makes its two outputs, then raises at its sleep. */
  lemma PulseRaises(pin: int, delay: real)
    ensures Raises(Pulse(pin, delay)) <==> delay < 0.0
    ensures Performed(Pulse(pin, delay)) == if delay < 0.0 then Pulse(pin, delay)[..2] else Pulse(pin, delay)
  {
    var p := Pulse(pin, delay);
    assert p[1..] == [Output([pin], [Low]), Sleep(delay)] && p[1..][1..] == [Sleep(delay)];
    assert Performed([Sleep(delay)]) == if delay < 0.0 then [] else [Sleep(delay)] by {
      assert [Sleep(delay)][1..] == [];
    }
    assert Performed(p[1..]) == [Output([pin], [Low])] + Performed([Sleep(delay)]);
    assert Performed(p) == [Output([pin], [High])] + Performed(p[1..]);
  }

  /** A train of pulses raises exactly when it is not empty and its delay is negative, and then only its first two outputs are made. */
  lemma {:induction false} PulseTrainRaises(es: seq<Event>, pins: seq<int>, delay: real)
    requires PulseTrain(es, pins, delay)
    ensures Raises(es) <==> delay < 0.0 && es != []
    ensures Raises(es) ==> Performed(es) == es[..2]
    decreases |es|
  {
    if es != [] {
      var s :| 0 <= s < |pins| && es[..3] == Pulse(pins[s], delay);
      PulseTrainRaises(es[3..], pins, delay);
      assert es == Pulse(pins[s], delay) + es[3..];
      PulseRaises(pins[s], delay);
      PerformedAppend(Pulse(pins[s], delay), es[3..]);
    }
  }

  lemma {:induction false} StepsOnPinAtLeast(pins: seq<int>, steps: seq<nat>, m: nat)
    requires |steps| <= |pins| && m < |steps|
    ensures StepsOnPin(pins, steps, pins[m]) >= steps[m]
  {
    var n := |steps| - 1;
    if m < n {
      StepsOnPinAtLeast(pins, steps[..n], m);
      assert steps[..n][m] == steps[m];
    }
  }

  /**
   * The ticks of a whole move with a negative delay raise at the sleep of
   * their first pulse, when there is one: only that pulse's two outputs are
   * made. Without a step to make they never sleep, and with a delay of zero
   * or more they never raise.
   */
  lemma ScheduleRaises(pins: seq<int>, steps: seq<nat>, delay: real)
    requires steps != [] && |steps| <= |pins|
    ensures var sched := Schedule(pins, Plans(steps, Max(steps)), 0, Max(steps), delay);
      && (Raises(sched) <==> delay < 0.0 && Max(steps) > 0)
      && (Raises(sched) ==>
            && |sched| >= 3
            && Performed(sched) == sched[..2]
            && exists s :: 0 <= s < |pins| && sched[..2] == [Output([pins[s]], [High]), Output([pins[s]], [Low])])
  {
    var maxSteps := Max(steps);
    var sched := Schedule(pins, Plans(steps, maxSteps), 0, maxSteps, delay);
    ScheduleCounts(pins, steps, delay);
    PulseTrainRaises(sched, pins, delay);
    if maxSteps > 0 {
      var m :| 0 <= m < |steps| && steps[m] == maxSteps;
      StepsOnPinAtLeast(pins, steps, m);
      assert Pulses(sched, pins[m]) > 0;
    }
    if Raises(sched) {
      var s :| 0 <= s < |pins| && sched[..3] == Pulse(pins[s], delay);
      assert sched[..2] == Pulse(pins[s], delay)[..2];
    }
  }

  /** The trace of `doSteps` is its direction write, which always completes, then its ticks as far as they get. */
  lemma StepTracePerformed(dirPins: seq<int>, stepPins: seq<int>, dirs: seq<int>, steps: seq<nat>, delay: real)
    requires steps != [] && |steps| <= |stepPins|
    ensures var sched := Schedule(stepPins, Plans(steps, Max(steps)), 0, Max(steps), delay);
      && Performed(StepTrace(dirPins, stepPins, dirs, steps, delay)) == [Output(dirPins, dirs)] + Performed(sched)
      && (Raises(StepTrace(dirPins, stepPins, dirs, steps, delay)) <==> Raises(sched))
  {
    var sched := Schedule(stepPins, Plans(steps, Max(steps)), 0, Max(steps), delay);
    assert StepTrace(dirPins, stepPins, dirs, steps, delay) == [Output(dirPins, dirs)] + sched;
    assert Performed([Output(dirPins, dirs)]) == [Output(dirPins, dirs)] by {
      assert [Output(dirPins, dirs)][1..] == [];
    }
    PerformedAppend([Output(dirPins, dirs)], sched);
  }

  /**
   * `doSteps` with a negative step delay raises at the sleep after its first
   * pulse, when there is one: the direction write and that pulse's two
   * outputs are made, nothing after them.
   */
  lemma StepTraceRaises(dirPins: seq<int>, stepPins: seq<int>, dirs: seq<int>, steps: seq<nat>, delay: real)
    requires steps != [] && |steps| <= |stepPins|
    ensures Raises(StepTrace(dirPins, stepPins, dirs, steps, delay)) <==> delay < 0.0 && Max(steps) > 0
    ensures var trace := StepTrace(dirPins, stepPins, dirs, steps, delay);
      Raises(trace) ==>
        && |trace| >= 3
        && Performed(trace) == trace[..3]
        && exists s :: 0 <= s < |stepPins| && trace[1..3] == [Output([stepPins[s]], [High]), Output([stepPins[s]], [Low])]
  {
    var sched := Schedule(stepPins, Plans(steps, Max(steps)), 0, Max(steps), delay);
    var trace := StepTrace(dirPins, stepPins, dirs, steps, delay);
    ScheduleRaises(stepPins, steps, delay);
    StepTracePerformed(dirPins, stepPins, dirs, steps, delay);
    assert trace == [Output(dirPins, dirs)] + sched;
    if Raises(trace) {
      assert trace[1..3] == sched[..2];
      assert trace[..3] == [Output(dirPins, dirs)] + sched[..2];
    }
  }

  /** The first pulse of tick i to meet a negative delay ends the tick, and with it the move, after its two outputs. */
  lemma TickRaises(pins: seq<int>, left: seq<seq<real>>, i: nat, delay: real, s: nat)
    requires s < |left| <= |pins| && Due(left[s], i) && delay < 0.0
    requires !Raises(TickPrefix(pins, left, i, delay, s))
    ensures Raises(TickEvents(pins, left, i, delay))
    ensures Performed(TickEvents(pins, left, i, delay)) == TickPrefix(pins, left, i, delay, s) + Pulse(pins[s], delay)[..2]
  {
    var before := TickPrefix(pins, left, i, delay, s);
    var a := before + Pulse(pins[s], delay);
    var all := TickEvents(pins, left, i, delay);
    assert a == TickPrefix(pins, left, i, delay, s + 1);
    TickPrefixGrows(pins, left, i, delay, s + 1, |left|);
    assert all == a + all[|a|..];
    PulseRaises(pins[s], delay);
    PerformedAppend(before, Pulse(pins[s], delay));
    PerformedAppend(a, all[|a|..]);
  }

  lemma {:induction false} TickPrefixGrows(pins: seq<int>, left: seq<seq<real>>, i: nat, delay: real, m: nat, n: nat)
    requires m <= n <= |left| <= |pins|
    ensures TickPrefix(pins, left, i, delay, m) <= TickPrefix(pins, left, i, delay, n)
    decreases n
  {
    if m < n {
      TickPrefixGrows(pins, left, i, delay, m, n - 1);
    }
  }

  /** Once tick i raises, the ticks after it are never reached. */
  lemma ScheduleStops(pins: seq<int>, done: seq<Event>, left: seq<seq<real>>, i: nat, maxSteps: nat, delay: real)
    requires |left| <= |pins| && i < maxSteps
    requires !Raises(done) && Raises(TickEvents(pins, left, i, delay))
    ensures Raises(done + Schedule(pins, left, i, maxSteps, delay))
    ensures Performed(done + Schedule(pins, left, i, maxSteps, delay)) == done + Performed(TickEvents(pins, left, i, delay))
  {
    var tick := TickEvents(pins, left, i, delay);
    var rest := Schedule(pins, TickLeft(left, i), i + 1, maxSteps, delay);
    assert Schedule(pins, left, i, maxSteps, delay) == tick + rest;
    PerformedAppend(tick, rest);
    PerformedAppend(done, tick + rest);
  }

  /** A tick that completes joins the calls made, and the schedule goes on from the tick after it. */
  lemma ScheduleGoesOn(pins: seq<int>, done: seq<Event>, left: seq<seq<real>>, i: nat, maxSteps: nat, delay: real)
    requires |left| <= |pins| && i < maxSteps
    requires !Raises(done) && !Raises(TickEvents(pins, left, i, delay))
    ensures !Raises(done + TickEvents(pins, left, i, delay))
    ensures Performed(TickEvents(pins, left, i, delay)) == TickEvents(pins, left, i, delay)
    ensures done + TickEvents(pins, left, i, delay) + Schedule(pins, TickLeft(left, i), i + 1, maxSteps, delay)
      == done + Schedule(pins, left, i, maxSteps, delay)
  {
    var tick := TickEvents(pins, left, i, delay);
    var rest := Schedule(pins, TickLeft(left, i), i + 1, maxSteps, delay);
    PerformedAll(tick);
    PerformedAppend(done, tick);
    assert Schedule(pins, left, i, maxSteps, delay) == tick + rest;
  }

  /** A trace without a failing sleep is made in full. */
  lemma PerformedAll(es: seq<Event>)
    requires !Raises(es)
    ensures Performed(es) == es
  {
    PerformedPrefix(es);
  }

  /** The calls of `doSteps` that are made: its trace up to the first failing sleep, and all of it when none fails. */
  lemma {:induction false} StepsOutcome(dirPins: seq<int>, stepPins: seq<int>, dirs: seq<int>, steps: seq<nat>, delay: real,
                     before: seq<Event>, after: seq<Event>, raised: bool)
    requires steps != [] && |steps| <= |stepPins|
    requires var sched := Schedule(stepPins, Plans(steps, Max(steps)), 0, Max(steps), delay);
      after == before + [Output(dirPins, dirs)] + Performed(sched) && raised == Raises(sched)
    ensures raised <==> delay < 0.0 && Max(steps) > 0
    ensures var trace := StepTrace(dirPins, stepPins, dirs, steps, delay);
      && after == before + Performed(trace)
      && (raised ==> |trace| >= 3 && after == before + trace[..3])
      && (!raised ==> after == before + trace)
  {
    var sched := Schedule(stepPins, Plans(steps, Max(steps)), 0, Max(steps), delay);
    assert StepTrace(dirPins, stepPins, dirs, steps, delay) == [Output(dirPins, dirs)] + sched;
    ScheduleRaises(stepPins, steps, delay);
    AfterHead(before, after, Output(dirPins, dirs), sched);
  }

  /** A call that cannot fail is made, and the calls after it are made as far as they get. */
  lemma {:induction false} PerformedCons(first: Event, rest: seq<Event>)
    requires !BadSleep(first)
    ensures Performed([first] + rest) == [first] + Performed(rest)
  {
    assert ([first] + rest)[1..] == rest;
  }

  /** A call that cannot fail, then a trace carried out as far as it gets. */
  lemma {:induction false} AfterHead(before: seq<Event>, after: seq<Event>, first: Event, rest: seq<Event>)
    requires !BadSleep(first) && after == before + [first] + Performed(rest)
    ensures after == before + Performed([first] + rest)
    ensures Raises([first] + rest) <==> Raises(rest)
    ensures !Raises(rest) ==> after == before + ([first] + rest)
    ensures |rest| >= 2 && Performed(rest) == rest[..2] ==> after == before + ([first] + rest)[..3]
  {
    var es := [first] + rest;
    PerformedCons(first, rest);
    if !Raises(rest) {
      PerformedAll(rest);
    } else if |rest| >= 2 && Performed(rest) == rest[..2] {
      assert es[..3] == [first] + rest[..2];
    }
  }

  // ------------------------------------------------------------ controllers

  /** The step delay `doSteps` uses when none is given. */
  const DefaultStepDelay: real := 0.00000001

  /** Stepper controller for several steppers, one DRV8825 board each. */
  class StepperCtrl {
    const gpio: Gpio
    const dirPins: seq<int>
    const stepPins: seq<int>
    const resPins: seq<seq<int>>   // per stepper, its three mode pins
    var microStepping: int

    constructor (gpio: Gpio, dirPins: seq<int>, stepPins: seq<int>, resPins: seq<seq<int>>, microStepping: int := 1)
      requires |dirPins| == |stepPins| && |stepPins| == |resPins|
      ensures this.gpio == gpio && this.dirPins == dirPins && this.stepPins == stepPins
      ensures this.resPins == resPins && this.microStepping == microStepping
    {
      this.gpio := gpio;
      this.dirPins := dirPins;
      this.stepPins := stepPins;
      this.resPins := resPins;
      this.microStepping := microStepping;
    }

    /**
     * `setMicrostepping`: records the factor first, then writes its pattern to
     * each stepper's mode pins. An unknown factor fails (KeyError) at the
     * first write, so only when there are mode pins to write to.
     */
    method SetMicrostepping(mstep: int) returns (ok: bool)
      modifies this, gpio
      ensures microStepping == mstep
      ensures ok <==> MicrostepPattern(mstep).Some? || resPins == []
      ensures ok && resPins != [] ==> gpio.events == old(gpio.events) + PatternWrites(resPins, MicrostepPattern(mstep).value)
      ensures !ok || resPins == [] ==> gpio.events == old(gpio.events)
    {
      microStepping := mstep;
      var pattern := MicrostepPattern(mstep);
      if resPins == [] {
        return true;
      }
      if pattern.None? {
        return false;
      }
      ok := true;
      var k := 0;
      while k < |resPins|
        invariant 0 <= k <= |resPins| && microStepping == mstep
        invariant gpio.events == old(gpio.events) + PatternWrites(resPins[..k], pattern.value)
      {
        assert resPins[..k + 1][..k] == resPins[..k];
        gpio.events := gpio.events + [Output(resPins[k], pattern.value)];
        k := k + 1;
      }
      assert resPins[..k] == resPins;
    }

    /** `initGPIO`: direction and step pins, each group of mode pins, then the microstepping. */
    method InitGPIO() returns (ok: bool)
      modifies this, gpio
      ensures microStepping == old(microStepping)
      ensures ok <==> MicrostepPattern(microStepping).Some? || resPins == []
      ensures var prefix := old(gpio.events) + [Setup(dirPins), Setup(stepPins)] + SetupEach(resPins);
        gpio.events == (if MicrostepPattern(microStepping).Some? && resPins != [] then prefix + PatternWrites(resPins, MicrostepPattern(microStepping).value) else prefix)
    {
      gpio.events := gpio.events + [Setup(dirPins), Setup(stepPins)];
      var k := 0;
      while k < |resPins|
        invariant 0 <= k <= |resPins| && microStepping == old(microStepping)
        invariant gpio.events == old(gpio.events) + [Setup(dirPins), Setup(stepPins)] + SetupEach(resPins[..k])
      {
        assert resPins[..k + 1][..k] == resPins[..k];
        gpio.events := gpio.events + [Setup(resPins[k])];
        k := k + 1;
      }
      assert resPins[..k] == resPins;
      ok := SetMicrostepping(microStepping);
    }

    /**
     * `doSteps`: the direction pins are set once, then max(steps) ticks run.
     * Each stepper's pulses are planned at evenly spaced positions of
     * [0, max(steps) - 1]; on tick i the steppers are visited in order and
     * each pulses (at most once) when its next planned position is at most
     * i + 0.5. StepTraceCounts shows that stepper s gets exactly steps[s] pulses.
     * A negative delay raises at the first sleep (StepTraceRaises): then only
     * the direction write and the first pulse's two outputs are made.
     */
    method DoSteps(dirs: seq<int>, steps: seq<nat>, stepDelay: real := DefaultStepDelay) returns (raised: bool)
      requires steps != [] && |steps| <= |stepPins|
      modifies gpio
      ensures raised <==> stepDelay < 0.0 && Max(steps) > 0
      ensures gpio.events == old(gpio.events) + Performed(StepTrace(dirPins, stepPins, dirs, steps, stepDelay))
      ensures raised ==> var trace := StepTrace(dirPins, stepPins, dirs, steps, stepDelay);
        |trace| >= 3 && gpio.events == old(gpio.events) + trace[..3]
      ensures !raised ==> gpio.events == old(gpio.events) + StepTrace(dirPins, stepPins, dirs, steps, stepDelay)
      ensures !raised ==> PulseTrain(gpio.events[|old(gpio.events)| + 1..], stepPins, stepDelay)
      ensures !raised ==> forall pin :: Pulses(gpio.events[|old(gpio.events)| + 1..], pin) == StepsOnPin(stepPins, steps, pin)
    {
      var maxSteps := Max(steps);
      gpio.events := gpio.events + [Output(dirPins, dirs)];
      var stepPos := PlanSteps(steps, maxSteps);
      raised := RunTicks(maxSteps, stepPos, stepDelay);
      StepsOutcome(dirPins, stepPins, dirs, steps, stepDelay, old(gpio.events), gpio.events, raised);
      if !raised {
        StepTraceCounts(dirPins, stepPins, dirs, steps, stepDelay);
        AfterFirst(old(gpio.events), StepTrace(dirPins, stepPins, dirs, steps, stepDelay), gpio.events);
      }
    }

    /** The tick loop of `doSteps`: ticks 0 to maxSteps - 1, starting from the planned positions, until a sleep raises. */
    method RunTicks(maxSteps: nat, plan: seq<seq<real>>, stepDelay: real) returns (raised: bool)
      requires |plan| <= |stepPins|
      modifies gpio
      ensures raised == Raises(Schedule(stepPins, plan, 0, maxSteps, stepDelay))
      ensures gpio.events == old(gpio.events) + Performed(Schedule(stepPins, plan, 0, maxSteps, stepDelay))
    {
      var stepPos := plan;
      var i := 0;
      ghost var done: seq<Event> := [];
      while i < maxSteps
        invariant 0 <= i <= maxSteps && |stepPos| == |plan|
        invariant gpio.events == old(gpio.events) + done && !Raises(done)
        invariant done + Schedule(stepPins, stepPos, i, maxSteps, stepDelay) == Schedule(stepPins, plan, 0, maxSteps, stepDelay)
      {
        ghost var posBefore := stepPos;
        ghost var tick := TickEvents(stepPins, stepPos, i, stepDelay);
        var r;
        stepPos, r := Tick(i, stepPos, stepDelay);
        assert gpio.events == old(gpio.events) + (done + Performed(tick));
        if r {
          ScheduleStops(stepPins, done, posBefore, i, maxSteps, stepDelay);
          return true;
        }
        ScheduleGoesOn(stepPins, done, posBefore, i, maxSteps, stepDelay);
        done := done + tick;
        i := i + 1;
      }
      assert done + Schedule(stepPins, stepPos, i, maxSteps, stepDelay) == done;
      PerformedAll(done);
      raised := false;
    }

    /**
     * Tick i of `doSteps`: the steppers that are due pulse once each, in order,
     * and use up their next position; a negative delay raises at the first
     * pulse's sleep.
     */
    method Tick(i: nat, stepPos: seq<seq<real>>, stepDelay: real) returns (left: seq<seq<real>>, raised: bool)
      requires |stepPos| <= |stepPins|
      modifies gpio
      ensures raised == Raises(TickEvents(stepPins, stepPos, i, stepDelay))
      ensures gpio.events == old(gpio.events) + Performed(TickEvents(stepPins, stepPos, i, stepDelay))
      ensures !raised ==> left == TickLeft(stepPos, i)
    {
      left := stepPos;
      for s := 0 to |stepPos|
        invariant gpio.events == old(gpio.events) + TickPrefix(stepPins, stepPos, i, stepDelay, s)
        invariant !Raises(TickPrefix(stepPins, stepPos, i, stepDelay, s))
        invariant left == PopPrefix(stepPos, i, s)
      {
        PopPrefixAt(stepPos, i, s, s);
        if |left[s]| > 0 && left[s][0] - i as real <= 0.5 {
          gpio.events := gpio.events + [Output([stepPins[s]], [High]), Output([stepPins[s]], [Low])];
          left := left[s := left[s][1..]];
          if stepDelay < 0.0 {
            TickRaises(stepPins, stepPos, i, stepDelay, s);
            return left, true;
          }
          gpio.events := gpio.events + [Sleep(stepDelay)];
          PulseRaises(stepPins[s], stepDelay);
          PerformedAppend(TickPrefix(stepPins, stepPos, i, stepDelay, s), Pulse(stepPins[s], stepDelay));
          assert TickPrefix(stepPins, stepPos, i, stepDelay, s + 1)
            == TickPrefix(stepPins, stepPos, i, stepDelay, s) + Pulse(stepPins[s], stepDelay);
          assert !Raises(TickPrefix(stepPins, stepPos, i, stepDelay, s + 1));
        } else {
          assert TickPrefix(stepPins, stepPos, i, stepDelay, s + 1) == TickPrefix(stepPins, stepPos, i, stepDelay, s);
        }
      }
      PerformedAll(TickEvents(stepPins, stepPos, i, stepDelay));
      raised := false;
    }
  }

  /** The positions left part-way through tick i: the steppers below n that were due have lost their next one. */
  function PopPrefix(plan: seq<seq<real>>, i: nat, n: nat): (left: seq<seq<real>>)
    requires n <= |plan|
    ensures |left| == |plan|
  {
    if n == 0 then plan
    else
      var prev := PopPrefix(plan, i, n - 1);
      if Due(plan[n - 1], i) then prev[n - 1 := plan[n - 1][1..]] else prev
  }

  lemma {:induction false} PopPrefixAt(plan: seq<seq<real>>, i: nat, n: nat, t: nat)
    requires n <= |plan| && t < |plan|
    ensures PopPrefix(plan, i, n)[t] == if t < n && Due(plan[t], i) then plan[t][1..] else plan[t]
  {
    if n > 0 {
      PopPrefixAt(plan, i, n - 1, t);
    }
  }

  /** Tick i keeps the pulse trace in step with the plan, stepper by stepper. */
  lemma {:induction false} TickProgress(pins: seq<int>, steps: seq<nat>, maxSteps: nat, plan: seq<seq<real>>,
                                        pulses: seq<Event>, i: nat, delay: real, n: nat)
    requires Progress(pins, steps, maxSteps, plan, pulses, delay) && HeadsFrom(plan, 0, i as real - 0.5)
    requires n <= |plan| <= |pins|
    ensures Progress(pins, steps, maxSteps, PopPrefix(plan, i, n), pulses + TickPrefix(pins, plan, i, delay, n), delay)
  {
    if n == 0 {
      assert pulses + TickPrefix(pins, plan, i, delay, 0) == pulses;
    } else {
      TickProgress(pins, steps, maxSteps, plan, pulses, i, delay, n - 1);
      TickProgressStep(pins, steps, maxSteps, plan, pulses, i, delay, n - 1);
    }
  }

  /** The pulse of one more due stepper keeps the trace in step with the plan. */
  lemma TickProgressStep(pins: seq<int>, steps: seq<nat>, maxSteps: nat, plan: seq<seq<real>>,
                         pulses: seq<Event>, i: nat, delay: real, s: nat)
    requires s < |plan| <= |pins| && HeadsFrom(plan, 0, i as real - 0.5)
    requires Progress(pins, steps, maxSteps, PopPrefix(plan, i, s), pulses + TickPrefix(pins, plan, i, delay, s), delay)
    ensures Progress(pins, steps, maxSteps, PopPrefix(plan, i, s + 1), pulses + TickPrefix(pins, plan, i, delay, s + 1), delay)
  {
    var left := PopPrefix(plan, i, s);
    var before := pulses + TickPrefix(pins, plan, i, delay, s);
    PopPrefixAt(plan, i, s, s);
    if Due(plan[s], i) {
      var after := before + Pulse(pins[s], delay);
      assert after == pulses + TickPrefix(pins, plan, i, delay, s + 1);
      assert before[0..] == before && after[0..] == after;
      PulseEmitted(pins, before, after, 0, s, delay, left, PopPrefix(plan, i, s + 1), steps, maxSteps, i);
    } else {
      assert PopPrefix(plan, i, s + 1) == left;
      assert pulses + TickPrefix(pins, plan, i, delay, s + 1) == before;
    }
  }

  /** After tick i every stepper's next planned position is past i + 0.5. */
  lemma TickHeads(steps: seq<nat>, maxSteps: nat, plan: seq<seq<real>>, i: nat)
    requires Remaining(steps, maxSteps, plan) && HeadsFrom(plan, 0, i as real - 0.5)
    ensures HeadsFrom(TickLeft(plan, i), 0, i as real + 0.5)
  {
    forall t | 0 <= t < |plan| && TickLeft(plan, i)[t] != []
      ensures TickLeft(plan, i)[t][0] >= i as real + 0.5
    {
      PopPrefixAt(plan, i, |plan|, t);
      if Due(plan[t], i) {
        OnPlanTail(steps[t], maxSteps, plan[t]);
      }
    }
  }

  /** The remaining ticks complete the plan: every pin ends with the pulses its steppers were asked for. */
  lemma {:induction false} ScheduleProgress(pins: seq<int>, steps: seq<nat>, maxSteps: nat, left: seq<seq<real>>,
                                            pulses: seq<Event>, i: nat, delay: real)
    requires Progress(pins, steps, maxSteps, left, pulses, delay) && HeadsFrom(left, 0, i as real - 0.5)
    requires i <= maxSteps
    ensures PulseTrain(pulses + Schedule(pins, left, i, maxSteps, delay), pins, delay)
    ensures forall pin :: Pulses(pulses + Schedule(pins, left, i, maxSteps, delay), pin) == StepsOnPin(pins, steps, pin)
    decreases maxSteps - i
  {
    if i == maxSteps {
      assert pulses + Schedule(pins, left, i, maxSteps, delay) == pulses;
      PlanDone(pins, steps, maxSteps, left, pulses, delay);
    } else {
      var events := TickEvents(pins, left, i, delay);
      TickProgress(pins, steps, maxSteps, left, pulses, i, delay, |left|);
      TickHeads(steps, maxSteps, left, i);
      ScheduleProgress(pins, steps, maxSteps, TickLeft(left, i), pulses + events, i + 1, delay);
      assert pulses + events + Schedule(pins, TickLeft(left, i), i + 1, maxSteps, delay)
        == pulses + Schedule(pins, left, i, maxSteps, delay);
    }
  }

  /** After its direction write, `doSteps(dirs, steps)` sends pulses only, and exactly steps[s] of them for stepper s. */
  lemma StepTraceCounts(dirPins: seq<int>, stepPins: seq<int>, dirs: seq<int>, steps: seq<nat>, delay: real)
    requires steps != [] && |steps| <= |stepPins|
    ensures StepTrace(dirPins, stepPins, dirs, steps, delay)[0] == Output(dirPins, dirs)
    ensures PulseTrain(StepTrace(dirPins, stepPins, dirs, steps, delay)[1..], stepPins, delay)
    ensures forall pin :: Pulses(StepTrace(dirPins, stepPins, dirs, steps, delay)[1..], pin) == StepsOnPin(stepPins, steps, pin)
  {
    var maxSteps := Max(steps);
    var plan := Plans(steps, maxSteps);
    var sched := Schedule(stepPins, plan, 0, maxSteps, delay);
    assert StepTrace(dirPins, stepPins, dirs, steps, delay) == [Output(dirPins, dirs)] + sched;
    assert StepTrace(dirPins, stepPins, dirs, steps, delay)[1..] == sched;
    ScheduleCounts(stepPins, steps, delay);
  }

  /** The schedule of a whole move gives every pin the pulses its steppers were asked for. */
  lemma ScheduleCounts(pins: seq<int>, steps: seq<nat>, delay: real)
    requires steps != [] && |steps| <= |pins|
    ensures PulseTrain(Schedule(pins, Plans(steps, Max(steps)), 0, Max(steps), delay), pins, delay)
    ensures forall pin :: Pulses(Schedule(pins, Plans(steps, Max(steps)), 0, Max(steps), delay), pin) == StepsOnPin(pins, steps, pin)
  {
    var maxSteps := Max(steps);
    var plan := Plans(steps, maxSteps);
    PlansAt(steps, maxSteps);
    PlanStart(pins, steps, maxSteps, plan, delay);
    ScheduleProgress(pins, steps, maxSteps, plan, [], 0, delay);
    assert [] + Schedule(pins, plan, 0, maxSteps, delay) == Schedule(pins, plan, 0, maxSteps, delay);
  }

  /** The planned positions of each stepper: its steps spread evenly over [0, maxSteps - 1]. */
  method PlanSteps(steps: seq<nat>, maxSteps: nat) returns (stepPos: seq<seq<real>>)
    ensures |stepPos| == |steps|
    ensures stepPos == Plans(steps, maxSteps)
  {
    stepPos := [];
    var s := 0;
    while s < |steps|
      invariant 0 <= s <= |steps| && stepPos == Plans(steps[..s], maxSteps)
    {
      assert steps[..s + 1][..s] == steps[..s];
      stepPos := stepPos + [Linspace(0.0, (maxSteps as real - 1.0), steps[s])];
      s := s + 1;
    }
    assert steps[..s] == steps;
  }

  /** Before the first tick the whole plan lies ahead and no pulse was sent. */
  lemma PlanStart(pins: seq<int>, steps: seq<nat>, maxSteps: nat, plan: seq<seq<real>>, delay: real)
    requires |steps| <= |pins| && steps != [] && maxSteps == Max(steps)
    requires |plan| == |steps| && forall t :: 0 <= t < |steps| ==> plan[t] == Planned(steps[t], maxSteps)
    ensures Progress(pins, steps, maxSteps, plan, [], delay)
    ensures HeadsFrom(plan, 0, -0.5)
  {
    PlanRemaining(steps, maxSteps, plan);
    forall pin
      ensures Pulses([], pin) == Issued(pins, steps, plan, pin)
    {
      IssuedNone(pins, steps, plan, pin);
    }
  }

  /** A whole plan is on plan, and starts at position 0. */
  lemma PlanRemaining(steps: seq<nat>, maxSteps: nat, plan: seq<seq<real>>)
    requires steps != [] && maxSteps == Max(steps)
    requires |plan| == |steps| && forall t :: 0 <= t < |steps| ==> plan[t] == Planned(steps[t], maxSteps)
    ensures Remaining(steps, maxSteps, plan)
    ensures HeadsFrom(plan, 0, -0.5)
  {
    forall t | 0 <= t < |steps|
      ensures OnPlan(steps[t], maxSteps, plan[t])
    {
      assert steps[t] <= maxSteps;
      assert Planned(steps[t], maxSteps)[0..] == plan[t];
    }
  }

  /** One tick moves its pulses from the schedule still ahead onto the trace. */
  lemma ScheduleStep(pins: seq<int>, before: seq<Event>, after: seq<Event>, posBefore: seq<seq<real>>,
                     posAfter: seq<seq<real>>, i: nat, maxSteps: nat, delay: real)
    requires |posBefore| <= |pins| && i < maxSteps
    requires after == before + TickEvents(pins, posBefore, i, delay) && posAfter == TickLeft(posBefore, i)
    ensures after + Schedule(pins, posAfter, i + 1, maxSteps, delay) == before + Schedule(pins, posBefore, i, maxSteps, delay)
  {
  }

  /** After the last tick every planned position was used: each pin got its steps. */
  lemma PlanDone(pins: seq<int>, steps: seq<nat>, maxSteps: nat, left: seq<seq<real>>, pulses: seq<Event>, delay: real)
    requires Progress(pins, steps, maxSteps, left, pulses, delay)
    requires HeadsFrom(left, 0, maxSteps as real - 0.5)
    ensures PulseTrain(pulses, pins, delay)
    ensures forall pin :: Pulses(pulses, pin) == StepsOnPin(pins, steps, pin)
  {
    forall t | 0 <= t < |steps|
      ensures left[t] == []
    {
      RemainingBound(steps, maxSteps, left, t);
    }
    forall pin
      ensures Pulses(pulses, pin) == StepsOnPin(pins, steps, pin)
    {
      IssuedAll(pins, steps, left, pin);
    }
  }

  /** The pulse trace since the direction write matches the planned positions already used. */
  ghost predicate Progress(pins: seq<int>, steps: seq<nat>, maxSteps: nat, left: seq<seq<real>>, pulses: seq<Event>, delay: real)
  {
    |steps| <= |pins| && Remaining(steps, maxSteps, left)
    && PulseTrain(pulses, pins, delay)
    && forall pin :: Pulses(pulses, pin) == Issued(pins, steps, left, pin)
  }

  /** The next planned position of every channel from s on is at least h. */
  predicate HeadsFrom(left: seq<seq<real>>, s: nat, h: real)
  {
    forall t :: s <= t < |left| && left[t] != [] ==> left[t][0] >= h
  }

  /** One pulse of channel s keeps the trace and the plan in step, and moves the channel's next position a tick on. */
  lemma PulseEmitted(stepPins: seq<int>, before: seq<Event>, after: seq<Event>, start: nat, s: nat, delay: real,
                     posBefore: seq<seq<real>>, posAfter: seq<seq<real>>, steps: seq<nat>, maxSteps: nat, i: int)
    requires start <= |before| && s < |steps| <= |stepPins| && |posBefore| == |steps|
    requires after == before + Pulse(stepPins[s], delay)
    requires posBefore[s] != [] && posAfter == posBefore[s := posBefore[s][1..]]
    requires Progress(stepPins, steps, maxSteps, posBefore, before[start..], delay)
    requires posBefore[s][0] >= i as real - 0.5
    ensures after[..start] == before[..start]
    ensures Progress(stepPins, steps, maxSteps, posAfter, after[start..], delay)
    ensures posAfter[s] != [] ==> posAfter[s][0] >= i as real + 0.5
  {
    assert after[start..] == before[start..] + Pulse(stepPins[s], delay);
    PulseTrainAppend(before[start..], stepPins, delay, s);
    forall pin
      ensures Pulses(after[start..], pin) == Issued(stepPins, steps, posAfter, pin)
    {
      PulsesAppend(before[start..], Pulse(stepPins[s], delay), pin);
      PulseCount(stepPins[s], delay, pin);
      IssuedStep(stepPins, steps, posBefore, s, pin);
    }
    RemainingTail(steps, maxSteps, posBefore, s);
  }

  /** Each channel's remaining positions are a suffix of its plan. */
  predicate Remaining(steps: seq<nat>, maxSteps: nat, left: seq<seq<real>>)
  {
    |left| == |steps| && forall t :: 0 <= t < |steps| ==> OnPlan(steps[t], maxSteps, left[t])
  }

  /** l is what is left of the plan of a channel with n steps. */
  predicate OnPlan(n: nat, maxSteps: nat, l: seq<real>)
  {
    n <= maxSteps && |l| <= n && l == Planned(n, maxSteps)[n - |l|..]
  }

  /** Using a channel's next position leaves it on its plan; the one after is a tick later. */
  lemma OnPlanTail(n: nat, maxSteps: nat, l: seq<real>)
    requires OnPlan(n, maxSteps, l) && l != []
    ensures OnPlan(n, maxSteps, l[1..])
    ensures |l| >= 2 ==> l[1] >= l[0] + 1.0
  {
    var p := Planned(n, maxSteps);
    var j := n - |l|;
    assert l[1..] == p[j + 1..];
    if |l| >= 2 {
      PlannedSpacing(n, maxSteps);
      assert l[0] == p[j] && l[1] == p[j + 1];
    }
  }

  lemma RemainingTail(steps: seq<nat>, maxSteps: nat, left: seq<seq<real>>, s: nat)
    requires Remaining(steps, maxSteps, left) && s < |steps| && left[s] != []
    ensures Remaining(steps, maxSteps, left[s := left[s][1..]])
    ensures |left[s]| >= 2 ==> left[s][1] >= left[s][0] + 1.0
  {
    var left' := left[s := left[s][1..]];
    OnPlanTail(steps[s], maxSteps, left[s]);
    forall t | 0 <= t < |steps|
      ensures OnPlan(steps[t], maxSteps, left'[t])
    {
      if t != s {
        assert left'[t] == left[t];
      }
    }
  }

  /** A channel's remaining positions are at most maxSteps - 1. */
  lemma RemainingBound(steps: seq<nat>, maxSteps: nat, left: seq<seq<real>>, t: nat)
    requires Remaining(steps, maxSteps, left) && t < |steps|
    requires left[t] != [] ==> left[t][0] >= maxSteps as real - 0.5
    ensures left[t] == []
  {
    OnPlanHead(steps[t], maxSteps, left[t]);
  }

  /** What is left of a plan starts no later than the last tick. */
  lemma OnPlanHead(n: nat, maxSteps: nat, l: seq<real>)
    requires OnPlan(n, maxSteps, l)
    ensures l != [] ==> l[0] <= maxSteps as real - 1.0
  {
    if l != [] {
      PlannedSpacing(n, maxSteps);
      assert l[0] == Planned(n, maxSteps)[n - |l|];
    }
  }

  /** The pen servo, driven by PWM. */
  class ServoCtrl {
    const gpio: Gpio
    const pwmPin: int
    const ctrlFreq: real
    const initDutyCycle: real
    var pwmStarted: bool

    constructor (gpio: Gpio, pwmPin: int, ctrlFreq: real := 50.0, initDutyCycle: real := 0.1)
      ensures this.gpio == gpio && this.pwmPin == pwmPin && this.ctrlFreq == ctrlFreq
      ensures this.initDutyCycle == initDutyCycle && !pwmStarted
    {
      this.gpio := gpio;
      this.pwmPin := pwmPin;
      this.ctrlFreq := ctrlFreq;
      this.initDutyCycle := initDutyCycle;
      pwmStarted := false;
    }

    /** `initGPIO`: the pin is set up and PWM starts at the initial duty cycle. */
    method InitGPIO()
      modifies this, gpio
      ensures pwmStarted
      ensures gpio.events == old(gpio.events) + [Setup([pwmPin]), PwmStart(pwmPin, ctrlFreq, initDutyCycle)]
    {
      gpio.events := gpio.events + [Setup([pwmPin])];
      gpio.events := gpio.events + [PwmStart(pwmPin, ctrlFreq, initDutyCycle)];
      pwmStarted := true;
    }

    /** `moveTo`: the new duty cycle, then a wait of `delay` seconds for the servo; a negative delay raises at the wait. */
    method MoveTo(dutyCycle: real, delay: real := 0.3) returns (raised: bool)
      requires pwmStarted
      modifies gpio
      ensures raised <==> delay < 0.0
      ensures gpio.events == old(gpio.events) + [PwmDuty(pwmPin, dutyCycle)] + (if raised then [] else [Sleep(delay)])
    {
      gpio.events := gpio.events + [PwmDuty(pwmPin, dutyCycle)];
      if delay < 0.0 {
        return true;
      }
      gpio.events := gpio.events + [Sleep(delay)];
      raised := false;
    }
  }
}
