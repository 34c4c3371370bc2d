/** The square-wave buzzer of lab3/src/buzzer_interrupt.c and
    lab3/src/buzzer_polling.c. A level is written to the buzzer pin and
    flipped on every half-period; each falling edge of the button selects the
    next of five frequencies, cyclically. The interrupt version toggles in a
    timer handler and re-arms the timer with a half-period in nanoseconds; the
    polling version toggles once per loop iteration and sleeps a half-period
    in microseconds. */
module Buzzer {
  import opened Gpio

  /** The five selectable frequencies, in Hz. */
  const Frequencies: seq<nat> := [500, 1000, 1500, 2000, 3000]
  const NumFrequencies := 5

  /** `(index + 1) % NUM_FREQUENCIES`: the next frequency, wrapping from
      the last to the first. */
  function NextIndex(i: nat): (j: nat)
    ensures j < NumFrequencies
    ensures i < NumFrequencies - 1 ==> j == i + 1
    ensures i == NumFrequencies - 1 ==> j == 0
  {
    (i + 1) % NumFrequencies
  }

  /** The index after `n` presses. */
  function Presses(i: nat, n: nat): nat
  {
    if n == 0 then i else NextIndex(Presses(i, n - 1))
  }

  /** `n` presses advance the index by `n` modulo five. */
  lemma {:induction false} PressesAdvance(i: nat, n: nat)
    requires i < NumFrequencies
    ensures Presses(i, n) == (i + n) % NumFrequencies
  {
    if n > 0 {
      PressesAdvance(i, n - 1);
      var m := i + n - 1;
      assert (m % 5 + 1) % 5 == (m + 1) % 5 by {
        assert m == 5 * (m / 5) + m % 5;
        assert m + 1 == 5 * (m / 5) + (m % 5 + 1);
      }
    }
  }

  /** Five presses bring the buzzer back to the frequency it started at, and
      fewer do not. */
  lemma FivePressesCycle(i: nat, n: nat)
    requires i < NumFrequencies && 0 < n <= NumFrequencies
    ensures Presses(i, n) == i <==> n == NumFrequencies
  {
    PressesAdvance(i, n);
  }

  /** The index after one outcome of the button wait: only a falling edge
      moves it; timeouts, failed waits, failed reads and other edges do not. */
  function AfterOutcome(i: nat, outcome: WaitOutcome): nat
  {
    if outcome == Event(Falling) then NextIndex(i) else i
  }

  /** Only a falling edge changes the selected frequency. */
  lemma OnlyFallingEdgesSelect(i: nat, outcome: WaitOutcome)
    requires i < NumFrequencies
    ensures AfterOutcome(i, outcome) < NumFrequencies
    ensures AfterOutcome(i, outcome) != i <==> outcome == Event(Falling)
  {
  }

  /** The timer half-period of the interrupt version, `1000000000L / (2 *
      f)` ns: the largest whole number of nanoseconds that fits in half a
      period. It is below one second, so `tv_sec = 0` is right. */
  function HalfPeriodNs(f: nat): (ns: nat)
    requires f > 0
    ensures ns * (2 * f) <= 1000000000 < (ns + 1) * (2 * f)
    ensures ns < 1000000000
  {
    1000000000 / (2 * f)
  }

  /** The sleep of the polling version, `1000000L / (2 * f)` µs. */
  function HalfPeriodUs(f: nat): (us: nat)
    requires f > 0
    ensures us * (2 * f) <= 1000000 < (us + 1) * (2 * f)
  {
    1000000 / (2 * f)
  }

  /** The half-periods of the five frequencies. */
  lemma HalfPeriodTable()
    ensures |Frequencies| == NumFrequencies
    ensures forall i :: 0 <= i < NumFrequencies ==> Frequencies[i] > 0
    ensures seq(5, i requires 0 <= i < 5 => HalfPeriodNs(Frequencies[i]))
      == [1000000, 500000, 333333, 250000, 166666]
    ensures seq(5, i requires 0 <= i < 5 => HalfPeriodUs(Frequencies[i]))
      == [1000, 500, 333, 250, 166]
  {
  }

  /** Multiplying by a positive factor keeps a strict order. */
  lemma CancelFactor(a: int, b: int, d: int)
    requires d > 0 && a * d < b * d
    ensures a < b
  {
  }

  /** The polling version's microseconds are the interrupt version's
      nanoseconds truncated to whole microseconds. */
  lemma UsMatchesNs(f: nat)
    requires f > 0
    ensures HalfPeriodUs(f) * 1000 <= HalfPeriodNs(f) < (HalfPeriodUs(f) + 1) * 1000
  {
    var d, us, ns := 2 * f, HalfPeriodUs(f), HalfPeriodNs(f);
    assert us * d <= 1000000 < (us + 1) * d;
    assert ns * d <= 1000000000 < (ns + 1) * d;
    assert (1000 * us) * d == 1000 * (us * d);
    assert (1000 * (us + 1)) * d == 1000 * ((us + 1) * d);
    CancelFactor(1000 * us - 1, ns, d) by {
      assert (1000 * us - 1) * d == (1000 * us) * d - d;
      assert (ns + 1) * d == ns * d + d;
    }
    CancelFactor(ns, 1000 * (us + 1), d);
  }

  /** The level on the buzzer pin and the values written to it so far. */
  datatype Wave = Wave(state: bit, writes: seq<bit>)

  /** One timer tick: when the line is available, write `state` and flip
      it; otherwise nothing. */
  function Toggle(w: Wave, attached: bool): Wave
  {
    if attached then Wave(1 - w.state, w.writes + [w.state]) else w
  }

  function Toggles(w: Wave, attached: bool, n: nat): Wave
  {
    if n == 0 then w else Toggle(Toggles(w, attached, n - 1), attached)
  }

  /** From the initial level 0, `n` ticks write 0, 1, 0, 1, ... and leave the
      level at `n % 2`. */
  lemma {:induction false} SquareWave(n: nat)
    ensures Toggles(Wave(0, []), true, n).writes == seq(n, i requires 0 <= i < n => i % 2)
    ensures Toggles(Wave(0, []), true, n).state == n % 2
  {
    if n > 0 {
      SquareWave(n - 1);
      var prev := Toggles(Wave(0, []), true, n - 1);
      assert prev.writes + [prev.state] == seq(n, i requires 0 <= i < n => i % 2);
    }
  }

  /** buzzer_interrupt.c: the handler's `led` and `state`, and the control
      loop's `current_freq_index` and `interval_ns`. `armed` records the
      intervals `timer_settime` accepted. */
  class InterruptBuzzer {
    const attached: bool
    var state: bit
    var writes: seq<bit>
    var freqIndex: nat
    var intervalNs: nat
    var armed: seq<nat>

    /** The selected frequency and the armed interval agree. */
    predicate Valid()
      reads this
    {
      freqIndex < NumFrequencies
      && intervalNs == HalfPeriodNs(Frequencies[freqIndex])
      && intervalNs < 1000000000
    }

    /** `main` up to the first successful `timer_settime`: 500 Hz, a
        1000000 ns half-period. */
    constructor (attached: bool)
      ensures Valid()
      ensures this.attached == attached && state == 0 && writes == []
      ensures freqIndex == 0 && intervalNs == 1000000 && armed == [1000000]
    {
      this.attached := attached;
      state := 0;
      writes := [];
      freqIndex := 0;
      intervalNs := 1000000;
      armed := [1000000];
    }

    /** `timer_handler`. */
    method Tick()
      modifies this
      ensures Wave(state, writes) == Toggle(old(Wave(state, writes)), attached)
      ensures freqIndex == old(freqIndex) && intervalNs == old(intervalNs) && armed == old(armed)
    {
      if attached {
        writes := writes + [state];
        state := 1 - state;
      }
    }

    /** One pass of the control loop after the wait: `settimeOk` is whether
        `timer_settime` succeeds. A falling edge selects the next frequency
        and re-arms the timer; if re-arming fails the loop ends
        (`running` false), with the new index already stored. */
    method Control(outcome: WaitOutcome, settimeOk: bool) returns (running: bool)
      requires Valid()
      modifies this
      ensures Valid()
      ensures freqIndex == AfterOutcome(old(freqIndex), outcome)
      ensures armed == old(armed) + (if outcome == Event(Falling) && settimeOk then [intervalNs] else [])
      ensures running <==> !(outcome == Event(Falling) && !settimeOk)
      ensures state == old(state) && writes == old(writes)
    {
      running := true;
      if outcome == Event(Falling) {
        freqIndex := NextIndex(freqIndex);
        intervalNs := HalfPeriodNs(Frequencies[freqIndex]);
        if !settimeOk {
          running := false;
          return;
        }
        armed := armed + [intervalNs];
      }
    }
  }

  /** buzzer_polling.c: `freq_index`, `interval_us` and `state`, the values
      written to the pin and the `usleep` durations. */
  class PollingBuzzer {
    var freqIndex: nat
    var intervalUs: nat
    var state: bit
    var writes: seq<bit>
    var sleeps: seq<nat>

    predicate Valid()
      reads this
    {
      freqIndex < NumFrequencies && intervalUs == HalfPeriodUs(Frequencies[freqIndex])
    }

    /** The state before the loop: 500 Hz, 1000 µs, level 0. */
    constructor ()
      ensures Valid()
      ensures freqIndex == 0 && intervalUs == 1000 && state == 0
      ensures writes == [] && sleeps == []
    {
      freqIndex := 0;
      intervalUs := 1000;
      state := 0;
      writes := [];
      sleeps := [];
    }

    /** One loop iteration: a falling edge selects the next frequency and
        sleeps 50 ms; then, whatever happened, the pin gets `state`, `state`
        flips, and the loop sleeps the half-period. */
    method Iteration(outcome: WaitOutcome)
      requires Valid()
      modifies this
      ensures Valid()
      ensures freqIndex == AfterOutcome(old(freqIndex), outcome)
      ensures outcome != Event(Falling) ==> intervalUs == old(intervalUs)
      ensures Wave(state, writes) == Toggle(old(Wave(state, writes)), true)
      ensures sleeps == old(sleeps) + (if outcome == Event(Falling) then [50000] else []) + [intervalUs]
    {
      if outcome == Event(Falling) {
        freqIndex := NextIndex(freqIndex);
        intervalUs := HalfPeriodUs(Frequencies[freqIndex]);
        sleeps := sleeps + [50000];
      }
      writes := writes + [state];
      state := 1 - state;
      sleeps := sleeps + [intervalUs];
    }
  }
}
