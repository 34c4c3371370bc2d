/** lab3/src/seven_segment.c: two multiplexed, active-low seven-segment
    digits showing an 8-bit counter in hexadecimal. A 2 ms timer tick blanks
    both digits, drives the segments of one digit and enables it; every 250
    ticks (500 ms) the counter goes up by one. */
module SevenSegment {
  import opened Gpio

  const MultiplexIntervalUs := 2000
  const CounterIntervalMs := 500

  /** The number of ticks between two counter increments. */
  const TicksPerCount := CounterIntervalMs * 1000 / MultiplexIntervalUs

  /** Segment patterns for the hex digits 0..F, bit k driving segment A+k,
      inverted: a 0 bit lights its segment. */
  const HexPatterns: seq<byte> := [
    0x40, 0x79, 0x24, 0x30, 0x19, 0x12, 0x02, 0x78,
    0x00, 0x10, 0x08, 0x03, 0x46, 0x21, 0x06, 0x0E]

  /** The nine output lines. */
  datatype Line = SegA | SegB | SegC | SegD | SegE | SegF | SegG | Sel1 | Sel2

  /** One `gpiod_line_set_value` (or the initial level of a line request). */
  datatype Write = Write(line: Line, level: bit)

  /** The line of segment `k` (0 = A .. 6 = G). */
  function Segment(k: nat): Line
    requires k < 7
  {
    [SegA, SegB, SegC, SegD, SegE, SegF, SegG][k]
  }

  /** The handler's globals `current_counter`, `current_digit` and
      `multiplex_count`. */
  datatype MuxState = MuxState(counter: byte, digit: int, count: nat)

  const Start := MuxState(0, 0, 0)

  /** The seven writes of `set_segments(pattern)`: segment k gets
      `(pattern >> k) & 1`. */
  function SegmentWrites(pattern: byte): seq<Write>
  {
    seq(7, k requires 0 <= k < 7 => Write(Segment(k), BitOf(pattern, k)))
  }

  /** The pattern `digit` shows: the high nibble of the counter on the
      first digit, the low nibble on the second. */
  function Shown(s: MuxState): byte
  {
    if s.digit == 0 then HexPatterns[s.counter / 16] else HexPatterns[s.counter % 16]
  }

  /** All the writes of one tick. */
  function TickWrites(s: MuxState): seq<Write>
  {
    [Write(Sel1, 1), Write(Sel2, 1)] + SegmentWrites(Shown(s))
      + [Write(if s.digit == 0 then Sel1 else Sel2, 0)]
  }

  /** The globals after one tick: the other digit, one more tick counted, and
      every `TicksPerCount` ticks the `unsigned char` counter incremented
      (wrapping 255 to 0) and the tick count reset. */
  function Next(s: MuxState): MuxState
  {
    var digit := if s.digit == 0 then 1 else 0;
    if s.count + 1 >= TicksPerCount then MuxState((s.counter + 1) % 256, digit, 0)
    else MuxState(s.counter, digit, s.count + 1)
  }

  /** The globals after `n` ticks. */
  function Iterate(s: MuxState, n: nat): MuxState
  {
    if n == 0 then s else Next(Iterate(s, n - 1))
  }

  /** `setup_gpio` requests all nine lines as outputs at level 1: every
      segment dark and both digits disabled. */
  function SetupWrites(): (ws: seq<Write>)
    ensures |ws| == 9 && forall k :: 0 <= k < 9 ==> ws[k].level == 1
  {
    [Write(SegA, 1), Write(SegB, 1), Write(SegC, 1), Write(SegD, 1), Write(SegE, 1),
     Write(SegF, 1), Write(SegG, 1), Write(Sel1, 1), Write(Sel2, 1)]
  }

  /** The table: 16 distinct 7-bit entries, and "8" (every segment lit) is
      all zeros. */
  lemma PatternTable()
    ensures |HexPatterns| == 16
    ensures forall i :: 0 <= i < 16 ==> HexPatterns[i] < 128
    ensures forall i, j :: 0 <= i < j < 16 ==> HexPatterns[i] != HexPatterns[j]
    ensures HexPatterns[8] == 0
  {
  }

  /** The counter moves every 500 ms / 2 ms = 250 ticks. */
  lemma TicksPerCountValue()
    ensures TicksPerCount == 250
  {
  }

  /** A 7-bit value is the sum of its seven low bits. */
  lemma SevenBits(pattern: byte)
    requires pattern < 128
    ensures BitOf(pattern, 0) + 2 * BitOf(pattern, 1) + 4 * BitOf(pattern, 2) + 8 * BitOf(pattern, 3)
      + 16 * (BitOf(pattern, 4) + 2 * BitOf(pattern, 5) + 4 * BitOf(pattern, 6)) == pattern
  {
    var x1, x2, x3, x4, x5, x6 := pattern / 2, pattern / 4, pattern / 8, pattern / 16, pattern / 32, pattern / 64;
    assert x2 == x1 / 2 && x3 == x2 / 2 && x4 == x3 / 2 && x5 == x4 / 2 && x6 == x5 / 2;
    assert pattern == 2 * x1 + pattern % 2;
    assert x1 == 2 * x2 + x1 % 2;
    assert x2 == 2 * x3 + x2 % 2;
    assert x3 == 2 * x4 + x3 % 2;
    assert x4 == 2 * x5 + x4 % 2;
    assert x5 == 2 * x6 + x5 % 2;
    assert x6 == x6 % 2;
  }

  /** The levels `set_segments` writes on A..G, read back as a number, are the
      pattern: it drives segment k with bit k and nothing else. */
  lemma SegmentWritesRoundTrip(pattern: byte)
    requires pattern < 128
    ensures var ws := SegmentWrites(pattern);
      ws[0].level + 2 * ws[1].level + 4 * ws[2].level + 8 * ws[3].level
        + 16 * ws[4].level + 32 * ws[5].level + 64 * ws[6].level == pattern
    ensures forall k :: 0 <= k < 7 ==> SegmentWrites(pattern)[k].line == Segment(k)
  {
    var ws := SegmentWrites(pattern);
    assert forall k :: 0 <= k < 7 ==> ws[k].level == BitOf(pattern, k);
    SevenBits(pattern);
  }

  /** Every tick first disables both digits, then enables exactly one: the
      first digit when `current_digit` is 0, the second otherwise. */
  lemma TickSelects(s: MuxState)
    ensures var ws := TickWrites(s);
      |ws| == 10 && ws[0] == Write(Sel1, 1) && ws[1] == Write(Sel2, 1)
      && (forall k :: 2 <= k < 9 ==> ws[k].line != Sel1 && ws[k].line != Sel2)
      && ws[9] == (if s.digit == 0 then Write(Sel1, 0) else Write(Sel2, 0))
  {
    var ws := TickWrites(s);
    assert forall k :: 2 <= k < 9 ==> ws[k] == SegmentWrites(Shown(s))[k - 2];
  }

  /** `current_digit` is always 0 or 1 after a tick and alternates. */
  lemma DigitAlternates(s: MuxState)
    ensures Next(s).digit == 0 || Next(s).digit == 1
    ensures s.digit == 0 || s.digit == 1 ==> Next(s).digit == 1 - s.digit
    ensures s.digit == 0 || s.digit == 1 ==> Next(Next(s)).digit == s.digit
  {
  }

  /** `multiplex_count` stays below 250. */
  lemma CountBounded(s: MuxState)
    requires s.count < TicksPerCount
    ensures Next(s).count < TicksPerCount
    ensures Next(s).count == 0 <==> s.count == TicksPerCount - 1
  {
  }

  /** Two ticks starting on the first digit show the counter's high nibble
      on the first digit, then its low nibble on the second, unless the
      counter moved in between. */
  lemma HighThenLow(s: MuxState)
    requires s.digit == 0 && s.count + 1 < TicksPerCount
    ensures Shown(s) == HexPatterns[s.counter / 16]
    ensures Shown(Next(s)) == HexPatterns[s.counter % 16]
    ensures TickWrites(s)[9] == Write(Sel1, 0) && TickWrites(Next(s))[9] == Write(Sel2, 0)
  {
  }

  /** Within one counting period the counter holds still while the tick count
      climbs. */
  lemma {:induction false} WithinPeriod(s: MuxState, n: nat)
    requires s.count == 0 && n < TicksPerCount
    ensures Iterate(s, n).counter == s.counter && Iterate(s, n).count == n
  {
    if n > 0 {
      WithinPeriod(s, n - 1);
    }
  }

  /** Exactly 250 ticks after a reset the counter has gone up by one (mod
      256) and the tick count is reset again. */
  lemma OnePeriod(s: MuxState)
    requires s.count == 0
    ensures Iterate(s, TicksPerCount).counter == (s.counter + 1) % 256
    ensures Iterate(s, TicksPerCount).count == 0
  {
    WithinPeriod(s, TicksPerCount - 1);
  }

  lemma {:induction false} IterateAdd(s: MuxState, a: nat, b: nat)
    ensures Iterate(s, a + b) == Iterate(Iterate(s, a), b)
  {
    if b > 0 {
      IterateAdd(s, a, b - 1);
    }
  }

  lemma PeriodStep(k: nat)
    requires k > 0
    ensures Iterate(Start, TicksPerCount * k) == Iterate(Iterate(Start, TicksPerCount * (k - 1)), TicksPerCount)
  {
    TicksPerCountValue();
    assert TicksPerCount * (k - 1) + TicksPerCount == TicksPerCount * k;
    IterateAdd(Start, TicksPerCount * (k - 1), TicksPerCount);
  }

  lemma ByteSucc(a: nat)
    ensures (a % 256 + 1) % 256 == (a + 1) % 256
  {
    assert a + 1 == 256 * (a / 256) + (a % 256 + 1);
  }

  /** From power-up, after `250 * k` ticks the display shows `k` modulo 256:
      the counter wraps from 255 to 0. */
  lemma {:induction false} CounterAfterPeriods(k: nat)
    ensures Iterate(Start, TicksPerCount * k).counter == k % 256
    ensures Iterate(Start, TicksPerCount * k).count == 0
  {
    if k > 0 {
      CounterAfterPeriods(k - 1);
      PeriodStep(k);
      OnePeriod(Iterate(Start, TicksPerCount * (k - 1)));
      ByteSucc(k - 1);
    }
  }

  /** The display driver: the handler's globals and the log of line writes. */
  class Multiplexer {
    var counter: byte
    var digit: int
    var count: nat
    var log: seq<Write>

    function State(): MuxState
      reads this
    {
      MuxState(counter, digit, count)
    }

    /** `setup_gpio`, with the globals at their initial values. */
    constructor ()
      ensures State() == Start
      ensures log == SetupWrites()
    {
      counter, digit, count := 0, 0, 0;
      log := SetupWrites();
    }

    /** `set_segments(pattern)`. */
    method SetSegments(pattern: byte)
      modifies this
      ensures State() == old(State())
      ensures log == old(log) + SegmentWrites(pattern)
    {
      log := log + [Write(SegA, BitOf(pattern, 0))];
      log := log + [Write(SegB, BitOf(pattern, 1))];
      log := log + [Write(SegC, BitOf(pattern, 2))];
      log := log + [Write(SegD, BitOf(pattern, 3))];
      log := log + [Write(SegE, BitOf(pattern, 4))];
      log := log + [Write(SegF, BitOf(pattern, 5))];
      log := log + [Write(SegG, BitOf(pattern, 6))];
      assert log[|old(log)|..] == SegmentWrites(pattern);
    }

    /** `multiplex_timer_handler`: one tick. */
    method Tick()
      modifies this
      ensures State() == Next(old(State()))
      ensures log == old(log) + TickWrites(old(State()))
    {
      var highNibble := counter / 16;
      var lowNibble := counter % 16;
      log := log + [Write(Sel1, 1)];
      log := log + [Write(Sel2, 1)];
      if digit == 0 {
        SetSegments(HexPatterns[highNibble]);
        log := log + [Write(Sel1, 0)];
        digit := 1;
      } else {
        SetSegments(HexPatterns[lowNibble]);
        log := log + [Write(Sel2, 0)];
        digit := 0;
      }
      count := count + 1;
      if count >= TicksPerCount {
        counter := (counter + 1) % 256;
        count := 0;
      }
    }
  }
}
