/** Vocabulary shared by every program of the lab: logic levels, bytes, the edge
    events libgpiod reports, and the bit arithmetic the C code writes with shifts
    and masks. */
module Gpio {

  /** A logic level on one GPIO line. */
  type bit = x: int | 0 <= x <= 1

  /** An unsigned 8-bit value (`uint8_t`, `unsigned char`). */
  type byte = x: int | 0 <= x < 256

  datatype Option<T> = None | Some(value: T)

  /** The kind of a line event. */
  datatype Edge = Rising | Falling

  /** The outcome of one `gpiod_line_event_wait` followed, when an event is
      pending, by `gpiod_line_event_read`. */
  datatype WaitOutcome =
    | WaitFailed          // event_wait returned a negative value
    | Timeout             // event_wait returned 0
    | ReadFailed          // event_wait returned > 0, event_read failed
    | Event(edge: Edge)   // an event was read

  /** Two appends in a row are one append of the two parts. */
  lemma AppendTwo<T>(s: seq<T>, a: seq<T>, b: seq<T>)
    ensures s + a + b == s + (a + b)
  {
  }

  /** Four appends in a row are one append of the four parts. */
  lemma AppendFour<T>(s: seq<T>, a: seq<T>, b: seq<T>, c: seq<T>, d: seq<T>)
    ensures s + a + b + c + d == s + (a + b + c + d)
  {
  }

  /** Bit `k` of `x`: `(x >> k) & 1` for a non-negative `x`. */
  function BitOf(x: nat, k: nat): bit
    requires k < 8
  {
    match k
    case 0 => x % 2
    case 1 => (x / 2) % 2
    case 2 => (x / 4) % 2
    case 3 => (x / 8) % 2
    case 4 => (x / 16) % 2
    case 5 => (x / 32) % 2
    case 6 => (x / 64) % 2
    case _ => (x / 128) % 2
  }

  /** Bits 0..3 of `v`, read back as a number, are `v % 16`: the nibble that
      `write4` puts on D4..D7. */
  lemma NibbleOfBits(v: nat)
    ensures BitOf(v, 0) + 2 * BitOf(v, 1) + 4 * BitOf(v, 2) + 8 * BitOf(v, 3) == v % 16
  {
    var x1, x2, x3, x4 := v / 2, v / 4, v / 8, v / 16;
    assert x2 == x1 / 2 && x3 == x2 / 2 && x4 == x3 / 2;
    assert v == 2 * x1 + v % 2;
    assert x1 == 2 * x2 + x1 % 2;
    assert x2 == 2 * x3 + x2 % 2;
    assert x3 == 2 * x4 + x3 % 2;
    assert v == 16 * x4 + (v % 2 + 2 * (x1 % 2) + 4 * (x2 % 2) + 8 * (x3 % 2));
  }

  /** Bits 4..7 of `v` are bits 0..3 of `v / 16`: `v & 0xF0` keeps the high
      nibble. */
  lemma HighBitsShift(v: nat, k: nat)
    requires k < 4
    ensures BitOf(v, k + 4) == BitOf(v / 16, k)
  {
    var q := v / 16;
    assert v == 16 * q + v % 16;
    if k == 1 {
      assert v / 32 == q / 2;
    } else if k == 2 {
      assert v / 64 == q / 4;
    } else if k == 3 {
      assert v / 128 == q / 8;
    }
  }

  /** `now_ms()`: a CLOCK_MONOTONIC reading of `sec` seconds and `nsec`
      nanoseconds, in whole milliseconds (`sec * 1000 + nsec / 1000000`). */
  function NowMs(sec: nat, nsec: nat): (ms: nat)
    requires nsec < 1000000000
    ensures ms * 1000000 <= sec * 1000000000 + nsec < (ms + 1) * 1000000
  {
    sec * 1000 + nsec / 1000000
  }

  /** A later clock reading never gives an earlier millisecond count. */
  lemma NowMsMonotone(sec1: nat, nsec1: nat, sec2: nat, nsec2: nat)
    requires nsec1 < 1000000000 && nsec2 < 1000000000
    requires sec1 < sec2 || (sec1 == sec2 && nsec1 <= nsec2)
    ensures NowMs(sec1, nsec1) <= NowMs(sec2, nsec2)
  {
    if sec1 < sec2 {
      assert nsec1 / 1000000 < 1000;
      assert sec1 * 1000 + 1000 <= sec2 * 1000;
    }
  }

  /** The edge filter all the event loops apply: an event at `t` ms is
      accepted when at least `windowMs` ms have passed since the last accepted
      one, at `last` ms. */
  predicate Debounced(t: int, last: int, windowMs: nat)
  {
    t - last >= windowMs
  }
}
