/** The message scroller of lab2/src/scroll_base_interrupt.c: twenty
    messages in a ring, two shown at a time; each rising edge of the scroll
    button that passes a 50 ms filter moves the window down by one. */
module Scroller {
  import opened Gpio
  import opened Hd44780
  import opened LcdApi

  /** `num_messages`. */
  const MessageCount := 20
  const DebounceMs := 50

  /** `messages[i]`: "Message 01" up to "Message 20". */
  function Message(i: nat): seq<char>
    requires i < MessageCount
  {
    Numbered(i + 1)
  }

  /** `(current_index + 1) % num_messages`. */
  function NextIndex(i: nat): (j: nat)
    ensures j < MessageCount
  {
    (i + 1) % MessageCount
  }

  /** The index after `n` scrolls. */
  function Scrolls(i: nat, n: nat): nat
  {
    if n == 0 then i else NextIndex(Scrolls(i, n - 1))
  }

  /** Taking the successor before or after the remainder is the same. */
  lemma SuccMod(m: nat)
    ensures (m % MessageCount + 1) % MessageCount == (m + 1) % MessageCount
  {
    var q, r := m / 20, m % 20;
    assert m == 20 * q + r;
    if r < 19 {
      assert m + 1 == 20 * q + (r + 1);
    } else {
      assert m + 1 == 20 * (q + 1);
    }
  }

  /** `n` scrolls move the window `n` places round the ring. */
  lemma {:induction false} ScrollsAdvance(i: nat, n: nat)
    requires i < MessageCount
    ensures Scrolls(i, n) == (i + n) % MessageCount
  {
    if n > 0 {
      ScrollsAdvance(i, n - 1);
      SuccMod(i + n - 1);
    }
  }

  /** Twenty accepted presses bring the window back, and fewer do not. */
  lemma TwentyScrolls(i: nat, n: nat)
    requires i < MessageCount && 0 < n <= MessageCount
    ensures Scrolls(i, n) == i <==> n == MessageCount
  {
    ScrollsAdvance(i, n);
    var m := i + n;
    if m < 20 {
      assert m % 20 == m;
    } else {
      assert m == 20 * 1 + (m - 20);
      assert m % 20 == m - 20;
    }
  }

  /** The two rows for index `i`: message `i` on row 0, the next one
      (wrapping) on row 1. */
  function Rows(i: nat): seq<Effect>
    requires i < MessageCount
  {
    [ShowRow(0, Message(i)), ShowRow(1, Message(NextIndex(i)))]
  }

  /** `current_index` and `last_ms`. */
  datatype Scroll = Scroll(index: nat, lastMs: int)

  /** The loop ends on a failed wait or a failed read. */
  predicate Ends(outcome: WaitOutcome)
  {
    outcome == WaitFailed || outcome == ReadFailed
  }

  /** The state after one outcome at `now_ms()` = `t`. Any event at least
      50 ms after the last accepted one is accepted and records `t`; only an
      accepted rising edge scrolls. */
  function Step(s: Scroll, outcome: WaitOutcome, t: int): Scroll
  {
    if outcome.Event? && Debounced(t, s.lastMs, DebounceMs) then
      Scroll(if outcome.edge == Rising then NextIndex(s.index) else s.index, t)
    else s
  }

  /** Timeouts and dropped events change nothing; an accepted event always
      records its time; the index moves by exactly one step or not at all. */
  lemma StepSpec(s: Scroll, outcome: WaitOutcome, t: int)
    requires s.index < MessageCount
    ensures Step(s, outcome, t).index < MessageCount
    ensures outcome == Timeout ==> Step(s, outcome, t) == s
    ensures outcome.Event? && t - s.lastMs < DebounceMs ==> Step(s, outcome, t) == s
    ensures outcome.Event? && t - s.lastMs >= DebounceMs ==> Step(s, outcome, t).lastMs == t
    ensures Step(s, outcome, t).index != s.index <==>
      outcome == Event(Rising) && Debounced(t, s.lastMs, DebounceMs)
  {
  }

  class Scroller {
    var index: nat
    var lastMs: int

    predicate Valid()
      reads this
    {
      index < MessageCount
    }

    function State(): Scroll
      reads this
    {
      Scroll(index, lastMs)
    }

    /** `current_index = 0`, `last_ms = 0`, and the two rows drawn before
        the loop. */
    constructor ()
      ensures Valid() && State() == Scroll(0, 0)
    {
      index := 0;
      lastMs := 0;
    }

    /** The rows drawn before the loop starts. */
    method FirstRows() returns (effects: seq<Effect>)
      requires Valid()
      ensures effects == Rows(index)
    {
      effects := [ShowRow(0, Message(index)), ShowRow(1, Message(NextIndex(index)))];
    }

    /** One pass of the loop. A scroll redraws both rows for the new index;
        `running` is false when the loop breaks. */
    method OnEvent(outcome: WaitOutcome, t: int) returns (running: bool, effects: seq<Effect>)
      requires Valid()
      modifies this
      ensures Valid()
      ensures running <==> !Ends(outcome)
      ensures State() == (if Ends(outcome) then old(State()) else Step(old(State()), outcome, t))
      ensures effects == (if index != old(index) then Rows(index) else [])
    {
      effects := [];
      if outcome == WaitFailed {
        return false, effects;
      }
      if outcome == Timeout {
        return true, effects;
      }
      if outcome == ReadFailed {
        return false, effects;
      }
      if t - lastMs < DebounceMs {
        return true, effects;
      }
      lastMs := t;
      if outcome.edge == Rising {
        index := NextIndex(index);
        effects := [ShowRow(0, Message(index)), ShowRow(1, Message(NextIndex(index)))];
      }
      running := true;
    }
  }
}
