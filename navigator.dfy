/** The message navigator of lab1/lcd3.c: sixteen messages in a ring, two of
    them on the display at a time, a "next" and a "prev" button polled once
    per loop pass. Also `button_pressed`, the file's polling debounce
    helper. */
module Navigator {
  import opened Gpio
  import opened Hd44780
  import opened LcdApi

  /** `N`, the number of messages. */
  const MessageCount := 16

  /** `msgs[i]` is "Message 01" for `i = 0`, up to "Message 16". */
  function Message(i: nat): seq<char>
    requires i < MessageCount
  {
    Numbered(i + 1)
  }

  /** `(i + 1) % N`. */
  function NextIndex(i: nat): (j: nat)
    ensures j < MessageCount
  {
    (i + 1) % MessageCount
  }

  /** `(i - 1 + N) % N`; the sum is never negative for an index in range,
      so C's `%` and the mathematical one agree. */
  function PrevIndex(i: nat): (j: nat)
    requires i < MessageCount
    ensures j < MessageCount
  {
    (i - 1 + MessageCount) % MessageCount
  }

  /** Next and prev undo each other, and neither stays put. */
  lemma NextPrevInverse(i: nat)
    requires i < MessageCount
    ensures PrevIndex(NextIndex(i)) == i && NextIndex(PrevIndex(i)) == i
    ensures NextIndex(i) != i && PrevIndex(i) != i
  {
  }

  /** The two rows shown for index `i`: message `i` on top, the following
      one (wrapping) below. */
  function Rows(i: nat): seq<Effect>
    requires i < MessageCount
  {
    [ShowRow(0, Message(i)), ShowRow(1, Message(NextIndex(i)))]
  }

  /** What one loop pass decides after its two reads: the program ends, or
      goes on with a new index. */
  datatype Decision = Stop | Go(index: nat)

  /** The decision exactly as the loop is written: `b_1 = 1 -
      get_value(btn_next)` is tested for `< 0` only after the inversion, and
      `b_2 = get_value(btn_prev)`; a non-zero `b_1` wins over `b_2`. */
  function DecideAsWritten(i: nat, readNext: int, readPrev: int): Decision
    requires i < MessageCount
  {
    var b1 := 1 - readNext;
    if b1 < 0 then Stop
    else if readPrev < 0 then Stop
    else if b1 != 0 then Go(NextIndex(i))
    else if readPrev != 0 then Go(PrevIndex(i))
    else Go(i)
  }

  /** A failed read of the "next" button (-1) makes `b_1` equal 2: the check
      for `< 0` lets it through and the display moves on as if the button
      had been pressed. No read can ever make `b_1` negative. */
  lemma FailedNextReadAdvances(i: nat)
    requires i < MessageCount
    ensures DecideAsWritten(i, -1, 0) == Go(NextIndex(i))
    ensures forall r :: -1 <= r <= 1 ==> DecideAsWritten(i, r, 0) != Stop
  {
  }

  /** The decision with the read checked before it is inverted: a failed
      read of either button ends the program. */
  function Decide(i: nat, readNext: int, readPrev: int): Decision
    requires i < MessageCount
  {
    if readNext < 0 || readPrev < 0 then Stop
    else if readNext == 0 then Go(NextIndex(i))
    else if readPrev != 0 then Go(PrevIndex(i))
    else Go(i)
  }

  /** The corrected decision stops exactly on a failed read, agrees with the
      loop as written whenever both reads succeed, and otherwise moves as the
      buttons say: "next" (active low) before "prev" (active high). */
  lemma DecideSpec(i: nat, readNext: int, readPrev: int)
    requires i < MessageCount && -1 <= readNext <= 1 && -1 <= readPrev <= 1
    ensures Decide(i, readNext, readPrev) == Stop <==> readNext < 0 || readPrev < 0
    ensures readNext >= 0 && readPrev >= 0 ==> Decide(i, readNext, readPrev) == DecideAsWritten(i, readNext, readPrev)
    ensures readNext == 0 && readPrev >= 0 ==> Decide(i, readNext, readPrev) == Go(NextIndex(i))
    ensures readNext == 1 && readPrev == 1 ==> Decide(i, readNext, readPrev) == Go(PrevIndex(i))
    ensures readNext == 1 && readPrev == 0 ==> Decide(i, readNext, readPrev) == Go(i)
  {
  }

  /** `main`'s index `i`. */
  class Navigator {
    var index: nat

    predicate Valid()
      reads this
    {
      index < MessageCount
    }

    constructor ()
      ensures Valid() && index == 0
    {
      index := 0;
    }

    /** One pass of the loop: both rows drawn for the current index, then
        the two buttons read (`readNext`, `readPrev` are what
        `gpiod_line_get_value` returns). */
    method Pass(readNext: int, readPrev: int) returns (running: bool, effects: seq<Effect>)
      requires Valid() && -1 <= readNext <= 1 && -1 <= readPrev <= 1
      modifies this
      ensures Valid()
      ensures effects == Rows(old(index))
      ensures running <==> Decide(old(index), readNext, readPrev).Go?
      ensures running ==> index == Decide(old(index), readNext, readPrev).index
    {
      effects := [ShowRow(0, Message(index)), ShowRow(1, Message(NextIndex(index)))];
      if readNext < 0 || readPrev < 0 {
        return false, effects;
      }
      var b1 := 1 - readNext;
      var b2 := readPrev;
      if b1 != 0 {
        index := NextIndex(index);
      } else if b2 != 0 {
        index := PrevIndex(index);
      }
      running := true;
    }
  }

  /** `button_pressed(btn)`, with `levels` the values successive
      `gpiod_line_get_value` calls return (-1 on failure). Pressed means low:
      the button counts only when the first two reads, 20 ms apart, are both
      0; it then waits for the release, the first read that is not 0. Returns
      the result and the number of reads made. The program never calls
      it: `main` reads both buttons directly. The last read must be
      non-zero, because the release wait of the source polls for as long as
      the button reads 0 and never ends while it is held or stuck low. */
  method ButtonPressed(levels: seq<int>) returns (pressed: bool, used: nat)
    requires forall k :: 0 <= k < |levels| ==> -1 <= levels[k] <= 1
    requires |levels| > 0 && levels[|levels| - 1] != 0
    ensures pressed <==> levels[0] == 0 && levels[1] == 0
    ensures 0 < used <= |levels|
    ensures !pressed ==> used == (if levels[0] != 0 then 1 else 2)
    ensures pressed ==>
      (2 < used && levels[used - 1] != 0 && forall k :: 0 <= k < used - 1 ==> levels[k] == 0)
  {
    var v1 := levels[0];
    if v1 < 0 {
      return false, 1;
    }
    if v1 == 1 {
      return false, 1;
    }
    var v2 := levels[1];
    if v2 < 0 || v2 == 1 {
      return false, 2;
    }
    var k := 2;
    while levels[k] == 0
      invariant 2 <= k < |levels|
      invariant forall j :: 0 <= j < k ==> levels[j] == 0
      decreases |levels| - k
    {
      k := k + 1;
    }
    return true, k + 1;
  }
}
