/** The HD44780 character-LCD protocol in 4-bit mode, as the lab's four LCD
    drivers (lab2/src/lcd_api.c, lab1/lcd3.c, lab1/lcd.c, lab1/lcd.py) speak it.

    The controller samples RS and D4..D7 on each falling edge of E (Hitachi
    HD44780U datasheet, "Interfacing to the MPU", 4-bit operation); each byte
    travels as two such transfers, high nibble first. `Bus` models the six
    GPIO lines and what the controller latches from them, so that drivers with
    different pin-write sequences can be compared by what the display receives. */
module Hd44780 {
  import opened Gpio

  /** The six lines wired to the display. */
  datatype Pin = RS | E | D4 | D5 | D6 | D7

  /** The current level of each of the six lines. */
  datatype Levels = Levels(rs: bit, e: bit, d4: bit, d5: bit, d6: bit, d7: bit)
  {
    /** The nibble D7..D4 present to the controller. */
    function Nibble(): (n: nat)
      ensures n < 16
    {
      d4 + 2 * d5 + 4 * d6 + 8 * d7
    }

    /** These levels after one `gpiod_line_set_value(pin, level)`. */
    function With(pin: Pin, level: bit): Levels
    {
      match pin
      case RS => this.(rs := level)
      case E => this.(e := level)
      case D4 => this.(d4 := level)
      case D5 => this.(d5 := level)
      case D6 => this.(d6 := level)
      case D7 => this.(d7 := level)
    }
  }

  /** What the controller latches on one falling edge of E. */
  datatype Transfer = Transfer(rs: bit, nibble: nat)

  /** The levels left behind once nibble `v` has been clocked in with RS = `rs`:
      E low again and D4..D7 still carrying bits 0..3 of `v`. */
  function Driven(rs: bit, v: nat): (l: Levels)
    ensures l.rs == rs && l.e == 0
    ensures l.Nibble() == v % 16
  {
    NibbleOfBits(v);
    Levels(rs, 0, BitOf(v, 0), BitOf(v, 1), BitOf(v, 2), BitOf(v, 3))
  }

  /** The two transfers that carry byte `b` with RS = `rs`. */
  function ByteTransfers(rs: bit, b: byte): (ts: seq<Transfer>)
    ensures |ts| == 2 && ts[0].rs == rs && ts[1].rs == rs
    ensures ts[0].nibble < 16 && ts[1].nibble < 16
    ensures 16 * ts[0].nibble + ts[1].nibble == b
  {
    [Transfer(rs, b / 16), Transfer(rs, b % 16)]
  }

  /** The byte a C `char` becomes when cast to `uint8_t`. */
  function CharByte(c: char): byte
  {
    (c as int) % 256
  }

  /** The transfers that write the characters of `s` as data (RS = 1). */
  function TextTransfers(s: seq<char>): (ts: seq<Transfer>)
    ensures |ts| == 2 * |s|
    ensures forall k :: 0 <= k < |ts| ==> ts[k].rs == 1 && ts[k].nibble < 16
  {
    if s == [] then [] else TextTransfers(s[..|s| - 1]) + ByteTransfers(1, CharByte(s[|s| - 1]))
  }

  /** Sending one more character appends its two transfers. */
  lemma TextTransfersSnoc(p: seq<char>, c: char)
    ensures TextTransfers(p + [c]) == TextTransfers(p) + ByteTransfers(1, CharByte(c))
  {
    assert (p + [c])[..|p|] == p;
  }

  /** What the display makes of a run of data transfers: each pair of nibbles,
      high first, is one byte. */
  function DecodeBytes(ts: seq<Transfer>): seq<int>
  {
    if |ts| < 2 then [] else DecodeBytes(ts[..|ts| - 2]) + [16 * ts[|ts| - 2].nibble + ts[|ts| - 1].nibble]
  }

  /** Appending the two transfers of a byte appends that byte to what the
      display decodes. */
  lemma DecodeSnoc(ts: seq<Transfer>, rs: bit, b: byte)
    ensures DecodeBytes(ts + ByteTransfers(rs, b)) == DecodeBytes(ts) + [b]
  {
    var all := ts + ByteTransfers(rs, b);
    assert all[..|all| - 2] == ts;
  }

  /** The display receives exactly the bytes of the text: no nibble is lost,
      duplicated or swapped. */
  lemma {:induction false} TextRoundTrip(s: seq<char>)
    ensures DecodeBytes(TextTransfers(s)) == seq(|s|, i requires 0 <= i < |s| => CharByte(s[i]))
  {
    if s != [] {
      var init := s[..|s| - 1];
      TextRoundTrip(init);
      DecodeSnoc(TextTransfers(init), 1, CharByte(s[|s| - 1]));
    }
  }

  /** The nibbles every driver sends first to enter 4-bit mode: three
      "function set, 8-bit" nibbles and one "function set, 4-bit" nibble
      (HD44780U datasheet, Figure 24). */
  function InitNibbles(): seq<Transfer>
  {
    [Transfer(0, 3), Transfer(0, 3), Transfer(0, 3), Transfer(0, 2)]
  }

  /** The commands that follow: function set 0x28 (two lines, 5x8 font),
      display on 0x0C, entry mode 0x06 and clear 0x01. */
  function InitCommands(): (ts: seq<Transfer>)
    ensures |ts| == 8 && forall k :: 0 <= k < 8 ==> ts[k].rs == 0
    ensures DecodeBytes(ts) == [0x28, 0x0C, 0x06, 0x01]
  {
    DecodeSnoc([], 0, 0x28);
    DecodeSnoc(ByteTransfers(0, 0x28), 0, 0x0C);
    DecodeSnoc(ByteTransfers(0, 0x28) + ByteTransfers(0, 0x0C), 0, 0x06);
    DecodeSnoc(ByteTransfers(0, 0x28) + ByteTransfers(0, 0x0C) + ByteTransfers(0, 0x06), 0, 0x01);
    ByteTransfers(0, 0x28) + ByteTransfers(0, 0x0C) + ByteTransfers(0, 0x06) + ByteTransfers(0, 0x01)
  }

  lemma InitCommandsBytes()
    ensures InitCommands() == ByteTransfers(0, 0x28) + ByteTransfers(0, 0x0C) + ByteTransfers(0, 0x06) + ByteTransfers(0, 0x01)
  {
  }

  /** The whole initialisation sequence: twelve command transfers, the last
      eight of which decode to the four configuration bytes. */
  function InitTransfers(): (ts: seq<Transfer>)
    ensures |ts| == 12 && forall k :: 0 <= k < 12 ==> ts[k].rs == 0
    ensures ts[..4] == InitNibbles() && ts[4..] == InitCommands()
    ensures DecodeBytes(ts[4..]) == [0x28, 0x0C, 0x06, 0x01]
  {
    var ts := InitNibbles() + InitCommands();
    assert ts[4..] == InitCommands();
    ts
  }

  lemma InitTransfersParts()
    ensures InitTransfers() == InitNibbles() + InitCommands()
  {
  }

  /** The "Set DDRAM Address" command that `lcd_set_cursor(row, col)` sends:
      `0x80 | (addr + (uint8_t)col)` with `addr` 0x00 for row 0 and 0x40 for
      any other row, truncated to the `uint8_t` that `lcd_cmd` takes. Setting
      bit 7 and truncating keeps bits 0..6 of the sum. */
  function SetDdramAddress(row: int, col: int): (cmd: byte)
    ensures cmd >= 0x80
    ensures 0 <= col < 16 && row == 0 ==> 0x80 <= cmd <= 0x8F && cmd == 0x80 + col
    ensures 0 <= col < 16 && row != 0 ==> 0xC0 <= cmd <= 0xCF && cmd == 0xC0 + col
  {
    var addr := if row == 0 then 0x00 else 0x40;
    0x80 + (addr + col % 256) % 128
  }

  /** The C string a `char *` points at: the characters before the first NUL
      (or all of them when the buffer holds none). */
  function CString(s: seq<char>): (r: seq<char>)
    ensures r <= s && '\0' !in r
    ensures |r| < |s| ==> s[|r|] == '\0'
  {
    if s == [] || s[0] == '\0' then [] else [s[0]] + CString(s[1..])
  }

  /** A text without a NUL is its own C string. */
  lemma {:induction false} CStringWithoutNul(s: seq<char>)
    requires '\0' !in s
    ensures CString(s) == s
  {
    if s != [] {
      assert '\0' !in s[1..];
      CStringWithoutNul(s[1..]);
      assert [s[0]] + s[1..] == s;
    }
  }

  /** A buffer holding `n` non-NUL characters and then a NUL is the C
      string of those `n` characters, whatever follows the NUL. */
  lemma {:induction false} CStringUpTo(s: seq<char>, n: nat)
    requires n < |s| && s[n] == '\0' && '\0' !in s[..n]
    ensures CString(s) == s[..n]
  {
    if n > 0 {
      assert s[1..][..n - 1] == s[1..n] == s[..n][1..];
      assert '\0' !in s[1..][..n - 1];
      CStringUpTo(s[1..], n - 1);
      assert s[..n] == [s[0]] + s[1..n];
      assert s[0] == s[..n][0];
    }
  }

  /** The 16 characters `lcd_print_padded` sends: the first min(len, 16)
      characters of `s`, then spaces. */
  function Pad16(s: seq<char>): (r: seq<char>)
    ensures |r| == 16
  {
    seq(16, i requires 0 <= i < 16 => if i < |s| then s[i] else ' ')
  }

  /** `n` copies of `s`, one after another. */
  function Repeat(s: seq<nat>, n: nat): (r: seq<nat>)
    ensures |r| == n * |s|
  {
    if n == 0 then [] else Repeat(s, n - 1) + s
  }

  /** The six lines and the display's input register.  `Set` models
      `gpiod_line_set_value`; a write that takes E from 1 to 0 makes the
      controller latch RS and D4..D7.  `Sleep` records a `usleep` in
      microseconds. */
  class Bus {
    var levels: Levels
    var latched: seq<Transfer>
    var sleeps: seq<nat>

    /** All six lines requested as outputs at level 0. */
    constructor ()
      ensures levels == Levels(0, 0, 0, 0, 0, 0) && latched == [] && sleeps == []
    {
      levels := Levels(0, 0, 0, 0, 0, 0);
      latched := [];
      sleeps := [];
    }

    method Set(pin: Pin, level: bit)
      modifies this
      ensures levels == old(levels).With(pin, level)
      ensures latched == old(latched) +
        (if pin == E && old(levels).e == 1 && level == 0
         then [Transfer(old(levels).rs, old(levels).Nibble())] else [])
      ensures sleeps == old(sleeps)
    {
      if pin == E && levels.e == 1 && level == 0 {
        latched := latched + [Transfer(levels.rs, levels.Nibble())];
      }
      levels := levels.With(pin, level);
    }

    method Sleep(us: nat)
      modifies this
      ensures levels == old(levels) && latched == old(latched)
      ensures sleeps == old(sleeps) + [us]
    {
      sleeps := sleeps + [us];
    }
  }
}
