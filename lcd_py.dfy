/** lab1/lcd.py: the Python driver of the same display, written with lgpio and
    `time.sleep`. It reaches D4..D7 through bits 4..7 of its argument and
    splits a byte with masks and a shift, where the C drivers use `>> 4` and
    `& 0x0F`; the lemmas at the end show that the display receives the same
    transfers. Sleeps are recorded in microseconds. */
module LcdPy {
  import opened Gpio
  import opened Hd44780

  const LcdWidth := 16
  const Line1 := 0x80
  const Line2 := 0xC0

  /** `ENABLE_DELAY`, `ENABLE_PULSE`: 0.0005 s each. */
  const EnableWait := 500

  /** `value & 0xF0` for a non-negative Python int. */
  function MaskHigh(value: nat): nat
  {
    16 * ((value / 16) % 16)
  }

  /** `(value << 4) & 0xF0`. */
  function ShiftedLow(value: nat): nat
  {
    16 * (value % 16)
  }

  /** `message.ljust(16)[:16]`. */
  function PyPad(s: seq<char>): (r: seq<char>)
    ensures |r| == LcdWidth
  {
    if |s| >= LcdWidth then s[..LcdWidth] else s + seq(LcdWidth - |s|, _ => ' ')
  }

  function PulseSleeps(): seq<nat>
  {
    [EnableWait, EnableWait, EnableWait]
  }

  function ByteSleeps(): seq<nat>
  {
    PulseSleeps() + PulseSleeps()
  }

  lemma RepeatFour()
    ensures Repeat(ByteSleeps(), 4) == ByteSleeps() + ByteSleeps() + ByteSleeps() + ByteSleeps()
  {
  }

  function WakeSleeps(): seq<nat>
  {
    [50000] + NibbleSleeps()
  }

  /** A pulse followed by `time.sleep(us / 1e6)`. */
  function PulseThen(us: nat): seq<nat>
  {
    PulseSleeps() + [us]
  }

  function NibbleSleeps(): seq<nat>
  {
    PulseThen(5000) + PulseThen(200) + PulseThen(200) + PulseThen(200)
  }

  function InitSleeps(): seq<nat>
  {
    WakeSleeps() + Repeat(ByteSleeps(), 4) + [2000]
  }

  /** Bits 4..7 of `value & 0xF0` are bits 4..7 of `value`. */
  lemma MaskHighBits(value: nat)
    ensures MaskHigh(value) / 16 == (value % 256) / 16
    ensures MaskHigh(value) / 16 == (value / 16) % 16
    ensures ShiftedLow(value) / 16 == value % 16 == (value % 256) % 16
    ensures (MaskHigh(value) / 16) % 16 == (value % 256) / 16
    ensures (ShiftedLow(value) / 16) % 16 == value % 16
  {
    var q := value / 256;
    var r := value % 256;
    assert value == 256 * q + r;
    assert value == 16 * (16 * q + r / 16) + r % 16;
    assert value / 16 == 16 * q + r / 16;
  }

  /** The lines as lcd.py leaves them after `write4bits(bits)`. */
  lemma DrivenFromHighBits(rs: bit, bits: nat)
    ensures Levels(rs, 0, BitOf(bits, 4), BitOf(bits, 5), BitOf(bits, 6), BitOf(bits, 7)) == Driven(rs, bits / 16)
  {
    HighBitsShift(bits, 0);
    HighBitsShift(bits, 1);
    HighBitsShift(bits, 2);
    HighBitsShift(bits, 3);
  }

  /** `ljust(16)[:16]` is the padding `lcd_print_padded` does. */
  lemma PyPadIsPad16(s: seq<char>)
    ensures PyPad(s) == Pad16(s)
  {
    assert forall i :: 0 <= i < LcdWidth ==> PyPad(s)[i] == Pad16(s)[i];
  }

  /** `LINE_1` and `LINE_2` are the commands the C drivers send for
      `lcd_set_cursor(0, 0)` and `lcd_set_cursor(1, 0)`. */
  lemma LinesAreCursorCommands()
    ensures Line1 == SetDdramAddress(0, 0) && Line2 == SetDdramAddress(1, 0)
    ensures ByteTransfers(0, Line1) == [Transfer(0, 8), Transfer(0, 0)]
    ensures ByteTransfers(0, Line2) == [Transfer(0, 12), Transfer(0, 0)]
  {
  }

  /** `lcd_string(message, LINE_1)` or `(…, LINE_2)` latches what the C
      `lcd_set_cursor(row, 0); lcd_print_padded(message)` latches, for any
      message without a NUL (a C string ends at its first NUL). */
  lemma StringMatchesC(message: seq<char>, row: int)
    requires row == 0 || row == 1
    requires '\0' !in message
    ensures ByteTransfers(0, if row == 0 then Line1 else Line2) + TextTransfers(PyPad(message))
         == ByteTransfers(0, SetDdramAddress(row, 0)) + TextTransfers(Pad16(CString(message)))
  {
    LinesAreCursorCommands();
    assert (if row == 0 then Line1 else Line2) == SetDdramAddress(row, 0);
    CStringWithoutNul(message);
    PyPadIsPad16(message);
  }

  class PyLcd {
    const bus: Bus

    /** The six lines claimed as outputs at level 0 (lcd.py:24-25). */
    constructor (bus: Bus)
      requires bus.levels == Levels(0, 0, 0, 0, 0, 0)
      ensures this.bus == bus
    {
      this.bus := bus;
    }

    /** `pulse_enable`: E 0, 1, 0 with a wait after each write. E is low
        between calls (every lcd.py operation leaves it low), so the first
        write latches nothing and the falling edge latches once. */
    method PulseEnable()
      requires bus.levels.e == 0
      modifies bus
      ensures bus.levels == old(bus.levels)
      ensures bus.latched == old(bus.latched) + [Transfer(old(bus.levels).rs, old(bus.levels).Nibble())]
      ensures bus.sleeps == old(bus.sleeps) + PulseSleeps()
    {
      bus.Set(E, 0);
      bus.Sleep(EnableWait);
      bus.Set(E, 1);
      bus.Sleep(EnableWait);
      bus.Set(E, 0);
      bus.Sleep(EnableWait);
    }

    /** `write4bits(bits)`: D4..D7 take bits 4..7 of `bits`, then one pulse;
        the display latches `bits >> 4` truncated to a nibble. */
    method Write4Bits(bits: nat)
      requires bus.levels.e == 0
      modifies bus
      ensures bus.levels == Driven(old(bus.levels).rs, bits / 16)
      ensures bus.latched == old(bus.latched) + [Transfer(old(bus.levels).rs, (bits / 16) % 16)]
      ensures bus.sleeps == old(bus.sleeps) + PulseSleeps()
    {
      bus.Set(D4, BitOf(bits, 4));
      bus.Set(D5, BitOf(bits, 5));
      bus.Set(D6, BitOf(bits, 6));
      bus.Set(D7, BitOf(bits, 7));
      DrivenFromHighBits(bus.levels.rs, bits);
      PulseEnable();
    }

    /** `lcd_byte(value, mode)`: RS = mode, then `value & 0xF0` and
        `(value << 4) & 0xF0`; the display receives the two nibbles of the
        low byte of `value`, high first, exactly as from the C `lcd_cmd` and
        `lcd_char`. */
    method LcdByte(value: nat, mode: bit)
      requires bus.levels.e == 0
      modifies bus
      ensures bus.levels == Driven(mode, value % 16)
      ensures bus.latched == old(bus.latched) + ByteTransfers(mode, value % 256)
      ensures bus.sleeps == old(bus.sleeps) + ByteSleeps()
    {
      bus.Set(RS, mode);
      var b: byte := value % 256;
      var hi, lo := b / 16, b % 16;
      MaskHighBits(value);
      Write4Bits(MaskHigh(value));
      Write4Bits(ShiftedLow(value));
      assert ByteTransfers(mode, b) == [Transfer(mode, hi), Transfer(mode, lo)];
    }

    /** The nibbles of `lcd_init`: 0x30 three times and 0x20, with RS low. */
    method WakeUp()
      requires bus.levels.e == 0
      modifies bus
      ensures bus.levels == Driven(0, 0x02)
      ensures bus.latched == old(bus.latched) + InitNibbles()
      ensures bus.sleeps == old(bus.sleeps) + WakeSleeps()
    {
      bus.Sleep(50000);
      bus.Set(RS, 0);
      ghost var l1, s1 := bus.latched, bus.sleeps;
      assert 0x30 / 16 == 3 && 0x20 / 16 == 2 && 3 % 16 == 3 && 2 % 16 == 2;
      Write4Bits(0x30); bus.Sleep(5000);
      AppendTwo(s1, PulseSleeps(), [5000]);
      ghost var s2 := bus.sleeps;
      Write4Bits(0x30); bus.Sleep(200);
      AppendTwo(s2, PulseSleeps(), [200]);
      ghost var s3 := bus.sleeps;
      Write4Bits(0x30); bus.Sleep(200);
      AppendTwo(s3, PulseSleeps(), [200]);
      ghost var s4 := bus.sleeps;
      Write4Bits(0x20); bus.Sleep(200);
      AppendTwo(s4, PulseSleeps(), [200]);
      AppendFour(s1, PulseThen(5000), PulseThen(200), PulseThen(200), PulseThen(200));
      AppendTwo(old(bus.sleeps), [50000], NibbleSleeps());
      AppendFour(l1, [Transfer(0, 3)], [Transfer(0, 3)], [Transfer(0, 3)], [Transfer(0, 2)]);
    }

    /** The four configuration bytes of `lcd_init`. */
    method Configure()
      requires bus.levels.e == 0
      modifies bus
      ensures bus.levels == Driven(0, 0x01)
      ensures bus.latched == old(bus.latched) + InitCommands()
      ensures bus.sleeps == old(bus.sleeps) + Repeat(ByteSleeps(), 4)
    {
      ghost var l0, s0 := bus.latched, bus.sleeps;
      assert 0x28 % 256 == 0x28 && 0x0C % 256 == 0x0C && 0x06 % 256 == 0x06 && 0x01 % 256 == 0x01 && 0x01 % 16 == 0x01;
      LcdByte(0x28, 0);
      LcdByte(0x0C, 0);
      LcdByte(0x06, 0);
      LcdByte(0x01, 0);
      AppendFour(l0, ByteTransfers(0, 0x28), ByteTransfers(0, 0x0C), ByteTransfers(0, 0x06), ByteTransfers(0, 0x01));
      InitCommandsBytes();
      AppendFour(s0, ByteSleeps(), ByteSleeps(), ByteSleeps(), ByteSleeps());
      RepeatFour();
    }

    /** `lcd_init`: the same twelve transfers as the C drivers' `lcd_init`. */
    method Init()
      requires bus.levels.e == 0
      modifies bus
      ensures bus.levels == Driven(0, 0x01)
      ensures bus.latched == old(bus.latched) + InitTransfers()
      ensures bus.sleeps == old(bus.sleeps) + InitSleeps()
    {
      WakeUp();
      Configure();
      bus.Sleep(2000);
      InitTransfersParts();
      AppendTwo(old(bus.latched), InitNibbles(), InitCommands());
      AppendTwo(old(bus.sleeps), WakeSleeps(), Repeat(ByteSleeps(), 4));
      AppendTwo(old(bus.sleeps), WakeSleeps() + Repeat(ByteSleeps(), 4), [2000]);
    }

    /** `lcd_string(message, line)`: the line command, then the 16
        characters of `message.ljust(16)[:16]` as data. */
    method LcdString(message: seq<char>, line: nat)
      requires bus.levels.e == 0
      modifies bus
      ensures bus.levels.e == 0
      ensures bus.latched == old(bus.latched) + ByteTransfers(0, line % 256) + TextTransfers(PyPad(message))
      ensures bus.sleeps == old(bus.sleeps) + Repeat(ByteSleeps(), 1 + LcdWidth)
    {
      var padded := PyPad(message);
      LcdByte(line, 0);
      ghost var afterLine := bus.latched;
      assert Repeat(ByteSleeps(), 1) == ByteSleeps();
      for i := 0 to LcdWidth
        invariant bus.levels.e == 0
        invariant bus.latched == afterLine + TextTransfers(padded[..i])
        invariant bus.sleeps == old(bus.sleeps) + Repeat(ByteSleeps(), 1 + i)
      {
        LcdByte(padded[i] as int, 1);
        assert padded[..i + 1] == padded[..i] + [padded[i]];
        TextTransfersSnoc(padded[..i], padded[i]);
        AppendTwo(afterLine, TextTransfers(padded[..i]), ByteTransfers(1, CharByte(padded[i])));
        AppendTwo(old(bus.sleeps), Repeat(ByteSleeps(), 1 + i), ByteSleeps());
      }
      assert padded[..LcdWidth] == padded;
    }
  }
}
