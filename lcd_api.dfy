/** The C drivers of the HD44780 display: lab2/src/lcd_api.c, the identical
    helpers copied into lab1/lcd3.c, and lab1/lcd.c. The three differ only in
    their `usleep` values (and lcd.c has `lcd_print` instead of
    `lcd_print_padded`), so one class parameterised by a `Timing` models all of
    them. */
module LcdApi {
  import opened Gpio
  import opened Hd44780

  /** The delays, in microseconds, a C driver waits. */
  datatype Timing = Timing(
    enableHigh: nat,     // after raising E in pulse_enable
    enableLow: nat,      // after lowering E in pulse_enable
    cmdDelay: nat,       // after a command other than 0x01 and 0x02
    charDelay: nat,      // after a character
    initGap: nat,        // after the 2nd, 3rd and 4th init nibble
    finalWait: Option<nat>)  // what lcd_init sleeps after the final clear

  /** lab2/src/lcd_api.c and lab1/lcd3.c. */
  const ApiTiming := Timing(1, 50, 50, 50, 200, Some(2000))

  /** lab1/lcd.c. */
  const Lab1Timing := Timing(100, 100, 100, 100, 150, None)

  /** One call that the event-loop programs make on the display. */
  datatype Effect =
    | Clear                               // lcd_clear()
    | ShowRow(row: int, text: seq<char>)  // lcd_set_cursor(row, 0); lcd_print_padded(text)

  function PulseSleeps(t: Timing): seq<nat>
  {
    [t.enableHigh, t.enableLow]
  }

  /** The wait after command `cmd`: clear (0x01) and return home (0x02) take
      2000 µs, every other command `t.cmdDelay`. */
  function CmdDelay(t: Timing, cmd: byte): (us: nat)
    ensures cmd == 0x01 || cmd == 0x02 ==> us == 2000
    ensures cmd != 0x01 && cmd != 0x02 ==> us == t.cmdDelay
  {
    if cmd == 0x01 || cmd == 0x02 then 2000 else t.cmdDelay
  }

  function CmdSleeps(t: Timing, cmd: byte): seq<nat>
  {
    PulseSleeps(t) + PulseSleeps(t) + [CmdDelay(t, cmd)]
  }

  function CharSleeps(t: Timing): seq<nat>
  {
    PulseSleeps(t) + PulseSleeps(t) + [t.charDelay]
  }

  /** The waits of the wake-up part of `lcd_init`: power-up, then the four
      mode-setting nibbles. */
  function WakeSleeps(t: Timing): seq<nat>
  {
    [50000] + NibbleSleeps(t)
  }

  /** A pulse followed by a wait of `us`. */
  function PulseThen(t: Timing, us: nat): seq<nat>
  {
    PulseSleeps(t) + [us]
  }

  /** The waits of the four mode-setting nibbles. */
  function NibbleSleeps(t: Timing): seq<nat>
  {
    PulseThen(t, 5000) + PulseThen(t, t.initGap) + PulseThen(t, t.initGap) + PulseThen(t, t.initGap)
  }

  /** The waits of the four configuration commands of `lcd_init`. */
  function ConfigSleeps(t: Timing): seq<nat>
  {
    CmdSleeps(t, 0x28) + CmdSleeps(t, 0x0C) + CmdSleeps(t, 0x06) + CmdSleeps(t, 0x01)
  }

  function InitSleeps(t: Timing): seq<nat>
  {
    WakeSleeps(t) + ConfigSleeps(t) + (if t.finalWait.Some? then [t.finalWait.value] else [])
  }

  /** The decimal digit `d` as a character. */
  function DigitChar(d: nat): char
    requires d < 10
  {
    ('0' as int + d) as char
  }

  /** "Message 01", "Message 02", ...: the texts lab1/lcd3.c and
      lab2/src/scroll_base_interrupt.c cycle through. */
  function Numbered(k: nat): (s: seq<char>)
    requires 1 <= k <= 99
    ensures |s| == 10 && '\0' !in s
  {
    "Message " + [DigitChar(k / 10), DigitChar(k % 10)]
  }

  /** Each message fits a row: `lcd_print_padded` shows all ten characters
      followed by six spaces, and different numbers give different rows. */
  lemma NumberedRows(j: nat, k: nat)
    requires 1 <= j <= 99 && 1 <= k <= 99
    ensures Pad16(CString(Numbered(k))) == Numbered(k) + "      "
    ensures j != k ==> Pad16(CString(Numbered(j))) != Pad16(CString(Numbered(k)))
  {
    CStringWithoutNul(Numbered(k));
    CStringWithoutNul(Numbered(j));
    assert Pad16(Numbered(k)) == Numbered(k) + "      ";
    assert Pad16(Numbered(j)) == Numbered(j) + "      ";
    if j != k {
      var i := if j / 10 != k / 10 then 8 else 9;
      assert Numbered(j)[i] != Numbered(k)[i];
      assert Pad16(Numbered(j))[i] == Numbered(j)[i] && Pad16(Numbered(k))[i] == Numbered(k)[i];
    }
  }

  /** The line levels after the last character of a non-empty text. */
  function AfterText(s: seq<char>): Levels
    requires s != []
  {
    Driven(1, CharByte(s[|s| - 1]) % 16)
  }

  class Lcd {
    const bus: Bus
    const timing: Timing

    /** The driver bound to its lines (the assignments at the start of
        `lcd_init` in lcd_api.c, the statics of lcd.c and lcd3.c). */
    constructor (bus: Bus, timing: Timing)
      ensures this.bus == bus && this.timing == timing
    {
      this.bus := bus;
      this.timing := timing;
    }

    /** `pulse_enable`: E high, wait, E low, wait; the falling edge clocks in
        RS and D4..D7. */
    method PulseEnable()
      modifies bus
      ensures bus.levels == old(bus.levels).(e := 0)
      ensures bus.latched == old(bus.latched) + [Transfer(old(bus.levels).rs, old(bus.levels).Nibble())]
      ensures bus.sleeps == old(bus.sleeps) + PulseSleeps(timing)
    {
      bus.Set(E, 1);
      bus.Sleep(timing.enableHigh);
      bus.Set(E, 0);
      bus.Sleep(timing.enableLow);
    }

    /** `write4(v)`: D4..D7 take bits 0..3 of `v`, then one enable pulse. */
    method Write4(v: byte)
      modifies bus
      ensures bus.levels == Driven(old(bus.levels).rs, v)
      ensures bus.latched == old(bus.latched) + [Transfer(old(bus.levels).rs, v % 16)]
      ensures bus.sleeps == old(bus.sleeps) + PulseSleeps(timing)
    {
      bus.Set(D4, BitOf(v, 0));
      bus.Set(D5, BitOf(v, 1));
      bus.Set(D6, BitOf(v, 2));
      bus.Set(D7, BitOf(v, 3));
      PulseEnable();
    }

    /** `lcd_cmd(cmd)`: RS low, high nibble, low nibble, then the command's
        wait. */
    method Cmd(cmd: byte)
      modifies bus
      ensures bus.levels == Driven(0, cmd % 16)
      ensures bus.latched == old(bus.latched) + ByteTransfers(0, cmd)
      ensures bus.sleeps == old(bus.sleeps) + CmdSleeps(timing, cmd)
    {
      bus.Set(RS, 0);
      var hi, lo := cmd / 16, cmd % 16;
      assert hi % 16 == hi && lo % 16 == lo;
      Write4(hi);
      Write4(lo);
      assert ByteTransfers(0, cmd) == [Transfer(0, hi), Transfer(0, lo)];
      if cmd == 0x01 || cmd == 0x02 {
        bus.Sleep(2000);
      } else {
        bus.Sleep(timing.cmdDelay);
      }
    }

    /** `lcd_char(c)`: RS high, then the two nibbles of `(uint8_t)c`. */
    method Char(c: char)
      modifies bus
      ensures bus.levels == Driven(1, CharByte(c) % 16)
      ensures bus.latched == old(bus.latched) + ByteTransfers(1, CharByte(c))
      ensures bus.sleeps == old(bus.sleeps) + CharSleeps(timing)
    {
      bus.Set(RS, 1);
      var b := CharByte(c);
      var hi, lo := b / 16, b % 16;
      assert hi % 16 == hi && lo % 16 == lo;
      Write4(hi);
      Write4(lo);
      assert ByteTransfers(1, b) == [Transfer(1, hi), Transfer(1, lo)];
      bus.Sleep(timing.charDelay);
    }

    /** `lcd_set_cursor(row, col)`. */
    method SetCursor(row: int, col: int)
      modifies bus
      ensures bus.levels == Driven(0, SetDdramAddress(row, col) % 16)
      ensures bus.latched == old(bus.latched) + ByteTransfers(0, SetDdramAddress(row, col))
      ensures bus.sleeps == old(bus.sleeps) + CmdSleeps(timing, SetDdramAddress(row, col))
    {
      var addr := if row == 0 then 0x00 else 0x40;
      Cmd(0x80 + (addr + col % 256) % 128);
    }

    /** `lcd_clear`: exactly `lcd_cmd(0x01)`. */
    method Clear()
      modifies bus
      ensures bus.levels == Driven(0, 1)
      ensures bus.latched == old(bus.latched) + ByteTransfers(0, 0x01)
      ensures bus.sleeps == old(bus.sleeps) + CmdSleeps(timing, 0x01)
    {
      Cmd(0x01);
    }

    /** `lcd_print_padded(s)`: a 16-space buffer, the first min(strlen(s), 16)
        characters copied over it, then all 16 sent as data. */
    method PrintPadded(s: seq<char>)
      modifies bus
      ensures bus.levels == AfterText(Pad16(CString(s)))
      ensures bus.latched == old(bus.latched) + TextTransfers(Pad16(CString(s)))
      ensures bus.sleeps == old(bus.sleeps) + Repeat(CharSleeps(timing), 16)
    {
      var buf := new char[17](_ => ' ');
      buf[16] := '\0';
      var text := CString(s);
      var n := if |text| > 16 then 16 else |text|;
      forall k | 0 <= k < n {
        buf[k] := text[k];
      }
      assert forall k :: 0 <= k < 16 ==> buf[k] == Pad16(text)[k];
      assert buf[..16] == Pad16(text);
      for i := 0 to 16
        invariant bus.latched == old(bus.latched) + TextTransfers(buf[..i])
        invariant bus.sleeps == old(bus.sleeps) + Repeat(CharSleeps(timing), i)
        invariant i > 0 ==> bus.levels == AfterText(buf[..i])
        invariant buf[..16] == Pad16(text)
      {
        Char(buf[i]);
        assert buf[..i + 1] == buf[..i] + [buf[i]];
        TextTransfersSnoc(buf[..i], buf[i]);
        AppendTwo(old(bus.latched), TextTransfers(buf[..i]), ByteTransfers(1, CharByte(buf[i])));
        AppendTwo(old(bus.sleeps), Repeat(CharSleeps(timing), i), CharSleeps(timing));
      }
      assert buf[..16] == Pad16(text);
    }

    /** `lcd_print(s)` of lab1/lcd.c: every character up to the NUL, with no
        padding and no truncation. */
    method Print(s: seq<char>)
      modifies bus
      ensures CString(s) == [] ==> bus.levels == old(bus.levels)
      ensures CString(s) != [] ==> bus.levels == AfterText(CString(s))
      ensures bus.latched == old(bus.latched) + TextTransfers(CString(s))
      ensures bus.sleeps == old(bus.sleeps) + Repeat(CharSleeps(timing), |CString(s)|)
    {
      ghost var text := CString(s);
      var i := 0;
      while i < |s| && s[i] != '\0'
        invariant i <= |text|
        invariant bus.latched == old(bus.latched) + TextTransfers(text[..i])
        invariant bus.sleeps == old(bus.sleeps) + Repeat(CharSleeps(timing), i)
        invariant i == 0 ==> bus.levels == old(bus.levels)
        invariant i > 0 ==> bus.levels == AfterText(text[..i])
      {
        assert i < |text| && s[i] == text[i];
        Char(s[i]);
        assert text[..i + 1] == text[..i] + [text[i]];
        TextTransfersSnoc(text[..i], text[i]);
        AppendTwo(old(bus.latched), TextTransfers(text[..i]), ByteTransfers(1, CharByte(text[i])));
        AppendTwo(old(bus.sleeps), Repeat(CharSleeps(timing), i), CharSleeps(timing));
        i := i + 1;
      }
      assert text[..i] == text;
    }

    /** The first part of `lcd_init`: wait for power-up, RS and E low, then
        the nibbles 3, 3, 3, 2. Lowering E when it was high clocks in one
        stray nibble before the sequence starts. */
    method WakeUp()
      modifies bus
      ensures bus.levels == Driven(0, 0x02)
      ensures bus.latched == old(bus.latched)
        + (if old(bus.levels).e == 1 then [Transfer(0, old(bus.levels).Nibble())] else [])
        + InitNibbles()
      ensures bus.sleeps == old(bus.sleeps) + WakeSleeps(timing)
    {
      ghost var stray := if bus.levels.e == 1 then [Transfer(0, bus.levels.Nibble())] else [];
      bus.Sleep(50000);
      bus.Set(RS, 0);
      bus.Set(E, 0);
      ghost var l1, s1 := bus.latched, bus.sleeps;
      assert l1 == old(bus.latched) + stray;
      assert 0x03 % 16 == 0x03 && 0x02 % 16 == 0x02;
      Write4(0x03); bus.Sleep(5000);
      AppendTwo(s1, PulseSleeps(timing), [5000]);
      ghost var s2 := bus.sleeps;
      Write4(0x03); bus.Sleep(timing.initGap);
      AppendTwo(s2, PulseSleeps(timing), [timing.initGap]);
      ghost var s3 := bus.sleeps;
      Write4(0x03); bus.Sleep(timing.initGap);
      AppendTwo(s3, PulseSleeps(timing), [timing.initGap]);
      ghost var s4 := bus.sleeps;
      Write4(0x02); bus.Sleep(timing.initGap);
      AppendTwo(s4, PulseSleeps(timing), [timing.initGap]);
      AppendFour(s1, PulseThen(timing, 5000), PulseThen(timing, timing.initGap), PulseThen(timing, timing.initGap), PulseThen(timing, timing.initGap));
      AppendTwo(old(bus.sleeps), [50000], NibbleSleeps(timing));
      AppendFour(l1, [Transfer(0, 3)], [Transfer(0, 3)], [Transfer(0, 3)], [Transfer(0, 2)]);
      assert [Transfer(0, 3)] + [Transfer(0, 3)] + [Transfer(0, 3)] + [Transfer(0, 2)] == InitNibbles();
    }

    /** The configuration commands of `lcd_init`: 0x28, 0x0C, 0x06, 0x01. */
    method Configure()
      modifies bus
      ensures bus.levels == Driven(0, 0x01)
      ensures bus.latched == old(bus.latched) + InitCommands()
      ensures bus.sleeps == old(bus.sleeps) + ConfigSleeps(timing)
    {
      ghost var l0, s0 := bus.latched, bus.sleeps;
      assert 0x01 % 16 == 0x01;
      Cmd(0x28);
      Cmd(0x0C);
      Cmd(0x06);
      Cmd(0x01);
      AppendFour(l0, ByteTransfers(0, 0x28), ByteTransfers(0, 0x0C), ByteTransfers(0, 0x06), ByteTransfers(0, 0x01));
      InitCommandsBytes();
      AppendFour(s0, CmdSleeps(timing, 0x28), CmdSleeps(timing, 0x0C), CmdSleeps(timing, 0x06), CmdSleeps(timing, 0x01));
    }

    /** `lcd_init`: the wake-up nibbles, the configuration commands and, in
        lcd_api.c and lcd3.c, a final wait. */
    method Init()
      modifies bus
      ensures bus.levels == Driven(0, 0x01)
      ensures bus.latched == old(bus.latched)
        + (if old(bus.levels).e == 1 then [Transfer(0, old(bus.levels).Nibble())] else [])
        + InitTransfers()
      ensures bus.sleeps == old(bus.sleeps) + InitSleeps(timing)
    {
      ghost var stray := if bus.levels.e == 1 then [Transfer(0, bus.levels.Nibble())] else [];
      WakeUp();
      Configure();
      InitTransfersParts();
      AppendTwo(old(bus.latched) + stray, InitNibbles(), InitCommands());
      AppendTwo(old(bus.sleeps), WakeSleeps(timing), ConfigSleeps(timing));
      if timing.finalWait.Some? {
        bus.Sleep(timing.finalWait.value);
        AppendTwo(old(bus.sleeps), WakeSleeps(timing) + ConfigSleeps(timing), [timing.finalWait.value]);
      }
    }

    /** One effect requested by an event-loop program. */
    method Show(effect: Effect)
      modifies bus
      ensures effect.Clear? ==> bus.latched == old(bus.latched) + ByteTransfers(0, 0x01)
      ensures effect.Clear? ==> bus.levels == Driven(0, 1)
      ensures effect.Clear? ==> bus.sleeps == old(bus.sleeps) + CmdSleeps(timing, 0x01)
      ensures effect.ShowRow? ==>
        bus.latched == old(bus.latched) + ByteTransfers(0, SetDdramAddress(effect.row, 0))
          + TextTransfers(Pad16(CString(effect.text)))
      ensures effect.ShowRow? ==> bus.levels == AfterText(Pad16(CString(effect.text)))
      ensures effect.ShowRow? ==>
        bus.sleeps == old(bus.sleeps) + CmdSleeps(timing, SetDdramAddress(effect.row, 0))
          + Repeat(CharSleeps(timing), 16)
      ensures bus.levels.e == 0
    {
      match effect
      case Clear =>
        Clear();
      case ShowRow(row, text) =>
        SetCursor(row, 0);
        PrintPadded(text);
    }
  }

  /** `lcd_set_cursor` reaches every position of a 2x16 display and no two
      positions share an address: row 0 is 0x80..0x8F and row 1 is
      0xC0..0xCF. */
  lemma CursorInjective(r1: int, c1: int, r2: int, c2: int)
    requires r1 in {0, 1} && r2 in {0, 1} && 0 <= c1 < 16 && 0 <= c2 < 16
    ensures SetDdramAddress(r1, c1) == SetDdramAddress(r2, c2) <==> r1 == r2 && c1 == c2
  {
  }
}
