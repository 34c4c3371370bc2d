# Embedded-lab GPIO programs in Dafny

This project models the Raspberry Pi lab programs of the Embedded-lab
repository. They drive LEDs, buttons, a buzzer, a 4x3 keypad, a two-digit
seven-segment display, an HD44780 character display in 4-bit mode and a
PWM-style audio output, all through libgpiod lines.

The model covers each program's control logic and the exact sequence of line
writes it makes. It does not cover the libgpiod calls themselves.

- **Gpio** holds what every program shares:
  - bits, edges and the outcomes of a wait-and-read;
  - `now_ms()`;
  - the debounce test;
  - bit extraction.
- **Hd44780** is the display bus. The `Bus` class records three things:
  - the levels of the RS, E and D4–D7 lines;
  - every nibble that a falling edge of E latches into the controller;
  - every requested delay.

  It also defines the expected transfers for a byte, a text, the
  initialisation sequence and the cursor commands.
- **LcdApi.Lcd** is the C display driver. `lab2/src/lcd_api.c`, `lab1/lcd3.c`
  and `lab1/lcd.c` carry three copies of it, and one class models all of
  them. The copies differ only in their delays, so a `Timing` value is the
  parameter: `ApiTiming` for lcd_api.c and lcd3.c, `Lab1Timing` for lcd.c.
- **LcdPy.PyLcd** is the Python driver of `lab1/lcd.py`. Its lemmas prove that
  it puts the same transfers on the bus as the C driver.
- **Debounce**, **Scroller**, **Navigator** and **KeyEditor** are the
  event-loop programs:
  - the button monitor;
  - the message scroller;
  - the two-button navigator;
  - the keypad line editor.

  Each is a class with the loop's variables. One method models one pass of
  the loop. Display output is returned as `Effect` values, and
  `LcdApi.Lcd.Show` turns an `Effect` into bus transfers.
- **Keypad** is the `keyp_api.c` driver. It has the row-by-row scan and the
  keymap.
- **Buzzer** covers the timer-driven and the polling square-wave buzzers.
- **SevenSegment** is the multiplexed hexadecimal counter.
- **PcmPlayer** is the WAV loader and the sample-rate playback handler of
  `chipi_chapa.c`.

Values that come from the hardware or the clock are method parameters:
- the outcome of each `gpiod_line_request_wait_edge_events` and read;
- the value each `gpiod_line_get_value` returns;
- the `now_ms()` reading;
- which keys are held down;
- the bytes of the WAV file.

Timer and signal handlers are methods that the model calls one at a time
(`Tick`).

## Model

| member | source | states |
|---|---|---|
| Gpio.NowMs | lab2/base_interrupt.c:9-13 | the result is the number of whole milliseconds in the `timespec` reading, rounded down |
| Gpio.NowMsMonotone | lab2/base_interrupt.c:9-13 | a later clock reading never gives an earlier millisecond count |
| Gpio.NibbleOfBits | lab2/src/lcd_api.c:18-24 | the four bits `write4` puts on D4..D7 recombine to the low nibble of the value |
| Gpio.HighBitsShift | lab1/lcd.py:35-40 | bits 4..7 of a byte, which `write4bits` tests, are bits 0..3 of the byte shifted right by four |
| Hd44780.Driven | lab2/src/lcd_api.c:18-24 | after a nibble is written, RS is kept, E is low and D4..D7 hold the nibble |
| Hd44780.ByteTransfers | lab2/src/lcd_api.c:26-40 | a byte goes over the bus as two nibbles, high first, both with the given RS, and they recombine to the byte |
| Hd44780.TextTransfers | lab2/src/lcd_api.c:35-40 | a text is two data-register (RS=1) nibbles per character |
| Hd44780.TextRoundTrip | lab2/src/lcd_api.c:35-40 | decoding the nibble pairs sent for a text gives back exactly the text's bytes, in order |
| Hd44780.InitCommands | lab2/src/lcd_api.c:88-91 | the configuration decodes to the commands 0x28, 0x0C, 0x06, 0x01, all sent with RS=0 |
| Hd44780.InitTransfers | lab2/src/lcd_api.c:78-91 | initialisation is the wake-up nibbles 3, 3, 3, 2 followed by the four configuration commands |
| Hd44780.SetDdramAddress | lab2/src/lcd_api.c:42-45 | row 0 addresses 0x80+col and any other row 0xC0+col, so it is always a set-DDRAM-address command |
| Hd44780.CString | lab2/src/lcd_api.c:49-60 | the text a C function sees is the longest NUL-free prefix of its buffer |
| Hd44780.CStringWithoutNul | lab2/src/lcd_api.c:49-60 | a buffer with no NUL is read in full |
| Hd44780.CStringUpTo | keyp_base_interrupt.c:178-195 | a buffer NUL-terminated at position n, with no NUL before it, reads as its first n characters |
| Hd44780.Pad16 | lab2/src/lcd_api.c:49-60 | the padded row is always sixteen characters |
| Hd44780.Bus.constructor | lab2/src/lcd_api.c:62-76 | the lines start low, with nothing latched and no delay requested |
| Hd44780.Bus.Set | lab2/src/lcd_api.c:11-16 | setting a line changes only that line, and a falling edge of E latches RS and D4..D7 |
| Hd44780.Bus.Sleep | lab2/src/lcd_api.c:11-16 | a delay is recorded and changes no line |
| LcdApi.CmdDelay | lab2/src/lcd_api.c:31-32 | clear (0x01) and home (0x02) wait 2000 µs, every other command the driver's command delay |
| LcdApi.Numbered | lab2/src/scroll_base_interrupt.c:36-57 | "Message NN" is ten NUL-free characters |
| LcdApi.NumberedRows | lab2/src/scroll_base_interrupt.c:36-57 | each message pads to itself plus six spaces, and different numbers give different rows |
| LcdApi.CursorInjective | lab2/src/lcd_api.c:42-45 | on the 2x16 display, different positions give different cursor commands and the same position the same command |
| LcdApi.Lcd.constructor | lab2/src/lcd_api.c:62-76 | the driver is bound to its bus and its delays |
| LcdApi.Lcd.PulseEnable | lab2/src/lcd_api.c:11-16 | exactly one nibble is latched, with RS and the data lines as they were, and E ends low after the configured delays |
| LcdApi.Lcd.Write4 | lab2/src/lcd_api.c:18-24 | the low nibble of the value is latched, and RS is unchanged |
| LcdApi.Lcd.Cmd | lab2/src/lcd_api.c:26-33 | the command byte is latched as two RS=0 nibbles, followed by its execution delay; the copies in lab1/lcd.c (lines 35-43) and lab1/lcd3.c (lines 40-47) differ only in `Timing` |
| LcdApi.Lcd.Char | lab2/src/lcd_api.c:35-40 | the character byte is latched as two RS=1 nibbles |
| LcdApi.Lcd.SetCursor | lab2/src/lcd_api.c:42-45 | the set-DDRAM-address command for (row, col) is latched |
| LcdApi.Lcd.Clear | lab2/src/lcd_api.c:47 | the clear command is latched, followed by a 2000 µs wait |
| LcdApi.Lcd.PrintPadded | lab2/src/lcd_api.c:49-60 | exactly sixteen characters are latched: the C string, then spaces (the lab1/lcd3.c copy, lines 63-74, is the same) |
| LcdApi.Lcd.Print | lab1/lcd.c:52-54 | the characters up to the first NUL are latched, in order, one character delay each |
| LcdApi.Lcd.WakeUp | lab2/src/lcd_api.c:78-86 | after the power-up wait, the nibbles 3, 3, 3, 2 are latched with RS=0 (plus one stray nibble if E was high) |
| LcdApi.Lcd.Configure | lab2/src/lcd_api.c:88-91 | function set, display on, entry mode and clear are latched, in that order |
| LcdApi.Lcd.Init | lab2/src/lcd_api.c:62-93 | the whole initialisation sequence is latched, ending with the display cleared; with `Lab1Timing` the same transfers as lab1/lcd.c lines 62-79 (150 µs gaps, no final wait) |
| LcdApi.Lcd.Show | lab2/src/scroll_base_interrupt.c:155-166 | a row update latches the cursor command for column 0 of the row, then the padded text; a clear latches the clear command; in both cases the delays and the final line levels are those of the driver calls it makes |
| LcdPy.PyPad | lab1/lcd.py:64-68 | `message.ljust(16)[:16]` is always sixteen characters |
| LcdPy.PyPadIsPad16 | lab1/lcd.py:64-68 | for every message, the Python padding and truncation agree with the C driver's padding |
| LcdPy.MaskHighBits | lab1/lcd.py:42-47 | `bits & 0xF0` and `(bits << 4) & 0xF0` carry the high and the low nibble of the byte into bits 4..7 |
| LcdPy.DrivenFromHighBits | lab1/lcd.py:35-40 | driving D4..D7 from bits 4..7 leaves the lines as the C driver's `write4` would for the high nibble |
| LcdPy.LinesAreCursorCommands | lab1/lcd.py:16-17 | `LCD_LINE_1` and `LCD_LINE_2` are the cursor commands for row 0 and row 1, column 0 |
| LcdPy.StringMatchesC | lab1/lcd.py:64-68 | `lcd_string` latches the same transfers as the C driver's set-cursor and print-padded |
| LcdPy.PyLcd.constructor | lab1/lcd.py:24-25 | the driver starts on a bus whose lines are all low |
| LcdPy.PyLcd.PulseEnable | lab1/lcd.py:27-33 | one nibble is latched, and the lines end as they started |
| LcdPy.PyLcd.Write4Bits | lab1/lcd.py:35-40 | bits 4..7 of the argument are latched as one nibble |
| LcdPy.PyLcd.LcdByte | lab1/lcd.py:42-47 | the byte is latched as two nibbles, high first, with the given mode as RS |
| LcdPy.PyLcd.WakeUp | lab1/lcd.py:49-56 | the nibbles 3, 3, 3, 2 are latched with RS=0 |
| LcdPy.PyLcd.Configure | lab1/lcd.py:58-61 | the four configuration commands are latched |
| LcdPy.PyLcd.Init | lab1/lcd.py:49-62 | the Python initialisation latches exactly the C driver's initialisation transfers |
| LcdPy.PyLcd.LcdString | lab1/lcd.py:64-68 | the line command, then sixteen padded characters, are latched |
| Debounce.AcceptedSpaced | lab2/base_interrupt.c:64-68 | any two reported events are at least 50 ms apart, and the first is at least 50 ms after the start value |
| Debounce.DroppedIsInvisible | lab2/base_interrupt.c:64-68 | an event within 50 ms of the last accepted one leaves the rest of the run unchanged |
| Debounce.Reports | lab2/base_interrupt.c:70-74 | one report per accepted event, "pressed" exactly for falling edges |
| Debounce.Monitor.constructor | lab2/base_interrupt.c:44 | `last_ms` starts at 0, with nothing reported |
| Debounce.Monitor.Run | lab2/base_interrupt.c:46-76 | the loop reports exactly the accepted events, ends exactly on a failed wait or read, and leaves `last_ms` at the last accepted time |
| Scroller.NextIndex | lab2/src/scroll_base_interrupt.c:157 | the next index stays within the twenty messages |
| Scroller.ScrollsAdvance | lab2/src/scroll_base_interrupt.c:155-157 | n scrolls move the window n places round the ring |
| Scroller.TwentyScrolls | lab2/src/scroll_base_interrupt.c:155-157 | the window comes back to its start after twenty scrolls and after no fewer |
| Scroller.StepSpec | lab2/src/scroll_base_interrupt.c:128-166 | timeouts and dropped events change nothing, an accepted event records its time, and the window moves exactly on an accepted rising edge |
| Scroller.Scroller.constructor | lab2/src/scroll_base_interrupt.c:117-118 | the index and `last_ms` start at 0 |
| Scroller.Scroller.FirstRows | lab2/src/scroll_base_interrupt.c:121-124 | the first two messages are drawn before the loop |
| Scroller.Scroller.OnEvent | lab2/src/scroll_base_interrupt.c:128-169 | the loop stops exactly on a failure, the state follows the filter, and both rows are redrawn exactly when the window moves |
| Navigator.NextIndex | lab1/lcd3.c:201-207 | "next" stays within the sixteen messages |
| Navigator.PrevIndex | lab1/lcd3.c:201-207 | "prev" stays within the sixteen messages |
| Navigator.NextPrevInverse | lab1/lcd3.c:201-207 | next and prev undo each other, and neither leaves the index where it was |
| Navigator.FailedNextReadAdvances | lab1/lcd3.c:184-185 | as written, a failed read of the "next" button moves to the next message instead of ending the program |
| Navigator.DecideSpec | lab1/lcd3.c:184-207 | the corrected decision stops exactly on a failed read and otherwise agrees with the code as written |
| Navigator.Navigator.constructor | lab1/lcd3.c:171 | the index starts at 0 |
| Navigator.Navigator.Pass | lab1/lcd3.c:175-210 | one pass draws the current two rows, then moves as the buttons decide, or stops on a failed read |
| Navigator.ButtonPressed | lab1/lcd3.c:95-110 | a press counts exactly when both debounce reads are low, and it is reported once the button is released |
| KeyEditor.ApplyKeyWellFormed | keyp_base_interrupt.c:164-195 | after any key, both lines hold at most sixteen NUL-free characters, and line 0 or line 1 is current |
| KeyEditor.AppendOnlyToCurrent | keyp_base_interrupt.c:178-195 | an ordinary key appends to the current line exactly when that line is not full, and touches nothing else |
| KeyEditor.StarClears | keyp_base_interrupt.c:164-171 | `*` empties both lines, keeps the current line and clears the display |
| KeyEditor.HashSwitches | keyp_base_interrupt.c:173-176 | `#` switches lines without touching the text, and twice is no change |
| KeyEditor.EffectsShowNewText | keyp_base_interrupt.c:178-195 | the display is redrawn exactly when the text changes, and only with the new text of the edited line |
| KeyEditor.StepFilter | keyp_base_interrupt.c:143-153 | only an accepted rising edge changes the editor, and an accepted edge records its time even when no key is found |
| KeyEditor.KeyEditor.constructor | keyp_base_interrupt.c:114-120 | two empty line buffers, line 0 current, `last_key_ms` 0 |
| KeyEditor.KeyEditor.BuffersAreText | keyp_base_interrupt.c:178-195 | each buffer, read as a C string, is exactly the text typed into it |
| KeyEditor.KeyEditor.Append | keyp_base_interrupt.c:178-195 | the key is stored at the buffer's position and the buffer is NUL-terminated after it |
| KeyEditor.KeyEditor.HandleKey | keyp_base_interrupt.c:164-195 | the buffers change as the key's effect says, and the display receives exactly that key's effects |
| KeyEditor.KeyEditor.OnColumn | keyp_base_interrupt.c:127-199 | one column's event applies the first held key when the 30 ms filter accepts it, and the loop goes on, breaks or exits by the outcome |
| Keypad.KeymapInjective | lab3/src/keyp_api.c:12-17 | the twelve keymap entries are distinct and none is NUL |
| Keypad.FirstHeldFromIsFirst | lab3/src/keyp_api.c:25-47 | the scan from a position finds a key exactly when it is held and no earlier key is |
| Keypad.FirstHeldFromNone | lab3/src/keyp_api.c:25-47 | the scan finds nothing exactly when no key from that position on is held |
| Keypad.FirstHeldFromLegend | lab3/src/keyp_api.c:12-17 | the scan returns NUL or one of the twelve legends |
| Keypad.ScanAnswer | lab3/src/keyp_api.c:25-47 | `keyp_scan` returns the first held key in row-major order, or NUL when none is held |
| Keypad.OneHotColumn | lab3/src/keyp_api.c:29-38 | with only row r driven high, column c reads high exactly when key (r, c) is held |
| Keypad.Keypad.Init | lab3/src/keyp_api.c:49-67 | the column and row lines are recorded, and all rows are driven high |
| Keypad.Keypad.GetCols | lab3/src/keyp_api.c:69-71 | returns the three column lines |
| Keypad.Keypad.SetRowLevel | lab3/src/keyp_api.c:29-31 | only that row's level changes, and the write is logged |
| Keypad.Keypad.SetAllRows | lab3/src/keyp_api.c:19-23 | all four rows take the level, in order |
| Keypad.Keypad.ReadColumn | lab3/src/keyp_api.c:37-43 | the column reads high exactly when a held key joins it to a row driven high |
| Keypad.Keypad.ScanRow | lab3/src/keyp_api.c:37-43 | with one row driven, the first held key of that row is returned with all rows restored high, or nothing is found in that row |
| Keypad.Keypad.Scan | lab3/src/keyp_api.c:25-47 | returns the first held key (NUL if none), every read is faithful to the held keys, and all rows end driven high |
| Buzzer.NextIndex | lab3/src/buzzer_interrupt.c:123 | the frequency index steps through the five entries and wraps from the last to the first |
| Buzzer.PressesAdvance | lab3/src/buzzer_interrupt.c:123 | n presses advance the index by n modulo 5 |
| Buzzer.FivePressesCycle | lab3/src/buzzer_interrupt.c:123 | five presses return to the same frequency, and fewer do not |
| Buzzer.OnlyFallingEdgesSelect | lab3/src/buzzer_interrupt.c:118-123 | the frequency changes exactly on a falling edge |
| Buzzer.HalfPeriodNs | lab3/src/buzzer_interrupt.c:127-131 | the timer interval is half the period in nanoseconds, rounded down, and below one second |
| Buzzer.HalfPeriodUs | lab3/src/buzzer_polling.c:70 | the polling interval is half the period in microseconds, rounded down |
| Buzzer.HalfPeriodTable | lab3/src/buzzer_interrupt.c:16-17 | the five frequencies give the stated half-periods in both units |
| Buzzer.UsMatchesNs | lab3/src/buzzer_polling.c:70 | the polling interval is the timer interval truncated to whole microseconds |
| Buzzer.SquareWave | lab3/src/buzzer_interrupt.c:31-34 | with the line attached, the handler writes 0, 1, 0, 1, … and the level alternates |
| Buzzer.InterruptBuzzer.constructor | lab3/src/buzzer_interrupt.c:95-107 | the index starts at 0, and the timer is armed at 1 ms |
| Buzzer.InterruptBuzzer.Tick | lab3/src/buzzer_interrupt.c:26-36 | the handler toggles and writes the level when attached, and changes no control variable |
| Buzzer.InterruptBuzzer.Control | lab3/src/buzzer_interrupt.c:114-143 | a falling edge selects the next frequency and re-arms the timer, a failed re-arm ends the loop, and the wave is untouched |
| Buzzer.PollingBuzzer.constructor | lab3/src/buzzer_polling.c:49-51 | the index starts at 0 with a 1000 µs half-period |
| Buzzer.PollingBuzzer.Iteration | lab3/src/buzzer_polling.c:60-83 | a falling edge selects the next frequency and waits 50 ms, and every pass toggles the line and sleeps one half-period |
| SevenSegment.SetupWrites | lab3/src/seven_segment.c:72-81 | the nine output lines are requested high |
| SevenSegment.PatternTable | lab3/src/seven_segment.c:30-47 | sixteen distinct seven-bit patterns, with 8 lighting every segment |
| SevenSegment.TicksPerCountValue | lab3/src/seven_segment.c:24-25 | the counter advances every 250 handler calls |
| SevenSegment.SegmentWritesRoundTrip | lab3/src/seven_segment.c:84-92 | segment k gets bit k of the pattern, and the seven levels recombine to the pattern |
| SevenSegment.TickSelects | lab3/src/seven_segment.c:104-121 | each tick turns both selects off, writes the segments, and then selects exactly the current digit |
| SevenSegment.DigitAlternates | lab3/src/seven_segment.c:111-121 | the displayed digit alternates between the two positions |
| SevenSegment.CountBounded | lab3/src/seven_segment.c:124-128 | the tick count stays below 250 and wraps exactly after 249 |
| SevenSegment.HighThenLow | lab3/src/seven_segment.c:100-121 | the first digit shows the high nibble of the counter and the second the low nibble |
| SevenSegment.WithinPeriod | lab3/src/seven_segment.c:124-128 | within one period the counter does not change |
| SevenSegment.OnePeriod | lab3/src/seven_segment.c:124-128 | one period of 250 ticks increments the counter, modulo 256 |
| SevenSegment.CounterAfterPeriods | lab3/src/seven_segment.c:124-128 | after k periods from the start, the display counts k modulo 256 |
| SevenSegment.Multiplexer.constructor | lab3/src/seven_segment.c:57-82 | the state starts at zero after the setup writes |
| SevenSegment.Multiplexer.SetSegments | lab3/src/seven_segment.c:84-92 | the pattern's seven segment writes are appended, and the state is unchanged |
| SevenSegment.Multiplexer.Tick | lab3/src/seven_segment.c:95-129 | one handler call makes the tick's writes and advances the state by one step |
| PcmPlayer.U16RoundTrip | lab3/src/chipi_chapa.c:19-31 | a 16-bit field encoded little-endian decodes to itself |
| PcmPlayer.U16Bytes | lab3/src/chipi_chapa.c:19-31 | any two bytes re-encode to themselves |
| PcmPlayer.U32RoundTrip | lab3/src/chipi_chapa.c:19-31 | a 32-bit field encoded little-endian decodes to itself |
| PcmPlayer.U32Bytes | lab3/src/chipi_chapa.c:19-31 | any four bytes re-encode to themselves |
| PcmPlayer.S16RoundTrip | lab3/src/chipi_chapa.c:62-64 | a signed 16-bit sample encoded little-endian decodes to itself |
| PcmPlayer.S16Bytes | lab3/src/chipi_chapa.c:62-64 | any two bytes re-encode to themselves as a signed sample |
| PcmPlayer.DecodeHeader | lab3/src/chipi_chapa.c:19-31 | every decoded header field fits its declared width |
| PcmPlayer.ParseHeader | lab3/src/chipi_chapa.c:105-110 | the header read succeeds exactly when the file has 36 bytes |
| PcmPlayer.HeaderFieldsRoundTrip | lab3/src/chipi_chapa.c:19-31 | decoding an encoded header gives back every field |
| PcmPlayer.HeaderRoundTrip | lab3/src/chipi_chapa.c:105-110 | reading the header of a file that starts with an encoded header gives that header, whatever follows |
| PcmPlayer.NextChunk | lab3/src/chipi_chapa.c:124 | skipping a chunk always moves forward past its 8-byte header |
| PcmPlayer.FindChunk | lab3/src/chipi_chapa.c:118-125 | a found position is a complete chunk header at or after the start |
| PcmPlayer.ScanChunks | lab3/src/chipi_chapa.c:118-125 | the scanning loop finds exactly what the chunk walk defines |
| PcmPlayer.FoundIsData | lab3/src/chipi_chapa.c:118-125 | the scan only ever stops on a chunk whose id is "data" |
| PcmPlayer.SkipsChunk | lab3/src/chipi_chapa.c:123-124 | a chunk that is not "data" is skipped by its declared size |
| PcmPlayer.FindsDataHere | lab3/src/chipi_chapa.c:120-122 | a "data" chunk is found where it starts |
| PcmPlayer.FindsFirstData | lab3/src/chipi_chapa.c:118-125 | in a well-formed chunk list, the scan finds the first "data" chunk |
| PcmPlayer.FindsDataAfterHeader | lab3/src/chipi_chapa.c:118-125 | after the header, the scan finds the first "data" chunk of the file |
| PcmPlayer.ChunkAtEncoded | lab3/src/chipi_chapa.c:33-36 | an encoded chunk is read back as the same id, size and body |
| PcmPlayer.EncodedChunksAt | lab3/src/chipi_chapa.c:33-36 | a sequence of encoded chunks is laid out one after another |
| PcmPlayer.TotalSamples | lab3/src/chipi_chapa.c:130-133 | the sample count is the number of whole frames in the data |
| PcmPlayer.Decode | lab3/src/chipi_chapa.c:105-150 | loading fails on a short header or truncated data and otherwise returns the header, the data chunk's body and the frame count |
| PcmPlayer.Load | lab3/src/chipi_chapa.c:105-150 | the loading code computes exactly `Decode` |
| PcmPlayer.DecodeLaidOut | lab3/src/chipi_chapa.c:127-150 | a file with a header and a complete first data chunk loads as that body |
| PcmPlayer.LaidOutFromChunks | lab3/src/chipi_chapa.c:118-150 | a header followed by well-formed chunks has the first data chunk laid out for loading |
| PcmPlayer.WavRoundTrip | lab3/src/chipi_chapa.c:105-150 | encoding a header and chunks gives a file that loads back as the first data chunk |
| PcmPlayer.Sample | lab3/src/chipi_chapa.c:56-65 | every sample is a signed 16-bit value |
| PcmPlayer.EightBitSamples | lab3/src/chipi_chapa.c:59-61 | an 8-bit sample is centred on 128, and the output is high exactly above 128 |
| PcmPlayer.SixteenBitSamples | lab3/src/chipi_chapa.c:62-64 | a 16-bit sample is the little-endian signed value, and the output is high exactly when it is positive |
| PcmPlayer.OtherWidthsAreSilent | lab3/src/chipi_chapa.c:56-69 | any other sample width keeps the output low |
| PcmPlayer.FrameInBounds | lab3/src/chipi_chapa.c:54-56 | every sample the handler reads lies inside the loaded data |
| PcmPlayer.IntervalNs | lab3/src/chipi_chapa.c:181-187 | the timer interval is one second divided by the sample rate, rounded down, and below one second exactly when the rate is at least 2 |
| PcmPlayer.Outputs | lab3/src/chipi_chapa.c:54-71 | the level written for each sample, in sample order |
| PcmPlayer.Player.constructor | lab3/src/chipi_chapa.c:39-46 | playback starts at sample 0, not complete, with nothing written |
| PcmPlayer.Player.Tick | lab3/src/chipi_chapa.c:49-75 | while samples remain, one handler call writes the current sample's level and advances, and it marks playback complete after the last |
| PcmPlayer.Player.Play | lab3/src/chipi_chapa.c:197-199 | running the handler until playback is complete writes every sample's level in order |

## Left out

- Line requests, chip handles, consumer names, `perror`, `printf` and `fflush` are left out. The model records line levels and writes as logs instead.
- Failures while opening the chip or requesting lines are left out, and so are the resources released on exit.
- POSIX timers, signals and the `volatile` sharing between a handler and `main` are left out. Handlers are methods that the model calls between loop passes, one at a time.
- The initial `timer_create` and `timer_settime` failures are left out. A failed re-arm after a frequency change is modelled (`Buzzer.InterruptBuzzer.Control`).
- Buzzer.InterruptBuzzer.Control: the `usleep(50000)` after a frequency change (lab3/src/buzzer_interrupt.c:139) is not recorded, because it only delays the loop.
- Navigator.ButtonPressed: the `usleep` calls are not recorded. These are the 20 ms before the second read (lab1/lcd3.c:102), 5 ms per release poll (lab1/lcd3.c:107) and 20 ms after the release (lab1/lcd3.c:108). The reads the caller passes stand in for the passing time. `button_pressed` has no call site in lab1/lcd3.c: `main` reads both lines directly (lab1/lcd3.c:184-188), so this member models the helper on its own, not part of the running program.
- Navigator.ButtonPressed requires the last read to be non-zero. In the source, the release wait (lab1/lcd3.c:107) spins for as long as the button reads 0, and forever if it is held or stuck low. A read of -1 also ends that wait, and the press is still reported.
- Navigator.Navigator.Pass: the loop's `usleep` is not recorded. `last_1` and `last_2` (lab1/lcd3.c:190-198) are left out, because they only feed `printf`.
- Navigator.Navigator.Pass: the pass follows the corrected decision (see Findings). It requires each read to be -1, 0 or 1, the values `gpiod_line_get_value` returns.
- KeyEditor.KeyEditor.OnColumn models one pass of the column loop. Draining the remaining edge events after a scan (keyp_base_interrupt.c:157-162) is left out, because it only empties the kernel's queue.
- Keypad.Keypad.ReadColumn: a failed `gpiod_line_get_value` is not modelled separately. The scan only tests `== 1`, so a failure acts like a low read.
- The `usleep(300)` settle time in `keyp_scan` is recorded as an entry of the keypad log.
- PcmPlayer.Decode requires `Loadable`: some chunk after the header has the id "data", the bit width is at least 8, and the channel count and sample rate are non-zero. Without a data chunk, the C code goes on with the last chunk header it read (uninitialised if none), so the outcome depends on stale data; the model requires a data chunk instead. The unguarded divisions by `bytes_per_sample * num_channels` and by `sample_rate` need the rest.
- The failures of `fopen`, `fread` and `malloc` are left out, because they are I/O. A short header read and truncated data are modelled as `LoadError` values.
- `IntervalNs` is modelled, but a failing `timer_settime` for a rate of 1 is left out, like the other timer failures.
- The tachometer and the other lab files outside these programs are not part of this model.
- `lab1/lcd.c`'s `main`, which prints one greeting, is left out. Its driver functions are modelled as `LcdApi.Lcd` with `Lab1Timing`.

## Findings

| source | as written | input that shows it | evidently intended | confidence | as-written member | corrected member |
|---|---|---|---|---|---|---|
| lab1/lcd3.c:184-185 | `b_1 = 1 - gpiod_line_get_value(btn_next)` is tested for `< 0` only after the inversion | a failed read of the "next" button returns -1, so `b_1` is 2: the test passes and the display moves to the next message | a failed read ends the program, as it does for the "prev" button | not executed | Navigator.FailedNextReadAdvances | Navigator.DecideSpec |
