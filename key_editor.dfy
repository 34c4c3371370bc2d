/** The two-line keypad editor of keyp_base_interrupt.c. A rising edge on a
    keypad column, at least 30 ms after the last accepted one, triggers a
    scan; the key found is appended to the current display line (at most 16
    characters), `*` clears both lines and `#` switches lines. */
module KeyEditor {
  import opened Gpio
  import opened Hd44780
  import opened LcdApi
  import Keypad

  const DebounceMs := 30
  const LineWidth := 16

  /** The text of both lines and the line being edited. */
  datatype Lines = Lines(text0: seq<char>, text1: seq<char>, current: int)
  {
    predicate WellFormed()
    {
      |text0| <= LineWidth && |text1| <= LineWidth && current in {0, 1}
      && '\0' !in text0 && '\0' !in text1
    }

    function Text(line: int): seq<char>
    {
      if line == 0 then text0 else text1
    }
  }

  const Empty := Lines([], [], 0)

  /** What a scanned key does: `*` empties both lines and keeps the current
      one, `#` switches lines, any other key is appended to the current line
      unless it already holds 16 characters. */
  function ApplyKey(l: Lines, key: char): Lines
  {
    if key == '*' then Lines([], [], l.current)
    else if key == '#' then l.(current := if l.current == 0 then 1 else 0)
    else if l.current == 0 && |l.text0| < LineWidth then l.(text0 := l.text0 + [key])
    else if l.current == 1 && |l.text1| < LineWidth then l.(text1 := l.text1 + [key])
    else l
  }

  /** What the display is asked to do for a key: clear for `*`, nothing for
      `#`, and for an appended key the edited line rewritten from column 0. */
  function KeyEffects(l: Lines, key: char): seq<Effect>
  {
    if key == '*' then [Clear]
    else if key == '#' then []
    else if l.current == 0 && |l.text0| < LineWidth then [ShowRow(0, l.text0 + [key])]
    else if l.current == 1 && |l.text1| < LineWidth then [ShowRow(1, l.text1 + [key])]
    else []
  }

  /** Every key keeps both lines within 16 non-NUL characters and the current
      line 0 or 1. */
  lemma ApplyKeyWellFormed(l: Lines, key: char)
    requires l.WellFormed() && key != '\0'
    ensures ApplyKey(l, key).WellFormed()
  {
  }

  /** An ordinary key appends to the current line only, exactly when that
      line is not full; the other line and the line choice do not change. */
  lemma AppendOnlyToCurrent(l: Lines, key: char)
    requires l.WellFormed() && key != '*' && key != '#'
    ensures var n := ApplyKey(l, key);
      n.current == l.current
      && n.Text(1 - l.current) == l.Text(1 - l.current)
      && (|l.Text(l.current)| < LineWidth ==> n.Text(l.current) == l.Text(l.current) + [key])
      && (|l.Text(l.current)| == LineWidth ==> n == l)
  {
  }

  /** `*` empties both lines but keeps editing the same line. */
  lemma StarClears(l: Lines)
    ensures ApplyKey(l, '*') == Lines([], [], l.current)
    ensures KeyEffects(l, '*') == [Clear]
  {
  }

  /** `#` switches lines without touching the text, and twice is nothing. */
  lemma HashSwitches(l: Lines)
    requires l.WellFormed()
    ensures ApplyKey(l, '#').text0 == l.text0 && ApplyKey(l, '#').text1 == l.text1
    ensures ApplyKey(l, '#').current == 1 - l.current
    ensures ApplyKey(ApplyKey(l, '#'), '#') == l
  {
  }

  /** Whatever is shown is the new text of the edited line. */
  lemma EffectsShowNewText(l: Lines, key: char)
    requires l.WellFormed() && key != '*'
    ensures forall e :: e in KeyEffects(l, key) ==>
      e.ShowRow? && e.row == l.current && e.text == ApplyKey(l, key).Text(l.current)
    ensures KeyEffects(l, key) == [] <==> ApplyKey(l, key).text0 == l.text0 && ApplyKey(l, key).text1 == l.text1
  {
  }

  /** The editor's state between events. */
  datatype Editor = Editor(lines: Lines, lastKeyMs: int)

  /** What the column loop does after one column's wait: go on to the next
      column, leave the column loop (a failed read), or end the program (a
      failed wait). */
  datatype Flow = NextColumn | StopColumns | Exit

  function FlowOf(outcome: WaitOutcome): Flow
  {
    match outcome
    case WaitFailed => Exit
    case ReadFailed => StopColumns
    case _ => NextColumn
  }

  /** A rising edge accepted by the 30 ms filter. */
  predicate Accepted(e: Editor, outcome: WaitOutcome, t: int)
  {
    outcome == Event(Rising) && Debounced(t, e.lastKeyMs, DebounceMs)
  }

  /** The editor after one column's outcome, where `t` is `now_ms()` at the
      event and `key` what the scan returns: an accepted edge records `t`,
      even when the scan finds no key, and applies any key found. */
  function Step(e: Editor, outcome: WaitOutcome, t: int, key: char): Editor
  {
    if Accepted(e, outcome, t) then
      Editor(if key != '\0' then ApplyKey(e.lines, key) else e.lines, t)
    else e
  }

  function StepEffects(e: Editor, outcome: WaitOutcome, t: int, key: char): seq<Effect>
  {
    if Accepted(e, outcome, t) && key != '\0' then KeyEffects(e.lines, key) else []
  }

  /** Only accepted rising edges that find a key change the text, only
      accepted edges move the filter's clock, and every other outcome leaves
      the editor as it was. */
  lemma StepFilter(e: Editor, outcome: WaitOutcome, t: int, key: char)
    ensures Step(e, outcome, t, key) != e ==> Accepted(e, outcome, t)
    ensures Accepted(e, outcome, t) ==> Step(e, outcome, t, key).lastKeyMs == t
    ensures Accepted(e, outcome, t) && key == '\0' ==> Step(e, outcome, t, key).lines == e.lines
    ensures !Accepted(e, outcome, t) ==> StepEffects(e, outcome, t, key) == []
  {
  }

  /** `ShowRow` effects as the display sees them: `lcd_print_padded` stops at
      the first NUL of the buffer it is given. */
  function AsPrinted(es: seq<Effect>): seq<Effect>
  {
    seq(|es|, i requires 0 <= i < |es| =>
      if es[i].ShowRow? then ShowRow(es[i].row, CString(es[i].text)) else es[i])
  }

  /** The loop's variables: the two 17-byte line buffers, their positions,
      `current_line` and `last_key_ms`, with the keypad driver the loop
      scans. */
  class KeyEditor {
    const keypad: Keypad.Keypad
    const line0: array<char>
    const line1: array<char>
    var pos0: nat
    var pos1: nat
    var currentLine: int
    var lastKeyMs: int

    /** Both buffers are NUL-terminated at their position, with no NUL
        before it. */
    predicate Valid()
      reads this, line0, line1
    {
      line0.Length == 17 && line1.Length == 17 && line0 != line1
      && pos0 <= LineWidth && pos1 <= LineWidth
      && line0[pos0] == '\0' && line1[pos1] == '\0'
      && '\0' !in line0[..pos0] && '\0' !in line1[..pos1]
      && currentLine in {0, 1}
    }

    function Content(): Lines
      reads this, line0, line1
      requires Valid()
    {
      Lines(line0[..pos0], line1[..pos1], currentLine)
    }

    function State(): Editor
      reads this, line0, line1
      requires Valid()
    {
      Editor(Content(), lastKeyMs)
    }

    /** The variables as `main` declares them: two empty buffers, line 0,
        `last_key_ms = 0`. */
    constructor (keypad: Keypad.Keypad)
      ensures Valid() && State() == Editor(Empty, 0)
      ensures this.keypad == keypad && fresh(line0) && fresh(line1)
    {
      this.keypad := keypad;
      line0 := new char[17](_ => '\0');
      line1 := new char[17](_ => '\0');
      pos0, pos1 := 0, 0;
      currentLine := 0;
      lastKeyMs := 0;
    }

    /** The C string held in a buffer is the text before its position. */
    lemma BuffersAreText()
      requires Valid()
      ensures CString(line0[..]) == line0[..pos0] && CString(line1[..]) == line1[..pos1]
    {
      assert line0[..][..pos0] == line0[..pos0];
      assert line1[..][..pos1] == line1[..pos1];
      CStringUpTo(line0[..], pos0);
      CStringUpTo(line1[..], pos1);
    }

    /** Appends `key` to a buffer that is not full and NUL-terminates it. */
    static method Append(buf: array<char>, pos: nat, key: char)
      requires buf.Length == 17 && pos < LineWidth && buf[pos] == '\0' && '\0' !in buf[..pos]
      requires key != '\0'
      modifies buf
      ensures buf[..pos + 1] == old(buf[..pos]) + [key]
      ensures buf[pos + 1] == '\0' && '\0' !in buf[..pos + 1]
    {
      buf[pos] := key;
      buf[pos + 1] := '\0';
      assert buf[..pos + 1] == old(buf[..pos]) + [key];
    }

    /** The handling of a key `keyp_scan` found. `lcd_clear` becomes a
        `Clear` effect and `lcd_set_cursor(row, 0)` with
        `lcd_print_padded(buffer)` a `ShowRow` of the buffer. */
    method HandleKey(key: char) returns (effects: seq<Effect>)
      requires Valid() && key != '\0'
      modifies this, line0, line1
      ensures Valid() && lastKeyMs == old(lastKeyMs)
      ensures Content() == ApplyKey(old(Content()), key)
      ensures AsPrinted(effects) == KeyEffects(old(Content()), key)
    {
      if key == '*' {
        line0[0] := '\0';
        line1[0] := '\0';
        pos0, pos1 := 0, 0;
        effects := [Clear];
      } else if key == '#' {
        currentLine := if currentLine == 0 then 1 else 0;
        effects := [];
      } else if currentLine == 0 && pos0 < LineWidth {
        Append(line0, pos0, key);
        pos0 := pos0 + 1;
        BuffersAreText();
        effects := [ShowRow(0, line0[..])];
      } else if currentLine == 1 && pos1 < LineWidth {
        Append(line1, pos1, key);
        pos1 := pos1 + 1;
        BuffersAreText();
        effects := [ShowRow(1, line1[..])];
      } else {
        effects := [];
      }
    }

    /** One pass of the column loop's body for one column: `outcome` is its
        wait and read, `t` the value `now_ms()` would return, and `held` the
        keys down when the keypad is scanned. */
    method OnColumn(outcome: WaitOutcome, t: int, held: seq<seq<bool>>) returns (flow: Flow, effects: seq<Effect>)
      requires Valid() && keypad.Valid() && Keypad.IsMatrix(held)
      modifies this, line0, line1, keypad
      ensures Valid() && keypad.Valid()
      ensures flow == FlowOf(outcome)
      ensures State() == Step(old(State()), outcome, t, Keypad.FirstHeld(held))
      ensures AsPrinted(effects) == StepEffects(old(State()), outcome, t, Keypad.FirstHeld(held))
    {
      flow := FlowOf(outcome);
      effects := [];
      if outcome == Event(Rising) && t - lastKeyMs >= DebounceMs {
        lastKeyMs := t;
        var key := keypad.Scan(held);
        if key != '\0' {
          effects := HandleKey(key);
        }
      }
    }
  }
}
