/** The 4x3 matrix keypad driver of lab3/src/keyp_api.c. The rows are
    outputs and the columns inputs; a scan drives one row high at a time and
    reports the first key, in row-major order, whose column then reads high. */
module Keypad {
  import opened Gpio

  const NumRows := 4
  const NumCols := 3

  /** The legend of each key, row by row. */
  const Keymap: seq<seq<char>> := [
    ['1', '2', '3'],
    ['4', '5', '6'],
    ['7', '8', '9'],
    ['*', '0', '#']]

  /** The key at row-major position `i` (row `i / 3`, column `i % 3`). */
  function KeyAt(i: nat): char
    requires i < NumRows * NumCols
  {
    Keymap[i / NumCols][i % NumCols]
  }

  /** No two keys share a legend, and none is NUL, the "no key" answer. */
  lemma KeymapInjective()
    ensures forall i, j :: 0 <= i < j < NumRows * NumCols ==> KeyAt(i) != KeyAt(j)
    ensures forall i :: 0 <= i < NumRows * NumCols ==> KeyAt(i) != '\0'
  {
    assert forall i :: 0 <= i < NumRows * NumCols ==> KeyAt(i) == "123456789*0#"[i];
  }

  /** Which keys are held down: `held[r][c]` for the key at row `r`,
      column `c`. */
  predicate IsMatrix(held: seq<seq<bool>>)
  {
    |held| == NumRows && forall r :: 0 <= r < NumRows ==> |held[r]| == NumCols
  }

  predicate Held(held: seq<seq<bool>>, i: nat)
    requires IsMatrix(held) && i < NumRows * NumCols
  {
    held[i / NumCols][i % NumCols]
  }

  /** The key a row-major scan from position `k` on finds first, or NUL. */
  function FirstHeldFrom(held: seq<seq<bool>>, k: nat): char
    requires IsMatrix(held) && k <= NumRows * NumCols
    decreases NumRows * NumCols - k
  {
    if k == NumRows * NumCols then '\0'
    else if Held(held, k) then KeyAt(k)
    else FirstHeldFrom(held, k + 1)
  }

  /** What `keyp_scan` promises: the first held key in row-major order. */
  function FirstHeld(held: seq<seq<bool>>): char
    requires IsMatrix(held)
  {
    FirstHeldFrom(held, 0)
  }

  /** From position `k`, the scan finds key `j` exactly when `j` is held
      and no key between `k` and `j` is. */
  lemma {:induction false} FirstHeldFromIsFirst(held: seq<seq<bool>>, k: nat, j: nat)
    requires IsMatrix(held) && k <= NumRows * NumCols && j < NumRows * NumCols
    ensures FirstHeldFrom(held, k) == KeyAt(j) <==>
      k <= j && Held(held, j) && forall i :: k <= i < j ==> !Held(held, i)
    decreases NumRows * NumCols - k
  {
    KeymapInjective();
    if k < NumRows * NumCols && !Held(held, k) {
      FirstHeldFromIsFirst(held, k + 1, j);
    }
  }

  /** The scan answers NUL exactly when no key is held. */
  lemma {:induction false} FirstHeldFromNone(held: seq<seq<bool>>, k: nat)
    requires IsMatrix(held) && k <= NumRows * NumCols
    ensures FirstHeldFrom(held, k) == '\0' <==> forall i :: k <= i < NumRows * NumCols ==> !Held(held, i)
    decreases NumRows * NumCols - k
  {
    if k < NumRows * NumCols {
      KeymapInjective();
      FirstHeldFromNone(held, k + 1);
    }
  }

  /** Any other answer is one of the twelve legends. */
  lemma {:induction false} FirstHeldFromLegend(held: seq<seq<bool>>, k: nat)
    requires IsMatrix(held) && k <= NumRows * NumCols
    ensures FirstHeldFrom(held, k) == '\0' || FirstHeldFrom(held, k) in "123456789*0#"
    decreases NumRows * NumCols - k
  {
    if k < NumRows * NumCols {
      FirstHeldFromLegend(held, k + 1);
      assert KeyAt(k) == "123456789*0#"[k] by {
        KeymapInjective();
      }
    }
  }

  /** The scan's answer, for every pattern of held keys: the first held key
      in row-major order, or NUL when none is held. */
  lemma ScanAnswer(held: seq<seq<bool>>, j: nat)
    requires IsMatrix(held) && j < NumRows * NumCols
    ensures FirstHeld(held) == KeyAt(j) <==> Held(held, j) && forall i :: 0 <= i < j ==> !Held(held, i)
    ensures FirstHeld(held) == '\0' <==> forall i :: 0 <= i < NumRows * NumCols ==> !Held(held, i)
    ensures FirstHeld(held) == '\0' || FirstHeld(held) in "123456789*0#"
  {
    FirstHeldFromIsFirst(held, 0, j);
    FirstHeldFromNone(held, 0);
    FirstHeldFromLegend(held, 0);
  }

  /** The row levels while row `r` alone is driven high. */
  function OneHot(r: nat): (ls: seq<bit>)
    ensures |ls| == NumRows
  {
    seq(NumRows, i requires 0 <= i < NumRows => if i == r then 1 else 0)
  }

  /** The level column `c` reads with the rows at `levels`: high when some
      driven-high row has its key in that column held. */
  function ColumnLevel(held: seq<seq<bool>>, levels: seq<bit>, c: nat): bit
    requires IsMatrix(held) && |levels| == NumRows && c < NumCols
  {
    if exists r :: 0 <= r < NumRows && levels[r] == 1 && held[r][c] then 1 else 0
  }

  /** With row `r` alone high, column `c` reads exactly whether key (r, c)
      is held. */
  lemma OneHotColumn(held: seq<seq<bool>>, r: nat, c: nat)
    requires IsMatrix(held) && r < NumRows && c < NumCols
    ensures ColumnLevel(held, OneHot(r), c) == (if held[r][c] then 1 else 0)
  {
    if held[r][c] {
      assert OneHot(r)[r] == 1;
    }
  }

  /** One interaction with the keypad lines. */
  datatype Io =
    | SetRow(row: nat, level: bit)                                   // gpiod_line_set_value(rows[row], level)
    | Settle(us: nat)                                                // usleep(us)
    | ReadCol(row: nat, col: nat, levels: seq<bit>, value: bit)      // gpiod_line_get_value(cols[col]) while scanning row

  /** The writes of `set_all_rows(v)`. */
  function AllRows(v: bit): seq<Io>
  {
    [SetRow(0, v), SetRow(1, v), SetRow(2, v), SetRow(3, v)]
  }

  /** A column read taken while its own row, and only that row, was high,
      returning what the held keys make the column read. */
  predicate FaithfulRead(e: Io, held: seq<seq<bool>>)
    requires IsMatrix(held)
  {
    e.ReadCol? ==>
      e.row < NumRows && e.col < NumCols && e.levels == OneHot(e.row)
      && e.value == ColumnLevel(held, e.levels, e.col)
  }

  /** The driver's static `cols` and `rows` line tables, the levels it has
      driven on the rows, and its log of line operations. Lines are
      identified by number. */
  class Keypad {
    var cols: seq<nat>
    var rows: seq<nat>
    var rowLevels: seq<bit>
    var log: seq<Io>

    predicate Valid()
      reads this
    {
      |cols| == NumCols && |rows| == NumRows && |rowLevels| == NumRows
    }

    /** `keyp_init`: the lines stored in argument order, then all rows
        driven high. */
    constructor Init(c1: nat, c2: nat, c3: nat, r1: nat, r2: nat, r3: nat, r4: nat)
      ensures Valid()
      ensures cols == [c1, c2, c3] && rows == [r1, r2, r3, r4]
      ensures rowLevels == [1, 1, 1, 1] && log == AllRows(1)
    {
      cols := [c1, c2, c3];
      rows := [r1, r2, r3, r4];
      rowLevels := [0, 0, 0, 0];
      log := [];
      new;
      SetAllRows(1);
    }

    /** `keyp_get_cols`: the column lines in the order `keyp_init` got them. */
    method GetCols() returns (lines: seq<nat>)
      requires Valid()
      ensures |lines| == NumCols && lines == cols
    {
      lines := cols;
    }

    method SetRowLevel(r: nat, v: bit)
      requires Valid() && r < NumRows
      modifies this
      ensures Valid() && cols == old(cols) && rows == old(rows)
      ensures rowLevels == old(rowLevels)[r := v]
      ensures log == old(log) + [SetRow(r, v)]
    {
      rowLevels := rowLevels[r := v];
      log := log + [SetRow(r, v)];
    }

    /** `set_all_rows(v)`. */
    method SetAllRows(v: bit)
      requires Valid()
      modifies this
      ensures Valid() && cols == old(cols) && rows == old(rows)
      ensures rowLevels == [v, v, v, v]
      ensures log == old(log) + AllRows(v)
    {
      for i := 0 to NumRows
        invariant Valid() && cols == old(cols) && rows == old(rows)
        invariant forall k :: 0 <= k < i ==> rowLevels[k] == v
        invariant log == old(log) + AllRows(v)[..i]
      {
        SetRowLevel(i, v);
        assert AllRows(v)[..i + 1] == AllRows(v)[..i] + [SetRow(i, v)];
      }
    }

    /** Reads column `c` while scanning row `r`. */
    method ReadColumn(held: seq<seq<bool>>, r: nat, c: nat) returns (v: bit)
      requires Valid() && IsMatrix(held) && r < NumRows && c < NumCols
      modifies this
      ensures Valid() && cols == old(cols) && rows == old(rows) && rowLevels == old(rowLevels)
      ensures v == ColumnLevel(held, rowLevels, c)
      ensures log == old(log) + [ReadCol(r, c, rowLevels, v)]
    {
      v := ColumnLevel(held, rowLevels, c);
      log := log + [ReadCol(r, c, rowLevels, v)];
    }

    /** The column loop of `keyp_scan` for row `r`, which alone is high: the
        first column that reads high gives the key (after all rows are driven
        high again); when none does, the row holds no held key. */
    method ScanRow(held: seq<seq<bool>>, r: nat) returns (key: char)
      requires Valid() && IsMatrix(held) && r < NumRows && rowLevels == OneHot(r)
      modifies this
      ensures Valid() && cols == old(cols) && rows == old(rows)
      ensures |old(log)| <= |log| && log[..|old(log)|] == old(log)
      ensures forall i :: |old(log)| <= i < |log| ==> FaithfulRead(log[i], held)
      ensures key != '\0' ==> (key == FirstHeldFrom(held, NumCols * r)
        && rowLevels == [1, 1, 1, 1] && |log| >= |old(log)| + 4 && log[|log| - 4..] == AllRows(1))
      ensures key == '\0' ==> FirstHeldFrom(held, NumCols * r) == FirstHeldFrom(held, NumCols * (r + 1))
    {
      KeymapInjective();
      for c := 0 to NumCols
        invariant Valid() && cols == old(cols) && rows == old(rows)
        invariant rowLevels == OneHot(r)
        invariant FirstHeldFrom(held, NumCols * r) == FirstHeldFrom(held, NumCols * r + c)
        invariant |old(log)| <= |log| && log[..|old(log)|] == old(log)
        invariant forall i :: |old(log)| <= i < |log| ==> FaithfulRead(log[i], held)
      {
        var v := ReadColumn(held, r, c);
        OneHotColumn(held, r, c);
        assert (NumCols * r + c) / NumCols == r && (NumCols * r + c) % NumCols == c;
        if v == 1 {
          SetAllRows(1);
          return Keymap[r][c];
        }
      }
      key := '\0';
    }

    /** `keyp_scan`, with the keys in `held` pressed throughout. Returns the
        first held key in row-major order or NUL; every column read happens
        with exactly its row high, and all rows end high. */
    method Scan(held: seq<seq<bool>>) returns (key: char)
      requires Valid() && IsMatrix(held)
      modifies this
      ensures Valid() && cols == old(cols) && rows == old(rows)
      ensures key == FirstHeld(held)
      ensures rowLevels == [1, 1, 1, 1]
      ensures |log| >= |old(log)| + 4 && log[|log| - 4..] == AllRows(1)
      ensures forall i :: |old(log)| <= i < |log| ==> FaithfulRead(log[i], held)
    {
      ghost var start := |log|;
      for r := 0 to NumRows
        invariant Valid() && cols == old(cols) && rows == old(rows)
        invariant FirstHeld(held) == FirstHeldFrom(held, NumCols * r)
        invariant start <= |log|
        invariant forall i :: start <= i < |log| ==> FaithfulRead(log[i], held)
      {
        SetAllRows(0);
        SetRowLevel(r, 1);
        assert rowLevels == OneHot(r);
        log := log + [Settle(300)];
        ghost var before := log;
        key := ScanRow(held, r);
        assert forall i :: start <= i < |before| ==> log[i] == before[i];
        if key != '\0' {
          return;
        }
      }
      SetAllRows(1);
      key := '\0';
    }
  }
}
