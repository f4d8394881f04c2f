/** What the screen of scripts/harness/work_surface_live.py does with whole streams and on
    single cells: text appears where the cursor is, an addressed cursor goes where the decimal
    numbers say, steps go their way and back, and an erase takes exactly its region. */
module TerminalLaws {
  import opened Terminal

  // ---- Text ------------------------------------------------------------------------------

  predicate Printable(ch: char) { ch as int >= 0x20 && ch as int != 0x7F }

  /** Only these cells of line l, from column c on, may have changed, and they show s. */
  ghost predicate Shows(before: Tape, after: Tape, l: int, c: int, s: string) {
    && (forall i :: 0 <= i < |s| ==> Look(after, l, c + i) == s[i])
    && (forall line, column :: !(line == l && c <= column < c + |s|) ==> Look(after, line, column) == Look(before, line, column))
  }

  lemma ShowsOneMore(before: Tape, mid: Tape, after: Tape, l: int, c: int, s: string)
    requires s != "" && Shows(before, mid, l, c, [s[0]]) && Shows(mid, after, l, c + 1, s[1..])
    ensures Shows(before, after, l, c, s)
  {
    forall i | 0 <= i < |s| ensures Look(after, l, c + i) == s[i] {
      if i > 0 {
        assert Look(after, l, c + 1 + (i - 1)) == s[1..][i - 1];
      } else {
        assert Look(mid, l, c + i) == [s[0]][i];
      }
    }
  }

  lemma PutShows(t: Term, ch: char)
    requires Valid(t) && t.column < t.columns && Printable(ch)
    ensures var u := PutT(t, ch);
      && Step(Device(t, Normal), ch) == Some(Device(u, Normal)) && Valid(u) && u == t.(tape := u.tape, column := t.column + 1)
      && Shows(t.tape, u.tape, Line(t), t.column, [ch])
  {}

  /** Printable text that fits on the line appears from the cursor on, and nothing else. */
  lemma {:induction false} TextAppears(t: Term, s: string)
    requires Valid(t) && t.column + |s| <= t.columns && forall ch <- s :: Printable(ch)
    ensures var r := Run(Device(t, Normal), s);
      && r.Some? && r.value == Device(t.(tape := r.value.term.tape, column := t.column + |s|), Normal)
      && Shows(t.tape, r.value.term.tape, Line(t), t.column, s)
    decreases |s|
  {
    if s != "" {
      assert s[0] in s;
      PutShows(t, s[0]);
      var u := PutT(t, s[0]);
      TextAppears(u, s[1..]);
      ShowsOneMore(t.tape, u.tape, Run(Device(u, Normal), s[1..]).value.term.tape, Line(t), t.column, s);
    }
  }

  /** At the pending-wrap column the next character starts the next line. */
  lemma TextWraps(t: Term, ch: char)
    requires Valid(t) && t.column == t.columns && Printable(ch)
    ensures var r := Step(Device(t, Normal), ch);
      r.Some? && Line(r.value.term) == Line(t) + 1 && r.value.term.column == 1 && Look(r.value.term.tape, Line(t) + 1, 0) == ch
  {}

  /** A newline goes to the start of the next line, and scrolls exactly on the last row. */
  lemma NewlineGoesDown(t: Term)
    requires Valid(t)
    ensures var u := NewlineT(t);
      && Line(u) == Line(t) + 1 && u.column == 0 && u.tape == t.tape
      && (t.row < t.rows - 1 ==> u.top == t.top) && (t.row == t.rows - 1 ==> u.top == t.top + 1 && u.row == t.row)
  {}

  // ---- Cursor controls ---------------------------------------------------------------------

  /** Only the cursor has moved, to that row and column of the window. */
  predicate At(t: Term, u: Option<Term>, row: int, column: int) { u == Some(t.(row := row, column := column)) }

  /** A step of n goes up or down by n, and back again. */
  lemma StepsGoUpAndDown(t: Term, n: int)
    requires Valid(t) && n > 0
    ensures n <= t.row ==>
      At(t, ControlT(t, 'A', [n]), t.row - n, t.column) && ControlT(t.(row := t.row - n), 'B', [n]) == Some(t)
    ensures t.row + n < t.rows ==>
      At(t, ControlT(t, 'B', [n]), t.row + n, t.column) && ControlT(t.(row := t.row + n), 'A', [n]) == Some(t)
  {}

  /** A step of n goes right or left by n, and back again. */
  lemma StepsGoRightAndLeft(t: Term, n: int)
    requires Valid(t) && n > 0
    ensures t.column + n < t.columns ==>
      At(t, ControlT(t, 'C', [n]), t.row, t.column + n) && ControlT(t.(column := t.column + n), 'D', [n]) == Some(t)
    ensures n <= t.column < t.columns ==>
      At(t, ControlT(t, 'D', [n]), t.row, t.column - n) && ControlT(t.(column := t.column - n), 'C', [n]) == Some(t)
  {}

  /** Without a count, or with a zero one, it is a step of one. */
  lemma StepsDefaultToOne(t: Term, final: char)
    requires Valid(t) && final in {'A', 'B', 'C', 'D'}
    ensures ControlT(t, final, []) == ControlT(t, final, [0]) == ControlT(t, final, [1])
  {}

  /** A longer step stops at the edge. */
  lemma StepsStopAtEdges(t: Term, n: int)
    requires Valid(t) && n > 0
    ensures n >= t.row ==> At(t, ControlT(t, 'A', [n]), 0, t.column)
    ensures t.row + n >= t.rows - 1 ==> At(t, ControlT(t, 'B', [n]), t.rows - 1, t.column)
    ensures t.column + n >= t.columns - 1 ==> At(t, ControlT(t, 'C', [n]), t.row, t.columns - 1)
    ensures n >= t.column ==> At(t, ControlT(t, 'D', [n]), t.row, 0)
  {}

  /** The nearest place from 0 to below the size. */
  function Clamped(x: int, size: int): (r: int)
    requires size > 0
    ensures 0 <= r < size && (0 <= x < size ==> r == x) && (x < 0 ==> r == 0) && (x >= size ==> r == size - 1)
  {
    if x < 0 then 0 else if x >= size then size - 1 else x
  }

  /** An addressed cursor goes to the named row and column, counted from one, wherever it was;
      without numbers it goes home. */
  lemma CursorIsAddressed(t: Term, row: int, column: int)
    requires Valid(t)
    ensures forall final :: final in {'H', 'f'} ==>
      At(t, ControlT(t, final, [row, column]), Clamped(row - 1, t.rows), Clamped(column - 1, t.columns)) && At(t, ControlT(t, final, []), 0, 0)
    ensures column != 0 ==> At(t, ControlT(t, 'G', [column]), t.row, Clamped(column - 1, t.columns))
    ensures row != 0 ==> At(t, ControlT(t, 'd', [row]), Clamped(row - 1, t.rows), t.column)
  {}

  // ---- Decimal parameters ----------------------------------------------------------------------

  predicate AllDigits(s: string) { forall ch <- s :: '0' <= ch <= '9' }

  function DigitChar(n: nat): char
    requires n < 10
  {
    ('0' as int + n) as char
  }

  function Decimal(n: nat): (s: string)
    ensures s != ""
  {
    if n < 10 then [DigitChar(n)] else Decimal(n / 10) + [DigitChar(n % 10)]
  }

  function Value(v: nat, s: string): nat
    requires AllDigits(s)
    decreases |s|
  {
    if s == "" then v
    else
      assert forall ch <- s[1..] :: ch in s;
      assert s[0] in s;
      Value(10 * v + (s[0] as int - '0' as int), s[1..])
  }

  lemma {:induction false} DigitsAre(s: string, v: nat, count: nat, after: bool)
    requires AllDigits(s) && count + |s| <= MAX_DIGITS && (s != "" || after)
    ensures Digits(s, v, count, after) == Some(Value(v, s))
    decreases |s|
  {
    if s != "" {
      assert forall ch <- s[1..] :: ch in s;
      assert s[0] in s;
      DigitsAre(s[1..], 10 * v + (s[0] as int - '0' as int), count + 1, true);
    }
  }

  lemma {:induction false} ValueOneMore(v: nat, s: string, d: nat)
    requires AllDigits(s) && d < 10
    ensures AllDigits(s + [DigitChar(d)]) && Value(v, s + [DigitChar(d)]) == 10 * Value(v, s) + d
    decreases |s|
  {
    var more := s + [DigitChar(d)];
    if s == "" {
      assert more[1..] == "";
    } else {
      assert forall ch <- s[1..] :: ch in s;
      assert more[0] == s[0] && s[0] in s && more[1..] == s[1..] + [DigitChar(d)];
      ValueOneMore(10 * v + (s[0] as int - '0' as int), s[1..], d);
    }
  }

  lemma {:induction false} DecimalIsValue(n: nat)
    ensures AllDigits(Decimal(n)) && Value(0, Decimal(n)) == n
  {
    if n < 10 {
      assert [DigitChar(n)][1..] == "";
    } else {
      DecimalIsValue(n / 10);
      ValueOneMore(0, Decimal(n / 10), n % 10);
    }
  }

  lemma DigitsAreNotBlank(s: string)
    requires AllDigits(s) && s != ""
    ensures StripRight(StripLeft(s)) == s
  {
    assert s[0] in s && s[|s| - 1] in s;
  }

  lemma ParameterOf(n: nat)
    requires |Decimal(n)| <= MAX_DIGITS
    ensures Parameter(Decimal(n)) == n
  {
    DecimalIsValue(n);
    DigitsAreNotBlank(Decimal(n));
    assert Decimal(n)[0] in Decimal(n);
    DigitsAre(Decimal(n), 0, 0, false);
  }

  lemma {:induction false} SplitDigits(s: string)
    requires AllDigits(s)
    ensures Split(s) == [s]
  {
    if s != "" {
      assert forall ch <- s[1..] :: ch in s;
      assert s[0] in s;
      SplitDigits(s[1..]);
      assert [s[0]] + s[1..] == s;
    }
  }

  lemma {:induction false} SplitPair(a: string, b: string)
    requires AllDigits(a) && AllDigits(b)
    ensures Split(a + ";" + b) == [a, b]
  {
    var s := a + ";" + b;
    if a == "" {
      assert s[0] == ';' && s[1..] == b;
      SplitDigits(b);
    } else {
      assert forall ch <- a[1..] :: ch in a;
      assert a[0] in a && s[0] == a[0] && s[1..] == a[1..] + ";" + b;
      SplitPair(a[1..], b);
      assert [a[0]] + a[1..] == a;
    }
  }

  lemma ParametersOf(row: nat, column: nat)
    requires |Decimal(row)| <= MAX_DIGITS && |Decimal(column)| <= MAX_DIGITS
    ensures Parameters(Decimal(row) + ";" + Decimal(column)) == [row, column]
  {
    var text := Decimal(row) + ";" + Decimal(column);
    DecimalIsValue(row);
    DecimalIsValue(column);
    assert text[0] == Decimal(row)[0] && Decimal(row)[0] in Decimal(row);
    SplitPair(Decimal(row), Decimal(column));
    ParameterOf(row);
    ParameterOf(column);
  }

  // ---- A control sequence as a stream -----------------------------------------------------------

  predicate ParameterText(s: string) { forall ch <- s :: !('@' <= ch <= '~') }

  lemma {:induction false} ControlText(t: Term, text: string, s: string, final: char)
    requires ParameterText(s) && '@' <= final <= '~'
    ensures Run(Device(t, Csi(text)), s + [final]) ==
      match ControlT(t, final, Parameters(text + s)) case None => None case Some(u) => Some(Device(u, Normal))
    decreases |s|
  {
    var all := s + [final];
    if s == "" {
      assert all[1..] == "" && text + s == text;
      if ControlT(t, final, Parameters(text)).Some? {
        assert Step(Device(t, Csi(text)), final) == Some(Device(ControlT(t, final, Parameters(text)).value, Normal));
      }
    } else {
      assert forall ch <- s[1..] :: ch in s;
      assert s[0] in s && all[0] == s[0] && all[1..] == s[1..] + [final] && text + [s[0]] + s[1..] == text + s;
      assert Step(Device(t, Csi(text)), s[0]) == Some(Device(t, Csi(text + [s[0]])));
      ControlText(t, text + [s[0]], s[1..], final);
    }
  }

  /** `ESC [`, parameters and a final character are that control. */
  lemma SequenceIsControl(t: Term, text: string, final: char)
    requires ParameterText(text) && '@' <= final <= '~'
    ensures Run(Device(t, Normal), "\U{001B}[" + text + [final]) ==
      match ControlT(t, final, Parameters(text)) case None => None case Some(u) => Some(Device(u, Normal))
  {
    var stream := "\U{001B}[" + text + [final];
    assert stream[1..] == "[" + text + [final] && stream[1..][1..] == text + [final];
    assert Step(Device(t, Normal), stream[0]) == Some(Device(t, Escape));
    assert Step(Device(t, Escape), '[') == Some(Device(t, Csi("")));
    ControlText(t, "", text, final);
    assert "" + text == text;
  }

  lemma DecimalsAreParameters(row: nat, column: nat)
    ensures ParameterText(Decimal(row) + ";" + Decimal(column))
  {
    DecimalIsValue(row);
    DecimalIsValue(column);
  }

  /** `ESC [ row ; column H`, the numbers in decimal, puts the cursor there. */
  lemma AddressedStream(t: Term, row: nat, column: nat)
    requires Valid(t) && |Decimal(row)| <= MAX_DIGITS && |Decimal(column)| <= MAX_DIGITS
    ensures Run(Device(t, Normal), "\U{001B}[" + (Decimal(row) + ";" + Decimal(column)) + ['H']) ==
      Some(Device(t.(row := Clamped(row - 1, t.rows), column := Clamped(column - 1, t.columns)), Normal))
  {
    DecimalsAreParameters(row, column);
    SequenceIsControl(t, Decimal(row) + ";" + Decimal(column), 'H');
    ParametersOf(row, column);
    CursorIsAddressed(t, row, column);
  }

  // ---- Erasing ----------------------------------------------------------------------------------

  /** Erasing in the line blanks it from the cursor on, up to the cursor, or all of it, and
      leaves every other cell and the cursor. */
  lemma LineIsErased(t: Term, mode: int, line: int, column: int)
    requires Valid(t)
    ensures var u := EraseLineT(t, mode);
      && u == t.(tape := u.tape)
      && (line != Line(t) ==> Look(u.tape, line, column) == Look(t.tape, line, column))
      && (line == Line(t) && column < t.column ==> Look(u.tape, line, column) == if mode in {1, 2} then ' ' else Look(t.tape, line, column))
      && (line == Line(t) && column == t.column ==> Look(u.tape, line, column) == ' ')
      && (line == Line(t) && column > t.column ==> Look(u.tape, line, column) == if mode == 1 then Look(t.tape, line, column) else ' ')
  {}

  /** Erasing in the display blanks the window after the cursor, before it, or as a whole, the
      cursor then going home; what has scrolled away stays. */
  lemma DisplayIsErased(t: Term, mode: int, line: int, column: int)
    requires Valid(t)
    ensures var u := EraseDisplayT(t, mode);
      var before := line < Line(t) || (line == Line(t) && column < t.column);
      && u == (if mode in {2, 3} then t.(row := 0, column := 0) else t).(tape := u.tape)
      && (line < t.top ==> Look(u.tape, line, column) == Look(t.tape, line, column))
      && (line >= t.top && before ==> Look(u.tape, line, column) == if mode in {1, 2, 3} then ' ' else Look(t.tape, line, column))
      && (line == Line(t) && column == t.column ==> Look(u.tape, line, column) == ' ')
      && (line >= t.top && !before && !(line == Line(t) && column == t.column) ==>
            Look(u.tape, line, column) == if mode == 1 then Look(t.tape, line, column) else ' ')
  {}
}
