/** The viewport of scripts/harness/work_surface_live.py, class `Screen`: a fixed grid
    that scrolls, proved to be the window of the unbounded reference terminal. */
module Screen {
  import opened Terminal

  function Spaces(n: int): (s: string)
    requires n >= 0
    ensures |s| == n && forall k :: 0 <= k < n ==> s[k] == ' '
  {
    seq(n, _ => ' ')
  }

  /** A grid row shows a tape line.  Erasing to the left in the pending-wrap column can
      leave one extra blank cell. */
  predicate RowShows(cells: string, tape: Tape, line: int, columns: int) {
    && columns <= |cells| <= columns + 1
    && forall c :: 0 <= c < |cells| ==> cells[c] == Look(tape, line, c)
  }

  predicate GridShows(cells: seq<string>, t: Term) {
    && |cells| == t.rows
    && forall r :: 0 <= r < |cells| ==> RowShows(cells[r], t.tape, t.top + r, t.columns)
  }

  class Screen {
    const rows: int
    const columns: int
    var cells: seq<string>
    var row: int
    var column: int
    var parser: Parser
    ghost var term: Term

    ghost predicate Valid()
      reads this
    {
      && Terminal.Valid(term)
      && term.rows == rows && term.columns == columns && term.row == row && term.column == column
      && GridShows(cells, term)
    }

    ghost function Device(): Terminal.Device
      reads this
    {
      Terminal.Device(term, parser)
    }

    constructor (rows: int, columns: int)
      requires rows > 0 && columns > 0
      ensures Valid() && this.rows == rows && this.columns == columns
      ensures Device() == Terminal.Device(BlankTerm(rows, columns), Normal)
    {
      this.rows, this.columns := rows, columns;
      cells := seq(rows, _ => Spaces(columns));
      row, column, parser := 0, 0, Normal;
      term := BlankTerm(rows, columns);
    }

    method NewlineM()
      requires Valid()
      modifies this`cells, this`row, this`column, this`term
      ensures Valid() && term == NewlineT(old(term))
    {
      row := row + 1;
      column := 0;
      if row >= rows {
        cells := cells[1..] + [Spaces(columns)];
        row := rows - 1;
      }
      term := NewlineT(term);
    }

    method PutM(character: char)
      requires Valid()
      modifies this`cells, this`row, this`column, this`term
      ensures Valid() && term == PutT(old(term), character)
    {
      if column >= columns { NewlineM(); }
      cells := cells[row := cells[row][column := character]];
      term := term.(tape := term.tape[(Line(term), column) := character], column := column + 1);
      column := column + 1;
    }

    method EraseLine(mode: int)
      requires Valid()
      modifies this`cells, this`term
      ensures Valid() && term == EraseLineT(old(term), mode)
    {
      var line := cells[row];
      if mode == 2 {
        line := Spaces(columns);
      } else if mode == 1 {
        line := Spaces(column + 1) + (if column + 1 <= |line| then line[column + 1..] else "");
      } else {
        line := line[..column] + Spaces(columns - column);
      }
      cells := cells[row := line];
      term := EraseLineT(term, mode);
    }

    /** Replace the rows from..upto by blank ones. */
    method BlankRows(from: int, upto: int)
      requires 0 <= from <= upto <= |cells| && columns >= 0
      modifies this`cells
      ensures |cells| == |old(cells)|
      ensures forall r :: 0 <= r < |cells| ==> cells[r] == if from <= r < upto then Spaces(columns) else old(cells)[r]
    {
      for index := from to upto
        invariant |cells| == |old(cells)|
        invariant forall r :: 0 <= r < |cells| ==> cells[r] == if from <= r < index then Spaces(columns) else old(cells)[r]
      {
        cells := cells[index := Spaces(columns)];
      }
    }

    method EraseDisplay(mode: int)
      requires Valid()
      modifies this`cells, this`row, this`column, this`term
      ensures Valid() && term == EraseDisplayT(old(term), mode)
    {
      ghost var was := term;
      if mode == 2 || mode == 3 {
        cells := seq(rows, _ => Spaces(columns));
        row, column := 0, 0;
      } else if mode == 1 {
        ghost var before := cells;
        BlankRows(0, row);
        var line := cells[row];
        cells := cells[row := Spaces(column + 1) + (if column + 1 <= |line| then line[column + 1..] else "")];
        EraseAbove(was, cells, before);
      } else {
        EraseLine(0);
        ghost var before := cells;
        BlankRows(row + 1, rows);
        EraseBelow(was, cells, before, mode);
      }
      term := EraseDisplayT(was, mode);
    }

    /** The cursor controls of `_finish_csi`. */
    method Target(final: char, values: seq<int>) returns (r: int, c: int)
      requires Valid()
      ensures (r, c) == Moved(term, final, values)
    {
      var first := if values != [] then values[0] else 0;
      r, c := row, column;
      if final == 'H' || final == 'f' {
        r := Max(0, Min(rows - 1, (if values != [] then values[0] else 1) - 1));
        c := Max(0, Min(columns - 1, (if |values| > 1 then values[1] else 1) - 1));
      } else if final == 'A' {
        r := Max(0, row - OrOne(first));
      } else if final == 'B' {
        r := Min(rows - 1, row + OrOne(first));
      } else if final == 'C' {
        c := Min(columns - 1, column + OrOne(first));
      } else if final == 'D' {
        c := Max(0, column - OrOne(first));
      } else if final == 'G' {
        c := Max(0, Min(columns - 1, OrOne(first) - 1));
      } else if final == 'd' {
        r := Max(0, Min(rows - 1, OrOne(first) - 1));
      }
    }

    /** A control with its parameters, up to a cursor control that leaves the grid. */
    method Obey(final: char, values: seq<int>) returns (ok: bool)
      requires Valid()
      modifies this`cells, this`row, this`column, this`term
      ensures ok <==> ControlT(old(term), final, values).Some?
      ensures ok ==> Valid() && term == ControlT(old(term), final, values).value
    {
      if final == 'J' {
        EraseDisplay(FirstOf(values));
        return true;
      }
      if final == 'K' {
        EraseLine(FirstOf(values));
        return true;
      }
      row, column := Target(final, values);
      ok := 0 <= row < rows && 0 <= column <= columns;
      if ok { term := term.(row := row, column := column); }
    }

    /** `_finish_csi`. */
    method FinishCsi(final: char, text: string) returns (ok: bool)
      requires Valid()
      modifies this`cells, this`row, this`column, this`term
      ensures ok <==> ControlT(old(term), final, Parameters(text)).Some?
      ensures ok ==> Valid() && term == ControlT(old(term), final, Parameters(text)).value
    {
      ok := Obey(final, Parameters(text));
    }

    /** One character of `feed`. */
    method Take(character: char) returns (ok: bool)
      requires Valid()
      modifies this
      ensures ok <==> Terminal.Step(old(Device()), character).Some?
      ensures ok ==> Valid() && Device() == Terminal.Step(old(Device()), character).value
    {
      match parser {
        case Escape =>
          parser := if character == '[' then Csi("") else Normal;
        case Csi(text) =>
          if '@' <= character <= '~' {
            var moved := FinishCsi(character, text);
            if !moved { return false; }
            parser := Normal;
          } else {
            parser := Csi(text + [character]);
          }
        case Normal =>
          var byte := character as int;
          if byte == 0x1B {
            parser := Escape;
          } else if byte in {0x0A, 0x0B, 0x0C} {
            NewlineM();
          } else if byte == 0x0D {
            column := 0;
            term := term.(column := 0);
          } else if byte == 0x08 {
            column := Max(0, column - 1);
            term := term.(column := column);
          } else if byte >= 0x20 && byte != 0x7F {
            PutM(character);
          }
      }
      ok := true;
    }

    /** `feed`, after decoding.  The grid stays the window of the reference terminal for
        as long as the reference keeps its cursor on the grid, and ok reports just that. */
    method Feed(chars: string) returns (ok: bool)
      requires Valid()
      modifies this
      ensures ok <==> Run(old(Device()), chars).Some?
      ensures ok ==> Valid() && Device() == Run(old(Device()), chars).value
    {
      ghost var start := Device();
      for i := 0 to |chars|
        invariant Valid()
        invariant Run(start, chars) == Run(Device(), chars[i..])
      {
        assert chars[i..][0] == chars[i] && chars[i..][1..] == chars[i + 1..];
        var took := Take(chars[i]);
        if !took { return false; }
      }
      assert chars[|chars|..] == "";
      ok := true;
    }

    /** `text`, row by row. */
    method Text() returns (lines: seq<string>)
      requires Valid()
      ensures lines == WindowText(term)
    {
      lines := [];
      for r := 0 to rows
        invariant |lines| == r
        invariant forall k :: 0 <= k < r ==> lines[k] == StripRight(LineText(term, k))
      {
        RowText(cells[r], term, r);
        lines := lines + [StripRight(cells[r])];
      }
    }
  }

  lemma EraseAbove(was: Term, cells: seq<string>, before: seq<string>)
    requires Terminal.Valid(was) && GridShows(before, was) && |cells| == was.rows
    requires forall r :: 0 <= r < was.rows && r != was.row ==> cells[r] == if r < was.row then Spaces(was.columns) else before[r]
    requires var line := before[was.row];
      cells[was.row] == Spaces(was.column + 1) + (if was.column + 1 <= |line| then line[was.column + 1..] else "")
    ensures GridShows(cells, EraseDisplayT(was, 1))
  {
    forall r | 0 <= r < was.rows ensures RowShows(cells[r], EraseDisplayT(was, 1).tape, was.top + r, was.columns) {
      assert RowShows(before[r], was.tape, was.top + r, was.columns);
    }
  }

  lemma EraseBelow(was: Term, cells: seq<string>, before: seq<string>, mode: int)
    requires Terminal.Valid(was) && mode != 1 && mode != 2 && mode != 3
    requires GridShows(before, EraseLineT(was, 0)) && |cells| == was.rows
    requires forall r :: 0 <= r < was.rows ==> cells[r] == if was.row < r then Spaces(was.columns) else before[r]
    ensures GridShows(cells, EraseDisplayT(was, mode))
  {
    forall r | 0 <= r < was.rows ensures RowShows(cells[r], EraseDisplayT(was, mode).tape, was.top + r, was.columns) {
      assert RowShows(before[r], EraseLineT(was, 0).tape, was.top + r, was.columns);
    }
  }

  /** The window's r-th line on the tape. */
  function LineText(t: Term, r: int): (s: string)
    requires t.columns >= 0
    ensures |s| == t.columns
  {
    seq(t.columns, c => Look(t.tape, t.top + r, c))
  }

  function WindowText(t: Term): (lines: seq<string>)
    requires t.rows >= 0 && t.columns >= 0
    ensures |lines| == t.rows
  {
    seq(t.rows, r => StripRight(LineText(t, r)))
  }

  /** A row's text is its line's text: the extra cell, if any, is blank. */
  lemma RowText(cells: string, t: Term, r: int)
    requires Terminal.Valid(t) && RowShows(cells, t.tape, t.top + r, t.columns)
    ensures StripRight(cells) == StripRight(LineText(t, r))
  {
    var line := LineText(t, r);
    if |cells| == t.columns {
      assert cells == line;
    } else {
      assert cells[..|cells| - 1] == line;
      assert cells[|cells| - 1] == ' ';
    }
  }

  // ---- Whole transcripts ---------------------------------------------------------------

  function Joined(chunks: seq<string>): string {
    if chunks == [] then "" else Joined(chunks[..|chunks| - 1]) + chunks[|chunks| - 1]
  }

  function Blank(rows: int, columns: int): Terminal.Device { Terminal.Device(BlankTerm(rows, columns), Normal) }

  /** The reference terminal's window after a stream. */
  function Shown(rows: int, columns: int, stream: string): Option<seq<string>>
    requires rows > 0 && columns > 0
  {
    match Run(Blank(rows, columns), stream)
    case None => None
    case Some(d) =>
      RunValid(Blank(rows, columns), stream);
      Some(WindowText(d.term))
  }

  /** Without negative cursor steps the reference terminal always shows something. */
  lemma ShownAlways(rows: int, columns: int, stream: string)
    requires rows > 0 && columns > 0 && CountsNonNegative(Normal, stream)
    ensures Shown(rows, columns, stream).Some?
  {
    CursorStaysOnGrid(Blank(rows, columns), stream);
  }

  /** A new screen fed a stream in any pieces shows the window that the reference terminal
      shows after the whole stream. */
  method Transcript(rows: int, columns: int, chunks: seq<string>) returns (lines: Option<seq<string>>)
    requires rows > 0 && columns > 0
    ensures lines == Shown(rows, columns, Joined(chunks))
  {
    var screen := new Screen(rows, columns);
    for i := 0 to |chunks|
      invariant screen.Valid()
      invariant Run(Blank(rows, columns), Joined(chunks[..i])) == Some(screen.Device())
    {
      assert chunks[..i + 1][..i] == chunks[..i];
      RunAppends(Blank(rows, columns), Joined(chunks[..i]), chunks[i]);
      var ok := screen.Feed(chunks[i]);
      if !ok {
        LostForGood(Blank(rows, columns), chunks, i + 1);
        return None;
      }
    }
    assert chunks[..|chunks|] == chunks;
    var text := screen.Text();
    lines := Some(text);
  }

  /** A cursor that has left the grid does not come back. */
  lemma {:induction false} LostForGood(d: Terminal.Device, chunks: seq<string>, i: nat)
    requires i <= |chunks| && Run(d, Joined(chunks[..i])).None?
    ensures Run(d, Joined(chunks)).None?
    decreases |chunks|
  {
    if i == |chunks| {
      assert chunks[..i] == chunks;
    } else {
      var front := chunks[..|chunks| - 1];
      assert front[..i] == chunks[..i];
      LostForGood(d, front, i);
      RunAppends(d, Joined(front), chunks[|chunks| - 1]);
    }
  }
}
