/** An unbounded reference terminal: a tape of absolute (line, column) cells seen
    through a moving window, driven by the same control sequences as the `Screen`
    class of scripts/harness/work_surface_live.py (the cursor and erase controls of
    ECMA-48 that Astra's frame uses). */
module Terminal {

  datatype Option<T> = None | Some(value: T)

  // ---- Characters to actions -----------------------------------------------------------

  datatype Parser = Normal | Escape | Csi(text: string)

  datatype Action =
    | Nothing
    | Newline
    | Return
    | Backspace
    | Put(character: char)
    | Control(final: char, text: string)

  /** `Screen.feed`: one decoded character. */
  function Lex(p: Parser, ch: char): (r: (Parser, Action))
    ensures r.1.Control? ==> p.Csi? && r.1 == Control(ch, p.text) && '@' <= ch <= '~'
  {
    match p
    case Escape => (if ch == '[' then Csi("") else Normal, Nothing)
    case Csi(text) => if '@' <= ch <= '~' then (Normal, Control(ch, text)) else (Csi(text + [ch]), Nothing)
    case Normal =>
      if ch as int == 0x1B then (Escape, Nothing)
      else if ch as int in {0x0A, 0x0B, 0x0C} then (Normal, Newline)
      else if ch as int == 0x0D then (Normal, Return)
      else if ch as int == 0x08 then (Normal, Backspace)
      else if ch as int >= 0x20 && ch as int != 0x7F then (Normal, Put(ch))
      else (Normal, Nothing)
  }

  // ---- Control parameters ----------------------------------------------------------------

  function Split(s: string): (items: seq<string>)
    ensures items != []
  {
    if s == "" then [""]
    else
      var rest := Split(s[1..]);
      if s[0] == ';' then [""] + rest else [[s[0]] + rest[0]] + rest[1..]
  }

  /** What Python's `str.isspace` holds of. */
  predicate Blank(ch: char) {
    var code := ch as int;
    || ch == ' ' || 0x09 <= code <= 0x0D || 0x1C <= code <= 0x1F || code in {0x85, 0xA0, 0x1680}
    || 0x2000 <= code <= 0x200A || code in {0x2028, 0x2029, 0x202F, 0x205F, 0x3000}
  }

  function StripLeft(s: string): string {
    if s != "" && Blank(s[0]) then StripLeft(s[1..]) else s
  }

  function StripRight(s: string): (r: string) {
    if s != "" && Blank(s[|s| - 1]) then StripRight(s[..|s| - 1]) else s
  }

  const MAX_DIGITS := 4300

  /** ASCII digits, possibly separated by single underscores. */
  function Digits(s: string, value: nat, count: nat, afterDigit: bool): Option<nat> {
    if s == "" then if afterDigit && count <= MAX_DIGITS then Some(value) else None
    else if '0' <= s[0] <= '9' then Digits(s[1..], 10 * value + (s[0] as int - '0' as int), count + 1, true)
    else if s[0] == '_' && afterDigit then Digits(s[1..], value, count, false)
    else None
  }

  /** Python's `int(item or "0")`, with 0 for a ValueError.  A sign is accepted. */
  function Parameter(item: string): (value: int) {
    var s := StripRight(StripLeft(if item == "" then "0" else item));
    var signed := s != "" && (s[0] == '-' || s[0] == '+');
    match Digits(if signed then s[1..] else s, 0, 0, false)
    case None => 0
    case Some(n) => if signed && s[0] == '-' then 0 - n else n
  }

  function Parameters(text: string): seq<int> {
    var raw := if text != "" && text[0] == '?' then text[1..] else text;
    if raw == "" then []
    else
      var items := Split(raw);
      seq(|items|, k requires 0 <= k < |items| => Parameter(items[k]))
  }

  // ---- The tape --------------------------------------------------------------------------

  type Tape = map<(int, int), char>

  /** Row and column are the cursor's place in the window, whose first line is `top`.
      Column `columns` is the pending-wrap column. */
  datatype Term = Term(rows: int, columns: int, tape: Tape, top: int, row: int, column: int)

  function BlankTerm(rows: int, columns: int): Term { Term(rows, columns, map[], 0, 0, 0) }

  function Look(tape: Tape, line: int, column: int): char {
    if (line, column) in tape then tape[(line, column)] else ' '
  }

  predicate InRange(t: Term) {
    0 <= t.row < t.rows && 0 <= t.column <= t.columns
  }

  /** Nothing is written beside the columns, above line 0 or below the window. */
  predicate Valid(t: Term) {
    && t.rows > 0 && t.columns > 0 && t.top >= 0
    && InRange(t)
    && forall k <- t.tape :: 0 <= k.0 < t.top + t.rows && 0 <= k.1 < t.columns
  }

  function Line(t: Term): int { t.top + t.row }

  function NewlineT(t: Term): Term {
    if t.row + 1 >= t.rows then t.(top := t.top + 1, row := t.rows - 1, column := 0)
    else t.(row := t.row + 1, column := 0)
  }

  function PutT(t: Term, ch: char): Term {
    var u := if t.column >= t.columns then NewlineT(t) else t;
    u.(tape := u.tape[(Line(u), u.column) := ch], column := u.column + 1)
  }

  function EraseLineT(t: Term, mode: int): Term {
    t.(tape := map k <- t.tape | !(k.0 == Line(t) && (mode == 2 || (mode == 1 && k.1 <= t.column) || (mode != 1 && k.1 >= t.column))) :: t.tape[k])
  }

  function EraseDisplayT(t: Term, mode: int): Term {
    if mode == 2 || mode == 3 then
      t.(tape := map k <- t.tape | k.0 < t.top :: t.tape[k], row := 0, column := 0)
    else if mode == 1 then
      t.(tape := map k <- t.tape | !(t.top <= k.0 < Line(t) || (k.0 == Line(t) && k.1 <= t.column)) :: t.tape[k])
    else
      t.(tape := map k <- t.tape | !(k.0 > Line(t) || (k.0 == Line(t) && k.1 >= t.column)) :: t.tape[k])
  }

  function Max(x: int, y: int): int { if x >= y then x else y }
  function Min(x: int, y: int): int { if x <= y then x else y }

  function FirstOf(values: seq<int>): int { if values != [] then values[0] else 0 }
  function OrOne(n: int): int { if n == 0 then 1 else n }

  /** Where a cursor control puts the cursor, in range or not. */
  function Moved(t: Term, final: char, values: seq<int>): (int, int) {
    var n := OrOne(FirstOf(values));
    if final == 'H' || final == 'f' then
      (Max(0, Min(t.rows - 1, (if values != [] then values[0] else 1) - 1)),
       Max(0, Min(t.columns - 1, (if |values| > 1 then values[1] else 1) - 1)))
    else if final == 'A' then (Max(0, t.row - n), t.column)
    else if final == 'B' then (Min(t.rows - 1, t.row + n), t.column)
    else if final == 'C' then (t.row, Min(t.columns - 1, t.column + n))
    else if final == 'D' then (t.row, Max(0, t.column - n))
    else if final == 'G' then (t.row, Max(0, Min(t.columns - 1, n - 1)))
    else if final == 'd' then (Max(0, Min(t.rows - 1, n - 1)), t.column)
    else (t.row, t.column)
  }

  /** None once a control has moved the cursor off the grid. */
  function ControlT(t: Term, final: char, values: seq<int>): Option<Term> {
    if final == 'J' then Some(EraseDisplayT(t, FirstOf(values)))
    else if final == 'K' then Some(EraseLineT(t, FirstOf(values)))
    else
      var to := Moved(t, final, values);
      var u := t.(row := to.0, column := to.1);
      if InRange(u) then Some(u) else None
  }

  function Act(t: Term, a: Action): Option<Term> {
    match a
    case Nothing => Some(t)
    case Newline => Some(NewlineT(t))
    case Return => Some(t.(column := 0))
    case Backspace => Some(t.(column := Max(0, t.column - 1)))
    case Put(ch) => Some(PutT(t, ch))
    case Control(final, text) => ControlT(t, final, Parameters(text))
  }

  datatype Device = Device(term: Term, parser: Parser)

  function Step(d: Device, ch: char): Option<Device> {
    var (parser, action) := Lex(d.parser, ch);
    match Act(d.term, action)
    case None => None
    case Some(t) => Some(Device(t, parser))
  }

  /** The device after a whole stream, None once the cursor leaves the grid. */
  function Run(d: Device, chars: string): Option<Device>
    decreases |chars|
  {
    if chars == "" then Some(d)
    else match Step(d, chars[0])
         case None => None
         case Some(e) => Run(e, chars[1..])
  }

  // ---- Laws of the reference -----------------------------------------------------------

  /** Feeding in pieces is feeding at once. */
  lemma {:induction false} RunAppends(d: Device, a: string, b: string)
    ensures Run(d, a + b) == match Run(d, a) case None => None case Some(e) => Run(e, b)
    decreases |a|
  {
    if a == "" {
      assert a + b == b;
    } else {
      assert (a + b)[1..] == a[1..] + b;
      match Step(d, a[0]) {
        case None =>
        case Some(e) => RunAppends(e, a[1..], b);
      }
    }
  }

  lemma ActValid(t: Term, a: Action)
    requires Valid(t) && Act(t, a).Some?
    ensures Valid(Act(t, a).value)
    ensures Act(t, a).value.rows == t.rows && Act(t, a).value.columns == t.columns && Act(t, a).value.top >= t.top
  {}

  lemma {:induction false} RunValid(d: Device, chars: string)
    requires Valid(d.term) && Run(d, chars).Some?
    ensures Valid(Run(d, chars).value.term)
    decreases |chars|
  {
    if chars != "" {
      ActValid(d.term, Lex(d.parser, chars[0]).1);
      RunValid(Step(d, chars[0]).value, chars[1..]);
    }
  }

  /** What has scrolled above the window is never touched again. */
  lemma {:induction false} ScrolledLinesAreFrozen(d: Device, chars: string, line: int, column: int)
    requires Valid(d.term) && Run(d, chars).Some? && line < d.term.top
    ensures line < Run(d, chars).value.term.top
    ensures Look(Run(d, chars).value.term.tape, line, column) == Look(d.term.tape, line, column)
    decreases |chars|
  {
    if chars != "" {
      var e := Step(d, chars[0]).value;
      ActValid(d.term, Lex(d.parser, chars[0]).1);
      ScrolledLinesAreFrozen(e, chars[1..], line, column);
    }
  }

  // ---- When the cursor stays on the grid -------------------------------------------------

  /** The stream's cursor steps (CUU, CUD, CUF, CUB) all carry a non-negative count. */
  predicate CountsNonNegative(p: Parser, chars: string)
    decreases |chars|
  {
    chars == "" ||
    (var (next, action) := Lex(p, chars[0]);
     && (action.Control? && action.final in {'A', 'B', 'C', 'D'} ==> FirstOf(Parameters(action.text)) >= 0)
     && CountsNonNegative(next, chars[1..]))
  }

  /** With non-negative counts no stream moves the cursor off any grid. */
  lemma {:induction false} CursorStaysOnGrid(d: Device, chars: string)
    requires Valid(d.term) && CountsNonNegative(d.parser, chars)
    ensures Run(d, chars).Some? && Valid(Run(d, chars).value.term)
    decreases |chars|
  {
    if chars != "" {
      var action := Lex(d.parser, chars[0]).1;
      assert Act(d.term, action).Some?;
      ActValid(d.term, action);
      CursorStaysOnGrid(Step(d, chars[0]).value, chars[1..]);
    }
  }

  /** A cursor step keeps the cursor on every grid exactly when its count is not
      negative; every other control always does. */
  lemma StepCountExact(final: char, values: seq<int>)
    ensures (final in {'A', 'B', 'C', 'D'} ==> FirstOf(values) >= 0)
       <==> forall t: Term :: Valid(t) ==> ControlT(t, final, values).Some?
  {
    var n := FirstOf(values);
    if final in {'A', 'B', 'C', 'D'} && n < 0 {
      var corner := Term(1, 1, map[], 0, 0, if final == 'D' then 1 else 0);
      assert Valid(corner);
      assert ControlT(corner, final, values).None?;
    }
  }

  lemma SignedCount()
    ensures Parameters("-5") == [-5]
  {
    assert Split("5") == ["5"] by { assert "5"[1..] == ""; assert ['5'] + "" == "5"; }
    assert Split("-5") == ["-5"] by { assert "-5"[1..] == "5"; assert ['-'] + "5" == "-5"; }
    assert Digits("", 5, 1, true) == Some(5) && Digits("5", 0, 0, false) == Some(5);
    assert "-5"[1..] == "5";
    assert Parameter("-5") == -5;
  }

  /** `ESC [ - 5 A`, a signed count Python's `int` accepts, moves the cursor of a fresh
      screen of up to five rows below its last row. */
  lemma NegativeCountLeavesGrid(rows: int, columns: int)
    requires 0 < rows <= 5 && columns > 0
    ensures Run(Device(BlankTerm(rows, columns), Normal), "\U{001B}[-5A") == None
  {
    var stream: string := "\U{001B}[-5A";
    var t := BlankTerm(rows, columns);
    SignedCount();
    assert stream[1..] == "[-5A" && "[-5A"[1..] == "-5A" && "-5A"[1..] == "5A" && "5A"[1..] == "A";
    assert "" + ['-'] == "-" && "-" + ['5'] == "-5";
    assert Step(Device(t, Csi("-5")), 'A') == None;
    assert Run(Device(t, Csi("-5")), "A") == None;
    assert Run(Device(t, Csi("-")), "5A") == None;
    assert Run(Device(t, Csi("")), "-5A") == None;
    assert Run(Device(t, Escape), "[-5A") == None;
  }
}
