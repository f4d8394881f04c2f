/** The lexer-sized helper that blanks Rust comments and literals:
    scripts/e2e/validate_capability_matrix.py, `_blank_non_code`. */
module RustBlanking {

  datatype Option<T> = None | Some(value: T)

  predicate StartsWith(s: string, word: string, i: nat) {
    i + |word| <= |s| && s[i..i + |word|] == word
  }

  predicate StartsTwo(s: string, a: char, b: char, i: nat) {
    i + 2 <= |s| && s[i] == a && s[i + 1] == b
  }

  // ---- Where a token that starts at i ends ------------------------------------------------

  /** The first newline from i on, or the end of the text. */
  function LineEnd(s: string, i: nat): (e: nat)
    requires i <= |s|
    ensures i <= e <= |s| && (forall k :: i <= k < e ==> s[k] != '\n') && (e < |s| ==> s[e] == '\n')
    decreases |s| - i
  {
    if i == |s| || s[i] == '\n' then i else LineEnd(s, i + 1)
  }

  /** Where `depth` open block comments are all closed, scanning from e. */
  function CommentEnd(s: string, e: nat, depth: nat): (r: nat)
    requires e <= |s|
    ensures e <= r <= |s|
    decreases |s| - e
  {
    if e == |s| || depth == 0 then e
    else if StartsTwo(s, '/', '*', e) then CommentEnd(s, e + 2, depth + 1)
    else if StartsTwo(s, '*', '/', e) then CommentEnd(s, e + 2, depth - 1)
    else CommentEnd(s, e + 1, depth)
  }

  /** After the first unescaped quote from i on, or the end of the text. */
  function QuotedEnd(s: string, i: nat, quote: char): (e: nat)
    ensures i <= |s| ==> i <= e <= |s|
    decreases |s| - i
  {
    if i >= |s| then |s|
    else if s[i] == '\\' then QuotedEnd(s, i + 2, quote)
    else if s[i] == quote then i + 1
    else QuotedEnd(s, i + 1, quote)
  }

  function HashesEnd(s: string, i: nat): (e: nat)
    requires i <= |s|
    ensures i <= e <= |s| && (forall k :: i <= k < e ==> s[k] == '#') && (e < |s| ==> s[e] != '#')
    decreases |s| - i
  {
    if i == |s| || s[i] != '#' then i else HashesEnd(s, i + 1)
  }

  /** The first occurrence of word from i on. */
  function Find(s: string, word: string, i: nat): (r: Option<nat>)
    requires i <= |s|
    ensures r.Some? ==> i <= r.value && StartsWith(s, word, r.value) && forall k :: i <= k < r.value ==> !StartsWith(s, word, k)
    ensures r.None? ==> forall k :: i <= k <= |s| ==> !StartsWith(s, word, k)
    decreases |s| - i
  {
    if StartsWith(s, word, i) then Some(i)
    else if i == |s| then None
    else Find(s, word, i + 1)
  }

  function RawPrefix(s: string, i: nat): (n: nat)
    ensures i + n <= |s| || n == 0
  {
    if StartsTwo(s, 'b', 'r', i) || StartsTwo(s, 'r', 'b', i) then 2
    else if i < |s| && s[i] == 'r' then 1
    else 0
  }

  /** The end of the raw string that opens with the hashes from `hashes` and the quote at
      `cursor`: after the first quote followed by as many hashes, or the end of the text. */
  function RawClose(s: string, hashes: nat, cursor: nat): (e: nat)
    requires hashes <= cursor < |s|
    ensures cursor < e <= |s|
  {
    var terminator := ['"'] + s[hashes..cursor];
    match Find(s, terminator, cursor + 1)
    case None => |s|
    case Some(closing) => closing + |terminator|
  }

  function RawStringEnd(s: string, i: nat): (r: Option<nat>)
    ensures r.Some? ==> i < r.value <= |s|
  {
    var prefix := RawPrefix(s, i);
    if prefix == 0 then None
    else
      var cursor := HashesEnd(s, i + prefix);
      if cursor >= |s| || s[cursor] != '"' then None
      else Some(RawClose(s, i + prefix, cursor))
  }

  /** A character literal closes right after one character or one escape. */
  function CharEnd(s: string, i: nat): (r: Option<nat>)
    ensures r.Some? ==> i < r.value <= |s|
  {
    if i >= |s| || s[i] != '\'' then None
    else
      var cursor := if i + 1 < |s| && s[i + 1] == '\\' then i + 3 else i + 2;
      if cursor < |s| && s[cursor] == '\'' then Some(cursor + 1) else None
  }

  /** The end of the comment or literal that starts at i, None where i is code. */
  function TokenEnd(s: string, i: nat): (r: Option<nat>)
    requires i < |s|
    ensures r.Some? ==> i < r.value <= |s|
  {
    if StartsTwo(s, '/', '/', i) then Some(LineEnd(s, i))
    else if StartsTwo(s, '/', '*', i) then Some(CommentEnd(s, i + 2, 1))
    else if RawStringEnd(s, i).Some? then RawStringEnd(s, i)
    else if s[i] == '"' then Some(QuotedEnd(s, i + 1, '"'))
    else CharEnd(s, i)
  }

  // ---- The blanked text -------------------------------------------------------------------

  function Mask(ch: char): char { if ch == '\r' || ch == '\n' then ch else ' ' }

  function Masked(s: string): (r: string)
    ensures |r| == |s| && forall k :: 0 <= k < |r| ==> r[k] == Mask(s[k])
  {
    seq(|s|, k requires 0 <= k < |s| => Mask(s[k]))
  }

  function BlankFrom(s: string, i: nat): (r: string)
    requires i <= |s|
    ensures |r| == |s| - i
    decreases |s| - i
  {
    if i == |s| then ""
    else
      match TokenEnd(s, i)
      case Some(e) => Masked(s[i..e]) + BlankFrom(s, e)
      case None => [s[i]] + BlankFrom(s, i + 1)
  }

  function Blanked(s: string): (r: string)
    ensures |r| == |s|
  {
    BlankFrom(s, 0)
  }

  // ---- The code, in place on an array -----------------------------------------------------

  method Blank(chars: array<char>, start: nat, end: nat)
    requires start <= end <= chars.Length
    modifies chars
    ensures forall k :: 0 <= k < chars.Length ==> chars[k] == if start <= k < end then Mask(old(chars[k])) else old(chars[k])
  {
    for index := start to end
      invariant forall k :: 0 <= k < chars.Length ==> chars[k] == if start <= k < index then Mask(old(chars[k])) else old(chars[k])
    {
      if chars[index] != '\r' && chars[index] != '\n' { chars[index] := ' '; }
    }
  }

  method FindWord(s: string, word: string, from: nat) returns (r: Option<nat>)
    requires from <= |s|
    ensures r == Find(s, word, from)
  {
    var i := from;
    while i <= |s|
      invariant from <= i <= |s| + 1
      invariant i <= |s| ==> Find(s, word, i) == Find(s, word, from)
      invariant i == |s| + 1 ==> Find(s, word, from).None?
    {
      if StartsWith(s, word, i) { return Some(i); }
      i := i + 1;
    }
    r := None;
  }

  method SkipHashes(s: string, start: nat) returns (cursor: nat)
    requires start <= |s|
    ensures start <= cursor <= |s| && cursor == HashesEnd(s, start)
  {
    cursor := start;
    while cursor < |s| && s[cursor] == '#'
      invariant start <= cursor <= |s|
      invariant HashesEnd(s, cursor) == HashesEnd(s, start)
    {
      cursor := cursor + 1;
    }
  }

  method CloseRaw(s: string, hashes: nat, cursor: nat) returns (e: nat)
    requires hashes <= cursor < |s|
    ensures e == RawClose(s, hashes, cursor)
  {
    var terminator := ['"'] + s[hashes..cursor];
    var closing := FindWord(s, terminator, cursor + 1);
    e := if closing.None? then |s| else closing.value + |terminator|;
  }

  method RawEnd(s: string, start: nat) returns (r: Option<nat>)
    requires start < |s|
    ensures r == RawStringEnd(s, start)
  {
    var prefix := 0;
    if StartsTwo(s, 'b', 'r', start) || StartsTwo(s, 'r', 'b', start) {
      prefix := 2;
    } else if s[start] == 'r' {
      prefix := 1;
    } else {
      return None;
    }
    var cursor := SkipHashes(s, start + prefix);
    if cursor >= |s| || s[cursor] != '"' { return None; }
    var end := CloseRaw(s, start + prefix, cursor);
    r := Some(end);
  }

  method QuoteEnd(s: string, start: nat, quote: char) returns (e: nat)
    requires start < |s|
    ensures e == QuotedEnd(s, start + 1, quote)
  {
    var cursor := start + 1;
    while cursor < |s|
      invariant cursor >= start + 1
      invariant QuotedEnd(s, cursor, quote) == QuotedEnd(s, start + 1, quote)
      decreases |s| - cursor
    {
      if s[cursor] == '\\' {
        cursor := cursor + 2;
        continue;
      }
      if s[cursor] == quote { return cursor + 1; }
      cursor := cursor + 1;
    }
    e := |s|;
  }

  method BlockEnd(s: string, start: nat) returns (e: nat)
    requires StartsTwo(s, '/', '*', start)
    ensures e == CommentEnd(s, start + 2, 1)
  {
    var depth := 1;
    e := start + 2;
    while e < |s| && depth > 0
      invariant start + 2 <= e <= |s| && depth >= 0
      invariant CommentEnd(s, e, depth) == CommentEnd(s, start + 2, 1)
      decreases |s| - e
    {
      if StartsTwo(s, '/', '*', e) {
        depth, e := depth + 1, e + 2;
      } else if StartsTwo(s, '*', '/', e) {
        depth, e := depth - 1, e + 2;
      } else {
        e := e + 1;
      }
    }
  }

  /** The token that starts at index, by the source's sequence of tests. */
  method Token(s: string, index: nat) returns (end: Option<nat>)
    requires index < |s|
    ensures end == TokenEnd(s, index)
  {
    if StartsTwo(s, '/', '/', index) {
      var newline := FindWord(s, "\n", index);
      LineEndIsFind(s, index);
      return Some(if newline.None? then |s| else newline.value);
    }
    if StartsTwo(s, '/', '*', index) {
      var e := BlockEnd(s, index);
      return Some(e);
    }
    var raw := RawEnd(s, index);
    if raw.Some? { return raw; }
    if s[index] == '"' {
      var e := QuoteEnd(s, index, '"');
      return Some(e);
    }
    if s[index] == '\'' {
      var cursor := index + 1;
      cursor := if cursor < |s| && s[cursor] == '\\' then cursor + 2 else cursor + 1;
      if cursor < |s| && s[cursor] == '\'' { return Some(cursor + 1); }
    }
    end := None;
  }

  lemma {:induction false} LineEndIsFind(s: string, i: nat)
    requires i <= |s|
    ensures LineEnd(s, i) == match Find(s, "\n", i) case None => |s| case Some(k) => k
    decreases |s| - i
  {
    if i < |s| {
      assert s[i..i + 1] == [s[i]];
      if s[i] != '\n' { LineEndIsFind(s, i + 1); }
    }
  }

  /** One lexer step, seen on the blanked text as a whole. */
  lemma Advance(s: string, full: string, i: nat)
    requires i < |s| == |full| && full[i..] == BlankFrom(s, i)
    ensures match TokenEnd(s, i)
      case Some(e) => full[e..] == BlankFrom(s, e) && forall k :: i <= k < e ==> full[k] == Mask(s[k])
      case None => full[i] == s[i] && full[i + 1..] == BlankFrom(s, i + 1)
  {
    var rest := BlankFrom(s, i);
    match TokenEnd(s, i) {
      case Some(e) =>
        assert rest == Masked(s[i..e]) + BlankFrom(s, e);
        assert full[e..] == rest[e - i..];
        forall k | i <= k < e ensures full[k] == Mask(s[k]) {
          assert full[k] == rest[k - i] == Masked(s[i..e])[k - i];
        }
      case None =>
        assert full[i] == rest[0];
        assert full[i + 1..] == rest[1..];
    }
  }

  /** One turn of the loop: blank the token at `index`, or pass a character of code. */
  method BlankToken(source: string, ghost whole: string, chars: array<char>, index: nat) returns (next: nat)
    requires index < |source| == chars.Length == |whole| && whole[index..] == BlankFrom(source, index)
    requires forall k :: index <= k < |source| ==> chars[k] == source[k]
    modifies chars
    ensures index < next <= |source| && whole[next..] == BlankFrom(source, next)
    ensures forall k :: 0 <= k < index ==> chars[k] == old(chars[k])
    ensures forall k :: index <= k < next ==> chars[k] == whole[k]
    ensures forall k :: next <= k < |source| ==> chars[k] == source[k]
  {
    Advance(source, whole, index);
    var end := Token(source, index);
    if end.Some? {
      Blank(chars, index, end.value);
      next := end.value;
    } else {
      next := index + 1;
    }
  }

  /** `_blank_non_code`. */
  method BlankNonCode(source: string) returns (out: string)
    ensures out == Blanked(source)
  {
    var chars := new char[|source|](k requires 0 <= k < |source| => source[k]);
    ghost var whole := Blanked(source);
    var index := 0;
    while index < |source|
      invariant 0 <= index <= |source| == chars.Length == |whole| && whole[index..] == BlankFrom(source, index)
      invariant forall k :: 0 <= k < index ==> chars[k] == whole[k]
      invariant forall k :: index <= k < |source| ==> chars[k] == source[k]
      decreases |source| - index
    {
      index := BlankToken(source, whole, chars, index);
    }
    out := chars[..];
  }

  // ---- What blanking guarantees -----------------------------------------------------------

  predicate Layout(ch: char) { ch == ' ' || ch == '\r' || ch == '\n' }

  /** Where each position's token ends, if it starts one. */
  type Tokens = nat -> Option<nat>

  predicate Advances(s: string, token: Tokens) {
    forall k: nat :: k < |s| && token(k).Some? ==> k < token(k).value <= |s|
  }

  /** Blanking by any lexer. */
  function BlankBy(s: string, token: Tokens, i: nat): (r: string)
    requires i <= |s| && Advances(s, token)
    ensures |r| == |s| - i
    decreases |s| - i
  {
    if i == |s| then ""
    else
      match token(i)
      case Some(e) => Masked(s[i..e]) + BlankBy(s, token, e)
      case None => [s[i]] + BlankBy(s, token, i + 1)
  }

  function TokensOf(s: string): (token: Tokens)
    ensures Advances(s, token) && forall k: nat :: k < |s| ==> token(k) == TokenEnd(s, k)
  {
    (k: nat) => if k < |s| then TokenEnd(s, k) else None
  }

  lemma {:induction false} BlankedByTokens(s: string, i: nat)
    requires i <= |s|
    ensures BlankFrom(s, i) == BlankBy(s, TokensOf(s), i)
    decreases |s| - i
  {
    if i < |s| {
      BlankedByTokens(s, if TokenEnd(s, i).Some? then TokenEnd(s, i).value else i + 1);
    }
  }

  /** Where the token at i ends, and how it is masked; or that i is code, and kept. */
  lemma OneToken(s: string, token: Tokens, i: nat) returns (e: nat, code: bool)
    requires i < |s| && Advances(s, token)
    ensures i < e <= |s| && BlankBy(s, token, i)[e - i..] == BlankBy(s, token, e)
    ensures code ==> e == i + 1 && BlankBy(s, token, i)[0] == s[i] && token(i).None?
    ensures !code ==> forall n :: 0 <= n < e - i ==> BlankBy(s, token, i)[n] == Mask(s[i + n])
    ensures forall n :: 0 <= n < e - i && !Layout(BlankBy(s, token, i)[n]) ==> n == e - i - 1
  {
    match token(i) {
      case Some(end) =>
        e, code := end, false;
        assert BlankBy(s, token, i) == Masked(s[i..e]) + BlankBy(s, token, e);
        forall n | 0 <= n < e - i ensures BlankBy(s, token, i)[n] == Mask(s[i + n]) {
          assert BlankBy(s, token, i)[n] == Masked(s[i..e])[n];
        }
      case None =>
        e, code := i + 1, true;
        assert BlankBy(s, token, i) == [s[i]] + BlankBy(s, token, i + 1);
    }
  }

  lemma Shift(a: string, b: string, d: nat, n: nat)
    requires d <= n < |a| && a[d..] == b
    ensures a[n] == b[n - d]
  {
    assert a[n] == a[d..][n - d];
  }

  /** Each position k from i on is either inside a token, and masked, or code, and kept;
      code starts no token. */
  lemma {:induction false} KeptOrMaskedBy(s: string, token: Tokens, i: nat, k: nat)
    requires i <= k < |s| && Advances(s, token)
    ensures var ch := BlankBy(s, token, i)[k - i]; ch == Mask(s[k]) || (ch == s[k] && token(k).None?)
    ensures !Layout(BlankBy(s, token, i)[k - i]) ==> BlankBy(s, token, i)[k - i] == s[k] && token(k).None?
    decreases |s| - i
  {
    var e, code := OneToken(s, token, i);
    if e <= k {
      KeptOrMaskedBy(s, token, e, k);
      Shift(BlankBy(s, token, i), BlankBy(s, token, e), e - i, k - i);
    } else if !code {
      assert BlankBy(s, token, i)[k - i] == Mask(s[i + (k - i)]);
    }
  }

  /** Lexing resumes right after a character of code. */
  lemma {:induction false} LexedNext(s: string, token: Tokens, i: nat, k: nat)
    requires i <= k && k + 1 < |s| && Advances(s, token) && !Layout(BlankBy(s, token, i)[k - i])
    ensures BlankBy(s, token, i)[k + 1 - i] == BlankBy(s, token, k + 1)[0]
    decreases |s| - i
  {
    var e, _ := OneToken(s, token, i);
    Shift(BlankBy(s, token, i), BlankBy(s, token, e), e - i, k + 1 - i);
    if e <= k {
      Shift(BlankBy(s, token, i), BlankBy(s, token, e), e - i, k - i);
      LexedNext(s, token, e, k);
    }
  }

  /** A position is in a comment or literal, and masked, or is code, and kept. */
  lemma KeptOrMasked(s: string, k: nat)
    requires k < |s|
    ensures Blanked(s)[k] == Mask(s[k]) || (Blanked(s)[k] == s[k] && TokenEnd(s, k).None?)
    ensures !Layout(Blanked(s)[k]) ==> Blanked(s)[k] == s[k] && TokenEnd(s, k).None?
  {
    BlankedByTokens(s, 0);
    KeptOrMaskedBy(s, TokensOf(s), 0, k);
  }

  /** Length and line structure are kept, and a character changes only into a space. */
  lemma BlankingKeepsLayout(s: string, k: nat)
    requires k < |s|
    ensures |Blanked(s)| == |s|
    ensures Blanked(s)[k] == s[k] || Blanked(s)[k] == ' '
    ensures s[k] == '\n' || s[k] == '\r' ==> Blanked(s)[k] == s[k]
    ensures Blanked(s)[k] == '\n' || Blanked(s)[k] == '\r' ==> s[k] == Blanked(s)[k]
  {
    KeptOrMasked(s, k);
  }

  /** So what follows code, and starts no token, is kept. */
  lemma NextIsKept(s: string, k: nat)
    requires k + 1 < |s| && !Layout(Blanked(s)[k]) && TokenEnd(s, k + 1).None?
    ensures Blanked(s)[k + 1] == s[k + 1]
  {
    BlankedByTokens(s, 0);
    LexedNext(s, TokensOf(s), 0, k);
  }

  /** No string quote and no comment opener survives. */
  lemma NothingToLex(s: string, k: nat)
    requires k < |s|
    ensures Blanked(s)[k] != '"'
    ensures !StartsTwo(Blanked(s), '/', '/', k) && !StartsTwo(Blanked(s), '/', '*', k)
  {
    KeptOrMasked(s, k);
    if k + 1 < |s| { KeptOrMasked(s, k + 1); }
  }

  /** A quote mark that survives is still no character literal. */
  lemma NoCharLiteral(s: string, k: nat)
    requires k < |s|
    ensures CharEnd(Blanked(s), k).None?
  {
    var out := Blanked(s);
    if out[k] == '\'' {
      Survives(s, k);
      CodeIsNoLiteral(s, k);
      if k + 1 < |s| { BackslashAfterCode(s, k); }
      if k + 2 < |s| && out[k + 2] == '\'' { Survives(s, k + 2); }
      if k + 3 < |s| && out[k + 3] == '\'' { Survives(s, k + 3); }
    }
  }

  lemma Survives(s: string, k: nat)
    requires k < |s| && !Layout(Blanked(s)[k])
    ensures s[k] == Blanked(s)[k] && TokenEnd(s, k).None?
  {
    KeptOrMasked(s, k);
  }

  lemma CodeIsNoLiteral(s: string, k: nat)
    requires k < |s| && s[k] == '\'' && TokenEnd(s, k).None?
    ensures CharEnd(s, k).None?
  {}

  lemma BackslashAfterCode(s: string, k: nat)
    requires k + 1 < |s| && !Layout(Blanked(s)[k])
    ensures Blanked(s)[k + 1] == '\\' <==> s[k + 1] == '\\'
  {
    if Blanked(s)[k + 1] == '\\' { Survives(s, k + 1); }
    if s[k + 1] == '\\' { NextIsKept(s, k); }
  }

  /** The blanked text holds no token at all. */
  lemma BlankedIsAllCode(s: string, k: nat)
    requires k < |s|
    ensures TokenEnd(Blanked(s), k).None?
  {
    var out := Blanked(s);
    NothingToLex(s, k);
    NoCharLiteral(s, k);
    var prefix := RawPrefix(out, k);
    if prefix > 0 {
      var cursor := HashesEnd(out, k + prefix);
      if cursor < |out| { NothingToLex(s, cursor); }
    }
  }

  /** Blanking twice is blanking once. */
  lemma BlankingIsIdempotent(s: string)
    ensures Blanked(Blanked(s)) == Blanked(s)
  {
    NoTokenNoChange(Blanked(s), s, 0);
  }

  lemma {:induction false} NoTokenNoChange(out: string, s: string, i: nat)
    requires out == Blanked(s) && i <= |out|
    ensures BlankFrom(out, i) == out[i..]
    decreases |out| - i
  {
    if i < |out| {
      BlankedIsAllCode(s, i);
      NoTokenNoChange(out, s, i + 1);
    }
  }

  // ---- Literals and comments as Rust writes them --------------------------------------------

  /** A block comment's body: plain characters and nested comments. */
  datatype Body = Done | Plain(ch: char, rest: Body) | Nested(inner: Body, rest: Body)

  /** The first character of a body and the closer after it. */
  function FirstOf(b: Body): char {
    match b
    case Done => '*'
    case Plain(ch, _) => ch
    case Nested(_, _) => '/'
  }

  /** No plain character opens or closes a comment with the character after it. */
  predicate PlainBody(b: Body) {
    match b
    case Done => true
    case Plain(ch, rest) =>
      !(ch == '/' && FirstOf(rest) == '*') && !(ch == '*' && FirstOf(rest) == '/') && PlainBody(rest)
    case Nested(inner, rest) => PlainBody(inner) && PlainBody(rest)
  }

  function Comment(b: Body): string {
    match b
    case Done => ""
    case Plain(ch, rest) => [ch] + Comment(rest)
    case Nested(inner, rest) => ['/', '*'] + (Comment(inner) + (['*', '/'] + Comment(rest)))
  }

  lemma DropFront(s: string, e: nat, front: string, rest: string)
    requires e <= |s| && s[e..] == front + rest
    ensures e + |front| <= |s| && s[e + |front|..] == rest
  {
    assert |s| - e == |front| + |rest|;
    assert s[e + |front|..] == s[e..][|front|..];
  }

  /** The scan ends where it ends after the body, at the depth it had before it. */
  lemma {:induction false} BodyIsSkipped(s: string, e: nat, b: Body, tail: string, depth: nat, end: nat)
    requires e + |Comment(b)| <= |s| && PlainBody(b) && s[e..] == Comment(b) + tail && tail != "" && tail[0] == '*' && depth > 0
    requires CommentEnd(s, e + |Comment(b)|, depth) == end
    ensures CommentEnd(s, e, depth) == end
    decreases b, 1
  {
    match b {
      case Done =>
      case Plain(ch, rest) =>
        PlainText(s, e, ch, rest, tail);
        BodyIsSkipped(s, e + 1, rest, tail, depth, end);
        Passes(s, e, depth);
      case Nested(inner, rest) =>
        NestedText(inner, rest, tail);
        NestedIsSkipped(s, e, inner, rest, tail, depth, end);
    }
  }

  lemma PlainText(s: string, e: nat, ch: char, rest: Body, tail: string)
    requires e + 1 + |Comment(rest)| <= |s| && s[e..] == Comment(Plain(ch, rest)) + tail && tail != "" && tail[0] == '*'
    ensures s[e] == ch && s[e + 1..] == Comment(rest) + tail && e + 1 < |s| && s[e + 1] == FirstOf(rest)
  {
    assert s[e..] == [ch] + (Comment(rest) + tail);
    assert s[e] == s[e..][0];
    assert s[e + 1..] == s[e..][1..];
    assert s[e + 1] == s[e + 1..][0];
  }

  lemma Passes(s: string, e: nat, depth: nat)
    requires e < |s| && depth > 0 && !StartsTwo(s, '/', '*', e) && !StartsTwo(s, '*', '/', e)
    ensures CommentEnd(s, e, depth) == CommentEnd(s, e + 1, depth)
  {}

  lemma NestedText(inner: Body, rest: Body, tail: string)
    ensures Comment(Nested(inner, rest)) + tail == ['/', '*'] + (Comment(inner) + (['*', '/'] + (Comment(rest) + tail)))
    ensures |Comment(Nested(inner, rest))| == |Comment(inner)| + |Comment(rest)| + 4
  {
    Regroup(['/', '*'], Comment(inner), ['*', '/'], Comment(rest), tail);
  }

  lemma Regroup(a: string, b: string, c: string, d: string, e: string)
    ensures a + (b + (c + d)) + e == a + (b + (c + (d + e)))
  {}

  lemma {:induction false} NestedIsSkipped(s: string, e: nat, inner: Body, rest: Body, tail: string, depth: nat, end: nat)
    requires e + |Comment(inner)| + |Comment(rest)| + 4 <= |s| && PlainBody(inner) && PlainBody(rest) && depth > 0
    requires tail != "" && tail[0] == '*'
    requires s[e..] == ['/', '*'] + (Comment(inner) + (['*', '/'] + (Comment(rest) + tail)))
    requires CommentEnd(s, e + |Comment(inner)| + |Comment(rest)| + 4, depth) == end
    ensures CommentEnd(s, e, depth) == end
    decreases Nested(inner, rest), 0
  {
    var after := Comment(rest) + tail;
    Layers(s, e, Comment(inner), after);
    RestIsSkipped(s, e + 2 + |Comment(inner)|, rest, tail, depth, end);
    InnerIsSkipped(s, e, inner, after, depth, end);
  }

  lemma {:induction false} RestIsSkipped(s: string, f: nat, rest: Body, tail: string, depth: nat, end: nat)
    requires f + 2 + |Comment(rest)| <= |s| && PlainBody(rest) && tail != "" && tail[0] == '*' && depth > 0
    requires s[f..] == ['*', '/'] + (Comment(rest) + tail) && CommentEnd(s, f + 2 + |Comment(rest)|, depth) == end
    ensures CommentEnd(s, f, depth + 1) == end
    decreases rest, 2
  {
    DropFront(s, f, ['*', '/'], Comment(rest) + tail);
    BodyIsSkipped(s, f + 2, rest, tail, depth, end);
    Closes(s, f, Comment(rest) + tail, depth, end);
  }

  lemma {:induction false} InnerIsSkipped(s: string, e: nat, inner: Body, after: string, depth: nat, end: nat)
    requires e + 4 + |Comment(inner)| <= |s| && PlainBody(inner) && depth > 0
    requires s[e..] == ['/', '*'] + (Comment(inner) + (['*', '/'] + after))
    requires CommentEnd(s, e + 2 + |Comment(inner)|, depth + 1) == end
    ensures CommentEnd(s, e, depth) == end
    decreases inner, 2
  {
    Layers(s, e, Comment(inner), after);
    BodyIsSkipped(s, e + 2, inner, ['*', '/'] + after, depth + 1, end);
    Opens(s, e, Comment(inner) + (['*', '/'] + after), depth, end);
  }

  lemma Layers(s: string, e: nat, inner: string, after: string)
    requires e <= |s| && s[e..] == ['/', '*'] + (inner + (['*', '/'] + after))
    ensures var f := e + 2 + |inner|;
      f + 2 <= |s| && s[e + 2..] == inner + (['*', '/'] + after) && s[f..] == ['*', '/'] + after && s[f + 2..] == after
  {
    DropFront(s, e, ['/', '*'], inner + (['*', '/'] + after));
    DropFront(s, e + 2, inner, ['*', '/'] + after);
    DropFront(s, e + 2 + |inner|, ['*', '/'], after);
  }

  lemma Opens(s: string, e: nat, rest: string, depth: nat, end: nat)
    requires e + 2 <= |s| && s[e..] == ['/', '*'] + rest && depth > 0 && CommentEnd(s, e + 2, depth + 1) == end
    ensures CommentEnd(s, e, depth) == end
  {
    assert s[e] == s[e..][0] && s[e + 1] == s[e..][1];
  }

  lemma Closes(s: string, e: nat, rest: string, depth: nat, end: nat)
    requires e + 2 <= |s| && s[e..] == ['*', '/'] + rest && CommentEnd(s, e + 2, depth) == end
    ensures CommentEnd(s, e, depth + 1) == end
  {
    assert s[e] == s[e..][0] && s[e + 1] == s[e..][1];
  }

  /** A block comment, however deeply nested, is one token ending at its own closer. */
  lemma NestedCommentIsOneToken(b: Body, tail: string)
    requires PlainBody(b)
    ensures TokenEnd(['/', '*'] + (Comment(b) + (['*', '/'] + tail)), 0) == Some(|Comment(b)| + 4)
  {
    var s := ['/', '*'] + (Comment(b) + (['*', '/'] + tail));
    assert s[0..] == s;
    Layers(s, 0, Comment(b), tail);
    var f := 2 + |Comment(b)|;
    Closes(s, f, tail, 0, f + 2);
    BodyIsSkipped(s, 2, b, ['*', '/'] + tail, 1, f + 2);
    OpensAToken(s);
  }

  lemma OpensAToken(s: string)
    requires |s| >= 2 && s[0] == '/' && s[1] == '*'
    ensures TokenEnd(s, 0) == Some(CommentEnd(s, 2, 1))
  {}

  /** A string literal's body: plain characters and escapes. */
  datatype Literal = End | Char(ch: char, rest: Literal) | Escaped(ch: char, rest: Literal)

  predicate PlainLiteral(l: Literal, quote: char) {
    match l
    case End => true
    case Char(ch, rest) => ch != '\\' && ch != quote && PlainLiteral(rest, quote)
    case Escaped(_, rest) => PlainLiteral(rest, quote)
  }

  function Quoted(l: Literal): string {
    match l
    case End => ""
    case Char(ch, rest) => [ch] + Quoted(rest)
    case Escaped(ch, rest) => ['\\', ch] + Quoted(rest)
  }

  lemma {:induction false} LiteralIsSkipped(s: string, i: nat, l: Literal, quote: char, tail: string)
    requires i <= |s| && quote != '\\' && PlainLiteral(l, quote) && s[i..] == Quoted(l) + ([quote] + tail)
    ensures QuotedEnd(s, i, quote) == i + |Quoted(l)| + 1
    decreases l
  {
    match l {
      case End =>
        assert s[i] == s[i..][0];
      case Char(ch, rest) =>
        assert s[i] == s[i..][0];
        assert s[i + 1..] == s[i..][1..] == Quoted(rest) + ([quote] + tail);
        LiteralIsSkipped(s, i + 1, rest, quote, tail);
      case Escaped(ch, rest) =>
        assert s[i] == s[i..][0];
        assert s[i + 2..] == s[i..][2..] == Quoted(rest) + ([quote] + tail);
        LiteralIsSkipped(s, i + 2, rest, quote, tail);
    }
  }

  /** A string literal with any escapes is one token ending at its closing quote. */
  lemma StringLiteralIsOneToken(l: Literal, tail: string)
    requires PlainLiteral(l, '"')
    ensures var s := "\"" + Quoted(l) + "\"" + tail; TokenEnd(s, 0) == Some(|Quoted(l)| + 2)
  {
    var s := "\"" + Quoted(l) + "\"" + tail;
    assert s[1..] == Quoted(l) + (['"'] + tail);
    LiteralIsSkipped(s, 1, l, '"', tail);
  }
}
