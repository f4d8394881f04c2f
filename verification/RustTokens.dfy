/** Line comments, raw strings and character literals of Rust as single tokens of the lexer in
    scripts/e2e/validate_capability_matrix.py. */
module RustTokens {
  import opened RustBlanking

  /** A line comment is one token up to its line's end, or the text's. */
  lemma LineCommentIsOneToken(body: string, tail: string)
    requires '\n' !in body
    ensures TokenEnd("//" + body + "\n" + tail, 0) == Some(|body| + 2)
    ensures TokenEnd("//" + body, 0) == Some(|body| + 2)
  {
    var s, t := "//" + body + "\n" + tail, "//" + body;
    assert s[|body| + 2] == '\n';
    forall k | 0 <= k < |body| + 2 ensures s[k] != '\n' && t[k] != '\n' {
      if k >= 2 { assert s[k] == t[k] == body[k - 2] && body[k - 2] in body; }
    }
  }

  /** A quote followed by n hashes stands at j. */
  predicate ClosesAt(s: string, j: nat, n: nat) {
    j + n < |s| && s[j] == '"' && forall k :: j < k <= j + n ==> s[k] == '#'
  }

  lemma {:induction false} HashesStop(s: string, i: nat, e: nat)
    requires i <= e < |s| && s[e] != '#' && forall k :: i <= k < e ==> s[k] == '#'
    ensures HashesEnd(s, i) == e
    decreases e - i
  {
    if i < e { HashesStop(s, i + 1, e); }
  }

  lemma {:induction false} FindsAt(s: string, word: string, i: nat, at: nat)
    requires i <= at && StartsWith(s, word, at) && forall k :: i <= k < at ==> !StartsWith(s, word, k)
    ensures Find(s, word, i) == Some(at)
    decreases at - i
  {
    if i < at { FindsAt(s, word, i + 1, at); }
  }

  /** The terminator is the quote and the hashes of the opening. */
  lemma ClosingWord(s: string, hashes: nat, cursor: nat, j: nat)
    requires hashes <= cursor < |s| && forall k :: hashes <= k < cursor ==> s[k] == '#'
    ensures StartsWith(s, ['"'] + s[hashes..cursor], j) <==> ClosesAt(s, j, cursor - hashes)
  {
    var word, n := ['"'] + s[hashes..cursor], cursor - hashes;
    if StartsWith(s, word, j) {
      assert s[j] == s[j..j + |word|][0];
      forall k | j < k <= j + n ensures s[k] == '#' { assert s[k] == s[j..j + |word|][k - j] == word[k - j]; }
    }
    if ClosesAt(s, j, n) {
      forall k | 0 <= k < |word| ensures s[j..j + |word|][k] == word[k] {}
      assert s[j..j + |word|] == word;
    }
  }

  /** A raw string opens at i with that prefix, n hashes and a quote. */
  predicate RawOpens(s: string, i: nat, prefix: nat, n: nat) {
    && i + prefix + n < |s| && s[i + prefix + n] == '"' && (forall k :: i + prefix <= k < i + prefix + n ==> s[k] == '#')
    && ((prefix == 1 && s[i] == 'r')
        || (prefix == 2 && ((s[i] == 'b' && s[i + 1] == 'r') || (s[i] == 'r' && s[i + 1] == 'b'))))
  }

  /** The first closing with n hashes after the quote at `cursor` stands at `at`. */
  predicate FirstClosing(s: string, cursor: nat, n: nat, at: nat) {
    cursor < at && ClosesAt(s, at, n) && forall j :: cursor < j < at ==> !ClosesAt(s, j, n)
  }

  lemma RawClosesAt(s: string, hashes: nat, cursor: nat, n: nat, at: nat)
    requires cursor < |s| && cursor == hashes + n && (forall k :: hashes <= k < cursor ==> s[k] == '#') && FirstClosing(s, cursor, n, at)
    ensures RawClose(s, hashes, cursor) == at + 1 + n
  {
    var word := ['"'] + s[hashes..cursor];
    ClosingWord(s, hashes, cursor, at);
    forall j | cursor < j < at ensures !StartsWith(s, word, j) { ClosingWord(s, hashes, cursor, j); }
    FindsAt(s, word, cursor + 1, at);
  }

  lemma RawStringOpens(s: string, i: nat, prefix: nat, n: nat)
    requires RawOpens(s, i, prefix, n)
    ensures RawPrefix(s, i) == prefix && RawStringEnd(s, i) == Some(RawClose(s, i + prefix, i + prefix + n))
    ensures TokenEnd(s, i) == RawStringEnd(s, i)
  {
    assert RawPrefix(s, i) == prefix;
    HashesStop(s, i + prefix, i + prefix + n);
  }

  /** A raw string with any number of hashes is one token, whatever is quoted or escaped in
      it, ending with the first quote that is followed by as many hashes. */
  lemma RawStringIsOneToken(s: string, i: nat, prefix: nat, n: nat, at: nat)
    requires RawOpens(s, i, prefix, n) && FirstClosing(s, i + prefix + n, n, at)
    ensures TokenEnd(s, i) == Some(at + 1 + n)
  {
    RawStringOpens(s, i, prefix, n);
    RawClosesAt(s, i + prefix, i + prefix + n, n, at);
  }

  /** A character literal is one token, escaped or not; a lifetime is none. */
  lemma CharLiteralIsOneToken(ch: char, next: char, tail: string)
    ensures ch != '\\' ==> TokenEnd("'" + [ch] + "'" + tail, 0) == Some(3)
    ensures TokenEnd("'\\" + [ch] + "'" + tail, 0) == Some(4)
    ensures ch != '\\' && next != '\'' ==> TokenEnd("'" + [ch] + [next] + tail, 0) == None
  {
    var plain, escaped, lifetime := "'" + [ch] + "'" + tail, "'\\" + [ch] + "'" + tail, "'" + [ch] + [next] + tail;
    assert plain[0] == '\'' && plain[1] == ch && plain[2] == '\'';
    assert escaped[0] == '\'' && escaped[1] == '\\' && escaped[3] == '\'';
    assert lifetime[0] == '\'' && lifetime[1] == ch && lifetime[2] == next;
  }
}
