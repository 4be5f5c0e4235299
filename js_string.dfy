/**
 * The few ECMAScript string operations the views rely on, over strings of
 * characters: `trim`, `repeat` with a one-character string, `padEnd` with a
 * one-character filler, and the truthiness of an optional string.
 */
module JsString {
  import opened Options

  /**
   * The characters `String.prototype.trim` removes: ECMAScript's WhiteSpace
   * (tab, vertical tab, form feed, space, no-break space, byte order mark and
   * the other Unicode space separators) and LineTerminator (line feed,
   * carriage return, line and paragraph separators).
   */
  predicate IsWhitespace(c: char) {
    c == '\t' || c == '\n' || c == '\U{000B}' || c == '\U{000C}' || c == '\r' ||
    c == ' ' || c == '\U{00A0}' || c == '\U{1680}' ||
    ('\U{2000}' <= c <= '\U{200A}') ||
    c == '\U{2028}' || c == '\U{2029}' || c == '\U{202F}' || c == '\U{205F}' ||
    c == '\U{3000}' || c == '\U{FEFF}'
  }

  /** Every character of `s` is whitespace (the empty string included). */
  predicate Blank(s: string) {
    forall i :: 0 <= i < |s| ==> IsWhitespace(s[i])
  }

  /** `s` neither starts nor ends with whitespace. */
  predicate Trimmed(s: string) {
    s == [] || (!IsWhitespace(s[0]) && !IsWhitespace(s[|s| - 1]))
  }

  lemma BlankCons(s: string)
    requires s != [] && IsWhitespace(s[0])
    ensures Blank(s) <==> Blank(s[1..])
  {
  }

  /**
   * `String.prototype.trim`: whitespace removed from both ends, one character
   * at a time from whichever end still has some.
   */
  function Trim(s: string): (r: string)
    ensures Trimmed(r)
    ensures r == [] <==> Blank(s)
    ensures |r| <= |s|
  {
    if |s| > 0 && IsWhitespace(s[0]) then
      BlankCons(s);
      Trim(s[1..])
    else if |s| > 0 && IsWhitespace(s[|s| - 1]) then
      assert Blank(s) <==> Blank(s[..|s| - 1]) by {
        assert forall i :: 0 <= i < |s| - 1 ==> s[..|s| - 1][i] == s[i];
      }
      Trim(s[..|s| - 1])
    else
      s
  }

  lemma BlankAppend(a: string, b: string)
    ensures Blank(a + b) <==> Blank(a) && Blank(b)
  {
    if Blank(a) && Blank(b) {
      forall i | 0 <= i < |a + b| ensures IsWhitespace((a + b)[i]) {
        if i >= |a| { assert (a + b)[i] == b[i - |a|]; }
      }
    }
    if Blank(a + b) {
      forall i | 0 <= i < |a| ensures IsWhitespace(a[i]) {
        assert (a + b)[i] == a[i];
      }
      forall i | 0 <= i < |b| ensures IsWhitespace(b[i]) {
        assert (a + b)[|a| + i] == b[i];
      }
    }
  }

  lemma InfixAfterFirst(s: string, i: nat, j: nat)
    requires |s| > 0 && IsWhitespace(s[0])
    requires i <= j <= |s| - 1 && Trim(s[1..]) == s[1..][i..j]
    requires Blank(s[1..][..i]) && Blank(s[1..][j..])
    ensures Trim(s) == s[i + 1..j + 1]
    ensures Blank(s[..i + 1]) && Blank(s[j + 1..])
  {
    assert s[1..][i..j] == s[i + 1..j + 1] && s[1..][j..] == s[j + 1..];
    assert s[..i + 1] == [s[0]] + s[1..][..i];
    BlankAppend([s[0]], s[1..][..i]);
  }

  lemma InfixBeforeLast(s: string, i: nat, j: nat)
    requires |s| > 0 && IsWhitespace(s[|s| - 1])
    requires i <= j <= |s| - 1 && Trim(s[..|s| - 1]) == s[..|s| - 1][i..j]
    requires Blank(s[..|s| - 1][..i]) && Blank(s[..|s| - 1][j..])
    ensures s[..|s| - 1][i..j] == s[i..j]
    ensures Blank(s[..i]) && Blank(s[j..])
  {
    var t := s[..|s| - 1];
    assert t[i..j] == s[i..j] && t[..i] == s[..i];
    assert s[j..] == t[j..] + [s[|s| - 1]];
    BlankAppend(t[j..], [s[|s| - 1]]);
  }

  /** Trim peels exactly blank margins: `s` is `s[..i] + Trim(s) + s[j..]` with both margins blank. */
  lemma {:induction false} TrimIsInfix(s: string) returns (i: nat, j: nat)
    ensures i <= j <= |s| && Trim(s) == s[i..j]
    ensures Blank(s[..i]) && Blank(s[j..])
    decreases |s|
  {
    if |s| > 0 && IsWhitespace(s[0]) {
      var i', j' := TrimIsInfix(s[1..]);
      InfixAfterFirst(s, i', j');
      i, j := i' + 1, j' + 1;
    } else if |s| > 0 && IsWhitespace(s[|s| - 1]) {
      i, j := TrimIsInfix(s[..|s| - 1]);
      InfixBeforeLast(s, i, j);
    } else {
      i, j := 0, |s|;
      assert s[..0] == [] && s[|s|..] == [] && s[0..|s|] == s;
    }
  }

  /**
   * The converse of TrimIsInfix: whenever `s` is a trimmed string between two
   * blank margins, Trim returns exactly that string. Together the two lemmas
   * characterise Trim completely.
   */
  lemma {:induction false} TrimUnique(a: string, r: string, b: string)
    requires Blank(a) && Blank(b) && Trimmed(r)
    ensures Trim(a + r + b) == r
    decreases |a| + |b|
  {
    var s := a + r + b;
    if a != [] {
      assert s[0] == a[0];
      assert s[1..] == a[1..] + r + b;
      TrimUnique(a[1..], r, b);
    } else if r == [] && b != [] {
      assert s == b;
      assert s[1..] == [] + [] + b[1..];
      TrimUnique([], [], b[1..]);
    } else if b != [] {
      assert s == r + b;
      assert s[0] == r[0];
      assert s[|s| - 1] == b[|b| - 1];
      assert s[..|s| - 1] == [] + r + b[..|b| - 1];
      TrimUnique([], r, b[..|b| - 1]);
    } else {
      assert s == r;
    }
  }

  /** Trimming is idempotent: a trimmed string is its own trim. */
  lemma TrimTrimmed(s: string)
    requires Trimmed(s)
    ensures Trim(s) == s
  {
  }

  /** `c.repeat(n)` for a one-character string `c`. */
  function Repeat(c: char, n: nat): (r: string)
    ensures |r| == n
    ensures forall i :: 0 <= i < n ==> r[i] == c
  {
    if n == 0 then [] else [c] + Repeat(c, n - 1)
  }

  /** `s.padEnd(n, c)` for a one-character filler `c`: `s` itself when already `n` long or longer. */
  function PadEnd(s: string, n: nat, c: char): (r: string)
    ensures |s| >= n ==> r == s
    ensures |s| < n ==> |r| == n && r[..|s|] == s
    ensures forall i :: |s| <= i < |r| ==> r[i] == c
  {
    if |s| >= n then s else s + Repeat(c, n - |s|)
  }

  /** The number of occurrences of `c` in `s`. */
  function Occurrences(c: char, s: string): (k: nat)
    ensures k <= |s|
  {
    if s == [] then 0 else (if s[0] == c then 1 else 0) + Occurrences(c, s[1..])
  }

  lemma {:induction false} OccurrencesAppend(c: char, s: string, t: string)
    ensures Occurrences(c, s + t) == Occurrences(c, s) + Occurrences(c, t)
  {
    if s == [] {
      assert s + t == t;
    } else {
      assert (s + t)[1..] == s[1..] + t;
      OccurrencesAppend(c, s[1..], t);
    }
  }

  /** `c.repeat(n)` holds `n` copies of `c` and none of any other character. */
  lemma {:induction false} OccurrencesRepeat(c: char, d: char, n: nat)
    ensures Occurrences(c, Repeat(c, n)) == n
    ensures c != d ==> Occurrences(d, Repeat(c, n)) == 0
  {
    if n > 0 {
      OccurrencesRepeat(c, d, n - 1);
      assert Repeat(c, n)[1..] == Repeat(c, n - 1);
    }
  }

  /** JavaScript truthiness of a `string | null`: present and not empty. */
  predicate Truthy(o: Option<string>)
    ensures Truthy(o) <==> o.GetOr("") != ""
  {
    o.Some? && o.value != ""
  }
}
