/**
 * The parts of Python's string and integer semantics that the request
 * engine's "afford" heuristic relies on: `str.split()` with no argument,
 * `str.rstrip('.,:;')`, the substring test `p in s`, `int(text)` and the
 * `str(n)` / f-string rendering of an integer.
 *
 * `int(text)` is modelled on the form the heuristic meets: an optional
 * sign followed by ASCII digits (leading zeros allowed). Python also
 * accepts surrounding whitespace (never present after `split`),
 * underscores between digits and non-ASCII decimal digits; those are
 * left out.
 */
module PyText {
  import opened Wrappers

  /** The characters for which Python's `str.isspace()` holds; `str.split()` breaks on runs of them. */
  predicate IsSpace(c: char) {
    || c == ' '
    || ('\t' <= c <= '\r')
    || ('\U{1C}' <= c <= '\U{1F}')
    || c == '\U{85}' || c == '\U{A0}' || c == '\U{1680}'
    || ('\U{2000}' <= c <= '\U{200A}')
    || c == '\U{2028}' || c == '\U{2029}' || c == '\U{202F}' || c == '\U{205F}' || c == '\U{3000}'
  }

  /** A word as `str.split()` produces it: non-empty and free of whitespace. */
  predicate IsWord(w: string) {
    w != [] && forall i :: 0 <= i < |w| ==> !IsSpace(w[i])
  }

  /** Length of the longest whitespace-free prefix of `s`. */
  function WordLen(s: string): (k: nat)
    ensures k <= |s|
    ensures forall i :: 0 <= i < k ==> !IsSpace(s[i])
    ensures k < |s| ==> IsSpace(s[k])
  {
    if s == [] || IsSpace(s[0]) then 0 else 1 + WordLen(s[1..])
  }

  /** Python's `s.split()`: the maximal whitespace-free runs of `s`, in order. */
  function Split(s: string): (words: seq<string>)
    ensures forall i :: 0 <= i < |words| ==> IsWord(words[i])
    decreases |s|
  {
    if s == [] then []
    else if IsSpace(s[0]) then Split(s[1..])
    else [s[..WordLen(s)]] + Split(s[WordLen(s)..])
  }

  /** The words joined by single spaces, Python's `" ".join(words)`. */
  function Join(words: seq<string>): string {
    if words == [] then ""
    else if |words| == 1 then words[0]
    else words[0] + " " + Join(words[1..])
  }

  lemma {:induction false} WordLenOfWord(w: string, rest: string)
    requires forall i :: 0 <= i < |w| ==> !IsSpace(w[i])
    requires rest == [] || IsSpace(rest[0])
    ensures WordLen(w + rest) == |w|
  {
    if w != [] {
      assert (w + rest)[1..] == w[1..] + rest;
      WordLenOfWord(w[1..], rest);
    }
  }

  /** Splitting undoes joining: `" ".join(ws).split() == ws` for every list of words. */
  lemma {:induction false} SplitJoin(words: seq<string>)
    requires forall i :: 0 <= i < |words| ==> IsWord(words[i])
    ensures Split(Join(words)) == words
  {
    if words == [] {
    } else if |words| == 1 {
      var w := words[0];
      WordLenOfWord(w, []);
      assert w + [] == w;
      assert w[|w|..] == [];
    } else {
      var w, rest := words[0], Join(words[1..]);
      var s := w + " " + rest;
      assert s == w + (" " + rest);
      WordLenOfWord(w, " " + rest);
      assert s[..|w|] == w;
      assert s[|w|..] == " " + rest;
      assert (" " + rest)[1..] == rest;
      SplitJoin(words[1..]);
    }
  }

  /** A whitespace-free, non-empty string splits into itself. */
  lemma SplitWord(w: string)
    requires IsWord(w)
    ensures Split(w) == [w]
  {
    WordLenOfWord(w, []);
    assert w + [] == w;
    assert w[|w|..] == [];
  }

  /** A word followed by whitespace (or nothing) is the first word of the split. */
  lemma SplitWordPrefix(w: string, rest: string)
    requires IsWord(w)
    requires rest == [] || IsSpace(rest[0])
    ensures Split(w + rest) == [w] + Split(rest)
  {
    WordLenOfWord(w, rest);
    var u := w + rest;
    assert u[..|w|] == w;
    assert u[|w|..] == rest;
  }

  /** The step of `SplitBeforeSpace` for a word on its own. */
  lemma SplitWordThenSpace(w: string, r: string)
    requires IsWord(w)
    requires r != [] && IsSpace(r[0])
    ensures Split(w + r) == Split(w) + Split(r[1..])
  {
    SplitWord(w);
    SplitWordPrefix(w, r);
  }

  /** Appending text that starts with whitespace ends the last word of `s`: the two sides split apart. */
  lemma {:induction false} SplitBeforeSpace(s: string, r: string)
    requires r != [] && IsSpace(r[0])
    ensures Split(s + r) == Split(s) + Split(r[1..])
    decreases |s|
  {
    if s == [] {
      assert s + r == r;
    } else if IsSpace(s[0]) {
      assert (s + r)[1..] == s[1..] + r;
      SplitBeforeSpace(s[1..], r);
    } else {
      var k := WordLen(s);
      var w, t := s[..k], s[k..];
      assert s == w + t;
      if t != [] {
        SplitBeforeSpace(t, r);
        var a, b := Split(t), Split(r[1..]);
        assert (t + r)[0] == t[0];
        calc {
          Split(s + r);
          == { assert s + r == w + (t + r); }
          Split(w + (t + r));
          == { SplitWordPrefix(w, t + r); }
          [w] + (a + b);
          ==
          [w] + a + b;
          == { SplitWordPrefix(w, t); }
          Split(s) + b;
        }
      } else {
        assert s == w;
        SplitWordThenSpace(w, r);
      }
    }
  }

  /**
   * Splitting at any whitespace character splits the two sides apart.
   * With `Split("") == []` and `SplitWord`, this fixes `Split` on every
   * string: leading, trailing and repeated whitespace is dropped.
   */
  lemma SplitAtSpace(s: string, c: char, t: string)
    requires IsSpace(c)
    ensures Split(s + [c] + t) == Split(s) + Split(t)
  {
    assert s + [c] + t == s + ([c] + t);
    assert ([c] + t)[1..] == t;
    SplitBeforeSpace(s, [c] + t);
  }

  /** Python's substring test `p in s`: `p` occurs in `s` at some offset. */
  predicate Contains(s: string, p: string)
    decreases |s|
  {
    (|p| <= |s| && s[..|p|] == p) || (s != [] && Contains(s[1..], p))
  }

  lemma {:induction false} ContainsInSuffix(s: string, k: nat, p: string)
    requires k <= |s|
    requires Contains(s[k..], p)
    ensures Contains(s, p)
  {
    if k > 0 {
      assert s[1..][k - 1..] == s[k..];
      ContainsInSuffix(s[1..], k - 1, p);
    }
  }

  /** `p in s` holds exactly when `p` occurs in `s` at some offset. */
  lemma {:induction false} ContainsOccurs(s: string, p: string)
    ensures Contains(s, p) <==> exists i :: 0 <= i <= |s| - |p| && s[i..][..|p|] == p
    decreases |s|
  {
    if s != [] {
      ContainsOccurs(s[1..], p);
      if Contains(s[1..], p) {
        var j :| 0 <= j <= |s[1..]| - |p| && s[1..][j..][..|p|] == p;
        assert s[j + 1..] == s[1..][j..];
      }
      if i :| 0 < i <= |s| - |p| && s[i..][..|p|] == p {
        assert s[1..][i - 1..] == s[i..];
      }
    }
    assert s[0..] == s;
  }

  /** Every word of `s.split()` occurs in `s`. */
  lemma {:induction false} SplitWordsOccur(s: string)
    ensures forall i :: 0 <= i < |Split(s)| ==> Contains(s, Split(s)[i])
    decreases |s|
  {
    if s == [] {
    } else if IsSpace(s[0]) {
      SplitWordsOccur(s[1..]);
      assert Split(s) == Split(s[1..]);
      forall i | 0 <= i < |Split(s)| ensures Contains(s, Split(s)[i]) {
        ContainsInSuffix(s, 1, Split(s)[i]);
      }
    } else {
      var k := WordLen(s);
      SplitWordsOccur(s[k..]);
      forall i | 0 <= i < |Split(s)| ensures Contains(s, Split(s)[i]) {
        if i > 0 {
          assert Split(s)[i] == Split(s[k..])[i - 1];
          ContainsInSuffix(s, k, Split(s)[i]);
        }
      }
    }
  }

  /** The characters `str.rstrip('.,:;')` removes. */
  predicate IsStripChar(c: char) {
    c == '.' || c == ',' || c == ':' || c == ';'
  }

  /** Python's `w.rstrip('.,:;')`: the longest prefix of `w` that does not end in one of the four marks. */
  function RStripPunct(w: string): (r: string)
    ensures r <= w
    ensures r == [] || !IsStripChar(r[|r| - 1])
    ensures forall i :: |r| <= i < |w| ==> IsStripChar(w[i])
  {
    if w != [] && IsStripChar(w[|w| - 1]) then RStripPunct(w[..|w| - 1]) else w
  }

  predicate IsDigit(c: char) {
    '0' <= c <= '9'
  }

  /** One or more ASCII digits. */
  predicate IsDigits(d: string) {
    d != [] && forall i :: 0 <= i < |d| ==> IsDigit(d[i])
  }

  /** The grammar of integers `int(text)` is modelled on: an optional sign, then digits. */
  predicate IsIntLiteral(s: string) {
    IsDigits(s) || (|s| > 1 && (s[0] == '+' || s[0] == '-') && IsDigits(s[1..]))
  }

  /** The number a string of decimal digits denotes. */
  function DigitsValue(d: string): nat
    requires forall i :: 0 <= i < |d| ==> IsDigit(d[i])
  {
    if d == [] then 0
    else
      assert IsDigit(d[|d| - 1]);
      10 * DigitsValue(d[..|d| - 1]) + (d[|d| - 1] as int - '0' as int)
  }

  /**
   * Python's `int(text)`, where `None` stands for the `ValueError` it
   * raises. It is total: no text makes it fail in any other way.
   */
  function ParseInt(s: string): (r: Option<int>)
    ensures r.Some? <==> IsIntLiteral(s)
    ensures r.Some? && r.value < 0 ==> s[0] == '-'
  {
    if |s| > 0 && (s[0] == '+' || s[0] == '-') then
      if IsDigits(s[1..]) then
        var magnitude: int := DigitsValue(s[1..]);
        Some(if s[0] == '-' then -magnitude else magnitude)
      else None
    else if IsDigits(s) then Some(DigitsValue(s))
    else None
  }

  function DigitChar(d: nat): char
    requires d < 10
  {
    ('0' as int + d) as char
  }

  /** Decimal digits of `n`, without leading zeros. */
  function NatToString(n: nat): (s: string)
    ensures IsDigits(s)
    ensures |s| > 1 ==> s[0] != '0'
    decreases n
  {
    if n < 10 then [DigitChar(n)] else NatToString(n / 10) + [DigitChar(n % 10)]
  }

  /** Python's `str(n)` for an integer. */
  function IntToString(n: int): (s: string)
    ensures IsIntLiteral(s)
  {
    if n < 0 then "-" + NatToString(-n) else NatToString(n)
  }

  lemma {:induction false} NatToStringValue(n: nat)
    ensures DigitsValue(NatToString(n)) == n
    decreases n
  {
    if n >= 10 {
      NatToStringValue(n / 10);
      var s := NatToString(n);
      assert s[..|s| - 1] == NatToString(n / 10);
    }
  }

  /** `int(str(n)) == n`: the parser reads back every integer it could be given in canonical form. */
  lemma ParseIntToString(n: int)
    ensures ParseInt(IntToString(n)) == Some(n)
  {
    if n < 0 {
      NatToStringValue(-n);
      assert IntToString(n)[1..] == NatToString(-n);
    } else {
      NatToStringValue(n);
    }
  }
}
