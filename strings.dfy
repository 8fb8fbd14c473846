/**
 * The parts of Rust's string library that the wire codec relies on:
 * `str::trim`, `str::split` on one character, `str::parse::<u8>` and
 * decimal rendering through `format!("{}", n)`.
 */
module Strings {
  import opened Wrappers
  import opened Ints

  // ---------------------------------------------------------------------
  // Whitespace and trimming
  // ---------------------------------------------------------------------

  /** Rust's `char::is_whitespace`: the Unicode White_Space property. */
  predicate IsWhitespace(c: char)
  {
    || c == ' '
    || ('\t' <= c <= '\r')
    || c == '\U{0085}' || c == '\U{00A0}' || c == '\U{1680}'
    || ('\U{2000}' <= c <= '\U{200A}')
    || c == '\U{2028}' || c == '\U{2029}' || c == '\U{202F}'
    || c == '\U{205F}' || c == '\U{3000}'
  }

  predicate AllWhitespace(s: string)
  {
    forall i :: 0 <= i < |s| ==> IsWhitespace(s[i])
  }

  /** `str::trim_start`: drop the leading whitespace. */
  function TrimStart(s: string): string
    decreases |s|
  {
    if s != [] && IsWhitespace(s[0]) then TrimStart(s[1..]) else s
  }

  /** `str::trim_end`: drop the trailing whitespace. */
  function TrimEnd(s: string): string
    decreases |s|
  {
    if s != [] && IsWhitespace(s[|s| - 1]) then TrimEnd(s[..|s| - 1]) else s
  }

  /**
   * `trim_start` keeps a suffix that is empty or starts with a
   * non-whitespace character, and what it drops is all whitespace: it
   * drops the longest whitespace prefix.
   */
  lemma {:induction false} TrimStartShape(s: string)
    ensures var r := TrimStart(s);
      && |r| <= |s| && r == s[|s| - |r|..]
      && (r == [] || !IsWhitespace(r[0]))
      && AllWhitespace(s[..|s| - |r|])
    decreases |s|
  {
    if s != [] && IsWhitespace(s[0]) {
      var t := s[1..];
      TrimStartShape(t);
      var r := TrimStart(t);
      var j := |t| - |r|;
      assert TrimStart(s) == r;
      assert t[j..] == s[j + 1..];
      assert s[..j + 1] == [s[0]] + t[..j];
    }
  }

  /**
   * `trim_end` keeps a prefix that is empty or ends in a non-whitespace
   * character, and what it drops is all whitespace.
   */
  lemma {:induction false} TrimEndShape(s: string)
    ensures var r := TrimEnd(s);
      && |r| <= |s| && r == s[..|r|]
      && (r == [] || !IsWhitespace(r[|r| - 1]))
      && AllWhitespace(s[|r|..])
    decreases |s|
  {
    if s != [] && IsWhitespace(s[|s| - 1]) {
      var t := s[..|s| - 1];
      TrimEndShape(t);
      var r := TrimEnd(t);
      var k := |r|;
      assert TrimEnd(s) == r;
      assert t[..k] == s[..k];
      assert s[k..] == t[k..] + [s[|s| - 1]];
    }
  }

  /** `str::trim`: whitespace removed from both ends. */
  function Trim(s: string): string
  {
    TrimEnd(TrimStart(s))
  }

  /** A string with no whitespace at either end is its own trim. */
  predicate IsTrimmed(s: string)
  {
    s == [] || (!IsWhitespace(s[0]) && !IsWhitespace(s[|s| - 1]))
  }

  lemma TrimmedIsFixed(s: string)
    requires IsTrimmed(s)
    ensures Trim(s) == s
  {
  }

  /** The result of `trim` has no whitespace at either end, and trimming is idempotent. */
  lemma TrimIsTrimmed(s: string)
    ensures IsTrimmed(Trim(s))
    ensures Trim(Trim(s)) == Trim(s)
  {
    var t := TrimStart(s);
    var r := TrimEnd(t);
    TrimStartShape(s);
    TrimEndShape(t);
    if r != [] {
      // r is a non-empty prefix of t, so it starts where t does
      assert r[0] == t[0];
    }
  }

  /** One leading whitespace character is dropped by `trim_start`. */
  lemma TrimStartDropsOne(c: char, t: string)
    requires IsWhitespace(c)
    ensures TrimStart([c] + t) == TrimStart(t)
  {
    assert ([c] + t)[1..] == t;
  }

  lemma {:induction false} TrimStartSkipsWhitespace(w: string, s: string)
    requires AllWhitespace(w)
    ensures TrimStart(w + s) == TrimStart(s)
    decreases |w|
  {
    if w == [] {
      assert w + s == s;
    } else {
      var back := w[1..];
      assert AllWhitespace(back) by {
        forall i | 0 <= i < |back| ensures IsWhitespace(back[i]) { assert back[i] == w[i + 1]; }
      }
      assert w + s == [w[0]] + (back + s);
      TrimStartDropsOne(w[0], back + s);
      TrimStartSkipsWhitespace(back, s);
    }
  }

  /** One trailing whitespace character is dropped by `trim_end`. */
  lemma TrimEndDropsOne(t: string, c: char)
    requires IsWhitespace(c)
    ensures TrimEnd(t + [c]) == TrimEnd(t)
  {
    assert (t + [c])[..|t|] == t;
  }

  lemma {:induction false} TrimEndSkipsWhitespace(s: string, w: string)
    requires AllWhitespace(w)
    ensures TrimEnd(s + w) == TrimEnd(s)
    decreases |w|
  {
    if w == [] {
      assert s + w == s;
    } else {
      var front := w[..|w| - 1];
      assert AllWhitespace(front) by {
        forall i | 0 <= i < |front| ensures IsWhitespace(front[i]) { assert front[i] == w[i]; }
      }
      assert s + w == (s + front) + [w[|w| - 1]];
      TrimEndDropsOne(s + front, w[|w| - 1]);
      TrimEndSkipsWhitespace(s, front);
    }
  }

  /**
   * Trimming a trimmed string wrapped in whitespace gives it back; in
   * particular the line terminator a reader leaves on a line is removed.
   */
  lemma TrimSurrounded(before: string, s: string, after: string)
    requires AllWhitespace(before) && AllWhitespace(after) && IsTrimmed(s)
    ensures Trim(before + s + after) == s
  {
    assert before + s + after == before + (s + after);
    TrimStartSkipsWhitespace(before, s + after);
    if s == [] {
      assert s + after == after;
      TrimStartShape(after);
      assert TrimStart(after) == [];
    } else {
      assert TrimStart(s + after) == s + after;
    }
    TrimEndSkipsWhitespace(s, after);
  }

  // ---------------------------------------------------------------------
  // Splitting on one separator character
  // ---------------------------------------------------------------------

  /** How many times `c` occurs in `s`. */
  function Count(s: string, c: char): nat
  {
    if s == [] then 0 else (if s[0] == c then 1 else 0) + Count(s[1..], c)
  }

  /**
   * `s.split(sep).collect()`: the maximal runs between separators, empty
   * runs included; the empty string splits into one empty part.
   */
  function Split(s: string, sep: char): (parts: seq<string>)
    ensures |parts| == Count(s, sep) + 1
    ensures forall i :: 0 <= i < |parts| ==> sep !in parts[i]
    decreases |s|
  {
    if s == [] then [""]
    else
      var rest := Split(s[1..], sep);
      if s[0] == sep then [""] + rest
      else [[s[0]] + rest[0]] + rest[1..]
  }

  lemma {:induction false} SplitSeparatorFree(s: string, sep: char)
    requires sep !in s
    ensures Split(s, sep) == [s]
    decreases |s|
  {
    if s != [] {
      SplitSeparatorFree(s[1..], sep);
      assert [s[0]] + s[1..] == s;
    }
  }

  lemma {:induction false} SplitAtSeparator(a: string, sep: char, b: string)
    requires sep !in a
    ensures Split(a + [sep] + b, sep) == [a] + Split(b, sep)
    decreases |a|
  {
    if a == [] {
      assert a + [sep] + b == [sep] + b;
      assert ([sep] + b)[1..] == b;
    } else {
      var s := a + [sep] + b;
      assert s[0] == a[0];
      assert s[1..] == a[1..] + [sep] + b;
      SplitAtSeparator(a[1..], sep, b);
      assert [a[0]] + a[1..] == a;
    }
  }

  // ---------------------------------------------------------------------
  // Decimal numbers
  // ---------------------------------------------------------------------

  predicate IsDigit(c: char)
  {
    '0' <= c <= '9'
  }

  predicate AllDigits(s: string)
  {
    forall i :: 0 <= i < |s| ==> IsDigit(s[i])
  }

  /** The value of a string of ASCII decimal digits, leading zeros allowed. */
  function DigitsValue(s: string): nat
    requires AllDigits(s)
    decreases |s|
  {
    if s == [] then 0
    else DigitsValue(s[..|s| - 1]) * 10 + (s[|s| - 1] as int - '0' as int)
  }

  function DigitChar(d: nat): (c: char)
    requires d < 10
    ensures IsDigit(c) && c as int - '0' as int == d
  {
    ('0' as int + d) as char
  }

  /**
   * `format!("{}", n)` for a non-negative integer: its decimal digits,
   * without leading zeros.
   */
  function NatToString(n: nat): (s: string)
    ensures |s| >= 1 && AllDigits(s) && DigitsValue(s) == n
    ensures s[0] != '0' || n == 0
    decreases n
  {
    if n < 10 then [DigitChar(n)]
    else
      var s := NatToString(n / 10) + [DigitChar(n % 10)];
      assert s[..|s| - 1] == NatToString(n / 10);
      s
  }

  /** The text after an optional leading `+`, which Rust's integer parser accepts. */
  function UnsignedDigits(s: string): string
  {
    if |s| > 0 && s[0] == '+' then s[1..] else s
  }

  /**
   * `s.parse::<u8>().ok()`: an optional `+`, then one or more ASCII digits
   * whose value fits in eight bits; anything else (empty text, a sign
   * alone, a `-`, another character, overflow) is `None`.
   */
  function ParseU8(s: string): Option<u8>
  {
    var digits := UnsignedDigits(s);
    if digits == [] || !AllDigits(digits) then None
    else if DigitsValue(digits) < 0x100 then Some(DigitsValue(digits) as u8)
    else None
  }

  /** Parsing undoes rendering. */
  lemma ParseRendered(v: u8)
    ensures ParseU8(NatToString(v as nat)) == Some(v)
  {
    var s := NatToString(v as nat);
    assert s[0] != '+';
  }

  /** Any character other than a digit (after an optional leading `+`) makes the field absent. */
  lemma ParseRejectsNonDigit(s: string, i: nat)
    requires i < |UnsignedDigits(s)| && !IsDigit(UnsignedDigits(s)[i])
    ensures ParseU8(s) == None
  {
  }

  /** A value above 255 makes the field absent instead of wrapping around. */
  lemma ParseRejectsOverflow(s: string)
    requires s != [] && AllDigits(s) && DigitsValue(s) >= 0x100
    ensures ParseU8(s) == None
  {
    assert s[0] != '+';
  }
}
