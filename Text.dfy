/** The Python text built-ins the core leans on, written out: `str.isspace`,
    `str.strip`, `str.split(sep)`, `str.split()`, `str.startswith` (Dafny's
    prefix `<=`), `int()` and `float()` on decimal text, `str()` of an int,
    `repr()` of a float with one decimal place, and the `{:02}` format. */
module Text {

  datatype Option<+T> = None | Some(value: T)

  /** `str.isspace()` for one character. */
  predicate IsSpace(c: char) {
    || c == ' '
    || '\t' <= c <= '\r'
    || '\U{1c}' <= c <= '\U{1f}'
    || c == '\U{85}' || c == '\U{a0}' || c == '\U{1680}'
    || '\U{2000}' <= c <= '\U{200a}'
    || c == '\U{2028}' || c == '\U{2029}' || c == '\U{202f}' || c == '\U{205f}' || c == '\U{3000}'
  }

  /** Number of whitespace characters at the start of s. */
  function LeadingSpaces(s: string): (n: nat)
    ensures n <= |s|
    ensures forall k :: 0 <= k < n ==> IsSpace(s[k])
    ensures n < |s| ==> !IsSpace(s[n])
  {
    if s == [] || !IsSpace(s[0]) then 0 else 1 + LeadingSpaces(s[1..])
  }

  /** Number of whitespace characters at the end of s. */
  function TrailingSpaces(s: string): (n: nat)
    ensures n <= |s|
    ensures forall k :: |s| - n <= k < |s| ==> IsSpace(s[k])
    ensures n < |s| ==> !IsSpace(s[|s| - 1 - n])
  {
    if s == [] || !IsSpace(s[|s| - 1]) then 0 else 1 + TrailingSpaces(s[..|s| - 1])
  }

  /** `str.strip()`: the result neither starts nor ends with whitespace, and a
      string that already does not is returned as it is. */
  function Strip(s: string): (r: string)
    ensures |r| <= |s|
    ensures r == [] || (!IsSpace(r[0]) && !IsSpace(r[|r| - 1]))
    ensures (s == [] || (!IsSpace(s[0]) && !IsSpace(s[|s| - 1]))) ==> r == s
    ensures r == [] <==> forall k :: 0 <= k < |s| ==> IsSpace(s[k])
  {
    var a := LeadingSpaces(s);
    if a == |s| then [] else s[a..|s| - TrailingSpaces(s)]
  }

  /** `str.strip()` removes whitespace from the two ends and nothing else: the
      result is a slice of s with only whitespace before and after it. */
  lemma StripTrims(s: string)
    ensures exists i, j ::
      && 0 <= i <= j <= |s| && Strip(s) == s[i..j]
      && (forall k :: 0 <= k < i ==> IsSpace(s[k]))
      && (forall k :: j <= k < |s| ==> IsSpace(s[k]))
  {
    var a := LeadingSpaces(s);
    if a == |s| {
      assert Strip(s) == s[a..a];
    } else {
      var b := |s| - TrailingSpaces(s);
      assert Strip(s) == s[a..b];
    }
  }

  predicate IsDigit(c: char) {
    '0' <= c <= '9'
  }

  predicate AllDigits(s: string) {
    forall i :: 0 <= i < |s| ==> IsDigit(s[i])
  }

  function DigitChar(d: nat): (c: char)
    requires d < 10
    ensures IsDigit(c) && c as int - '0' as int == d
  {
    ('0' as int + d) as char
  }

  /** The value of a string of decimal digits, most significant first. */
  function DigitsValue(ds: string): nat
    requires AllDigits(ds)
  {
    if ds == [] then 0
    else 10 * DigitsValue(ds[..|ds| - 1]) + (ds[|ds| - 1] as int - '0' as int)
  }

  /** A leading zero does not change the value of a digit string. */
  lemma {:induction false} LeadingZero(ds: string)
    requires AllDigits(ds)
    ensures AllDigits("0" + ds) && DigitsValue("0" + ds) == DigitsValue(ds)
  {
    if ds != [] {
      var z := "0" + ds;
      assert z[..|z| - 1] == "0" + ds[..|ds| - 1];
      LeadingZero(ds[..|ds| - 1]);
    }
  }

  /** n / 10^k: the value of the digits n written k places after the point. */
  function Shifted(n: nat, k: nat): (r: real)
    ensures r >= 0.0
  {
    if k == 0 then n as real else Shifted(n, k - 1) / 10.0
  }

  /** `str(n)` for a natural number: the shortest digit string denoting n. */
  function NatDigits(n: nat): (ds: string)
    ensures |ds| >= 1 && AllDigits(ds) && DigitsValue(ds) == n
    ensures ds[0] == '0' ==> n == 0
  {
    if n < 10 then [DigitChar(n)]
    else
      var ds := NatDigits(n / 10) + [DigitChar(n % 10)];
      assert ds[..|ds| - 1] == NatDigits(n / 10);
      ds
  }

  /** `str(n)` for an integer: the digits of |n|, behind a minus sign when n
      is negative. */
  function IntText(n: int): (t: string)
    ensures n >= 0 ==> AllDigits(t) && DigitsValue(t) == n
    ensures n < 0 ==> |t| >= 2 && t[0] == '-' && AllDigits(t[1..]) && DigitsValue(t[1..]) == -n
  {
    if n < 0 then
      var t := "-" + NatDigits(-n);
      assert t[1..] == NatDigits(-n);
      t
    else NatDigits(n)
  }

  /** `str(n)` is a single word. */
  lemma IntTextWord(n: int)
    ensures IsWord(IntText(n))
  {
    var d := NatDigits(if n < 0 then -n else n);
    assert forall k :: 0 <= k < |d| ==> !IsSpace(d[k]) by {
      forall k | 0 <= k < |d| ensures !IsSpace(d[k]) {
        assert IsDigit(d[k]);
      }
    }
  }

  /** Python's `int(s)` on a base-10 literal, `None` standing for the
      ValueError it raises on anything else. */
  function ParseInt(s: string): (r: Option<int>)
    ensures r.Some? <==>
      var t := Strip(s);
      && |t| > 0
      && var d := if t[0] == '+' || t[0] == '-' then t[1..] else t;
         |d| > 0 && AllDigits(d)
    ensures r.Some? && r.value < 0 ==> Strip(s)[0] == '-'
  {
    var t := Strip(s);
    if |t| > 0 && (t[0] == '+' || t[0] == '-') then
      if |t| > 1 && AllDigits(t[1..]) then
        Some(if t[0] == '-' then -(DigitsValue(t[1..]) as int) else DigitsValue(t[1..]))
      else None
    else if |t| > 0 && AllDigits(t) then Some(DigitsValue(t))
    else None
  }

  /** A numeral starts with a sign or a digit and ends with a digit, so
      `str.strip()` leaves it alone. */
  lemma StripNumeral(t: string)
    requires |t| >= 1 && (t[0] == '-' || IsDigit(t[0])) && IsDigit(t[|t| - 1])
    ensures Strip(t) == t
  {
    assert !IsSpace(t[0]) && !IsSpace(t[|t| - 1]);
  }

  /** `int(str(n)) == n`. */
  lemma ParseIntText(n: int)
    ensures ParseInt(IntText(n)) == Some(n)
  {
    var t := IntText(n);
    if n < 0 {
      var d := NatDigits(-n);
      assert t == "-" + d && t[1..] == d;
      StripNumeral(t);
    } else {
      StripNumeral(t);
      assert t[0] != '+' && t[0] != '-';
    }
  }

  /** First position of c in s, or |s| when c does not occur. */
  function IndexOf(s: string, c: char): (i: nat)
    ensures i <= |s|
    ensures i < |s| ==> s[i] == c
    ensures forall k :: 0 <= k < i ==> s[k] != c
  {
    if s == [] || s[0] == c then 0 else 1 + IndexOf(s[1..], c)
  }

  /** An unsigned decimal literal: digits with at most one point and at least
      one digit on some side of it. */
  function ParseUnsignedDecimal(t: string): Option<real> {
    var i := IndexOf(t, '.');
    if i == |t| then
      if |t| > 0 && AllDigits(t) then Some(DigitsValue(t) as real) else None
    else
      var whole, frac := t[..i], t[i + 1..];
      if |whole| + |frac| > 0 && AllDigits(whole) && AllDigits(frac) then
        Some(DigitsValue(whole) as real + Shifted(DigitsValue(frac), |frac|))
      else None
  }

  /** Python's `float(s)` on a signed decimal literal with optional
      surrounding whitespace; `None` stands for the ValueError it raises. */
  function ParseFloat(s: string): (r: Option<real>)
    ensures r.Some? ==> |Strip(s)| > 0
    ensures r.Some? && r.value < 0.0 ==> Strip(s)[0] == '-'
  {
    var t := Strip(s);
    if |t| > 0 && (t[0] == '+' || t[0] == '-') then
      match ParseUnsignedDecimal(t[1..])
      case None => None
      case Some(v) => Some(if t[0] == '-' then -v else v)
    else ParseUnsignedDecimal(t)
  }

  /** `float(str(n)) == n` for an integer n. */
  lemma ParseFloatOfInt(n: int)
    ensures ParseFloat(IntText(n)) == Some(n as real)
  {
    var t := IntText(n);
    var d := NatDigits(if n < 0 then -n else n);
    NoPoint(d);
    assert ParseUnsignedDecimal(d) == Some(DigitsValue(d) as real);
    if n < 0 {
      NegativeLiteral(d, DigitsValue(d) as real);
    } else {
      UnsignedLiteral(d, DigitsValue(d) as real);
    }
  }

  lemma NoPoint(d: string)
    requires AllDigits(d)
    ensures IndexOf(d, '.') == |d|
  {
    var i := IndexOf(d, '.');
    if i < |d| {
      assert false;
    }
  }

  /** `repr(t / 10)` for a non-negative float with one decimal place, as
      Python prints it (for magnitudes where it does not switch to exponent
      notation): the digits of t / 10, a point, and the digit of t % 10. */
  function TenthsText(t: nat): (r: string)
    ensures |r| >= 3 && IsDigit(r[0]) && IsDigit(r[|r| - 1])
    ensures r[|r| - 2] == '.'
  {
    NatDigits(t / 10) + "." + [DigitChar(t % 10)]
  }

  /** Reading back a one-decimal float gives the number that was printed. */
  lemma TenthsRoundTrip(t: nat)
    ensures ParseFloat(TenthsText(t)) == Some(t as real / 10.0)
  {
    UnsignedTenths(t);
    UnsignedLiteral(TenthsText(t), t as real / 10.0);
  }

  /** An unsigned numeral that starts and ends with a digit reads as its
      decimal value. */
  lemma UnsignedLiteral(u: string, v: real)
    requires |u| > 0 && IsDigit(u[0]) && IsDigit(u[|u| - 1])
    requires ParseUnsignedDecimal(u) == Some(v)
    ensures ParseFloat(u) == Some(v)
  {
    StripNumeral(u);
    assert u[0] != '+' && u[0] != '-';
  }

  /** A minus sign before such a numeral negates its value. */
  lemma NegativeLiteral(u: string, v: real)
    requires |u| > 0 && IsDigit(u[0]) && IsDigit(u[|u| - 1])
    requires ParseUnsignedDecimal(u) == Some(v)
    ensures ParseFloat("-" + u) == Some(-v)
  {
    var s := "-" + u;
    assert s[1..] == u && s[0] == '-' && s[|s| - 1] == u[|u| - 1];
    StripNumeral(s);
  }

  lemma UnsignedTenths(a: nat)
    ensures ParseUnsignedDecimal(TenthsText(a)) == Some(a as real / 10.0)
  {
    var w := NatDigits(a / 10);
    var f := [DigitChar(a % 10)];
    var u := w + "." + f;
    NoPoint(w);
    IndexAfter(w, '.', f);
    assert u[..|w|] == w && u[|w| + 1..] == f;
    assert DigitsValue(f) == a % 10 by {
      assert f[..0] == [];
    }
    assert Shifted(a % 10, 1) == (a % 10) as real / 10.0;
    assert ParseUnsignedDecimal(u) == Some(DigitsValue(w) as real + DigitsValue(f) as real / 10.0);
    assert (a / 10) as real + (a % 10) as real / 10.0 == a as real / 10.0;
  }

  lemma {:induction false} IndexAfter(w: string, c: char, f: string)
    requires c !in w
    ensures IndexOf(w + [c] + f, c) == |w|
  {
    if w != [] {
      assert (w + [c] + f)[1..] == w[1..] + [c] + f;
      IndexAfter(w[1..], c, f);
    }
  }

  /** Python's `f"{n:02}"`: zero-padded to two characters, the sign counting
      toward the width. */
  function Pad2(n: int): (r: string)
    ensures |r| >= 2
    ensures n >= 0 ==> AllDigits(r) && DigitsValue(r) == n
    ensures 0 <= n < 100 ==> |r| == 2
  {
    if n < 0 then "-" + NatDigits(-n)
    else if n < 10 then (LeadingZero(NatDigits(n)); "0" + NatDigits(n))
    else
      assert n < 100 ==> NatDigits(n) == NatDigits(n / 10) + [DigitChar(n % 10)];
      NatDigits(n)
  }

  /** `str.split(sep)`: the pieces between separators, empty ones included. */
  function Split(s: string, sep: char): (parts: seq<string>)
    ensures |parts| == Occurrences(s, sep) + 1
    ensures forall i :: 0 <= i < |parts| ==> sep !in parts[i]
    ensures Join(parts, sep) == s
  {
    if s == [] then [[]]
    else
      var rest := Split(s[1..], sep);
      if s[0] == sep then
        var parts := [[]] + rest;
        assert parts[1..] == rest;
        assert s == [sep] + s[1..];
        parts
      else
        var parts := [[s[0]] + rest[0]] + rest[1..];
        assert |rest| > 1 ==> parts[1..] == rest[1..];
        assert s == [s[0]] + s[1..];
        parts
  }

  /** `sep.join(parts)`, the inverse of `Split`. */
  function Join(parts: seq<string>, sep: char): string
    requires |parts| >= 1
  {
    if |parts| == 1 then parts[0] else parts[0] + [sep] + Join(parts[1..], sep)
  }

  function Occurrences(s: string, c: char): nat {
    if s == [] then 0 else (if s[0] == c then 1 else 0) + Occurrences(s[1..], c)
  }

  /** Splitting what was joined gives back the pieces. */
  lemma {:induction false} SplitJoin(parts: seq<string>, sep: char)
    requires |parts| >= 1
    requires forall i :: 0 <= i < |parts| ==> sep !in parts[i]
    ensures Split(Join(parts, sep), sep) == parts
  {
    if |parts| == 1 {
      SplitFree(parts[0], sep);
    } else {
      SplitJoin(parts[1..], sep);
      var tail := Join(parts[1..], sep);
      SplitPrefix(parts[0], sep, tail);
      assert [parts[0]] + parts[1..] == parts;
    }
  }

  lemma {:induction false} SplitFree(w: string, sep: char)
    requires sep !in w
    ensures Split(w, sep) == [w]
  {
    if w != [] {
      SplitFree(w[1..], sep);
      assert [w[0]] + w[1..] == w;
    }
  }

  lemma {:induction false} SplitPrefix(w: string, sep: char, tail: string)
    requires sep !in w
    ensures Split(w + [sep] + tail, sep) == [w] + Split(tail, sep)
  {
    if w == [] {
      assert w + [sep] + tail == [sep] + tail;
      assert ([sep] + tail)[1..] == tail;
    } else {
      var s := w + [sep] + tail;
      assert s[1..] == w[1..] + [sep] + tail;
      SplitPrefix(w[1..], sep, tail);
      assert [w[0]] + w[1..] == w;
    }
  }

  /** Length of the run of non-space characters that starts s. */
  function WordLength(s: string): (n: nat)
    ensures n <= |s|
    ensures forall k :: 0 <= k < n ==> !IsSpace(s[k])
    ensures n < |s| ==> IsSpace(s[n])
  {
    if s == [] || IsSpace(s[0]) then 0 else 1 + WordLength(s[1..])
  }

  /** A non-empty run of non-whitespace characters. */
  predicate IsWord(w: string) {
    w != [] && forall k :: 0 <= k < |w| ==> !IsSpace(w[k])
  }

  /** `str.split()` with no separator: the maximal runs of non-whitespace,
      never an empty piece. */
  function Words(s: string): (ws: seq<string>)
    ensures forall i :: 0 <= i < |ws| ==> IsWord(ws[i])
    ensures ws == [] <==> forall k :: 0 <= k < |s| ==> IsSpace(s[k])
    decreases |s|
  {
    var t := s[LeadingSpaces(s)..];
    if t == [] then []
    else
      var n := WordLength(t);
      var w := t[..n];
      assert IsWord(w);
      assert !IsSpace(s[|s| - |t|]);
      [w] + Words(t[n..])
  }

  /** Words joined by single spaces, as `" ".join(ws)`. */
  function Unwords(ws: seq<string>): string
    decreases |ws|
  {
    if ws == [] then []
    else if |ws| == 1 then ws[0]
    else ws[0] + " " + Unwords(ws[1..])
  }

  /** A word followed by nothing or by whitespace is split off first. */
  lemma WordsPrefix(w: string, tail: string)
    requires IsWord(w) && (tail == [] || IsSpace(tail[0]))
    ensures Words(w + tail) == [w] + Words(tail)
  {
    var s := w + tail;
    assert !IsSpace(s[0]);
    assert s[LeadingSpaces(s)..] == s;
    var n := WordLength(s);
    assert forall k :: 0 <= k < |w| ==> s[k] == w[k];
    assert |w| < |s| ==> s[|w|] == tail[0];
    assert n == |w|;
    assert s[..n] == w && s[n..] == tail;
  }

  /** Whitespace in front does not change the words. */
  lemma WordsAfterSpace(t: string)
    ensures Words(" " + t) == Words(t)
  {
    var s := " " + t;
    assert s[1..] == t;
    assert LeadingSpaces(s) == 1 + LeadingSpaces(t);
    assert s[LeadingSpaces(s)..] == t[LeadingSpaces(t)..];
  }

  /** `str.split()` undoes `" ".join`: words joined by single spaces split back
      into the same words. */
  lemma {:induction false} WordsUnwords(ws: seq<string>)
    requires forall i :: 0 <= i < |ws| ==> IsWord(ws[i])
    ensures Words(Unwords(ws)) == ws
    decreases |ws|
  {
    if ws == [] {
    } else if |ws| == 1 {
      SingleWord(ws[0]);
    } else {
      var rest := Unwords(ws[1..]);
      WordsUnwords(ws[1..]);
      WordsAfterSpace(rest);
      assert ws[0] + " " + rest == ws[0] + (" " + rest);
      WordsPrefix(ws[0], " " + rest);
      assert [ws[0]] + ws[1..] == ws;
    }
  }

  /** A non-empty string without whitespace is one word. */
  lemma SingleWord(s: string)
    requires IsWord(s)
    ensures Words(s) == [s]
  {
    assert !IsSpace(s[0]);
    assert s[0..] == s;
    var n := WordLength(s);
    assert n == |s|;
    assert s[..n] == s && s[n..] == [];
  }
}
