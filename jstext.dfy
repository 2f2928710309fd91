/** The JavaScript string and number primitives the trip planner relies on:
    `String.prototype.trim`, `parseInt` on decimal text, the decimal
    rendering of integers in template literals, `||` defaults, and
    `Array.prototype.join`, each with the properties the rest of the
    model uses. */
module JsText {
  import opened Wrappers

  // ---------------------------------------------------------------- whitespace

  /** ECMAScript WhiteSpace and LineTerminator code points: what `trim`
      removes and what `parseInt` skips before the number. */
  predicate IsWhitespace(c: char) {
    c == '\t' || c == '\n' || c == '\U{000B}' || c == '\U{000C}' || c == '\r' ||
    c == ' ' || c == '\U{00A0}' || c == '\U{1680}' || ('\U{2000}' <= c <= '\U{200A}') ||
    c == '\U{2028}' || c == '\U{2029}' || c == '\U{202F}' || c == '\U{205F}' ||
    c == '\U{3000}' || c == '\U{FEFF}'
  }

  predicate AllWhitespace(s: string) {
    forall i :: 0 <= i < |s| ==> IsWhitespace(s[i])
  }

  /** Number of whitespace characters at the start of `s`. */
  function LeadingWhitespace(s: string): (n: nat)
    ensures n <= |s|
    ensures AllWhitespace(s[..n])
    ensures n < |s| ==> !IsWhitespace(s[n])
  {
    if |s| == 0 || !IsWhitespace(s[0]) then 0
    else
      var m := LeadingWhitespace(s[1..]);
      assert s[..m + 1] == [s[0]] + s[1..][..m];
      m + 1
  }

  /** Number of whitespace characters at the end of `s`. */
  function TrailingWhitespace(s: string): (n: nat)
    ensures n <= |s|
    ensures AllWhitespace(s[|s| - n..])
    ensures n < |s| ==> !IsWhitespace(s[|s| - 1 - n])
  {
    if |s| == 0 || !IsWhitespace(s[|s| - 1]) then 0
    else
      var init := s[..|s| - 1];
      var m := TrailingWhitespace(init);
      assert s[|s| - (m + 1)..] == init[|init| - m..] + [s[|s| - 1]];
      m + 1
  }

  /** `String.prototype.trim`: the longest middle part of `s` that neither
      starts nor ends with whitespace; everything cut off is whitespace. */
  function Trim(s: string): (r: string)
    ensures r == [] || (!IsWhitespace(r[0]) && !IsWhitespace(r[|r| - 1]))
    ensures LeadingWhitespace(s) + |r| <= |s|
    ensures r == s[LeadingWhitespace(s)..LeadingWhitespace(s) + |r|]
    ensures AllWhitespace(s[..LeadingWhitespace(s)])
    ensures AllWhitespace(s[LeadingWhitespace(s) + |r|..])
  {
    var start := LeadingWhitespace(s);
    var t := s[start..];
    var r := t[..|t| - TrailingWhitespace(t)];
    assert r == s[start..start + |r|];
    assert s[start + |r|..] == t[|t| - TrailingWhitespace(t)..];
    r
  }

  /** A string that neither starts nor ends with whitespace is its own trim. */
  lemma TrimOfTrimmed(s: string)
    requires s == [] || (!IsWhitespace(s[0]) && !IsWhitespace(s[|s| - 1]))
    ensures Trim(s) == s
  {
    if s != [] {
      assert LeadingWhitespace(s) == 0;
      assert TrailingWhitespace(s) == 0;
    }
  }

  /** Trimming twice is trimming once. */
  lemma TrimIdempotent(s: string)
    ensures Trim(Trim(s)) == Trim(s)
  {
    TrimOfTrimmed(Trim(s));
  }

  /** Whitespace appended to a string does not change its trim. */
  lemma {:induction false} TrimIgnoresTrailingWhitespace(s: string, w: string)
    requires AllWhitespace(w)
    ensures Trim(s + w) == Trim(s)
  {
    if LeadingWhitespace(s) == |s| {
      BlankPlusWhitespaceTrims(s, w);
    } else {
      TrailingWhitespaceAfterText(s, w);
    }
  }

  /** A blank string followed by whitespace trims to nothing, as it does alone. */
  lemma {:induction false} BlankPlusWhitespaceTrims(s: string, w: string)
    requires AllWhitespace(w) && LeadingWhitespace(s) == |s|
    ensures Trim(s + w) == Trim(s) == []
  {
    assert s[..|s|] == s;
    AllWhitespaceAppend(s, w);
    AllWhitespaceTrimsToEmpty(s + w);
    AllWhitespaceTrimsToEmpty(s);
  }

  lemma {:induction false} AllWhitespaceAppend(s: string, w: string)
    requires AllWhitespace(s) && AllWhitespace(w)
    ensures AllWhitespace(s + w)
  {
    var t := s + w;
    forall i | 0 <= i < |t| ensures IsWhitespace(t[i]) {
      if i < |s| { assert t[i] == s[i]; } else { assert t[i] == w[i - |s|]; }
    }
  }

  /** After some non-blank text, appended whitespace only lengthens the
      trailing run that trimming removes. */
  lemma {:induction false} TrailingWhitespaceAfterText(s: string, w: string)
    requires AllWhitespace(w) && LeadingWhitespace(s) < |s|
    ensures Trim(s + w) == Trim(s)
  {
    var t := s + w;
    var a := LeadingWhitespace(s);
    LeadingWhitespaceOfAppend(s, w);
    var ts := s[a..];
    assert t[a..] == ts + w;
    var b := TrailingWhitespace(ts);
    assert b < |ts| by {
      assert !IsWhitespace(ts[0]);
    }
    TrailingWhitespaceOfAppend(ts, w);
    TrimByCut(s, a, b);
    TrimByCut(t, a, b + |w|);
    assert (ts + w)[..|ts| + |w| - (b + |w|)] == ts[..|ts| - b];
  }

  /** The trim of `s` is what is left once its leading run of `a` and the
      trailing run of `b` after it are cut. */
  lemma TrimByCut(s: string, a: nat, b: nat)
    requires a == LeadingWhitespace(s) && b == TrailingWhitespace(s[a..])
    ensures Trim(s) == s[a..][..|s| - a - b]
  {
  }

  /** A string made only of whitespace trims to the empty string. */
  lemma AllWhitespaceTrimsToEmpty(s: string)
    requires AllWhitespace(s)
    ensures Trim(s) == []
  {
  }

  lemma {:induction false} LeadingWhitespaceOfAppend(s: string, w: string)
    requires LeadingWhitespace(s) < |s|
    ensures LeadingWhitespace(s + w) == LeadingWhitespace(s)
    decreases |s|
  {
    if IsWhitespace(s[0]) {
      assert (s + w)[1..] == s[1..] + w;
      LeadingWhitespaceOfAppend(s[1..], w);
    }
  }

  lemma {:induction false} TrailingWhitespaceOfAppend(s: string, w: string)
    requires AllWhitespace(w)
    requires TrailingWhitespace(s) < |s|
    ensures TrailingWhitespace(s + w) == TrailingWhitespace(s) + |w|
    decreases |w|
  {
    if w != [] {
      var t := s + w;
      assert t[|t| - 1] == w[|w| - 1];
      assert t[..|t| - 1] == s + w[..|w| - 1];
      TrailingWhitespaceOfAppend(s, w[..|w| - 1]);
    } else {
      assert s + w == s;
    }
  }

  // ---------------------------------------------------------------- decimal numbers

  predicate IsDigit(c: char) {
    '0' <= c <= '9'
  }

  predicate AllDigits(s: string) {
    forall i :: 0 <= i < |s| ==> IsDigit(s[i])
  }

  function DigitChar(d: nat): (c: char)
    requires d < 10
    ensures IsDigit(c) && c as int - '0' as int == d
  {
    (d + '0' as int) as char
  }

  function DigitValue(c: char): (d: nat)
    requires IsDigit(c)
    ensures d < 10
  {
    c as int - '0' as int
  }

  /** Decimal digits of a natural number, most significant first, as a
      template literal renders it. */
  function NatToString(n: nat): (s: string)
    ensures |s| >= 1 && AllDigits(s)
    ensures s[0] == '0' ==> n == 0
  {
    if n < 10 then [DigitChar(n)] else NatToString(n / 10) + [DigitChar(n % 10)]
  }

  /** Decimal rendering of an integer, with a leading '-' when negative. */
  function IntToString(n: int): (s: string)
    ensures |s| >= 1
    ensures n >= 0 ==> s == NatToString(n)
    ensures n < 0 ==> s == "-" + NatToString(-n)
  {
    if n < 0 then "-" + NatToString(-n) else NatToString(n)
  }

  /** The value of a string of decimal digits. */
  function DigitsValue(s: string): nat
    requires AllDigits(s)
  {
    if s == [] then 0 else 10 * DigitsValue(s[..|s| - 1]) + DigitValue(s[|s| - 1])
  }

  /** Reading back the digits of `n` gives `n`. */
  lemma {:induction false} DigitsValueOfNatToString(n: nat)
    ensures DigitsValue(NatToString(n)) == n
  {
    if n >= 10 {
      var s := NatToString(n);
      assert s[..|s| - 1] == NatToString(n / 10);
      DigitsValueOfNatToString(n / 10);
    }
  }

  /** Length of the longest prefix of `s` made of digits. */
  function DigitPrefix(s: string): (k: nat)
    ensures k <= |s| && AllDigits(s[..k])
    ensures k < |s| ==> !IsDigit(s[k])
  {
    if |s| == 0 || !IsDigit(s[0]) then 0
    else
      var m := DigitPrefix(s[1..]);
      assert s[..m + 1] == [s[0]] + s[1..][..m];
      m + 1
  }

  lemma {:induction false} DigitPrefixOfDigitsThen(d: string, rest: string)
    requires AllDigits(d)
    requires rest == [] || !IsDigit(rest[0])
    ensures DigitPrefix(d + rest) == |d|
    decreases |d|
  {
    if d != [] {
      assert (d + rest)[1..] == d[1..] + rest;
      DigitPrefixOfDigitsThen(d[1..], rest);
    } else {
      assert d + rest == rest;
    }
  }

  /** `parseInt(s)` on decimal text: skip leading whitespace, take an
      optional sign and the longest run of digits after it. `None` stands
      for `NaN` (no digit where the number should start). */
  function ParseInt(s: string): (r: Option<int>)
    ensures r.Some? <==>
      var t := s[LeadingWhitespace(s)..];
      var u := if |t| > 0 && (t[0] == '-' || t[0] == '+') then t[1..] else t;
      |u| > 0 && IsDigit(u[0])
  {
    var t := s[LeadingWhitespace(s)..];
    var negative := |t| > 0 && t[0] == '-';
    var u := if |t| > 0 && (t[0] == '-' || t[0] == '+') then t[1..] else t;
    var k := DigitPrefix(u);
    var magnitude: int := if k == 0 then 0 else DigitsValue(u[..k]);
    if k == 0 then None
    else if negative then Some(-magnitude)
    else Some(magnitude)
  }

  /** `parseInt` reads back the rendering of any integer, whatever follows
      it, as long as the next character is not a digit ("2.5" gives 2,
      "3. Goa" gives 3). */
  lemma ParseIntOfRendered(n: int, rest: string)
    requires rest == [] || !IsDigit(rest[0])
    ensures ParseInt(IntToString(n) + rest) == Some(n)
  {
    var m := if n < 0 then -n else n;
    var d := NatToString(m);
    var s := IntToString(n) + rest;
    assert LeadingWhitespace(s) == 0 by {
      assert s[0] == '-' || IsDigit(s[0]);
    }
    assert s[0..] == s;
    var u := if n < 0 then s[1..] else s;
    assert u == d + rest by {
      if n < 0 { assert s == "-" + (d + rest); }
    }
    DigitsPrefixValue(d, rest);
    DigitsValueOfNatToString(m);
  }

  /** The number read from digits followed by a non-digit is the digits' value. */
  lemma DigitsPrefixValue(d: string, rest: string)
    requires AllDigits(d) && |d| > 0
    requires rest == [] || !IsDigit(rest[0])
    ensures DigitPrefix(d + rest) == |d|
    ensures (d + rest)[..|d|] == d
  {
    DigitPrefixOfDigitsThen(d, rest);
    assert (d + rest)[..|d|] == d;
  }

  /** `parseInt(s) || 1`: the day count read from a number field, where
      NaN and 0 fall back to 1. */
  function DaysOrOne(s: string): (r: int)
    ensures r != 0
    ensures ParseInt(s).Some? && ParseInt(s).value != 0 ==> r == ParseInt(s).value
    ensures ParseInt(s) == Some(0) ==> r == 1
    ensures ParseInt(s).None? ==> r == 1
  {
    match ParseInt(s)
    case Some(v) => if v != 0 then v else 1
    case None => 1
  }

  /** Any non-zero day count typed into the field is read back as itself;
      0 and text without a leading number become 1. */
  lemma DaysOrOneOfRendered(n: int)
    ensures DaysOrOne(IntToString(n)) == if n == 0 then 1 else n
  {
    ParseIntOfRendered(n, "");
    assert IntToString(n) + "" == IntToString(n);
  }

  // ---------------------------------------------------------------- `||` defaults

  /** `x || d` for a number that may be missing: `undefined`, `null` and 0
      fall back to `d`. */
  function IntOr(x: Option<int>, d: int): (r: int)
    ensures x.Some? && x.value != 0 ==> r == x.value
    ensures x.None? || x.value == 0 ==> r == d
    ensures d != 0 ==> r != 0
  {
    if x.Some? && x.value != 0 then x.value else d
  }

  /** `x || d` for a string that may be missing: `undefined`, `null` and
      the empty string fall back to `d`. */
  function StringOr(x: Option<string>, d: string): (r: string)
    ensures x.Some? && x.value != "" ==> r == x.value
    ensures x.None? || x.value == "" ==> r == d
    ensures d != "" ==> r != ""
  {
    if x.Some? && x.value != "" then x.value else d
  }

  /** A string field is truthy: present and not empty. */
  predicate Truthy(x: Option<string>) {
    x.Some? && x.value != ""
  }

  // ---------------------------------------------------------------- substrings, join, split

  /** `part` occurs in `s` starting at index `i`. */
  predicate OccursAt(s: string, part: string, i: int) {
    0 <= i <= |s| - |part| && s[i..i + |part|] == part
  }

  /** `part` occurs somewhere in `s`. */
  ghost predicate Contains(s: string, part: string) {
    exists i :: OccursAt(s, part, i)
  }

  lemma ContainsInfix(before: string, part: string, after: string)
    ensures Contains(before + part + after, part)
  {
    var s := before + part + after;
    assert OccursAt(s, part, |before|);
  }

  /** A string contains its own prefix. */
  lemma ContainsAtStart(part: string, after: string)
    ensures Contains(part + after, part)
  {
    assert OccursAt(part + after, part, 0);
  }

  /** What a suffix contains, the whole string contains. */
  lemma ContainsInSuffix(before: string, s: string, part: string)
    requires Contains(s, part)
    ensures Contains(before + s, part)
  {
    var i :| OccursAt(s, part, i);
    assert (before + s)[|before| + i..|before| + i + |part|] == s[i..i + |part|];
    assert OccursAt(before + s, part, |before| + i);
  }

  /** `Array.prototype.join(sep)`. */
  function Join(parts: seq<string>, sep: string): (r: string)
    ensures |parts| == 1 ==> r == parts[0]
  {
    if |parts| == 0 then "" else if |parts| == 1 then parts[0] else parts[0] + sep + Join(parts[1..], sep)
  }

  /** `String.prototype.split(sep)` for a one-character separator. */
  function Split(s: string, sep: char): (r: seq<string>)
    ensures |r| >= 1
  {
    if |s| == 0 then [""]
    else
      var rest := Split(s[1..], sep);
      if s[0] == sep then [""] + rest else [[s[0]] + rest[0]] + rest[1..]
  }

  lemma {:induction false} SplitWithoutSeparator(p: string, sep: char)
    requires sep !in p
    ensures Split(p, sep) == [p]
  {
    if |p| > 0 {
      SplitWithoutSeparator(p[1..], sep);
      assert [p[0]] + p[1..] == p;
    }
  }

  lemma {:induction false} SplitAfterPart(p: string, sep: char, t: string)
    requires sep !in p
    ensures Split(p + [sep] + t, sep) == [p] + Split(t, sep)
  {
    var s := p + [sep] + t;
    if |p| == 0 {
      assert s[1..] == t;
    } else {
      assert s[1..] == p[1..] + [sep] + t;
      SplitAfterPart(p[1..], sep, t);
      assert [p[0]] + p[1..] == p;
    }
  }

  /** Splitting a join on its separator gives the parts back, provided no
      part contains the separator. */
  lemma {:induction false} SplitJoin(parts: seq<string>, sep: char)
    requires |parts| >= 1
    requires forall i :: 0 <= i < |parts| ==> sep !in parts[i]
    ensures Split(Join(parts, [sep]), sep) == parts
  {
    if |parts| == 1 {
      SplitWithoutSeparator(parts[0], sep);
    } else {
      SplitJoin(parts[1..], sep);
      SplitAfterPart(parts[0], sep, Join(parts[1..], [sep]));
      assert [parts[0]] + parts[1..] == parts;
    }
  }
}
