/** The JavaScript string built-ins the client relies on: `trim`, `join` and number formatting. */
module Strings {

  /** The characters `String.prototype.trim` strips: ECMAScript WhiteSpace and LineTerminator. */
  predicate IsWhitespace(c: char)
  {
    c in {'\t', '\n', '\U{000B}', '\U{000C}', '\r', ' ', '\U{00A0}', '\U{1680}',
          '\U{2028}', '\U{2029}', '\U{202F}', '\U{205F}', '\U{3000}', '\U{FEFF}'}
    || ('\U{2000}' <= c <= '\U{200A}')
  }

  predicate AllWhitespace(s: string)
  {
    forall k :: 0 <= k < |s| ==> IsWhitespace(s[k])
  }

  /** Drops leading whitespace. */
  function TrimStart(s: string): string
  {
    if s != [] && IsWhitespace(s[0]) then TrimStart(s[1..]) else s
  }

  /** Drops trailing whitespace. */
  function TrimEnd(s: string): string
  {
    if s != [] && IsWhitespace(s[|s| - 1]) then TrimEnd(s[..|s| - 1]) else s
  }

  /** `String.prototype.trim`. */
  function Trim(s: string): string
  {
    TrimEnd(TrimStart(s))
  }

  /** The JavaScript falsiness test `!s.trim()`: the trimmed string is empty. */
  predicate IsBlank(s: string)
  {
    Trim(s) == ""
  }

  /** `TrimStart(s)` is the suffix of `s` after its longest all-blank prefix. */
  lemma {:induction false} TrimStartSpec(s: string)
    ensures |TrimStart(s)| <= |s| && TrimStart(s) == s[|s| - |TrimStart(s)|..]
    ensures AllWhitespace(s[..|s| - |TrimStart(s)|])
    ensures TrimStart(s) != [] ==> !IsWhitespace(TrimStart(s)[0])
  {
    if s != [] && IsWhitespace(s[0]) {
      var t := TrimStart(s[1..]);
      TrimStartSpec(s[1..]);
      assert s[..|s| - |t|] == [s[0]] + s[1..][..|s| - 1 - |t|];
    }
  }

  /** `TrimEnd(s)` is the prefix of `s` before its longest all-blank suffix. */
  lemma {:induction false} TrimEndSpec(s: string)
    ensures |TrimEnd(s)| <= |s| && TrimEnd(s) == s[..|TrimEnd(s)|]
    ensures AllWhitespace(s[|TrimEnd(s)|..])
    ensures TrimEnd(s) != [] ==> !IsWhitespace(TrimEnd(s)[|TrimEnd(s)| - 1])
  {
    if s != [] && IsWhitespace(s[|s| - 1]) {
      var t := TrimEnd(s[..|s| - 1]);
      TrimEndSpec(s[..|s| - 1]);
      assert s[|t|..] == s[..|s| - 1][|t|..] + [s[|s| - 1]];
    }
  }

  /** A string is blank exactly when every character of it is whitespace. */
  lemma BlankIff(s: string)
    ensures IsBlank(s) <==> AllWhitespace(s)
  {
    var t := TrimStart(s);
    TrimStartSpec(s);
    TrimEndSpec(t);
    if t != [] {
      assert t[0] == s[|s| - |t|];
    }
    if Trim(s) == [] {
      assert t[..|t|] == t;
      assert s == s[..|s| - |t|] + t;
    }
  }

  /** `Trim(s)` is the infix of `s` left once the blank prefix and the blank suffix are removed;
      it starts and ends with a non-blank character. */
  lemma TrimIsCore(s: string)
    ensures |Trim(s)| <= |TrimStart(s)| <= |s|
    ensures var lead := |s| - |TrimStart(s)|;
      Trim(s) == s[lead..lead + |Trim(s)|]
      && AllWhitespace(s[..lead]) && AllWhitespace(s[lead + |Trim(s)|..])
    ensures Trim(s) != [] ==> !IsWhitespace(Trim(s)[0]) && !IsWhitespace(Trim(s)[|Trim(s)| - 1])
  {
    var t := TrimStart(s);
    var r := TrimEnd(t);
    TrimStartSpec(s);
    TrimEndSpec(t);
    var lead := |s| - |t|;
    assert r == t[..|r|];
    assert t[..|r|] == s[lead..lead + |r|];
    assert s[lead + |r|..] == t[|r|..];
  }

  /** Trimming twice is trimming once. */
  lemma TrimIdempotent(s: string)
    ensures Trim(Trim(s)) == Trim(s)
  {
    var r := Trim(s);
    TrimIsCore(s);
    if r != [] {
      assert TrimStart(r) == r;
      assert TrimEnd(r) == r;
    }
  }

  predicate IsDigit(c: char)
  {
    '0' <= c <= '9'
  }

  function DigitChar(d: nat): (c: char)
    requires d < 10
    ensures IsDigit(c)
  {
    "0123456789"[d]
  }

  function DigitValue(c: char): (d: nat)
    requires IsDigit(c)
    ensures d < 10
  {
    (c as int - '0' as int) as nat
  }

  /** Template-literal formatting of a non-negative integer: its decimal digits, without leading zeros. */
  function NatToDecimal(n: nat): (r: string)
    ensures |r| >= 1
    ensures forall k :: 0 <= k < |r| ==> IsDigit(r[k])
    ensures r[0] == '0' ==> n == 0 && r == "0"
  {
    if n < 10 then [DigitChar(n)] else NatToDecimal(n / 10) + [DigitChar(n % 10)]
  }

  /** Reads a string of decimal digits back as a number. */
  function DecimalValue(s: string): nat
    requires forall k :: 0 <= k < |s| ==> IsDigit(s[k])
  {
    if s == [] then 0 else 10 * DecimalValue(s[..|s| - 1]) + DigitValue(s[|s| - 1])
  }

  /** Reading the formatted digits back gives the number. */
  lemma {:induction false} DecimalRoundTrip(n: nat)
    ensures DecimalValue(NatToDecimal(n)) == n
  {
    var r := NatToDecimal(n);
    if n < 10 {
      assert "0123456789"[n] as int - '0' as int == n;
    } else {
      DecimalRoundTrip(n / 10);
      assert r[..|r| - 1] == NatToDecimal(n / 10);
      assert "0123456789"[n % 10] as int - '0' as int == n % 10;
    }
  }

  /** `Array.prototype.join(sep)`: the parts with `sep` between neighbours. */
  function Join(parts: seq<string>, sep: string): string
  {
    if |parts| == 0 then ""
    else if |parts| == 1 then parts[0]
    else Join(parts[..|parts| - 1], sep) + sep + parts[|parts| - 1]
  }

  /** `part` occurs in `s` starting at index `at`. */
  predicate ContainsAt(s: string, part: string, at: nat)
  {
    at + |part| <= |s| && s[at..at + |part|] == part
  }

  /** Where the `i`-th part starts in `Join(parts, sep)`. */
  function JoinOffset(parts: seq<string>, sep: string, i: nat): nat
    requires i <= |parts|
  {
    if i == 0 then 0 else |Join(parts[..i], sep)| + |sep|
  }

  /** Joining a prefix of the parts gives a prefix of the whole join. */
  lemma {:induction false} JoinPrefix(parts: seq<string>, sep: string, i: nat)
    requires 0 < i <= |parts|
    ensures |Join(parts[..i], sep)| <= |Join(parts, sep)|
    ensures Join(parts, sep)[..|Join(parts[..i], sep)|] == Join(parts[..i], sep)
    decreases |parts|
  {
    if i < |parts| {
      var init := parts[..|parts| - 1];
      assert init[..i] == parts[..i];
      JoinPrefix(init, sep, i);
      assert |parts| > 1;
      assert Join(parts, sep) == Join(init, sep) + sep + parts[|parts| - 1];
    } else {
      assert parts[..i] == parts;
    }
  }

  /** Every part appears in the join, at its offset, and the offsets follow the order of the parts. */
  lemma {:induction false} JoinContains(parts: seq<string>, sep: string, i: nat)
    requires i < |parts|
    ensures ContainsAt(Join(parts, sep), parts[i], JoinOffset(parts, sep, i))
    ensures JoinOffset(parts, sep, i + 1) == JoinOffset(parts, sep, i) + |parts[i]| + |sep|
  {
    var upto := parts[..i + 1];
    JoinPrefix(parts, sep, i + 1);
    assert upto[..i] == parts[..i];
    var whole := Join(parts, sep);
    var head := Join(upto, sep);
    var at := JoinOffset(parts, sep, i);
    if i == 0 {
      assert head == parts[0];
    } else {
      assert head == Join(parts[..i], sep) + sep + parts[i];
    }
    assert head[at..at + |parts[i]|] == parts[i];
    assert whole[at..at + |parts[i]|] == head[at..at + |parts[i]|];
  }

  /** Between neighbouring parts the join holds exactly the separator. */
  lemma JoinSeparatorAt(parts: seq<string>, sep: string, i: nat)
    requires i + 1 < |parts|
    ensures ContainsAt(Join(parts, sep), sep, JoinOffset(parts, sep, i) + |parts[i]|)
  {
    var upto := parts[..i + 2];
    JoinContains(parts, sep, i);
    JoinPrefix(parts, sep, i + 2);
    assert upto[..i + 1] == parts[..i + 1];
    var head := Join(upto, sep);
    var at := JoinOffset(parts, sep, i) + |parts[i]|;
    assert head == Join(parts[..i + 1], sep) + sep + parts[i + 1];
    assert head[at..at + |sep|] == sep;
    assert Join(parts, sep)[at..at + |sep|] == head[at..at + |sep|];
  }

  /** `part` occurs somewhere in `s`. */
  predicate Contains(s: string, part: string)
  {
    exists at: nat | at <= |s| :: ContainsAt(s, part, at)
  }

  /** An occurrence survives text being appended after it. */
  lemma ContainsAtExtend(s: string, after: string, part: string, at: nat)
    requires ContainsAt(s, part, at)
    ensures ContainsAt(s + after, part, at)
  {
    assert (s + after)[at..at + |part|] == s[at..at + |part|];
  }

  /** An occurrence survives text being put before it, shifted by the length of that text. */
  lemma ContainsAtPrepend(before: string, s: string, part: string, at: nat)
    requires ContainsAt(s, part, at)
    ensures ContainsAt(before + s, part, |before| + at)
  {
    assert (before + s)[|before| + at..|before| + at + |part|] == s[at..at + |part|];
  }

  /** An occurrence survives text being put before and after it, shifted by what was put before. */
  lemma ContainsAtShift(before: string, s: string, after: string, part: string, at: nat)
    requires ContainsAt(s, part, at)
    ensures ContainsAt(before + s + after, part, |before| + at)
  {
    ContainsAtPrepend(before, s, part, at);
    ContainsAtExtend(before + s, after, part, |before| + at);
  }

  /** An occurrence inside an occurrence is an occurrence, at the sum of the two offsets. */
  lemma ContainsAtTrans(s: string, mid: string, part: string, at: nat, within: nat)
    requires ContainsAt(s, mid, at) && ContainsAt(mid, part, within)
    ensures ContainsAt(s, part, at + within)
  {
    forall k | 0 <= k < |part|
      ensures s[at + within + k] == part[k]
    {
      assert s[at..at + |mid|][within + k] == mid[within + k];
    }
  }
}
