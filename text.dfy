/**
 * The string operations of Rust's `str` that the modelled code relies on:
 * ASCII case mapping, `replace` of one character, `split` on a separator
 * with its inverse `join`, `starts_with`, `trim`, and decimal formatting
 * of integers as `format!("{}", n)` writes them.
 */
module Text {
  import opened Wrappers

  function AsciiUpper(c: char): (u: char)
    ensures 'a' <= c <= 'z' ==> u as int == c as int - 32
    ensures !('a' <= c <= 'z') ==> u == c
  {
    if 'a' <= c <= 'z' then (c as int - 32) as char else c
  }

  function AsciiLower(c: char): (l: char)
    ensures 'A' <= c <= 'Z' ==> l as int == c as int + 32
    ensures !('A' <= c <= 'Z') ==> l == c
  {
    if 'A' <= c <= 'Z' then (c as int + 32) as char else c
  }

  /** `to_ascii_uppercase` (and `to_uppercase` on ASCII text). */
  function UpperStr(s: string): (r: string)
    ensures |r| == |s|
    ensures forall i :: 0 <= i < |s| ==> r[i] == AsciiUpper(s[i])
  {
    if s == [] then [] else [AsciiUpper(s[0])] + UpperStr(s[1..])
  }

  /** `to_lowercase` on ASCII text. */
  function LowerStr(s: string): (r: string)
    ensures |r| == |s|
    ensures forall i :: 0 <= i < |s| ==> r[i] == AsciiLower(s[i])
  {
    if s == [] then [] else [AsciiLower(s[0])] + LowerStr(s[1..])
  }

  /** `replace` of every occurrence of one character by another. */
  function ReplaceChar(s: string, from: char, to: char): (r: string)
    ensures |r| == |s|
    ensures forall i :: 0 <= i < |s| ==> r[i] == (if s[i] == from then to else s[i])
  {
    if s == [] then [] else [if s[0] == from then to else s[0]] + ReplaceChar(s[1..], from, to)
  }

  predicate StartsWith(s: string, prefix: string)
  {
    |prefix| <= |s| && s[..|prefix|] == prefix
  }

  /** Index of the first occurrence of `c` in `s`. */
  function IndexOf(s: string, c: char): (i: nat)
    requires c in s
    ensures i < |s| && s[i] == c && c !in s[..i]
  {
    if s[0] == c then 0 else 1 + IndexOf(s[1..], c)
  }

  /** The first occurrence is the one with no earlier occurrence. */
  lemma {:induction false} IndexOfFirst(s: string, c: char, i: nat)
    requires i < |s| && s[i] == c && c !in s[..i]
    ensures IndexOf(s, c) == i
  {
    if i > 0 {
      assert s[0] in s[..i];
      assert s[1..][..i - 1] == s[1..i];
      assert forall x :: x in s[1..i] ==> x in s[..i];
      IndexOfFirst(s[1..], c, i - 1);
    }
  }

  /** `s.split(sep).collect()`: always at least one, possibly empty, piece. */
  function Split(s: string, sep: char): (parts: seq<string>)
    ensures |parts| >= 1
    ensures forall i :: 0 <= i < |parts| ==> sep !in parts[i]
    decreases |s|
  {
    if sep !in s then [s]
    else
      var i := IndexOf(s, sep);
      [s[..i]] + Split(s[i + 1..], sep)
  }

  /** `parts.join(sep)`. */
  function Join(parts: seq<string>, sep: char): string
    requires |parts| >= 1
  {
    if |parts| == 1 then parts[0] else parts[0] + [sep] + Join(parts[1..], sep)
  }

  lemma {:induction false} JoinSplit(s: string, sep: char)
    ensures Join(Split(s, sep), sep) == s
    decreases |s|
  {
    if sep in s {
      var i := IndexOf(s, sep);
      var rest := Split(s[i + 1..], sep);
      assert Split(s, sep) == [s[..i]] + rest;
      JoinSplit(s[i + 1..], sep);
      assert ([s[..i]] + rest)[1..] == rest;
      assert Join([s[..i]] + rest, sep) == s[..i] + [sep] + Join(rest, sep);
      assert s == s[..i] + [sep] + s[i + 1..];
    }
  }

  lemma {:induction false} SplitJoin(parts: seq<string>, sep: char)
    requires |parts| >= 1
    requires forall i :: 0 <= i < |parts| ==> sep !in parts[i]
    ensures Split(Join(parts, sep), sep) == parts
  {
    if |parts| > 1 {
      var rest := Join(parts[1..], sep);
      var s := parts[0] + [sep] + rest;
      var i := |parts[0]|;
      assert s[i] == sep;
      assert s[..i] == parts[0];
      IndexOfFirst(s, sep, i);
      assert s[i + 1..] == rest;
      assert Join(parts, sep) == s;
      SplitJoin(parts[1..], sep);
      assert Split(s, sep) == [parts[0]] + parts[1..];
    } else {
      assert sep !in parts[0];
    }
  }

  /** The characters with the Unicode White_Space property (`char::is_whitespace`). */
  predicate IsWhitespace(c: char)
  {
    ('\U{9}' <= c <= '\U{D}') || c == '\U{20}' || c == '\U{85}' || c == '\U{A0}' || c == '\U{1680}'
    || ('\U{2000}' <= c <= '\U{200A}') || c == '\U{2028}' || c == '\U{2029}' || c == '\U{202F}'
    || c == '\U{205F}' || c == '\U{3000}'
  }

  /** `trim_start`: the longest whitespace prefix removed. */
  function TrimStart(s: string): (r: string)
    ensures |r| <= |s| && r == s[|s| - |r|..]
    ensures forall i :: 0 <= i < |s| - |r| ==> IsWhitespace(s[i])
    ensures r != [] ==> !IsWhitespace(r[0])
  {
    if s != [] && IsWhitespace(s[0]) then
      var r := TrimStart(s[1..]);
      assert s[1..][|s| - 1 - |r|..] == s[|s| - |r|..];
      r
    else
      s
  }

  /** `trim_end`: the longest whitespace suffix removed. */
  function TrimEnd(s: string): (r: string)
    ensures |r| <= |s| && r == s[..|r|]
    ensures forall i :: |r| <= i < |s| ==> IsWhitespace(s[i])
    ensures r != [] ==> !IsWhitespace(r[|r| - 1])
  {
    if s != [] && IsWhitespace(s[|s| - 1]) then
      var r := TrimEnd(s[..|s| - 1]);
      assert s[..|s| - 1][..|r|] == s[..|r|];
      r
    else
      s
  }

  /** `str::trim`: whitespace removed at both ends. */
  function Trim(s: string): string
  {
    TrimEnd(TrimStart(s))
  }

  function DigitChar(d: nat): (c: char)
    requires d < 10
    ensures '0' <= c <= '9'
  {
    ('0' as int + d) as char
  }

  /** Decimal digits of a natural number, without leading zeros. */
  function NatToString(n: nat): (s: string)
    ensures |s| >= 1
    ensures forall i :: 0 <= i < |s| ==> '0' <= s[i] <= '9'
    ensures n > 0 ==> s[0] != '0'
  {
    if n < 10 then [DigitChar(n)] else NatToString(n / 10) + [DigitChar(n % 10)]
  }

  /** `format!("{}", i)` for a signed integer. */
  function IntToString(i: int): string
  {
    if i < 0 then "-" + NatToString(-i) else NatToString(i)
  }

  function DigitValue(c: char): nat
    requires '0' <= c <= '9'
  {
    c as int - '0' as int
  }

  /** The value of a non-empty string of decimal digits. */
  function DecimalValue(s: string): nat
    requires forall i :: 0 <= i < |s| ==> '0' <= s[i] <= '9'
  {
    if s == [] then 0 else DecimalValue(s[..|s| - 1]) * 10 + DigitValue(s[|s| - 1])
  }

  lemma {:induction false} NatToStringRoundTrip(n: nat)
    ensures DecimalValue(NatToString(n)) == n
  {
    if n >= 10 {
      NatToStringRoundTrip(n / 10);
      var s := NatToString(n);
      assert s[..|s| - 1] == NatToString(n / 10);
    }
  }

  predicate AllDigits(s: string)
  {
    forall i :: 0 <= i < |s| ==> '0' <= s[i] <= '9'
  }

  /** `str::parse` for a signed integer before its range check: an optional sign, then one or more digits. */
  function ParseSigned(s: string): (r: Option<int>)
    ensures r.Some? ==> s != [] && s != "-" && s != "+"
    ensures s != [] && AllDigits(s) ==> r == Some(DecimalValue(s))
  {
    if s == [] then None
    else
      var digits := if s[0] == '-' || s[0] == '+' then s[1..] else s;
      if digits == [] || !AllDigits(digits) then None
      else
        var v: int := DecimalValue(digits);
        Some(if s[0] == '-' then -v else v)
  }

  /** `str::parse::<iN>`/`<uN>`: the signed parse, refused outside [`lo`, `hi`]. */
  function ParseInRange(s: string, lo: int, hi: int): (r: Option<int>)
    ensures r.Some? ==> lo <= r.value <= hi && ParseSigned(s) == r
    ensures ParseSigned(s).Some? && lo <= ParseSigned(s).value <= hi ==> r == ParseSigned(s)
  {
    match ParseSigned(s)
    case Some(v) => if lo <= v <= hi then Some(v) else None
    case None => None
  }

  /** Parsing the decimal text of any integer gives it back. */
  lemma ParseIntToString(i: int)
    ensures ParseSigned(IntToString(i)) == Some(i)
  {
    var s := IntToString(i);
    var n: nat := if i < 0 then -i else i;
    var d := NatToString(n);
    NatToStringRoundTrip(n);
    assert AllDigits(d);
    if i < 0 {
      assert s == "-" + d;
      assert s[0] == '-' && s[1..] == d;
      var v: int := DecimalValue(d);
      assert v == -i;
      assert ParseSigned(s) == Some(-v);
    } else {
      assert s == d;
      assert '0' <= s[0] <= '9';
      assert DecimalValue(d) == i;
    }
  }

  predicate EndsWithCR(t: string)
  {
    |t| > 0 && t[|t| - 1] == '\r'
  }

  /**
   * `BufRead::lines().next()`: the text before the first line terminator,
   * "\n" or "\r\n"; the whole text when it has no '\n' (a lone trailing
   * '\r' is kept); None on empty input.
   */
  function FirstLine(s: string): (r: Option<string>)
    ensures r.None? <==> s == []
    ensures r.Some? ==> '\n' !in r.value
    ensures s != [] && '\n' !in s ==> r == Some(s)
    ensures '\n' in s ==>
              r.Some? &&
              (StartsWith(s, r.value + "\r\n") || (StartsWith(s, r.value + "\n") && !EndsWithCR(r.value)))
  {
    if s == [] then None
    else if '\n' !in s then Some(s)
    else
      var k := IndexOf(s, '\n');
      assert s[..k + 1] == s[..k] + "\n";
      if k > 0 && s[k - 1] == '\r' then
        assert s[..k + 1] == s[..k - 1] + "\r\n";
        assert s[..k - 1] == s[..k][..k - 1];
        Some(s[..k - 1])
      else
        Some(s[..k])
  }

  /** The decimal text of an integer holds neither '\n' nor '\r'. */
  lemma IntToStringNoBreaks(i: int)
    ensures '\n' !in IntToString(i) && '\r' !in IntToString(i)
    ensures !EndsWithCR(IntToString(i))
  {
    var t := IntToString(i);
    var d := NatToString(if i < 0 then -i else i);
    if i < 0 {
      assert t == "-" + d;
      assert forall k :: 1 <= k < |t| ==> t[k] == d[k - 1];
    } else {
      assert t == d;
    }
    assert forall k :: 0 <= k < |t| ==> t[k] != '\n' && t[k] != '\r';
  }

  /** The decimal text of an integer is a single line of its own. */
  lemma IntToStringFirstLine(i: int)
    ensures FirstLine(IntToString(i)) == Some(IntToString(i))
  {
    IntToStringNoBreaks(i);
  }

  /** A line ended by "\n" or by "\r\n" is read back without its terminator, whatever follows. */
  lemma FirstLineTerminated(t: string, ending: string, rest: string)
    requires '\n' !in t && !EndsWithCR(t)
    requires ending == "\n" || ending == "\r\n"
    ensures FirstLine(t + ending + rest) == Some(t)
  {
    var s := t + ending + rest;
    var k := |t| + |ending| - 1;
    assert s[..k] == t + ending[..|ending| - 1];
    assert s[k] == '\n';
    IndexOfFirst(s, '\n', k);
    if ending == "\r\n" {
      assert s[k - 1] == '\r' && s[..k - 1] == t;
    } else {
      assert s[..k] == t;
    }
  }

  /** A '\r' after the digits that no '\n' follows makes the text unparsable. */
  lemma ParseStrayCR(t: string)
    ensures ParseSigned(t + "\r") == None
  {
    var s := t + "\r";
    var digits := if s[0] == '-' || s[0] == '+' then s[1..] else s;
    if digits != [] {
      assert digits[|digits| - 1] == '\r';
      assert !AllDigits(digits);
    }
  }
}
