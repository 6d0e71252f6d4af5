/** Strings as the handlers treat them: Python's `str.split`, `str.startswith`,
    `str.strip` and `int(...)` on the text a chat user sends, and the decimal
    rendering of ids that the keyboards embed in callback data. */
module Text {

  datatype Option<+T> = None | Some(value: T)

  predicate IsDigit(c: char) { '0' <= c <= '9' }

  predicate AllDigits(s: string) { forall i :: 0 <= i < |s| ==> IsDigit(s[i]) }

  predicate StartsWith(s: string, prefix: string) {
    |prefix| <= |s| && s[..|prefix|] == prefix
  }

  /** `s.split(c)`: the pieces between occurrences of `c`; never empty. */
  function Split(s: string, c: char): (r: seq<string>)
    ensures |r| >= 1
    ensures forall k :: 0 <= k < |r| ==> c !in r[k]
    decreases |s|
  {
    if s == [] then [""]
    else
      var rest := Split(s[1..], c);
      if s[0] == c then [""] + rest else [[s[0]] + rest[0]] + rest[1..]
  }

  /** `s.split(c)[k]`, or None where Python raises IndexError. */
  function Field(s: string, c: char, k: nat): Option<string> {
    var parts := Split(s, c);
    if k < |parts| then Some(parts[k]) else None
  }

  /** `s.split(c)[-1]`: the part of `s` after its last `c`, or all of `s`. */
  function LastField(s: string, c: char): (r: string)
    ensures c !in r
    ensures exists k :: 0 <= k <= |s| && r == s[k..] && (k == 0 || s[k - 1] == c)
  {
    var parts := Split(s, c);
    LastFieldStart(s, c);
    parts[|parts| - 1]
  }

  /** The last piece of `s.split(c)` is a suffix of `s`, starting at 0
      exactly when there is no `c` to split at, and right after a `c`
      otherwise. */
  lemma {:induction false} LastFieldStart(s: string, c: char)
    ensures exists k :: 0 <= k <= |s| && Split(s, c)[|Split(s, c)| - 1] == s[k..]
                        && (k == 0 <==> |Split(s, c)| == 1) && (k > 0 ==> s[k - 1] == c)
    decreases |s|
  {
    if s == [] {
      assert Split(s, c)[0] == s[0..];
    } else {
      var rest := Split(s[1..], c);
      LastFieldStart(s[1..], c);
      var k' :| 0 <= k' <= |s[1..]| && rest[|rest| - 1] == s[1..][k'..]
                && (k' == 0 <==> |rest| == 1) && (k' > 0 ==> s[1..][k' - 1] == c);
      if s[0] == c || |rest| > 1 {
        var k := k' + 1;
        assert s[1..][k'..] == s[k..];
        assert k > 0 ==> s[k - 1] == c;
      } else {
        assert rest[0] == s[1..];
        assert [s[0]] + s[1..] == s;
        assert Split(s, c)[|Split(s, c)| - 1] == s[0..];
      }
    }
  }

  lemma {:induction false} SplitNoSeparator(s: string, c: char)
    requires c !in s
    ensures Split(s, c) == [s]
    decreases |s|
  {
    if s != [] {
      assert c !in s[1..];
      SplitNoSeparator(s[1..], c);
      assert [s[0]] + s[1..] == s;
    }
  }

  lemma {:induction false} SplitAtFirst(p: string, c: char, q: string)
    requires c !in p
    ensures Split(p + [c] + q, c) == [p] + Split(q, c)
    decreases |p|
  {
    if p == [] {
      assert p + [c] + q == [c] + q;
      assert ([c] + q)[1..] == q;
    } else {
      var s := p + [c] + q;
      assert s[0] == p[0];
      assert s[1..] == p[1..] + [c] + q;
      assert c !in p[1..];
      SplitAtFirst(p[1..], c, q);
      assert [p[0]] + p[1..] == p;
    }
  }

  /** The ASCII characters Python's `str.isspace` accepts: tab, line feed,
      vertical tab, form feed, carriage return, the four separators
      0x1C-0x1F and the space. */
  predicate IsSpace(c: char) {
    ('\t' <= c <= '\r') || ('\U{1C}' <= c <= '\U{1F}') || c == ' '
  }

  /** How many whitespace characters `s` starts with. */
  function LeadingSpaces(s: string): (n: nat)
    ensures n <= |s| && forall k :: 0 <= k < n ==> IsSpace(s[k])
    ensures n < |s| ==> !IsSpace(s[n])
    decreases |s|
  {
    if s != [] && IsSpace(s[0]) then 1 + LeadingSpaces(s[1..]) else 0
  }

  /** How many whitespace characters `s` ends with. */
  function TrailingSpaces(s: string): (n: nat)
    ensures n <= |s| && forall k :: |s| - n <= k < |s| ==> IsSpace(s[k])
    ensures n < |s| ==> !IsSpace(s[|s| - 1 - n])
    decreases |s|
  {
    if s != [] && IsSpace(s[|s| - 1]) then 1 + TrailingSpaces(s[..|s| - 1]) else 0
  }

  /** `s.strip()`: the slice of `s` left once the whitespace at both ends
      is removed, and nothing else. */
  function Strip(s: string): (r: string)
    ensures exists i, j :: 0 <= i <= j <= |s| && r == s[i..j]
                           && (forall k :: 0 <= k < i ==> IsSpace(s[k]))
                           && (forall k :: j <= k < |s| ==> IsSpace(s[k]))
    ensures r != [] ==> !IsSpace(r[0]) && !IsSpace(r[|r| - 1])
  {
    var i := LeadingSpaces(s);
    var j := if i == |s| then i else |s| - TrailingSpaces(s);
    assert j > i ==> s[i..j][0] == s[i] && s[i..j][j - i - 1] == s[j - 1];
    s[i..j]
  }

  function DigitValue(c: char): nat
    requires IsDigit(c)
  {
    (c - '0') as nat
  }

  function DigitChar(n: nat): (c: char)
    requires n < 10
    ensures IsDigit(c) && DigitValue(c) == n
  {
    ('0' as int + n) as char
  }

  /** The number a non-empty run of decimal digits denotes. */
  function DigitsValue(s: string): nat
    requires AllDigits(s)
    decreases |s|
  {
    if s == [] then 0 else DigitsValue(s[..|s| - 1]) * 10 + DigitValue(s[|s| - 1])
  }

  function NatToString(n: nat): (s: string)
    ensures |s| >= 1 && AllDigits(s)
    decreases n
  {
    if n < 10 then [DigitChar(n)] else NatToString(n / 10) + [DigitChar(n % 10)]
  }

  /** `str(n)` for an int. */
  function IntToString(n: int): (s: string)
    ensures s != [] && (s[0] == '-' <==> n < 0)
    ensures forall i :: 0 < i < |s| ==> IsDigit(s[i])
  {
    if n < 0 then "-" + NatToString(-n) else NatToString(n)
  }

  /** `int(s)` on text made of an optional sign and ASCII digits; None where Python
      raises ValueError. */
  function ParseInt(s: string): (r: Option<int>)
    ensures r.Some? <==> (s != [] && AllDigits(s))
                         || (|s| >= 2 && (s[0] == '-' || s[0] == '+') && AllDigits(s[1..]))
    ensures r.Some? && r.value < 0 ==> s[0] == '-'
  {
    if s != [] && (s[0] == '-' || s[0] == '+') then
      var digits := s[1..];
      if digits != [] && AllDigits(digits) then
        var v: int := DigitsValue(digits);
        Some(if s[0] == '-' then -v else v)
      else None
    else if s != [] && AllDigits(s) then Some(DigitsValue(s))
    else None
  }

  lemma {:induction false} NatToStringValue(n: nat)
    ensures DigitsValue(NatToString(n)) == n
    decreases n
  {
    if n >= 10 {
      var s := NatToString(n);
      NatToStringValue(n / 10);
      assert s[..|s| - 1] == NatToString(n / 10);
    }
  }

  /** Rendering an id and reading it back with `int(...)` gives the id. */
  lemma ParseIntToString(n: int)
    ensures ParseInt(IntToString(n)) == Some(n)
  {
    if n < 0 {
      var s := IntToString(n);
      assert s[1..] == NatToString(-n);
      NatToStringValue(-n);
    } else {
      NatToStringValue(n);
    }
  }

  lemma IntToStringHasNo(n: int, c: char)
    requires c != '-' && !IsDigit(c)
    ensures c !in IntToString(n)
  {
  }

  /** Text that starts with `p` and a colon, `p` itself free of colons, has a
      second colon-separated field: what follows the first colon, up to the
      next one. */
  lemma FieldAfterPrefix(data: string, p: string)
    requires ':' !in p && StartsWith(data, p + ":")
    ensures Field(data, ':', 1) == Some(Split(data[|p| + 1..], ':')[0])
  {
    var rest := data[|p| + 1..];
    assert data == p + [':'] + rest;
    SplitAtFirst(p, ':', rest);
  }
}
