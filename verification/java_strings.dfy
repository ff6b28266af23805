/** The few `java.lang.String` operations the core relies on, over Dafny's
    `string` (a sequence of characters). */
module JavaStrings {
  import opened Wrappers

  /** `Character.isWhitespace`: the ASCII controls tab, line feed, vertical tab,
      form feed, carriage return and the four separators U+001C..U+001F, plus
      every Unicode space, line or paragraph separator except the three
      no-break spaces U+00A0, U+2007 and U+202F. */
  predicate IsWhitespace(c: char) {
    c == ' ' || ('\t' <= c <= '\r') || ('\U{1C}' <= c <= '\U{1F}')
    || c == '\U{1680}' || ('\U{2000}' <= c <= '\U{2006}') || ('\U{2008}' <= c <= '\U{200A}')
    || c == '\U{2028}' || c == '\U{2029}' || c == '\U{205F}' || c == '\U{3000}'
  }

  /** `String.isBlank`: empty, or only whitespace. */
  predicate IsBlank(s: string) {
    forall i :: 0 <= i < |s| ==> IsWhitespace(s[i])
  }

  /** A null-safe `s != null && !s.isBlank()`. */
  predicate HasText(s: Option<string>) {
    s.Some? && !IsBlank(s.value)
  }

  /** The characters `String.trim` strips: every code point up to U+0020. */
  predicate IsTrimmable(c: char) {
    c <= ' '
  }

  /** `s.substring(i, j).trim()`: strip a character up to U+0020 from the
      front while there is one, then from the back, and return what is left
      of `[i, j)`. */
  function TrimRange(s: string, i: nat, j: nat): string
    requires i <= j <= |s|
    decreases j - i
  {
    if i < j && IsTrimmable(s[i]) then TrimRange(s, i + 1, j)
    else if i < j && IsTrimmable(s[j - 1]) then TrimRange(s, i, j - 1)
    else s[i..j]
  }

  /** `String.trim`: the substring between the first and the last character
      above U+0020, or "" when there is none. */
  function Trim(s: string): string
  {
    TrimRange(s, 0, |s|)
  }

  /** Trimming `[i, j)` removes exactly the leading and trailing characters up
      to U+0020: the result is a piece of `[i, j)` that neither starts nor
      ends with one, and it is empty only when `[i, j)` has nothing else. */
  lemma {:induction false} TrimRangeProperties(s: string, i: nat, j: nat)
    requires i <= j <= |s|
    ensures |TrimRange(s, i, j)| <= j - i
    ensures exists a, b :: i <= a <= b <= j && TrimRange(s, i, j) == s[a..b]
    ensures TrimRange(s, i, j) == ""
            || (!IsTrimmable(TrimRange(s, i, j)[0]) && !IsTrimmable(TrimRange(s, i, j)[|TrimRange(s, i, j)| - 1]))
    ensures TrimRange(s, i, j) == "" <==> forall k :: i <= k < j ==> IsTrimmable(s[k])
    decreases j - i
  {
    if i < j && IsTrimmable(s[i]) {
      TrimRangeProperties(s, i + 1, j);
    } else if i < j && IsTrimmable(s[j - 1]) {
      TrimRangeProperties(s, i, j - 1);
    } else {
      assert TrimRange(s, i, j) == s[i..j];
      if i < j {
        assert s[i..j][0] == s[i];
      }
    }
  }

  /** Trimming a piece of `s` is trimming the same range of `s`. */
  lemma {:induction false} TrimRangeOfSlice(s: string, i: nat, j: nat, a: nat, b: nat)
    requires i <= j <= |s| && a <= b <= j - i
    ensures TrimRange(s[i..j], a, b) == TrimRange(s, i + a, i + b)
    decreases b - a
  {
    var t := s[i..j];
    assert forall k :: a <= k < b ==> t[k] == s[i + k];
    if a < b && IsTrimmable(t[a]) {
      TrimRangeOfSlice(s, i, j, a + 1, b);
    } else if a < b && IsTrimmable(t[b - 1]) {
      TrimRangeOfSlice(s, i, j, a, b - 1);
    } else {
      assert forall k :: 0 <= k < b - a ==> t[a..b][k] == s[i + a..i + b][k];
    }
  }

  /** `s.substring(i, j).trim()` either way round. */
  lemma {:induction false} TrimOfSlice(s: string, i: nat, j: nat)
    requires i <= j <= |s|
    ensures Trim(s[i..j]) == TrimRange(s, i, j)
  {
    TrimRangeOfSlice(s, i, j, 0, j - i);
  }

  /** `trim` removes exactly the leading and trailing characters up to
      U+0020: the result is a substring of `s` that neither starts nor ends
      with one, and it is empty only when `s` has nothing else. */
  lemma {:induction false} TrimProperties(s: string)
    ensures var r := Trim(s);
      && (exists i, j :: 0 <= i <= j <= |s| && r == s[i..j])
      && (r == "" || (!IsTrimmable(r[0]) && !IsTrimmable(r[|r| - 1])))
      && (r == "" <==> forall k :: 0 <= k < |s| ==> IsTrimmable(s[k]))
  {
    TrimRangeProperties(s, 0, |s|);
  }

  predicate StartsWith(s: string, prefix: string) {
    |prefix| <= |s| && s[..|prefix|] == prefix
  }

  /** `s.contains(p)` / `s.includes(p)`. */
  predicate Contains(s: string, p: string)
    decreases |s|
  {
    StartsWith(s, p) || (|s| > 0 && Contains(s[1..], p))
  }

  /** An occurrence of `p` at offset `k` makes `s` contain `p`. */
  lemma {:induction false} ContainsAt(s: string, p: string, k: nat)
    requires k + |p| <= |s| && s[k..k + |p|] == p
    ensures Contains(s, p)
    decreases k
  {
    if k == 0 {
      assert s[..|p|] == s[k..k + |p|];
    } else {
      assert s[1..][k - 1..k - 1 + |p|] == s[k..k + |p|];
      ContainsAt(s[1..], p, k - 1);
    }
  }

  /** A text that contains `p` has it at some offset. */
  lemma {:induction false} ContainsWitness(s: string, p: string) returns (k: nat)
    requires Contains(s, p)
    ensures k + |p| <= |s| && s[k..k + |p|] == p
    decreases |s|
  {
    if StartsWith(s, p) {
      k := 0;
    } else {
      var j := ContainsWitness(s[1..], p);
      assert s[1..][j..j + |p|] == s[j + 1..j + 1 + |p|];
      k := j + 1;
    }
  }

  /** `s.indexOf(c)`, with -1 for "not found". */
  function IndexOf(s: string, c: char): (i: int)
    ensures -1 <= i < |s|
    ensures i == -1 <==> c !in s
    ensures 0 <= i ==> s[i] == c && c !in s[..i]
  {
    if |s| == 0 then -1
    else if s[0] == c then 0
    else var k := IndexOf(s[1..], c); if k == -1 then -1 else k + 1
  }

  /** `Character.toLowerCase` restricted to ASCII: 'A'..'Z' become 'a'..'z',
      everything else is unchanged. */
  function AsciiLower(c: char): (r: char)
    ensures 'A' <= c <= 'Z' ==> 'a' <= r <= 'z'
    ensures !('A' <= c <= 'Z') ==> r == c
  {
    if 'A' <= c <= 'Z' then (c as int + 32) as char else c
  }

  function AsciiLowerString(s: string): (r: string)
    ensures |r| == |s|
    ensures forall i :: 0 <= i < |s| ==> r[i] == AsciiLower(s[i])
  {
    if |s| == 0 then [] else [AsciiLower(s[0])] + AsciiLowerString(s[1..])
  }

  function DigitChar(d: nat): char
    requires d < 10
  {
    ['0', '1', '2', '3', '4', '5', '6', '7', '8', '9'][d]
  }

  /** The decimal digits of a natural number, as `StringBuilder.append(int)` writes them. */
  function NatToString(n: nat): (r: string)
    ensures |r| > 0
    decreases n
  {
    if n < 10 then [DigitChar(n)] else NatToString(n / 10) + [DigitChar(n % 10)]
  }

  /** `StringBuilder.append(int)`: a minus sign, then the digits. */
  function IntToString(n: int): string {
    if n < 0 then "-" + NatToString(-n) else NatToString(n)
  }

  /** The value of a string of decimal digits, as `Integer.parseInt` reads it. */
  function DecimalValue(s: string): nat
    decreases |s|
  {
    if |s| == 0 then 0
    else DecimalValue(s[..|s| - 1]) * 10 + (if '0' <= s[|s| - 1] <= '9' then s[|s| - 1] as int - '0' as int else 0)
  }

  /** Decimal rendering is faithful: the digits written for `n` are digits,
      read back as `n`, and start with a zero only for zero itself. */
  lemma {:induction false} NatToStringRoundTrip(n: nat)
    ensures forall k :: 0 <= k < |NatToString(n)| ==> '0' <= NatToString(n)[k] <= '9'
    ensures DecimalValue(NatToString(n)) == n
    ensures NatToString(n)[0] == '0' ==> n == 0
    decreases n
  {
    if n < 10 {
      DigitCharValue(n);
      assert DecimalValue(NatToString(n)) == DecimalValue([]) * 10 + n;
    } else {
      NatToStringRoundTrip(n / 10);
      DigitCharValue(n % 10);
      var s := NatToString(n);
      assert s[..|s| - 1] == NatToString(n / 10);
      assert s[|s| - 1] == DigitChar(n % 10);
      assert DecimalValue(s) == DecimalValue(NatToString(n / 10)) * 10 + n % 10;
      assert (n / 10) * 10 + n % 10 == n;
    }
  }

  lemma {:induction false} DigitCharValue(d: nat)
    requires d < 10
    ensures '0' <= DigitChar(d) <= '9' && DigitChar(d) as int - '0' as int == d
  {
  }
}
