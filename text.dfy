/** String helpers shared by the classifiers and renderers: JavaScript's
    `includes`, `trim() === ''`, and the decimal rendering of a non-negative
    integer used by template literals. */
module Text {

  /** `t` occurs in `s` starting at index `i`. */
  predicate OccursAt(s: string, t: string, i: int) {
    0 <= i && i + |t| <= |s| && s[i..i + |t|] == t
  }

  /** JavaScript `s.includes(t)`. */
  predicate Contains(s: string, t: string) {
    exists i | 0 <= i <= |s| - |t| :: OccursAt(s, t, i)
  }

  /** JavaScript `s.startsWith(t)`. */
  predicate StartsWith(s: string, t: string) {
    |t| <= |s| && s[..|t|] == t
  }

  /** A witness index makes `includes` true. */
  lemma ContainsAt(s: string, t: string, i: int)
    requires OccursAt(s, t, i)
    ensures Contains(s, t)
  {
  }

  /** If some character of `t` never appears in `s`, then `s` does not include `t`. */
  lemma AbsentCharNotContained(s: string, t: string, k: int)
    requires 0 <= k < |t| && t[k] !in s
    ensures !Contains(s, t)
  {
    forall i | 0 <= i <= |s| - |t| ensures !OccursAt(s, t, i) {
      assert s[i + k] in s;
    }
  }

  /** A string that includes `t` still includes it after anything is appended. */
  lemma ContainsPrefix(s: string, u: string, t: string)
    requires Contains(s, t)
    ensures Contains(s + u, t)
  {
    var i :| 0 <= i <= |s| - |t| && OccursAt(s, t, i);
    assert (s + u)[i..i + |t|] == s[i..i + |t|];
    ContainsAt(s + u, t, i);
  }

  /** Whitespace and line terminators removed by ECMAScript `String.prototype.trim`. */
  predicate IsWhitespace(c: char) {
    c == '\t' || c == '\n' || c == '\U{000B}' || c == '\U{000C}' || c == '\r' || c == ' '
    || c == '\U{00A0}' || c == '\U{1680}' || ('\U{2000}' <= c <= '\U{200A}')
    || c == '\U{2028}' || c == '\U{2029}' || c == '\U{202F}' || c == '\U{205F}'
    || c == '\U{3000}' || c == '\U{FEFF}'
  }

  /** `!s || s.trim() === ''`: empty, or whitespace only. */
  predicate IsBlank(s: string) {
    forall i | 0 <= i < |s| :: IsWhitespace(s[i])
  }

  predicate IsDigit(c: char) {
    '0' <= c <= '9'
  }

  predicate AllDigits(s: string) {
    forall i | 0 <= i < |s| :: IsDigit(s[i])
  }

  predicate NoDigits(s: string) {
    forall i | 0 <= i < |s| :: !IsDigit(s[i])
  }

  function DigitChar(d: nat): (c: char)
    requires d < 10
    ensures IsDigit(c)
  {
    "0123456789"[d]
  }

  function DigitValue(c: char): (d: nat)
    requires IsDigit(c)
    ensures d < 10
  {
    (c as int - '0' as int) as nat
  }

  lemma DigitRoundTrip(d: nat)
    requires d < 10
    ensures DigitValue(DigitChar(d)) == d
  {
  }

  /** Decimal rendering of a non-negative integer, as `${n}` produces it:
      no sign, no leading zeros. */
  function NatToString(n: nat): (r: string)
    ensures 1 <= |r| && AllDigits(r)
    ensures n < 10 <==> |r| == 1
    ensures |r| > 1 ==> r[0] != '0'
    decreases n
  {
    if n < 10 then [DigitChar(n)] else NatToString(n / 10) + [DigitChar(n % 10)]
  }

  /** Reads a decimal digit string back to the number it denotes. */
  function ParseNat(s: string): (n: nat)
    requires AllDigits(s)
    decreases |s|
  {
    if s == [] then 0 else 10 * ParseNat(s[..|s| - 1]) + DigitValue(s[|s| - 1])
  }

  /** Parsing undoes rendering; hence rendering is injective. */
  lemma {:induction false} ParseNatToString(n: nat)
    ensures ParseNat(NatToString(n)) == n
    decreases n
  {
    var r := NatToString(n);
    if n < 10 {
      DigitRoundTrip(n);
    } else {
      ParseNatToString(n / 10);
      assert r[..|r| - 1] == NatToString(n / 10);
      DigitRoundTrip(n % 10);
    }
  }

  lemma NatToStringInjective(m: nat, n: nat)
    requires NatToString(m) == NatToString(n)
    ensures m == n
  {
    ParseNatToString(m);
    ParseNatToString(n);
  }

  /** Exactly the three-digit numbers render as three characters. */
  lemma {:induction false} NatToStringLength3(n: nat)
    ensures |NatToString(n)| == 3 <==> 100 <= n <= 999
  {
    if n >= 10 {
      if n / 10 >= 10 {
        assert |NatToString(n / 10 / 10)| >= 1;
        assert n >= 1000 ==> n / 10 / 10 >= 10;
      }
    }
  }

  /** A digit string that starts with a given digit string of the same length equals it. */
  lemma SamePrefixSameLength(s: string, t: string)
    requires |s| == |t| && StartsWith(s, t)
    ensures s == t
  {
  }

  /** Searching for `tag + code` (`tag` ending in a non-digit, `code` all digits)
      in `p + d`, where `p` has no digits, `p` ends with `tag` and `d` is all
      digits, can only match where `code` lines up with the start of `d`. */
  lemma {:induction false} DigitSuffixMatch(p: string, d: string, tag: string, code: string)
    requires NoDigits(p) && AllDigits(d) && AllDigits(code)
    requires |tag| >= 1 && !IsDigit(tag[|tag| - 1]) && |code| >= 1
    requires |tag| <= |p| && p[|p| - |tag|..] == tag
    ensures Contains(p + d, tag + code) <==> StartsWith(d, code)
  {
    var s, t := p + d, tag + code;
    var j := |p| - |tag|;
    if StartsWith(d, code) {
      assert s[j..j + |t|] == t by {
        forall x | 0 <= x < |t| ensures s[j..j + |t|][x] == t[x] {
          if x < |tag| {
            assert s[j + x] == p[j + x] == p[|p| - |tag|..][x];
          } else {
            assert s[j + x] == d[x - |tag|] == d[..|code|][x - |tag|];
          }
        }
      }
      ContainsAt(s, t, j);
    }
    if Contains(s, t) {
      var i :| 0 <= i <= |s| - |t| && OccursAt(s, t, i);
      assert s[i + |tag| - 1] == t[|tag| - 1] == tag[|tag| - 1];
      assert s[i + |tag|] == t[|tag|] == code[0];
      // The last tag character is not a digit, so it lies inside `p`;
      // the first code character is a digit, so it lies inside `d`.
      assert i == j;
      assert d[..|code|] == code by {
        forall x | 0 <= x < |code| ensures d[x] == code[x] {
          assert s[|p| + x] == s[i..i + |t|][|tag| + x] == t[|tag| + x];
        }
      }
    }
  }
}
