/** String operations the PHP code relies on: `implode`, `str_replace` with an
    empty replacement, integer formatting and PHP's truthiness of strings. */
module Strings {

  /** PHP converts a string to `false` exactly when it is "" or "0". */
  predicate Truthy(s: string) {
    s != "" && s != "0"
  }

  predicate IsPrefix(p: string, s: string) {
    |p| <= |s| && s[..|p|] == p
  }

  /** `t` occurs in `s` starting at index `i`. */
  predicate OccursAt(s: string, t: string, i: int) {
    0 <= i && i + |t| <= |s| && s[i..i + |t|] == t
  }

  /** `t` occurs in `s` as a contiguous substring. */
  predicate Contains(s: string, t: string) {
    exists i :: 0 <= i <= |s| && OccursAt(s, t, i)
  }

  /** `implode(sep, parts)`. */
  function Join(sep: string, parts: seq<string>): string {
    if |parts| == 0 then ""
    else if |parts| == 1 then parts[0]
    else parts[0] + sep + Join(sep, parts[1..])
  }

  /** Joining a list with one more element appends the separator and that element. */
  lemma {:induction false} JoinSnoc(sep: string, parts: seq<string>, last: string)
    requires |parts| > 0
    ensures Join(sep, parts + [last]) == Join(sep, parts) + sep + last
  {
    if |parts| == 1 {
      assert parts + [last] == [parts[0], last];
      assert Join(sep, [last]) == last;
    } else {
      assert (parts + [last])[1..] == parts[1..] + [last];
      JoinSnoc(sep, parts[1..], last);
    }
  }

  /** `str_replace(pat, '', s)`: every occurrence of `pat` found scanning left to
      right, without overlap, is removed; the result is not scanned again. */
  function RemoveAll(s: string, pat: string): (r: string)
    requires pat != []
    ensures |r| <= |s|
    decreases |s|
  {
    if |s| == 0 then []
    else if IsPrefix(pat, s) then RemoveAll(s[|pat|..], pat)
    else [s[0]] + RemoveAll(s[1..], pat)
  }

  /** A leading occurrence of `pat` is dropped. */
  lemma RemoveAllLeading(pat: string, t: string)
    requires pat != []
    ensures RemoveAll(pat + t, pat) == RemoveAll(t, pat)
  {
    assert (pat + t)[..|pat|] == pat;
    assert (pat + t)[|pat|..] == t;
  }

  /** A string in which `pat` does not occur is left as it is. */
  lemma {:induction false} RemoveAllAbsent(s: string, pat: string)
    requires pat != [] && !Contains(s, pat)
    ensures RemoveAll(s, pat) == s
    decreases |s|
  {
    if |s| > 0 {
      if IsPrefix(pat, s) {
        assert OccursAt(s, pat, 0);
      }
      if Contains(s[1..], pat) {
        var i :| 0 <= i <= |s[1..]| && OccursAt(s[1..], pat, i);
        assert s[i + 1..i + 1 + |pat|] == s[1..][i..i + |pat|];
        assert OccursAt(s, pat, i + 1);
      }
      RemoveAllAbsent(s[1..], pat);
    }
  }

  /** A string whose leading part is `a` and which starts with `pat` at least
      as long as `a` has the last character of `a` inside `pat`. */
  lemma LastCharOfPrefix(a: string, s: string, pat: string)
    requires a != [] && |a| <= |pat| && IsPrefix(pat, s) && IsPrefix(a, s)
    ensures a[|a| - 1] in pat
  {
    assert pat[|a| - 1] == s[|a| - 1] == a[|a| - 1];
  }

  /** An occurrence of `pat` at the start of `a + b` lies inside `a` when the
      last character of `a` is not part of `pat`. */
  lemma PrefixOfConcat(a: string, b: string, pat: string)
    requires a != [] && a[|a| - 1] !in pat
    ensures IsPrefix(pat, a + b) <==> IsPrefix(pat, a)
    ensures IsPrefix(pat, a) ==> |pat| < |a|
  {
    if |pat| >= |a| {
      if IsPrefix(pat, a + b) {
        LastCharOfPrefix(a, a + b, pat);
        assert false;
      }
      if IsPrefix(pat, a) {
        LastCharOfPrefix(a, a, pat);
        assert false;
      }
    } else {
      assert (a + b)[..|pat|] == a[..|pat|];
    }
  }

  /** When the last character of `a` does not occur in `pat`, no occurrence of
      `pat` can straddle `a` and `b`, so the removal splits over the two. */
  lemma {:induction false} RemoveAllConcat(a: string, b: string, pat: string)
    requires pat != []
    requires a == [] || a[|a| - 1] !in pat
    ensures RemoveAll(a + b, pat) == RemoveAll(a, pat) + RemoveAll(b, pat)
    decreases |a|
  {
    if a == [] {
      assert a + b == b;
    } else {
      PrefixOfConcat(a, b, pat);
      var k := if IsPrefix(pat, a) then |pat| else 1;
      var rest := a[k..];
      assert (a + b)[k..] == rest + b;
      assert rest == [] || rest[|rest| - 1] == a[|a| - 1];
      RemoveAllConcat(rest, b, pat);
    }
  }

  function DigitChar(d: nat): char
    requires d < 10
  {
    "0123456789"[d]
  }

  predicate IsDigit(c: char) {
    '0' <= c <= '9'
  }

  /** Decimal notation of a natural number, as PHP prints an int. */
  function NatToString(n: nat): (r: string)
    ensures |r| > 0
    ensures forall i :: 0 <= i < |r| ==> IsDigit(r[i])
  {
    if n < 10 then [DigitChar(n)] else NatToString(n / 10) + [DigitChar(n % 10)]
  }

  /** Decimal notation of an integer, with a leading '-' when it is negative. */
  function IntToString(i: int): string {
    if i < 0 then "-" + NatToString(-i) else NatToString(i)
  }

  /** The value of a string of decimal digits. */
  function DigitsValue(s: string): int
    requires forall i :: 0 <= i < |s| ==> IsDigit(s[i])
  {
    if s == [] then 0 else DigitsValue(s[..|s| - 1]) * 10 + (s[|s| - 1] as int - '0' as int)
  }

  /** Reading back the decimal notation gives the number again. */
  lemma {:induction false} NatToStringRoundTrip(n: nat)
    ensures DigitsValue(NatToString(n)) == n
  {
    if n >= 10 {
      var s := NatToString(n);
      assert s[..|s| - 1] == NatToString(n / 10);
      NatToStringRoundTrip(n / 10);
    }
  }
}
