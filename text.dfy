/**
 * String helpers the server relies on from Python: substring containment (`p in s`)
 * and the decimal rendering of integers (`str(n)` inside f-strings), with a parser
 * that inverts the latter.
 */
module Text {
  import opened Wrappers

  // ---------------------------------------------------------------- substrings

  /** `p` occurs in `s` at index `i`. */
  ghost predicate OccursAt(p: string, s: string, i: int)
  {
    0 <= i && i + |p| <= |s| && s[i..i + |p|] == p
  }

  /** Reference definition of containment: `p` occurs somewhere in `s`. */
  ghost predicate IsSubstring(p: string, s: string)
  {
    exists i :: OccursAt(p, s, i)
  }

  predicate StartsWith(s: string, p: string)
  {
    |p| <= |s| && s[..|p|] == p
  }

  /** Python's `p in s` on two strings: case-sensitive, no tokenising; `"" in s` always holds. */
  predicate Contains(s: string, p: string)
    decreases |s|
  {
    StartsWith(s, p) || (|s| > 0 && Contains(s[1..], p))
  }

  lemma {:induction false} ContainsIsSubstring(s: string, p: string)
    ensures Contains(s, p) <==> IsSubstring(p, s)
    decreases |s|
  {
    if StartsWith(s, p) {
      assert OccursAt(p, s, 0);
    }
    if |s| > 0 {
      ContainsIsSubstring(s[1..], p);
      if IsSubstring(p, s[1..]) {
        var i :| OccursAt(p, s[1..], i);
        assert s[1..][i..i + |p|] == s[i + 1..i + 1 + |p|];
        assert OccursAt(p, s, i + 1);
      }
      if IsSubstring(p, s) && !StartsWith(s, p) {
        var i :| OccursAt(p, s, i);
        assert i != 0;
        assert s[1..][i - 1..i - 1 + |p|] == s[i..i + |p|];
        assert OccursAt(p, s[1..], i - 1);
      }
    } else if IsSubstring(p, s) {
      var i :| OccursAt(p, s, i);
      assert |p| == 0;
    }
  }

  /** A pattern with a character that does not occur in `s` is not a substring of it. */
  lemma CharAbsent(p: string, s: string, k: nat)
    requires k < |p|
    requires p[k] !in s
    ensures !Contains(s, p)
  {
    ContainsIsSubstring(s, p);
  }

  /** What occurs in a middle part occurs in the whole. */
  lemma SubstringOfMiddle(p: string, a: string, b: string, c: string)
    requires IsSubstring(p, b)
    ensures IsSubstring(p, a + b + c)
  {
    var i :| OccursAt(p, b, i);
    var whole := a + b + c;
    assert whole[|a| + i..|a| + i + |p|] == b[i..i + |p|];
    assert OccursAt(p, whole, |a| + i);
  }

  /** Index of the first newline of `s`, or `|s|` when there is none. */
  function FirstNewline(s: string): (k: nat)
    ensures k <= |s|
    ensures forall j :: 0 <= j < k ==> s[j] != '\n'
    ensures k < |s| ==> s[k] == '\n'
  {
    if |s| == 0 || s[0] == '\n' then 0 else 1 + FirstNewline(s[1..])
  }

  // ---------------------------------------------------------------- decimals

  predicate IsDigit(ch: char)
  {
    '0' <= ch <= '9'
  }

  predicate AllDigits(s: string)
  {
    forall i :: 0 <= i < |s| ==> IsDigit(s[i])
  }

  function DigitChar(d: int): (ch: char)
    requires 0 <= d < 10
    ensures IsDigit(ch) && ch as int - '0' as int == d
  {
    ('0' as int + d) as char
  }

  /** Decimal digits of a natural number, most significant first, no leading zero. */
  function NatDigits(n: nat): (s: string)
    ensures 0 < |s| && AllDigits(s)
    ensures s[0] == '0' ==> n == 0 && s == "0"
    decreases n
  {
    if n < 10 then [DigitChar(n)] else NatDigits(n / 10) + [DigitChar(n % 10)]
  }

  /** Python's `str(n)` for an `int`: a minus sign for negatives, then the digits. */
  function Decimal(n: int): (s: string)
    ensures 0 < |s|
    ensures s[0] == '-' <==> n < 0
    ensures forall i :: 0 <= i < |s| ==> s[i] == '-' || IsDigit(s[i])
    ensures n >= 0 ==> AllDigits(s) && (|s| > 1 ==> s[0] != '0')
    ensures n < 0 ==> 1 < |s| && AllDigits(s[1..]) && s[1] != '0'
  {
    if n < 0 then "-" + NatDigits(-n) else NatDigits(n)
  }

  /** A single digit renders as itself. */
  lemma DecimalDigit(d: int)
    requires 0 <= d < 10
    ensures Decimal(d) == [DigitChar(d)]
  {
  }

  /** The value of a string of digits. */
  function DigitsValue(s: string): nat
    requires AllDigits(s)
  {
    if |s| == 0 then 0 else 10 * DigitsValue(s[..|s| - 1]) + (s[|s| - 1] as int - '0' as int)
  }

  /** Reads an optionally signed decimal numeral; `None` for anything else. */
  function ParseDecimal(s: string): Option<int>
  {
    if 1 < |s| && s[0] == '-' && AllDigits(s[1..]) then Some(-(DigitsValue(s[1..]) as int))
    else if 0 < |s| && AllDigits(s) then Some(DigitsValue(s))
    else None
  }

  lemma {:induction false} NatDigitsValue(n: nat)
    ensures DigitsValue(NatDigits(n)) == n
    decreases n
  {
    if n >= 10 {
      var s := NatDigits(n);
      NatDigitsValue(n / 10);
      assert s[..|s| - 1] == NatDigits(n / 10);
    }
  }

  lemma DecimalRoundTrip(n: int)
    ensures ParseDecimal(Decimal(n)) == Some(n)
  {
    if n < 0 {
      assert Decimal(n)[1..] == NatDigits(-n);
      NatDigitsValue(-n);
    } else {
      NatDigitsValue(n);
    }
  }
}
