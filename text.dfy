/**
 * The string operations the ticket views rely on: lower-casing, substring
 * search (`String.prototype.includes`), whitespace trimming
 * (`String.prototype.trim`) and decimal rendering of a number
 * (`Number.prototype.toString`, `String.prototype.slice(-k)`).
 */
module Text {

  /** Lower-casing of one character, restricted to the ASCII letters. */
  function LowerChar(c: char): char
  {
    if 'A' <= c <= 'Z' then (c as int + 32) as char else c
  }

  /** `s.toLowerCase()` on ASCII text: every character lower-cased in place. */
  function Lower(s: string): (r: string)
    ensures |r| == |s|
    ensures forall i :: 0 <= i < |s| ==> r[i] == LowerChar(s[i])
  {
    seq(|s|, i requires 0 <= i < |s| => LowerChar(s[i]))
  }

  /** Lower-casing twice is lower-casing once. */
  lemma LowerIdempotent(s: string)
    ensures Lower(Lower(s)) == Lower(s)
  {
  }

  /** A lower-case letter occurs in `Lower(s)` only where it or its upper-case form occurs in `s`. */
  lemma LowerExcludes(s: string, c: char)
    requires 'a' <= c <= 'z'
    requires c !in s && (c as int - 32) as char !in s
    ensures c !in Lower(s)
  {
    forall i | 0 <= i < |s|
      ensures Lower(s)[i] != c
    {
      assert s[i] != c && s[i] != (c as int - 32) as char;
    }
  }

  /** `sub` occurs in `s` starting at position `i`. */
  predicate OccursAt(s: string, sub: string, i: int)
  {
    0 <= i && i + |sub| <= |s| && s[i..i + |sub|] == sub
  }

  /** `s.includes(sub)`: `sub` occurs in `s` at some position; a text includes itself and nothing longer. */
  predicate Contains(s: string, sub: string): (b: bool)
    ensures b ==> |sub| <= |s|
    ensures |sub| == |s| ==> (b <==> sub == s)
  {
    assert sub == s ==> OccursAt(s, sub, 0);
    exists i | 0 <= i <= |s| :: OccursAt(s, sub, i)
  }

  /** The empty string occurs in every string. */
  lemma ContainsEmpty(s: string)
    ensures Contains(s, "")
  {
    assert OccursAt(s, "", 0);
  }

  /** A string that lacks one of the characters of `sub` cannot contain `sub`. */
  lemma NotContainsMissingChar(s: string, sub: string, k: nat)
    requires k < |sub| && sub[k] !in s
    ensures !Contains(s, sub)
  {
  }

  /** `sub` occurs in `s` at position `i`, which proves `Contains(s, sub)`. */
  lemma ContainsAt(s: string, sub: string, i: nat)
    requires i + |sub| <= |s| && s[i..i + |sub|] == sub
    ensures Contains(s, sub)
  {
    assert OccursAt(s, sub, i);
  }

  /**
   * The characters `String.prototype.trim` removes: the ECMAScript
   * WhiteSpace and LineTerminator code points.
   */
  predicate IsSpace(c: char)
  {
    || c == '\t' || c == '\n' || c == '\U{000B}' || c == '\U{000C}' || c == '\r' || c == ' '
    || c == '\U{00A0}' || c == '\U{1680}' || ('\U{2000}' <= c <= '\U{200A}')
    || c == '\U{2028}' || c == '\U{2029}' || c == '\U{202F}' || c == '\U{205F}'
    || c == '\U{3000}' || c == '\U{FEFF}'
  }

  /** Every character of `s` is white space (this includes the empty string). */
  predicate IsBlank(s: string)
  {
    forall i :: 0 <= i < |s| ==> IsSpace(s[i])
  }

  /** Joining two white-space texts gives white space. */
  lemma BlankJoin(a: string, b: string)
    requires IsBlank(a) && IsBlank(b)
    ensures IsBlank(a + b)
  {
    forall i | 0 <= i < |a + b|
      ensures IsSpace((a + b)[i])
    {
      if i < |a| {
        assert (a + b)[i] == a[i];
      } else {
        assert (a + b)[i] == b[i - |a|];
      }
    }
  }

  /** The number of white-space characters `s` starts with. */
  function LeadingBlanks(s: string): (n: nat)
    ensures n <= |s|
    ensures forall i :: 0 <= i < n ==> IsSpace(s[i])
    ensures n == |s| || !IsSpace(s[n])
  {
    if s != [] && IsSpace(s[0]) then
      var m := LeadingBlanks(s[1..]);
      assert forall i :: 1 <= i <= m ==> s[i] == s[1..][i - 1];
      1 + m
    else 0
  }

  /** Drops the leading white space of `s`. */
  function TrimStart(s: string): (r: string)
    ensures |r| <= |s| && r == s[|s| - |r|..]
    ensures r == [] || !IsSpace(r[0])
    ensures IsBlank(s[..|s| - |r|])
  {
    s[LeadingBlanks(s)..]
  }

  /** Drops the trailing white space of `s`. */
  function TrimEnd(s: string): (r: string)
    ensures |r| <= |s| && r == s[..|r|]
    ensures r == [] || !IsSpace(r[|r| - 1])
    ensures IsBlank(s[|r|..])
  {
    if s != [] && IsSpace(s[|s| - 1]) then
      var r := TrimEnd(s[..|s| - 1]);
      assert s[..|r|] == s[..|s| - 1][..|r|];
      assert s[|r|..] == s[..|s| - 1][|r|..] + [s[|s| - 1]];
      BlankJoin(s[..|s| - 1][|r|..], [s[|s| - 1]]);
      r
    else
      assert s[|s|..] == [];
      s
  }

  /**
   * `s.trim()`: leading and trailing white space removed. The result occurs
   * in `s` and neither starts nor ends with white space.
   */
  function Trim(s: string): (r: string)
    ensures Contains(s, r)
    ensures r == [] || (!IsSpace(r[0]) && !IsSpace(r[|r| - 1]))
  {
    var t := TrimStart(s);
    var r := TrimEnd(t);
    ContainsAt(s, r, |s| - |t|);
    r
  }

  /** `s.trim()` is the empty string exactly when `s` is nothing but white space. */
  lemma TrimEmptyIffBlank(s: string)
    ensures Trim(s) == "" <==> IsBlank(s)
  {
    var t := TrimStart(s);
    if Trim(s) == "" {
      assert IsBlank(t[0..]);
      assert t == [];
      assert s[..|s| - |t|] == s;
    } else {
      var r := Trim(s);
      assert r == t[..|r|];
      assert t[0] == s[|s| - |t|];
      assert !IsSpace(s[|s| - |t|]);
    }
  }

  /** The character of a decimal digit. */
  function DigitChar(d: nat): char
    requires d < 10
  {
    ('0' as int + d) as char
  }

  /** Every character of `s` is a decimal digit. */
  predicate IsDigits(s: string)
  {
    forall i :: 0 <= i < |s| ==> '0' <= s[i] <= '9'
  }

  /**
   * `n.toString()` for a non-negative integer: its decimal digits, most
   * significant first, with no leading zero except for 0 itself.
   */
  function DecimalString(n: nat): (r: string)
    ensures |r| >= 1 && IsDigits(r)
    ensures r[0] == '0' ==> n == 0
  {
    if n < 10 then [DigitChar(n)] else DecimalString(n / 10) + [DigitChar(n % 10)]
  }

  /** The number a string of decimal digits denotes, as `parseInt(s, 10)` reads it. */
  function DigitsValue(s: string): nat
    requires IsDigits(s)
  {
    if s == [] then 0 else 10 * DigitsValue(s[..|s| - 1]) + (s[|s| - 1] as int - '0' as int)
  }

  /** Reading back the decimal rendering of `n` gives `n`. */
  lemma {:induction false} DecimalStringValue(n: nat)
    ensures DigitsValue(DecimalString(n)) == n
  {
    var r := DecimalString(n);
    if n < 10 {
      assert r[..0] == [];
    } else {
      DecimalStringValue(n / 10);
      assert r[..|r| - 1] == DecimalString(n / 10);
    }
  }

  /** Different numbers have different decimal renderings. */
  lemma DecimalStringInjective(m: nat, n: nat)
    requires m != n
    ensures DecimalString(m) != DecimalString(n)
  {
    DecimalStringValue(m);
    DecimalStringValue(n);
  }

  /** A number below `10^k` has at most `k` decimal digits. */
  lemma {:induction false} DecimalStringShort(n: nat, k: nat)
    requires k >= 1 && n < Pow10(k)
    ensures |DecimalString(n)| <= k
  {
    if n >= 10 {
      assert k > 1;
      DecimalStringShort(n / 10, k - 1);
    }
  }

  /** `s.slice(-k)` for `k > 0`: the last `k` characters of `s`, or all of `s` when it is shorter. */
  function Suffix(s: string, k: nat): (r: string)
    requires k > 0
    ensures |r| == if |s| < k then |s| else k
    ensures s == s[..|s| - |r|] + r
  {
    if |s| <= k then s else s[|s| - k..]
  }

  /** The last digits of a string of digits are digits. */
  lemma SuffixDigits(s: string, k: nat)
    requires k > 0 && IsDigits(s)
    ensures IsDigits(Suffix(s, k))
  {
    var x := Suffix(s, k);
    assert x == s[|s| - |x|..];
  }

  /** 10 to the power `k`. */
  function Pow10(k: nat): (p: nat)
    ensures p >= 1
  {
    if k == 0 then 1 else 10 * Pow10(k - 1)
  }

  /** The `k` lowest decimal digits of `n`, padded with zeros on the left. */
  function LowDigits(n: nat, k: nat): (r: string)
    ensures |r| == k
  {
    if k == 0 then [] else LowDigits(n / 10, k - 1) + [DigitChar(n % 10)]
  }

  /** A number of at least `10^(k-1)` has at least `k` decimal digits. */
  lemma {:induction false} DecimalStringLength(n: nat, k: nat)
    requires k >= 1 && n >= Pow10(k - 1)
    ensures |DecimalString(n)| >= k
  {
    if k > 1 {
      assert n >= 10 * Pow10(k - 2);
      DecimalStringLength(n / 10, k - 1);
    }
  }

  /** When `n` has at least `k` digits, its last `k` characters are its `k` lowest digits. */
  lemma {:induction false} SuffixIsLowDigits(n: nat, k: nat)
    requires k > 0 && |DecimalString(n)| >= k
    ensures Suffix(DecimalString(n), k) == LowDigits(n, k)
  {
    var s := DecimalString(n);
    if n < 10 {
      assert k == 1;
      assert Suffix(s, 1) == [DigitChar(n)];
    } else if k == 1 {
      assert Suffix(s, 1) == [DigitChar(n % 10)];
      assert LowDigits(n / 10, 0) == [];
    } else {
      var h := DecimalString(n / 10);
      SuffixIsLowDigits(n / 10, k - 1);
      assert s == h + [DigitChar(n % 10)];
      SliceAppend(h, DigitChar(n % 10), |h| - (k - 1));
    }
  }

  /** A tail of `h + [c]` that starts inside `h` is a tail of `h` followed by `c`. */
  lemma SliceAppend(h: string, c: char, j: nat)
    requires j <= |h|
    ensures (h + [c])[j..] == h[j..] + [c]
  {
  }

  /** The `k` lowest digits of `n` do not change when `10^k` is added. */
  lemma {:induction false} LowDigitsPeriodic(n: nat, k: nat)
    ensures LowDigits(n + Pow10(k), k) == LowDigits(n, k)
  {
    if k > 0 {
      var m := Pow10(k - 1);
      assert (n + 10 * m) / 10 == n / 10 + m;
      assert (n + 10 * m) % 10 == n % 10;
      LowDigitsPeriodic(n / 10, k - 1);
    }
  }
}
