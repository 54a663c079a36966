/**
  String helpers the JavaScript code relies on: ASCII case mapping
  (`toLowerCase`, `toUpperCase`), substring search (`includes`) and the
  decimal rendering of integers (`toString`, template literals).
 */
module Text {

  function LowerChar(c: char): (r: char)
    ensures 'A' <= c <= 'Z' ==> r as int == c as int + 32
    ensures !('A' <= c <= 'Z') ==> r == c
    ensures !('A' <= r <= 'Z')
  {
    if 'A' <= c <= 'Z' then (c as int + 32) as char else c
  }

  function UpperChar(c: char): (r: char)
    ensures !('a' <= r <= 'z')
    ensures LowerChar(r) == LowerChar(c)
  {
    if 'a' <= c <= 'z' then (c as int - 32) as char else c
  }

  /** `s.toLowerCase()`, restricted to ASCII letters. */
  function Lower(s: string): (r: string)
    ensures |r| == |s|
    ensures forall i :: 0 <= i < |s| ==> r[i] == LowerChar(s[i])
  {
    if s == [] then [] else [LowerChar(s[0])] + Lower(s[1..])
  }

  /** A string without upper-case letters is its own lower-cased form. */
  lemma LowerKeepsLowerCase(s: string)
    requires forall i :: 0 <= i < |s| ==> !('A' <= s[i] <= 'Z')
    ensures Lower(s) == s
  {
  }

  lemma LowerIdempotent(s: string)
    ensures Lower(Lower(s)) == Lower(s)
  {
    LowerKeepsLowerCase(Lower(s));
  }

  /** A slice of a lower-cased string is already lower-case. */
  lemma LowerOfLowerSlice(s: string, i: nat, j: nat)
    requires i <= j <= |s|
    ensures Lower(Lower(s)[i..j]) == Lower(s)[i..j]
  {
    LowerKeepsLowerCase(Lower(s)[i..j]);
  }

  predicate IsPrefix(p: string, s: string) {
    |p| <= |s| && s[..|p|] == p
  }

  /** `s.includes(sub)`, by scanning the start positions of `s`. */
  predicate Contains(s: string, sub: string)
    decreases |s|
  {
    IsPrefix(sub, s) || (|s| > 0 && Contains(s[1..], sub))
  }

  /** `sub` occurs in `s` starting at position `i`. */
  predicate OccursAt(s: string, sub: string, i: int) {
    0 <= i <= |s| - |sub| && s[i..i + |sub|] == sub
  }

  /** `Contains` holds exactly when `sub` occurs at some position of `s`. */
  lemma {:induction false} ContainsIff(s: string, sub: string)
    ensures Contains(s, sub) <==> exists i :: OccursAt(s, sub, i)
    decreases |s|
  {
    if IsPrefix(sub, s) {
      assert OccursAt(s, sub, 0);
    } else if |s| > 0 {
      ContainsIff(s[1..], sub);
      if exists i :: OccursAt(s, sub, i) {
        var i :| OccursAt(s, sub, i);
        assert i != 0;
        assert OccursAt(s[1..], sub, i - 1) by {
          assert s[1..][i - 1..i - 1 + |sub|] == s[i..i + |sub|];
        }
      }
      if Contains(s[1..], sub) {
        var j :| OccursAt(s[1..], sub, j);
        assert OccursAt(s, sub, j + 1) by {
          assert s[1..][j..j + |sub|] == s[j + 1..j + 1 + |sub|];
        }
      }
    } else {
      assert |sub| > 0;
    }
  }

  /** A string only includes strings no longer than itself. */
  lemma {:induction false} ContainsShorter(s: string, sub: string)
    requires Contains(s, sub)
    ensures |sub| <= |s|
    decreases |s|
  {
    if !IsPrefix(sub, s) {
      ContainsShorter(s[1..], sub);
    }
  }

  /** Every string contains the empty string. */
  lemma ContainsEmpty(s: string)
    ensures Contains(s, "")
  {
    assert IsPrefix("", s);
  }

  /** A string contains each of its slices. */
  lemma {:induction false} ContainsSlice(s: string, i: nat, j: nat)
    requires i <= j <= |s|
    ensures Contains(s, s[i..j])
    decreases i
  {
    if i == 0 {
      assert IsPrefix(s[i..j], s);
    } else {
      assert s[1..][i - 1..j - 1] == s[i..j] by {
        forall k | 0 <= k < j - i ensures s[1..][i - 1..j - 1][k] == s[i..j][k] {
          assert s[1..][i - 1 + k] == s[i + k];
        }
      }
      ContainsSlice(s[1..], i - 1, j - 1);
    }
  }

  /** A message built from fixed text and two inserted values includes both values. */
  lemma ContainsFields(a: string, x: string, b: string, y: string, c: string)
    ensures IsPrefix(a, a + x + b + y + c)
    ensures Contains(a + x + b + y + c, x)
    ensures Contains(a + x + b + y + c, y)
  {
    var m := a + x + b + y + c;
    var i := |a|;
    var j := i + |x| + |b|;
    assert m[..|a|] == a;
    assert m[i..i + |x|] == x;
    assert m[j..j + |y|] == y;
    ContainsSlice(m, i, i + |x|);
    ContainsSlice(m, j, j + |y|);
  }

  function DigitChar(d: nat): (c: char)
    requires d < 10
    ensures '0' <= c <= '9'
  {
    ('0' as int + d) as char
  }

  predicate AllDigits(s: string) {
    forall i :: 0 <= i < |s| ==> '0' <= s[i] <= '9'
  }

  /** `n.toString()` for a non-negative integer: its shortest decimal form. */
  function NatToDecimal(n: nat): (r: string)
    ensures |r| >= 1 && AllDigits(r)
    ensures |r| > 1 ==> r[0] != '0'
  {
    if n < 10 then [DigitChar(n)] else NatToDecimal(n / 10) + [DigitChar(n % 10)]
  }

  /**
    `i.toString()` for any integer: the magnitude's decimal digits, with a
    minus sign before them when the number is negative.
   */
  function IntToDecimal(i: int): (r: string)
    ensures i >= 0 ==> AllDigits(r) && ParseDecimal(r) == i
    ensures i < 0 ==> |r| >= 2 && r[0] == '-' && AllDigits(r[1..]) && ParseDecimal(r[1..]) == -i
  {
    if i < 0 then
      var digits := NatToDecimal(-i);
      DecimalRoundTrip(-i);
      assert ("-" + digits)[1..] == digits;
      "-" + digits
    else
      DecimalRoundTrip(i);
      NatToDecimal(i)
  }

  /** Reads a string of decimal digits back as a number. */
  function ParseDecimal(s: string): (n: nat)
    requires AllDigits(s)
  {
    if s == [] then 0 else ParseDecimal(s[..|s| - 1]) * 10 + (s[|s| - 1] as int - '0' as int)
  }

  /** The decimal form names the number it was made from. */
  lemma {:induction false} DecimalRoundTrip(n: nat)
    ensures ParseDecimal(NatToDecimal(n)) == n
  {
    if n >= 10 {
      DecimalRoundTrip(n / 10);
      var s := NatToDecimal(n);
      assert s[..|s| - 1] == NatToDecimal(n / 10);
    }
  }
}
