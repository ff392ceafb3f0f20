/**
 * The string operations the customer search relies on: ASCII `toLowerCase`,
 * `includes`, and `toString` of an integer identifier, with a decimal parser
 * as the inverse of the latter.
 */
module Text {
  import opened Wrappers

  /** Lower-cases one ASCII letter; every other character is left as it is. */
  function LowerChar(ch: char): char
  {
    if 'A' <= ch <= 'Z' then (ch as int + 32) as char else ch
  }

  /** `String.prototype.toLowerCase`, restricted to ASCII letters. */
  function ToLower(s: string): (r: string)
    ensures |r| == |s|
    ensures forall i :: 0 <= i < |s| ==> r[i] == LowerChar(s[i])
  {
    if s == [] then [] else [LowerChar(s[0])] + ToLower(s[1..])
  }

  lemma ToLowerSlice(s: string, i: nat, j: nat)
    requires i <= j <= |s|
    ensures ToLower(s)[i..j] == ToLower(s[i..j])
  {
    assert forall k :: 0 <= k < j - i ==> ToLower(s)[i..j][k] == ToLower(s[i..j])[k];
  }

  predicate IsPrefix(p: string, s: string)
  {
    |p| <= |s| && p == s[..|p|]
  }

  /** `t` occurs in `s` starting at position `i`. */
  ghost predicate OccursAt(s: string, t: string, i: int)
  {
    0 <= i && i + |t| <= |s| && s[i..i + |t|] == t
  }

  /** Moving the start of `s` one character on moves every occurrence one position back. */
  lemma OccursShift(s: string, t: string)
    requires s != []
    ensures forall i :: OccursAt(s[1..], t, i) ==> OccursAt(s, t, i + 1)
    ensures forall j :: 0 < j && OccursAt(s, t, j) ==> OccursAt(s[1..], t, j - 1)
  {
    forall i | OccursAt(s[1..], t, i) ensures OccursAt(s, t, i + 1) {
      assert s[1..][i..i + |t|] == s[i + 1..i + 1 + |t|];
    }
    forall j | 0 < j && OccursAt(s, t, j) ensures OccursAt(s[1..], t, j - 1) {
      assert s[1..][j - 1..j - 1 + |t|] == s[j..j + |t|];
    }
  }

  /**
   * `String.prototype.includes`: tries `t` as a prefix of `s`, then of each
   * later suffix. It holds exactly when `t` occurs at some position of `s`
   * (the empty string occurs everywhere).
   */
  function Contains(s: string, t: string): (r: bool)
    ensures r <==> exists i :: OccursAt(s, t, i)
    decreases |s|
  {
    if IsPrefix(t, s) then
      assert OccursAt(s, t, 0);
      true
    else if s == [] then
      false
    else
      OccursShift(s, t);
      Contains(s[1..], t)
  }

  /** A literal occurrence is also a case-insensitive one. */
  lemma CaseInsensitiveContains(s: string, t: string)
    requires Contains(s, t)
    ensures Contains(ToLower(s), ToLower(t))
  {
    var i :| OccursAt(s, t, i);
    var ls, lt := ToLower(s), ToLower(t);
    assert ls[i..i + |t|] == lt by {
      ToLowerSlice(s, i, i + |t|);
    }
    assert OccursAt(ls, lt, i);
  }

  predicate IsDigit(ch: char)
  {
    '0' <= ch <= '9'
  }

  predicate AllDigits(s: string)
  {
    forall i :: 0 <= i < |s| ==> IsDigit(s[i])
  }

  function DigitChar(d: nat): (ch: char)
    requires d < 10
    ensures IsDigit(ch)
  {
    ('0' as int + d) as char
  }

  function DigitValue(ch: char): nat
    requires IsDigit(ch)
  {
    ch as int - '0' as int
  }

  /** The decimal digits of `n`, most significant first, without leading zeros. */
  function NatString(n: nat): (r: string)
    ensures |r| > 0 && AllDigits(r)
    ensures |r| > 1 ==> r[0] != '0'
  {
    if n < 10 then [DigitChar(n)] else NatString(n / 10) + [DigitChar(n % 10)]
  }

  /** Reads a non-empty run of decimal digits. */
  function ParseNat(s: string): nat
    requires |s| > 0 && AllDigits(s)
  {
    if |s| == 1 then DigitValue(s[0]) else ParseNat(s[..|s| - 1]) * 10 + DigitValue(s[|s| - 1])
  }

  /** The inverse of `IdString`: an optional minus sign followed by digits. */
  function ParseId(s: string): Option<int>
  {
    if |s| > 1 && s[0] == '-' && AllDigits(s[1..]) then Some(-(ParseNat(s[1..]) as int))
    else if |s| > 0 && AllDigits(s) then Some(ParseNat(s))
    else None
  }

  lemma {:induction false} NatStringRoundTrip(n: nat)
    ensures ParseNat(NatString(n)) == n
  {
    if n >= 10 {
      NatStringRoundTrip(n / 10);
      var s := NatString(n);
      assert s[..|s| - 1] == NatString(n / 10);
    }
  }

  /**
   * `Number.prototype.toString` of an integer identifier: a minus sign
   * exactly for negative identifiers, then the digits. Reading it back with
   * `ParseId` gives the identifier.
   */
  function IdString(n: int): (r: string)
    ensures |r| > 0 && (r[0] == '-' <==> n < 0)
    ensures ParseId(r) == Some(n)
  {
    if n < 0 then
      var digits := NatString(-n);
      NatStringRoundTrip(-n);
      assert ("-" + digits)[1..] == digits;
      "-" + digits
    else
      var digits := NatString(n);
      NatStringRoundTrip(n);
      assert IsDigit(digits[0]);
      digits
  }

  /** Two identifiers have the same string form only when they are equal. */
  lemma IdStringInjective(a: int, b: int)
    requires IdString(a) == IdString(b)
    ensures a == b
  {
    assert ParseId(IdString(a)) == Some(a) && ParseId(IdString(b)) == Some(b);
  }
}
