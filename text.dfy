/** The string operations the login pipeline relies on: `String.prototype.includes`
    and the decimal rendering of a status code inside a template literal. */
module Text {

  /** `sub` occurs in `s` as the slice starting at index `i`. */
  ghost predicate OccursAt(s: string, sub: string, i: int) {
    0 <= i && i + |sub| <= |s| && s[i..i + |sub|] == sub
  }

  /** Dropping the first character shifts every occurrence one place left,
      provided the occurrence at index 0 is ruled out. */
  lemma OccursAfterHead(s: string, sub: string)
    requires |sub| <= |s| && s[..|sub|] != sub
    ensures (exists i :: OccursAt(s, sub, i)) <==> (exists j :: OccursAt(s[1..], sub, j))
  {
    if exists i :: OccursAt(s, sub, i) {
      var i :| OccursAt(s, sub, i);
      assert i != 0;
      assert s[1..][i - 1..i - 1 + |sub|] == s[i..i + |sub|];
      assert OccursAt(s[1..], sub, i - 1);
    }
    if exists j :: OccursAt(s[1..], sub, j) {
      var j :| OccursAt(s[1..], sub, j);
      assert s[1..][j..j + |sub|] == s[j + 1..j + 1 + |sub|];
      assert OccursAt(s, sub, j + 1);
    }
  }

  /** `s.includes(sub)`: case-sensitive search for a contiguous occurrence. */
  function Includes(s: string, sub: string): (r: bool)
    ensures r <==> exists i :: OccursAt(s, sub, i)
    decreases |s|
  {
    if |sub| > |s| then false
    else if s[..|sub|] == sub then assert OccursAt(s, sub, 0); true
    else OccursAfterHead(s, sub); Includes(s[1..], sub)
  }

  /** Searching for a one-character string is membership of that character. */
  lemma IncludesChar(s: string, c: char)
    ensures Includes(s, [c]) <==> c in s
  {
    if c in s {
      var k :| 0 <= k < |s| && s[k] == c;
      assert s[k..k + 1] == [c];
      assert OccursAt(s, [c], k);
    }
    if Includes(s, [c]) {
      var i :| OccursAt(s, [c], i);
      assert s[i] == s[i..i + 1][0];
    }
  }

  predicate IsDigit(c: char) {
    '0' <= c <= '9'
  }

  function DigitValue(c: char): nat
    requires IsDigit(c)
  {
    c as int - '0' as int
  }

  function DigitChar(d: nat): (c: char)
    requires d < 10
    ensures IsDigit(c) && DigitValue(c) == d
  {
    (d + '0' as int) as char
  }

  /** The decimal text JavaScript produces for a non-negative integer. */
  function Decimal(n: nat): (r: string)
    ensures |r| > 0
    ensures forall i :: 0 <= i < |r| ==> IsDigit(r[i])
    ensures |r| > 1 ==> r[0] != '0'
  {
    if n < 10 then [DigitChar(n)] else Decimal(n / 10) + [DigitChar(n % 10)]
  }

  /** Reads a string of decimal digits back as a number. */
  function ParseDecimal(s: string): nat
    requires forall i :: 0 <= i < |s| ==> IsDigit(s[i])
  {
    if s == [] then 0
    else ParseDecimal(s[..|s| - 1]) * 10 + DigitValue(s[|s| - 1])
  }

  /** Rendering a number in decimal loses nothing: reading it back gives the number. */
  lemma {:induction false} DecimalRoundTrip(n: nat)
    ensures ParseDecimal(Decimal(n)) == n
  {
    if n >= 10 {
      var r := Decimal(n);
      assert r[..|r| - 1] == Decimal(n / 10);
      DecimalRoundTrip(n / 10);
    }
  }
}
