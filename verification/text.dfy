/** The string operations the handlers use: `str.upper`, `str.isalnum` and the
    decimal rendering of a count. Python's versions are Unicode-aware; these are
    their ASCII restrictions. */
module Text {

  /** Upper-case one character: ASCII `a`..`z` map to `A`..`Z`, all else is kept. */
  function UpperChar(c: char): char {
    if 'a' <= c <= 'z' then (c as int - 32) as char else c
  }

  /** `s.upper()` */
  function Upper(s: string): string {
    seq(|s|, i requires 0 <= i < |s| => UpperChar(s[i]))
  }

  /** A string that `upper()` leaves unchanged. */
  predicate IsUpperCase(s: string) {
    Upper(s) == s
  }

  predicate IsAlnumChar(c: char) {
    ('a' <= c <= 'z') || ('A' <= c <= 'Z') || ('0' <= c <= '9')
  }

  /** `s.isalnum()`: non-empty, and every character a letter or a digit. */
  predicate IsAlnum(s: string) {
    |s| > 0 && forall i :: 0 <= i < |s| ==> IsAlnumChar(s[i])
  }

  /** Upper-casing twice is upper-casing once: its result is upper case. */
  lemma UpperIsUpperCase(s: string)
    ensures IsUpperCase(Upper(s))
  {
    assert forall i :: 0 <= i < |s| ==> UpperChar(UpperChar(s[i])) == UpperChar(s[i]);
  }

  /** Upper-casing neither creates nor destroys the alphanumeric property. */
  lemma UpperKeepsAlnum(s: string)
    ensures IsAlnum(Upper(s)) <==> IsAlnum(s)
  {
    var u := Upper(s);
    assert forall i :: 0 <= i < |s| ==> (IsAlnumChar(u[i]) <==> IsAlnumChar(s[i]));
  }

  /** The only strings that upper-case to the one-letter string [C] are [C] and its
      lower-case form. */
  lemma UpperIsLetter(s: string, c: char)
    requires 'A' <= c <= 'Z'
    ensures Upper(s) == [c] <==> (s == [c] || s == [(c as int + 32) as char])
  {
    if Upper(s) == [c] {
      assert |s| == 1;
      assert Upper(s)[0] == UpperChar(s[0]);
      assert s == [s[0]];
    }
  }

  function DigitChar(d: nat): char
    requires d < 10
  {
    ('0' as int + d) as char
  }

  predicate IsDigit(c: char) {
    '0' <= c <= '9'
  }

  /** `str(n)` for a natural number: its decimal digits, most significant first. */
  function NatToString(n: nat): (r: string)
    ensures |r| > 0
    ensures forall i :: 0 <= i < |r| ==> IsDigit(r[i])
    ensures r[0] == '0' ==> n == 0
    decreases n
  {
    if n < 10 then [DigitChar(n)] else NatToString(n / 10) + [DigitChar(n % 10)]
  }

  /** The number a string of decimal digits denotes (`int(s)`). */
  function DigitsValue(s: string): int {
    if |s| == 0 then 0
    else DigitsValue(s[..|s| - 1]) * 10 + (s[|s| - 1] as int - '0' as int)
  }

  /** Reading back the rendering of `n` gives `n`. */
  lemma {:induction false} NatToStringRoundTrip(n: nat)
    ensures DigitsValue(NatToString(n)) == n
    decreases n
  {
    var r := NatToString(n);
    if n < 10 {
      assert r[..|r| - 1] == [];
    } else {
      NatToStringRoundTrip(n / 10);
      assert r[..|r| - 1] == NatToString(n / 10);
    }
  }
}
