/** String helpers used to build and read the merge service's messages:
    decimal rendering of record ids (Ruby's "#{id}") and substring search
    (what the specs' `a_string_matching` asks of a message). */
module Text {

  function DigitChar(d: nat): (c: char)
    requires d < 10
    ensures '0' <= c <= '9'
  {
    "0123456789"[d]
  }

  function DigitValue(c: char): (d: nat)
    requires '0' <= c <= '9'
    ensures d < 10
  {
    (c as int - '0' as int) as nat
  }

  predicate AllDigits(s: string)
  {
    forall i :: 0 <= i < |s| ==> '0' <= s[i] <= '9'
  }

  /** Decimal rendering of a natural number, most significant digit first. */
  function NatToString(n: nat): (s: string)
    ensures |s| >= 1 && AllDigits(s)
    ensures n < 10 <==> |s| == 1
    ensures s[0] == '0' ==> n == 0  // no leading zeros, as Ruby's to_s
    decreases n
  {
    if n < 10 then [DigitChar(n)]
    else NatToString(n / 10) + [DigitChar(n % 10)]
  }

  /** Reads a non-empty string of decimal digits back as a number. */
  function ParseNat(s: string): (n: nat)
    requires |s| >= 1 && AllDigits(s)
    decreases |s|
  {
    if |s| == 1 then DigitValue(s[0])
    else ParseNat(s[..|s| - 1]) * 10 + DigitValue(s[|s| - 1])
  }

  lemma DigitRoundTrip(d: nat)
    requires d < 10
    ensures DigitValue(DigitChar(d)) == d
  {
  }

  /** A rendered id can be read back: ids written into messages are unambiguous. */
  lemma {:induction false} NatToStringRoundTrip(n: nat)
    ensures ParseNat(NatToString(n)) == n
    decreases n
  {
    if n < 10 {
      DigitRoundTrip(n);
    } else {
      var s := NatToString(n);
      assert s[..|s| - 1] == NatToString(n / 10);
      NatToStringRoundTrip(n / 10);
      DigitRoundTrip(n % 10);
    }
  }

  /** `needle` occurs in `text` starting at position `i`. */
  predicate OccursAt(text: string, needle: string, i: int)
  {
    0 <= i <= |text| - |needle| && text[i..i + |needle|] == needle
  }

  /** `needle` occurs somewhere in `text`. */
  ghost predicate Contains(text: string, needle: string)
  {
    exists i :: OccursAt(text, needle, i)
  }

  lemma ContainsSelf(needle: string)
    ensures Contains(needle, needle)
  {
    assert needle[0..|needle|] == needle;
    assert OccursAt(needle, needle, 0);
  }

  lemma ContainsAppend(text: string, needle: string, after: string)
    requires Contains(text, needle)
    ensures Contains(text + after, needle)
  {
    var i :| OccursAt(text, needle, i);
    assert (text + after)[i..i + |needle|] == text[i..i + |needle|];
    assert OccursAt(text + after, needle, i);
  }

  lemma ContainsPrepend(before: string, text: string, needle: string)
    requires Contains(text, needle)
    ensures Contains(before + text, needle)
  {
    var i :| OccursAt(text, needle, i);
    assert (before + text)[|before| + i..|before| + i + |needle|] == text[i..i + |needle|];
    assert OccursAt(before + text, needle, |before| + i);
  }
}
