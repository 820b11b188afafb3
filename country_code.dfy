/**
 * Canonical spelling of country codes. The addon keys its rule table by
 * `iso_code.upper()`; country codes are ISO 3166-1 alpha-2, so the case
 * mapping is modelled on ASCII letters only.
 */
module CountryCode {

  predicate IsLowerAscii(c: char) {
    'a' <= c <= 'z'
  }

  /** The upper-case form of one character: ASCII letters move up, all else stays. */
  function UpperChar(c: char): (u: char)
    ensures !IsLowerAscii(u)
    ensures !IsLowerAscii(c) ==> u == c
    ensures IsLowerAscii(c) ==> 'A' <= u <= 'Z' && u as int + 32 == c as int
  {
    if IsLowerAscii(c) then (c as int - 32) as char else c
  }

  /** A code is canonical when it has no lower-case letter left in it. */
  predicate IsCanonical(s: string) {
    forall i :: 0 <= i < |s| ==> !IsLowerAscii(s[i])
  }

  /** `str.upper()` restricted to ASCII: always canonical, and the identity on canonical codes. */
  function Upper(s: string): (r: string)
    ensures |r| == |s|
    ensures forall i :: 0 <= i < |s| ==> r[i] == UpperChar(s[i])
    ensures IsCanonical(r)
    ensures IsCanonical(s) ==> r == s
  {
    if s == [] then [] else [UpperChar(s[0])] + Upper(s[1..])
  }

  /** Upper-casing twice is upper-casing once. */
  lemma UpperIdempotent(s: string)
    ensures Upper(Upper(s)) == Upper(s)
  {
  }

  /** A code is left alone by `Upper` exactly when it is already canonical. */
  lemma UpperFixedIffCanonical(s: string)
    ensures Upper(s) == s <==> IsCanonical(s)
  {
  }

  /** Two spellings name the same key exactly when they agree letter by letter up to case. */
  lemma {:induction false} SameKeyIffSameUpperLetters(s: string, t: string)
    ensures Upper(s) == Upper(t) <==>
              |s| == |t| && forall i :: 0 <= i < |s| ==> UpperChar(s[i]) == UpperChar(t[i])
  {
    if |s| == |t| && forall i :: 0 <= i < |s| ==> UpperChar(s[i]) == UpperChar(t[i]) {
      assert forall i :: 0 <= i < |s| ==> Upper(s)[i] == Upper(t)[i];
    }
  }
}
