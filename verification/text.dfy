/** The string operations the source applies to names and ids:
    `toLowerCase`, `includes`, and the decimal rendering of a clock reading
    that `Date.now().toString()` produces. */
module Text {

  /** `toLowerCase` on one character, for the letters a shop's names use:
      ASCII A-Z and the Latin-1 capitals (À..Þ, except the sign ×). */
  function LowerChar(c: char): char {
    if 'A' <= c <= 'Z' || (192 <= c as int <= 222 && c as int != 215)
    then (c as int + 32) as char
    else c
  }

  function Lower(s: string): (r: string)
    ensures |r| == |s|
  {
    seq(|s|, i requires 0 <= i < |s| => LowerChar(s[i]))
  }

  predicate StartsWith(s: string, prefix: string) {
    |prefix| <= |s| && s[..|prefix|] == prefix
  }

  /** `hay.includes(needle)`. */
  predicate Includes(hay: string, needle: string)
    decreases |hay|
  {
    StartsWith(hay, needle) || (|hay| > 0 && Includes(hay[1..], needle))
  }

  /** `needle` occurs in `hay` starting at position `i`. */
  predicate OccursAt(hay: string, needle: string, i: nat) {
    i + |needle| <= |hay| && hay[i..i + |needle|] == needle
  }

  /** `Includes` holds exactly when `needle` occurs at some position of `hay`. */
  lemma {:induction false} IncludesIffOccurs(hay: string, needle: string)
    ensures Includes(hay, needle) <==> exists i: nat :: OccursAt(hay, needle, i)
  {
    if Includes(hay, needle) {
      if StartsWith(hay, needle) {
        assert OccursAt(hay, needle, 0);
      } else {
        IncludesIffOccurs(hay[1..], needle);
        var i: nat :| OccursAt(hay[1..], needle, i);
        assert hay[1..][i..i + |needle|] == hay[i + 1..i + 1 + |needle|];
        assert OccursAt(hay, needle, i + 1);
      }
    } else {
      forall i: nat
        ensures !OccursAt(hay, needle, i)
      {
        if i + |needle| <= |hay| {
          NotIncludedNowhere(hay, needle, i);
        }
      }
    }
  }

  lemma {:induction false} NotIncludedNowhere(hay: string, needle: string, i: nat)
    requires !Includes(hay, needle)
    requires i + |needle| <= |hay|
    ensures hay[i..i + |needle|] != needle
  {
    if i > 0 {
      assert !Includes(hay[1..], needle);
      NotIncludedNowhere(hay[1..], needle, i - 1);
      assert hay[1..][i - 1..i - 1 + |needle|] == hay[i..i + |needle|];
    }
  }

  /** The search used by every list in the application: the lower-cased name
      contains the lower-cased search term. */
  predicate NameMatches(name: string, term: string) {
    Includes(Lower(name), Lower(term))
  }

  /** An empty search term matches every name. */
  lemma EmptyTermMatchesAll(name: string)
    ensures NameMatches(name, "")
  {
    assert Lower("") == "";
    assert Lower(name)[..0] == "";
  }

  function Digit(d: nat): (c: char)
    requires d < 10
    ensures '0' <= c <= '9'
  {
    ('0' as int + d) as char
  }

  predicate AllDigits(s: string) {
    forall i :: 0 <= i < |s| ==> '0' <= s[i] <= '9'
  }

  /** `n.toString()` for a non-negative integer clock reading. */
  function DecimalString(n: nat): (r: string)
    ensures |r| >= 1
    ensures AllDigits(r)
  {
    if n < 10 then [Digit(n)] else DecimalString(n / 10) + [Digit(n % 10)]
  }

  /** The number a string of decimal digits denotes. */
  function DigitsValue(s: string): nat
    requires AllDigits(s)
  {
    if |s| == 0 then 0
    else DigitsValue(s[..|s| - 1]) * 10 + (s[|s| - 1] as int - '0' as int)
  }

  /** Reading the rendered digits back gives the clock reading. */
  lemma {:induction false} DecimalRoundTrip(n: nat)
    ensures DigitsValue(DecimalString(n)) == n
  {
    var r := DecimalString(n);
    if n >= 10 {
      DecimalRoundTrip(n / 10);
      assert r[..|r| - 1] == DecimalString(n / 10);
    }
  }

  /** So ids made from distinct instants are distinct. */
  lemma DecimalStringInjective(m: nat, n: nat)
    requires m != n
    ensures DecimalString(m) != DecimalString(n)
  {
    DecimalRoundTrip(m);
    DecimalRoundTrip(n);
  }
}
