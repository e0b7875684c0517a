/**
 * The few Python `str` built-ins the core relies on, written out:
 * `lower()`, `strip()`, the substring test `kw in s`, truthiness of an
 * optional string, and `str(n)` for a non-negative integer.
 */
module PyStr {
  import opened Wrappers

  /** `bool(o)` for an `Optional[str]`: neither `None` nor the empty string. */
  predicate Truthy(o: Option<string>) {
    o.Some? && o.value != ""
  }

  // ---------------------------------------------------------------------------
  // str.lower()
  // ---------------------------------------------------------------------------

  function LowerChar(c: char): char {
    if 'A' <= c <= 'Z' then (c as int - 'A' as int + 'a' as int) as char else c
  }

  /** `s.lower()`, for the ASCII letters. */
  function Lower(s: string): (r: string)
    ensures |r| == |s|
    ensures forall i :: 0 <= i < |s| ==> r[i] == LowerChar(s[i])
  {
    if s == [] then [] else [LowerChar(s[0])] + Lower(s[1..])
  }

  lemma {:induction false} LowerIdempotent(s: string)
    ensures Lower(Lower(s)) == Lower(s)
  {
    var l := Lower(s);
    assert |Lower(l)| == |l|;
    forall i | 0 <= i < |l| ensures Lower(l)[i] == l[i] {
      assert l[i] == LowerChar(s[i]);
    }
  }

  // ---------------------------------------------------------------------------
  // `sub in s`
  // ---------------------------------------------------------------------------

  /** `sub` occurs at position `i` of `s`. */
  predicate OccursAt(sub: string, s: string, i: int) {
    0 <= i && i + |sub| <= |s| && s[i..i + |sub|] == sub
  }

  /** Python's `sub in s`, computed by scanning `s` from the left. */
  function Contains(s: string, sub: string): (b: bool)
    ensures b <==> exists i :: OccursAt(sub, s, i)
    decreases |s|
  {
    if |sub| > |s| then
      assert forall i :: !OccursAt(sub, s, i);
      false
    else if s[..|sub|] == sub then
      assert OccursAt(sub, s, 0);
      true
    else
      var rest := Contains(s[1..], sub);
      assert forall i :: OccursAt(sub, s[1..], i) <==> OccursAt(sub, s, i + 1) by {
        forall i ensures OccursAt(sub, s[1..], i) <==> OccursAt(sub, s, i + 1) {
          if 0 <= i && i + |sub| <= |s| - 1 {
            assert s[1..][i..i + |sub|] == s[i + 1..i + 1 + |sub|];
          }
        }
      }
      assert rest ==> exists i :: OccursAt(sub, s, i) by {
        if rest {
          var i :| OccursAt(sub, s[1..], i);
          assert OccursAt(sub, s, i + 1);
        }
      }
      assert (exists i :: OccursAt(sub, s, i)) ==> rest by {
        if exists i :: OccursAt(sub, s, i) {
          var i :| OccursAt(sub, s, i);
          assert i != 0;
          assert OccursAt(sub, s[1..], i - 1);
        }
      }
      rest
  }

  /** `any(kw in s for kw in keywords)`. */
  function AnyIn(keywords: seq<string>, s: string): (b: bool)
    ensures b <==> exists k :: 0 <= k < |keywords| && Contains(s, keywords[k])
  {
    if keywords == [] then false
    else if Contains(s, keywords[0]) then true
    else
      var rest := AnyIn(keywords[1..], s);
      assert forall k :: 0 <= k < |keywords| - 1 ==> keywords[1..][k] == keywords[k + 1];
      assert rest ==> exists k :: 0 <= k < |keywords| && Contains(s, keywords[k]) by {
        if rest {
          var k :| 0 <= k < |keywords| - 1 && Contains(s, keywords[1..][k]);
          assert Contains(s, keywords[k + 1]);
        }
      }
      rest
  }

  /** A character of `sub` that `s` lacks rules out `sub in s`. */
  lemma MissingCharNotContained(s: string, sub: string, j: nat)
    requires j < |sub| && forall i :: 0 <= i < |s| ==> s[i] != sub[j]
    ensures !Contains(s, sub)
  {
    if i :| OccursAt(sub, s, i) {
      assert s[i..i + |sub|][j] == sub[j];
    }
  }

  // ---------------------------------------------------------------------------
  // str.strip()
  // ---------------------------------------------------------------------------

  /** The characters `str.isspace()` accepts, which are what `strip()` removes. */
  predicate IsSpace(c: char) {
    c == ' ' || ('\t' <= c <= '\r') || ('\U{1C}' <= c <= '\U{1F}')
    || c == '\U{85}' || c == '\U{A0}' || c == '\U{1680}'
    || ('\U{2000}' <= c <= '\U{200A}')
    || c == '\U{2028}' || c == '\U{2029}' || c == '\U{202F}' || c == '\U{205F}' || c == '\U{3000}'
  }

  predicate AllSpace(s: string) {
    forall i :: 0 <= i < |s| ==> IsSpace(s[i])
  }

  /** The number of whitespace characters `s` starts with. */
  function LeadingSpaces(s: string): (k: nat)
    ensures k <= |s|
  {
    if s != [] && IsSpace(s[0]) then LeadingSpaces(s[1..]) + 1 else 0
  }

  /** `LeadingSpaces` counts exactly the whitespace prefix: all of it is whitespace, and the next character is not. */
  lemma {:induction false} LeadingSpacesMaximal(s: string)
    ensures AllSpace(s[..LeadingSpaces(s)])
    ensures LeadingSpaces(s) < |s| ==> !IsSpace(s[LeadingSpaces(s)])
  {
    if s != [] && IsSpace(s[0]) {
      var k := LeadingSpaces(s[1..]);
      LeadingSpacesMaximal(s[1..]);
      assert s[..k + 1] == [s[0]] + s[1..][..k];
    }
  }

  /** The number of whitespace characters `s` ends with. */
  function TrailingSpaces(s: string): (k: nat)
    ensures k <= |s|
  {
    if s != [] && IsSpace(s[|s| - 1]) then TrailingSpaces(s[..|s| - 1]) + 1 else 0
  }

  /** `TrailingSpaces` counts exactly the whitespace suffix. */
  lemma {:induction false} TrailingSpacesMaximal(s: string)
    ensures AllSpace(s[|s| - TrailingSpaces(s)..])
    ensures TrailingSpaces(s) < |s| ==> !IsSpace(s[|s| - TrailingSpaces(s) - 1])
  {
    if s != [] && IsSpace(s[|s| - 1]) {
      var k := TrailingSpaces(s[..|s| - 1]);
      TrailingSpacesMaximal(s[..|s| - 1]);
      assert s[|s| - (k + 1)..] == s[..|s| - 1][|s| - 1 - k..] + [s[|s| - 1]];
    }
  }

  /** `s.strip()`: `s` without its leading and trailing whitespace. */
  function Strip(s: string): (r: string)
    ensures |r| <= |s|
  {
    var i := LeadingSpaces(s);
    s[i..|s| - TrailingSpaces(s[i..])]
  }

  /**
   * What `strip()` leaves is an infix of `s` that neither starts nor ends with
   * whitespace, and everything cut off on either side is whitespace.
   */
  lemma StripIsTrimmedInfix(s: string)
    ensures exists i, j :: 0 <= i <= j <= |s| && Strip(s) == s[i..j] && AllSpace(s[..i]) && AllSpace(s[j..])
    ensures Strip(s) != [] ==> !IsSpace(Strip(s)[0]) && !IsSpace(Strip(s)[|Strip(s)| - 1])
  {
    var i := LeadingSpaces(s);
    var j := |s| - TrailingSpaces(s[i..]);
    var u := s[i..];
    LeadingSpacesMaximal(s);
    TrailingSpacesMaximal(u);
    assert s[j..] == u[j - i..];
    assert Strip(s) == s[i..j];
    if i < j {
      assert s[i..j][0] == s[i];
      assert s[i..j][j - i - 1] == u[|u| - TrailingSpaces(u) - 1];
    }
    assert AllSpace(s[..i]) && AllSpace(s[j..]);
  }

  /** `len(s.strip()) > 0` fails exactly for whitespace-only strings. */
  lemma {:induction false} StripEmptyIffBlank(s: string)
    ensures Strip(s) == [] <==> AllSpace(s)
  {
    StripIsTrimmedInfix(s);
    var i, j :| 0 <= i <= j <= |s| && Strip(s) == s[i..j] && AllSpace(s[..i]) && AllSpace(s[j..]);
    if Strip(s) == [] {
      assert i == j;
      forall n | 0 <= n < |s| ensures IsSpace(s[n]) {
        if n < i { assert s[n] == s[..i][n]; } else { assert s[n] == s[j..][n - j]; }
      }
    } else {
      assert Strip(s)[0] == s[i];
    }
  }

  /** Stripping twice is stripping once. */
  lemma {:induction false} StripIdempotent(s: string)
    ensures Strip(Strip(s)) == Strip(s)
  {
    var t := Strip(s);
    StripIsTrimmedInfix(s);
    // t neither starts nor ends with whitespace, so neither count finds anything to cut.
    assert LeadingSpaces(t) == 0;
    assert t[0..] == t;
    assert TrailingSpaces(t) == 0;
    assert t[0..|t|] == t;
  }

  // ---------------------------------------------------------------------------
  // str(n) for n >= 0
  // ---------------------------------------------------------------------------

  predicate IsDigit(c: char) {
    '0' <= c <= '9'
  }

  predicate AllDigits(s: string) {
    forall i :: 0 <= i < |s| ==> IsDigit(s[i])
  }

  function DigitChar(d: nat): (c: char)
    requires d < 10
    ensures IsDigit(c) && c as int - '0' as int == d
  {
    ('0' as int + d) as char
  }

  /** `str(n)`: the decimal digits of `n`, without leading zeros. */
  function NatToString(n: nat): (r: string)
    ensures |r| >= 1 && AllDigits(r)
    ensures |r| > 1 ==> r[0] != '0'
  {
    if n < 10 then [DigitChar(n)] else NatToString(n / 10) + [DigitChar(n % 10)]
  }

  /** `int(s)` for a string of decimal digits (the empty string reads as 0). */
  function ParseNat(s: string): nat
    requires AllDigits(s)
  {
    if s == [] then 0 else 10 * ParseNat(s[..|s| - 1]) + (s[|s| - 1] as int - '0' as int)
  }

  lemma {:induction false} ParseNatToString(n: nat)
    ensures ParseNat(NatToString(n)) == n
  {
    if n >= 10 {
      var r := NatToString(n);
      assert r[..|r| - 1] == NatToString(n / 10);
      ParseNatToString(n / 10);
    }
  }
}
