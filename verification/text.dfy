/**
 Plain string matching used by every rule of the risk engine: prefix tests
 (Python's `str.startswith`), substring containment (Python's `needle in
 haystack`), ASCII lower-casing (`str.lower` restricted to ASCII letters) and
 the character class `\s` of Python's `re` module.
 */
module Text {

  /** `s.startswith(p)`: the empty prefix matches every string. */
  predicate StartsWith(s: string, p: string)
  {
    |p| <= |s| && s[..|p|] == p
  }

  /** `p in s` for strings, scanning the start positions of `s` left to right. */
  predicate Contains(s: string, p: string)
    decreases |s|
  {
    StartsWith(s, p) || (|s| > 0 && Contains(s[1..], p))
  }

  /** `p` occurs in `s` starting at index `i`. */
  ghost predicate OccursAt(s: string, p: string, i: int)
  {
    0 <= i && i + |p| <= |s| && s[i..i + |p|] == p
  }

  /** Shifting the haystack by one character shifts every occurrence by one. */
  lemma OccursShift(s: string, p: string, i: int)
    requires |s| > 0 && i >= 1
    ensures OccursAt(s, p, i) <==> OccursAt(s[1..], p, i - 1)
  {
    if i + |p| <= |s| {
      assert s[1..][i - 1..i - 1 + |p|] == s[i..i + |p|];
    }
  }

  /** The scanning definition of `Contains` agrees with "occurs at some index". */
  lemma {:induction false} ContainsIffOccurs(s: string, p: string)
    ensures Contains(s, p) <==> exists i :: OccursAt(s, p, i)
    decreases |s|
  {
    if StartsWith(s, p) {
      assert OccursAt(s, p, 0);
    } else if |s| == 0 {
      forall i
        ensures !OccursAt(s, p, i)
      {
      }
    } else {
      ContainsIffOccurs(s[1..], p);
      if Contains(s[1..], p) {
        var i :| OccursAt(s[1..], p, i);
        OccursShift(s, p, i + 1);
      } else {
        forall i
          ensures !OccursAt(s, p, i)
        {
          if i >= 1 {
            OccursShift(s, p, i);
          }
        }
      }
    }
  }

  /** Every slice of a string is contained in it. */
  lemma SliceContained(s: string, i: int, j: int)
    requires 0 <= i <= j <= |s|
    ensures Contains(s, s[i..j])
  {
    ContainsIffOccurs(s, s[i..j]);
    assert OccursAt(s, s[i..j], i);
  }

  /** Two literals that differ at index `k` cannot both prefix one string. */
  lemma PrefixesDisagree(s: string, p: string, q: string, k: nat)
    requires k < |p| && k < |q| && p[k] != q[k]
    ensures !(StartsWith(s, p) && StartsWith(s, q))
  {
    assert StartsWith(s, p) ==> s[k] == s[..|p|][k] == p[k];
    assert StartsWith(s, q) ==> s[k] == s[..|q|][k] == q[k];
  }

  /** Every string contains itself. */
  lemma ContainsSelf(s: string)
    ensures Contains(s, s)
  {
    assert s[..|s|] == s;
  }

  /** A needle longer than the haystack is never contained. */
  lemma {:induction false} ContainsNeedsRoom(s: string, p: string)
    requires |s| < |p|
    ensures !Contains(s, p)
    decreases |s|
  {
    if |s| > 0 {
      ContainsNeedsRoom(s[1..], p);
    }
  }

  /** Between strings of the same length, containment is equality. */
  lemma ContainsSameLength(s: string, p: string)
    requires |s| == |p|
    ensures Contains(s, p) <==> s == p
  {
    if |s| > 0 {
      ContainsNeedsRoom(s[1..], p);
    }
    assert s[..|p|] == s;
  }

  /** Python's `str.lower()` on ASCII letters; every other character is kept. */
  function LowerChar(c: char): char
  {
    if 'A' <= c <= 'Z' then (c as int + 32) as char else c
  }

  predicate IsUpper(c: char)
  {
    'A' <= c <= 'Z'
  }

  /** `s.lower()`, character by character. */
  function Lower(s: string): (r: string)
    ensures |r| == |s|
    ensures forall i :: 0 <= i < |s| ==> r[i] == LowerChar(s[i])
    ensures forall i :: 0 <= i < |r| ==> !IsUpper(r[i])
  {
    if |s| == 0 then "" else [LowerChar(s[0])] + Lower(s[1..])
  }

  /** Python's `\s` in a `str` pattern: exactly the characters `str.isspace()` accepts. */
  predicate IsSpace(c: char)
  {
    || c == ' ' || c == '\t' || c == '\n' || c == '\r' || c == '\U{0B}' || c == '\U{0C}'
    || ('\U{1C}' <= c <= '\U{1F}')
    || c == '\U{85}' || c == '\U{A0}' || c == '\U{1680}'
    || ('\U{2000}' <= c <= '\U{200A}')
    || c == '\U{2028}' || c == '\U{2029}' || c == '\U{202F}' || c == '\U{205F}' || c == '\U{3000}'
  }

  /** Decimal rendering of a natural number, as Python's `str(n)`. */
  function Decimal(n: nat): (r: string)
    ensures |r| > 0
    ensures forall i :: 0 <= i < |r| ==> '0' <= r[i] <= '9'
    decreases n
  {
    if n < 10 then [Digit(n)] else Decimal(n / 10) + [Digit(n % 10)]
  }

  function Digit(d: nat): (c: char)
    requires d < 10
    ensures '0' <= c <= '9'
  {
    ('0' as int + d) as char
  }
}
