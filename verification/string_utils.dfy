/**
 * The two string predicates the factory relies on: the project's own
 * `StringUtils.isNullOrEmpty`, and Java's `String.equalsIgnoreCase`.
 *
 * `equalsIgnoreCase` compares two strings of equal length character by
 * character, accepting a pair when the characters are equal, when their
 * upper-case forms are equal, or when the lower-case forms of their
 * upper-case forms are equal. Java applies Unicode case mappings; this model
 * applies ASCII case mappings only.
 */
module StringUtils {
  import opened Optional

  /** `StringUtils.isNullOrEmpty`: a `null` or zero-length string. */
  predicate IsNullOrEmpty(s: Option<string>)
    ensures IsNullOrEmpty(s) <==> s == None || s == Some("")
  {
    s.None? || |s.value| == 0
  }

  /** ASCII upper-case mapping: `a`..`z` to `A`..`Z`, every other character unchanged. */
  function ToUpper(c: char): (u: char)
    ensures !('a' <= u <= 'z')
  {
    if 'a' <= c <= 'z' then (c as int - 32) as char else c
  }

  /** ASCII lower-case mapping: `A`..`Z` to `a`..`z`, every other character unchanged. */
  function ToLower(c: char): (l: char)
    ensures !('A' <= l <= 'Z')
    ensures ToUpper(l) == ToUpper(c)
  {
    if 'A' <= c <= 'Z' then (c as int + 32) as char else c
  }

  /** The per-character test of `equalsIgnoreCase`. */
  predicate CharEqualsIgnoreCase(c1: char, c2: char) {
    c1 == c2 || ToUpper(c1) == ToUpper(c2) || ToLower(ToUpper(c1)) == ToLower(ToUpper(c2))
  }

  /** The lower-cased copy of a string; the reference notion of "same up to case". */
  function Lowercase(s: string): (r: string)
    ensures |r| == |s|
    ensures forall i :: 0 <= i < |r| ==> !('A' <= r[i] <= 'Z')
  {
    seq(|s|, i requires 0 <= i < |s| => ToLower(s[i]))
  }

  /** Lower-casing a non-empty string lower-cases its first character and then the rest. */
  lemma LowercaseOfNonEmpty(s: string)
    requires |s| > 0
    ensures Lowercase(s) == [ToLower(s[0])] + Lowercase(s[1..])
  {
  }

  /** Two non-empty strings have equal lower-cased copies exactly when their heads and their tails do. */
  lemma SameLowercaseSplits(a: string, b: string)
    requires |a| == |b| > 0
    ensures Lowercase(a) == Lowercase(b) <==>
              ToLower(a[0]) == ToLower(b[0]) && Lowercase(a[1..]) == Lowercase(b[1..])
  {
    LowercaseOfNonEmpty(a);
    LowercaseOfNonEmpty(b);
    if Lowercase(a) == Lowercase(b) {
      assert Lowercase(a)[1..] == Lowercase(b)[1..];
    }
  }

  /** The per-character test accepts exactly the pairs with equal lower-case forms. */
  lemma CharEqualsIgnoreCaseIffSameLower(c1: char, c2: char)
    ensures CharEqualsIgnoreCase(c1, c2) <==> ToLower(c1) == ToLower(c2)
  {
  }

  /**
   * The character loop of `equalsIgnoreCase` on two strings of the same
   * length; it accepts exactly the pairs whose lower-cased copies coincide.
   */
  function RegionMatchesIgnoreCase(a: string, b: string): (r: bool)
    requires |a| == |b|
    ensures r <==> Lowercase(a) == Lowercase(b)
    decreases |a|
  {
    if |a| == 0 then
      true
    else
      CharEqualsIgnoreCaseIffSameLower(a[0], b[0]);
      SameLowercaseSplits(a, b);
      CharEqualsIgnoreCase(a[0], b[0]) && RegionMatchesIgnoreCase(a[1..], b[1..])
  }

  /** `String.equalsIgnoreCase`: equal lengths and every character pair matches. */
  predicate EqualsIgnoreCase(a: string, b: string)
    ensures EqualsIgnoreCase(a, b) <==>
              |a| == |b| && forall i :: 0 <= i < |a| ==> CharEqualsIgnoreCase(a[i], b[i])
  {
    if |a| == |b| then
      assert forall i :: 0 <= i < |a| ==>
               (CharEqualsIgnoreCase(a[i], b[i]) <==> Lowercase(a)[i] == Lowercase(b)[i]) by {
        forall i | 0 <= i < |a| {
          CharEqualsIgnoreCaseIffSameLower(a[i], b[i]);
        }
      }
      RegionMatchesIgnoreCase(a, b)
    else
      false
  }

  /** `equalsIgnoreCase` holds exactly when the lower-cased copies are equal. */
  lemma EqualsIgnoreCaseIffSameLowercase(a: string, b: string)
    ensures EqualsIgnoreCase(a, b) <==> Lowercase(a) == Lowercase(b)
  {
  }

  /** `equalsIgnoreCase` is an equivalence relation. */
  lemma EqualsIgnoreCaseIsEquivalence(a: string, b: string, c: string)
    ensures EqualsIgnoreCase(a, a)
    ensures EqualsIgnoreCase(a, b) ==> EqualsIgnoreCase(b, a)
    ensures EqualsIgnoreCase(a, b) && EqualsIgnoreCase(b, c) ==> EqualsIgnoreCase(a, c)
  {
  }
}
