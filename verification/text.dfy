/** The java.lang.String comparisons the modelled code relies on. Strings are
    sequences of characters; `null` is an absent Option. */
module Text {
  import opened Outcomes

  /** Lower-cases an ASCII letter and leaves every other character alone. */
  function LowerAscii(c: char): char
  {
    if 'A' <= c <= 'Z' then (c as int + 32) as char else c
  }

  /** `a.equalsIgnoreCase(b)` on non-null strings, with ASCII case folding. */
  predicate EqualsIgnoreCase(a: string, b: string)
  {
    |a| == |b| && forall i :: 0 <= i < |a| ==> LowerAscii(a[i]) == LowerAscii(b[i])
  }

  /** `literal.equalsIgnoreCase(s)` where `s` may be null: false on null. */
  predicate MatchesIgnoreCase(literal: string, s: Option<string>)
  {
    s.Some? && EqualsIgnoreCase(literal, s.value)
  }

  /** `s != null && s.startsWith(prefix)`. */
  predicate StartsWith(s: Option<string>, prefix: string)
  {
    s.Some? && prefix <= s.value
  }

  /** `constant.equals(s)` where `s` may be null: false on null. */
  predicate EqualsConstant(constant: string, s: Option<string>)
  {
    s == Some(constant)
  }

  lemma EqualsIgnoreCaseSymmetric(a: string, b: string)
    ensures EqualsIgnoreCase(a, b) ==> EqualsIgnoreCase(b, a)
  {
  }

  lemma EqualsIgnoreCaseTransitive(a: string, b: string, c: string)
    ensures EqualsIgnoreCase(a, b) && EqualsIgnoreCase(b, c) ==> EqualsIgnoreCase(a, c)
  {
  }
}
