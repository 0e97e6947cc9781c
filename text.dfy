/**
 * The few string operations the source uses: `toLowerCase`, `toUpperCase` on one
 * character and `includes`. Case mapping is modelled on the ASCII letters only.
 */
module Text {

  /** `toLowerCase` on one character (ASCII letters only). */
  function LowerChar(c: char): char {
    if 'A' <= c <= 'Z' then (c as int + 32) as char else c
  }

  /** `toUpperCase` on one character (ASCII letters only). */
  function UpperChar(c: char): char {
    if 'a' <= c <= 'z' then (c as int - 32) as char else c
  }

  /** `s.toLowerCase()`: each character mapped, length kept. */
  function ToLower(s: string): (r: string)
    ensures |r| == |s|
    ensures forall i :: 0 <= i < |s| ==> r[i] == LowerChar(s[i])
  {
    seq(|s|, i requires 0 <= i < |s| => LowerChar(s[i]))
  }

  /** Lower-casing twice is lower-casing once. */
  lemma ToLowerIdempotent(s: string)
    ensures ToLower(ToLower(s)) == ToLower(s)
  {
  }

  /** `s.includes(sub)`: `sub` occurs in `s` at some position. */
  predicate Contains(s: string, sub: string)
    decreases |s|
  {
    sub <= s || (|s| > 0 && Contains(s[1..], sub))
  }

  /** `includes` finds an occurrence that starts at any position. */
  lemma {:induction false} ContainsAt(s: string, sub: string, i: nat)
    requires i + |sub| <= |s| && s[i..i + |sub|] == sub
    ensures Contains(s, sub)
    decreases i
  {
    if i == 0 {
      assert sub <= s;
    } else {
      assert s[1..][i - 1..i - 1 + |sub|] == s[i..i + |sub|];
      ContainsAt(s[1..], sub, i - 1);
    }
  }

  /** Containment is transitive: an occurrence of `mid` carries every occurrence inside `mid`. */
  lemma {:induction false} ContainsWithin(s: string, mid: string, sub: string)
    requires Contains(s, mid) && Contains(mid, sub)
    ensures Contains(s, sub)
    decreases |s|
  {
    if mid <= s {
      PrefixContains(mid, s, sub);
    } else {
      ContainsWithin(s[1..], mid, sub);
    }
  }

  /** What a prefix of `s` contains, `s` contains. */
  lemma {:induction false} PrefixContains(mid: string, s: string, sub: string)
    requires mid <= s && Contains(mid, sub)
    ensures Contains(s, sub)
    decreases |mid|
  {
    if sub <= mid {
      assert sub <= s;
    } else {
      assert mid[1..] <= s[1..];
      PrefixContains(mid[1..], s[1..], sub);
    }
  }
}
