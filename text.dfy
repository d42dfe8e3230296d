/** The two string primitives the search relies on: upper-casing and
    substring containment. Upper-casing is modelled on ASCII letters only. */
module Text {

  /** Upper-cases one ASCII letter; every other character is left alone. */
  function UpperChar(c: char): (u: char)
    ensures 'a' <= c <= 'z' ==> 'A' <= u <= 'Z' && u as int == c as int - 32
    ensures !('a' <= c <= 'z') ==> u == c
    ensures !('a' <= u <= 'z')
  {
    if 'a' <= c <= 'z' then (c as int - 32) as char else c
  }

  /** Upper-cases a string character by character. */
  function Upper(s: string): (u: string)
    ensures |u| == |s|
    ensures forall i :: 0 <= i < |s| ==> u[i] == UpperChar(s[i])
  {
    seq(|s|, i requires 0 <= i < |s| => UpperChar(s[i]))
  }

  lemma UpperIdempotent(s: string)
    ensures Upper(Upper(s)) == Upper(s)
  {
  }

  /** True when `sub` occurs in `s` at position `i`. */
  predicate OccursAt(s: string, sub: string, i: int)
  {
    0 <= i && i + |sub| <= |s| && s[i..i + |sub|] == sub
  }

  /** Substring containment: `sub` is a prefix of `s` or occurs in its tail.
      The empty string is contained in every string. */
  function Contains(s: string, sub: string): (b: bool)
    ensures b ==> |sub| <= |s|
    decreases |s|
  {
    |sub| <= |s| && (sub == s[..|sub|] || Contains(s[1..], sub))
  }

  /** Contains agrees with the positional definition: some position holds `sub`. */
  lemma {:induction false} ContainsIffOccurs(s: string, sub: string)
    ensures Contains(s, sub) <==> exists i :: OccursAt(s, sub, i)
    decreases |s|
  {
    if |sub| <= |s| {
      if sub == s[..|sub|] {
        assert OccursAt(s, sub, 0);
      } else {
        ContainsIffOccurs(s[1..], sub);
        if Contains(s[1..], sub) {
          var i :| OccursAt(s[1..], sub, i);
          assert s[i + 1..i + 1 + |sub|] == s[1..][i..i + |sub|];
          assert OccursAt(s, sub, i + 1);
        } else {
          forall i | 1 <= i && OccursAt(s, sub, i)
            ensures OccursAt(s[1..], sub, i - 1)
          {
            assert s[1..][i - 1..i - 1 + |sub|] == s[i..i + |sub|];
          }
        }
      }
    }
  }

  lemma ContainsEmpty(s: string)
    ensures Contains(s, "")
  {
  }

  /** A string starting with `sub` contains it. */
  lemma ContainedAsPrefix(s: string, sub: string)
    requires |sub| <= |s| && s[..|sub|] == sub
    ensures Contains(s, sub)
  {
  }

  /** A string in which the first two characters of `sub` never appear side
      by side does not contain `sub`. */
  lemma {:induction false} NotContainedWithoutFirstPair(s: string, sub: string)
    requires |sub| >= 2
    requires forall i :: 0 <= i < |s| - 1 ==> !(s[i] == sub[0] && s[i + 1] == sub[1])
    ensures !Contains(s, sub)
    decreases |s|
  {
    if |sub| <= |s| {
      assert s[..|sub|][0] == s[0] && s[..|sub|][1] == s[1];
      NotContainedWithoutFirstPair(s[1..], sub);
    }
  }
}
