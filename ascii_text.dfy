/** ASCII lower-casing and substring search, standing in for JavaScript's
    `toLowerCase` and `includes` on strings. */
module AsciiText {

  function LowerChar(c: char): char {
    if 'A' <= c <= 'Z' then (c as int + 32) as char else c
  }

  function UpperChar(c: char): char {
    if 'a' <= c <= 'z' then (c as int - 32) as char else c
  }

  function Lower(s: string): (r: string)
    ensures |r| == |s|
  {
    seq(|s|, i requires 0 <= i < |s| => LowerChar(s[i]))
  }

  function Upper(s: string): (r: string)
    ensures |r| == |s|
  {
    seq(|s|, i requires 0 <= i < |s| => UpperChar(s[i]))
  }

  /** `u` is `t` with any of its letters switched to upper or lower case. */
  ghost predicate Recased(t: string, u: string) {
    |t| == |u| && forall i :: 0 <= i < |t| ==> u[i] == t[i] || u[i] == UpperChar(t[i]) || u[i] == LowerChar(t[i])
  }

  /** Strings that differ only in letter case lower-case to the same string. */
  lemma RecasedLowerEqual(t: string, u: string)
    requires Recased(t, u)
    ensures Lower(t) == Lower(u)
  {
    forall i | 0 <= i < |t| ensures Lower(t)[i] == Lower(u)[i] {
      assert u[i] == t[i] || u[i] == UpperChar(t[i]) || u[i] == LowerChar(t[i]);
    }
  }

  /** Upper-casing is one re-casing. */
  lemma UpperIsRecased(t: string)
    ensures Recased(t, Upper(t))
  {
  }

  /** `s.includes(t)`: `t` occurs in `s` at some offset. */
  function Contains(s: string, t: string): bool
    decreases |s|
  {
    |t| <= |s| && (s[..|t|] == t || Contains(s[1..], t))
  }

  /** `t` occurs in `s` starting at offset `i`. */
  ghost predicate OccursAt(s: string, t: string, i: int) {
    0 <= i && i + |t| <= |s| && s[i..i + |t|] == t
  }

  /** `Contains` finds exactly the strings that occur at some offset. */
  lemma {:induction false} ContainsIffOccurs(s: string, t: string)
    ensures Contains(s, t) <==> exists i :: OccursAt(s, t, i)
    decreases |s|
  {
    if |t| <= |s| && s[..|t|] == t {
      assert OccursAt(s, t, 0);
    } else if |t| <= |s| {
      ContainsIffOccurs(s[1..], t);
      if Contains(s[1..], t) {
        var i :| OccursAt(s[1..], t, i);
        assert s[i + 1..i + 1 + |t|] == s[1..][i..i + |t|];
        assert OccursAt(s, t, i + 1);
      }
      if exists i :: OccursAt(s, t, i) {
        var i :| OccursAt(s, t, i);
        assert i != 0;
        assert s[1..][i - 1..i - 1 + |t|] == s[i..i + |t|];
        assert OccursAt(s[1..], t, i - 1);
      }
    }
  }

  /** Every string includes the empty string. */
  lemma ContainsEmpty(s: string)
    ensures Contains(s, "")
  {
  }
}
