/**
 * The two string operations the table search uses: `String.prototype.toLowerCase`
 * (for the ASCII letters the data holds) and `String.prototype.includes`.
 */
module TextSearch {

  /** Lower-cases one ASCII capital; every other character is left alone. */
  function LowerChar(c: char): char
  {
    if 'A' <= c <= 'Z' then (c as int + 32) as char else c
  }

  /** `s.toLowerCase()`, character by character. */
  function ToLower(s: string): (r: string)
    ensures |r| == |s|
    ensures forall i :: 0 <= i < |s| ==> r[i] == LowerChar(s[i])
  {
    seq(|s|, i requires 0 <= i < |s| => LowerChar(s[i]))
  }

  /** Lower-casing twice is lower-casing once. */
  lemma ToLowerIdempotent(s: string)
    ensures ToLower(ToLower(s)) == ToLower(s)
  {
  }

  /** `t` occurs in `s` starting at position `i`. */
  ghost predicate OccursAt(s: string, t: string, i: int)
  {
    0 <= i && i + |t| <= |s| && s[i..i + |t|] == t
  }

  /** `s.includes(t)`: `t` occurs somewhere in `s`; the empty string occurs everywhere. */
  function Includes(s: string, t: string): (b: bool)
    ensures b <==> exists i :: OccursAt(s, t, i)
  {
    IncludesFromMeaning(s, t, 0);
    IncludesFrom(s, t, 0)
  }

  /** The scan behind `Includes`: does `t` occur at position `i` or later? */
  function IncludesFrom(s: string, t: string, i: nat): bool
    requires i <= |s|
    decreases |s| - i
  {
    if i + |t| > |s| then false
    else MatchesAt(s, t, i, 0) || IncludesFrom(s, t, i + 1)
  }

  /** Character by character: do the characters of `t` from `k` on occur in `s` from `i + k` on? */
  function MatchesAt(s: string, t: string, i: nat, k: nat): bool
    requires i + |t| <= |s| && k <= |t|
    decreases |t| - k
  {
    k == |t| || (s[i + k] == t[k] && MatchesAt(s, t, i, k + 1))
  }

  /** The character comparison agrees with slice equality. */
  lemma {:induction false} MatchesAtMeaning(s: string, t: string, i: nat, k: nat)
    requires i + |t| <= |s| && k <= |t|
    ensures MatchesAt(s, t, i, k) <==> s[i + k..i + |t|] == t[k..]
    decreases |t| - k
  {
    if k < |t| {
      MatchesAtMeaning(s, t, i, k + 1);
      assert s[i + k..i + |t|] == [s[i + k]] + s[i + k + 1..i + |t|];
      assert t[k..] == [t[k]] + t[k + 1..];
    }
  }

  /** The scan finds exactly the occurrences at `i` or later. */
  lemma {:induction false} IncludesFromMeaning(s: string, t: string, i: nat)
    requires i <= |s|
    ensures IncludesFrom(s, t, i) <==> exists j :: i <= j && OccursAt(s, t, j)
    decreases |s| - i
  {
    if i + |t| <= |s| {
      MatchesAtMeaning(s, t, i, 0);
      if MatchesAt(s, t, i, 0) {
        assert OccursAt(s, t, i);
      } else {
        IncludesFromMeaning(s, t, i + 1);
      }
    }
  }

  /** Every character of an included string occurs in the string that includes it. */
  lemma IncludedCharsOccur(s: string, t: string)
    ensures Includes(s, t) ==> forall c :: c in t ==> c in s
  {
    if Includes(s, t) {
      var i :| OccursAt(s, t, i);
      forall c | c in t
        ensures c in s
      {
        var k :| 0 <= k < |t| && t[k] == c;
        assert s[i..i + |t|][k] == s[i + k];
      }
    }
  }

  /**
   * When `t` does not start `s`, it is included in `s` exactly when it is
   * included in `s` without its first character.
   */
  lemma IncludesPastHead(s: string, t: string)
    requires s != [] && !OccursAt(s, t, 0)
    ensures Includes(s, t) <==> Includes(s[1..], t)
  {
    if Includes(s, t) {
      var i :| OccursAt(s, t, i);
      assert i != 0;
      var j := i - 1;
      assert j + |t| <= |s[1..]|;
      forall k | 0 <= k < |t|
        ensures s[1..][j..j + |t|][k] == t[k]
      {
        assert s[1..][j..j + |t|][k] == s[i + k] == s[i..i + |t|][k];
      }
      assert s[1..][j..j + |t|] == t;
      assert OccursAt(s[1..], t, j);
    }
    if Includes(s[1..], t) {
      var i :| OccursAt(s[1..], t, i);
      forall k | 0 <= k < |t|
        ensures s[i + 1..i + 1 + |t|][k] == t[k]
      {
        assert s[i + 1..i + 1 + |t|][k] == s[1..][i + k] == s[1..][i..i + |t|][k];
      }
      assert s[i + 1..i + 1 + |t|] == t;
      assert OccursAt(s, t, i + 1);
    }
  }

  /** A string that lacks one of the characters of `t` does not include `t`. */
  lemma MissingCharExcludes(s: string, t: string, c: char)
    requires c in t && c !in s
    ensures !Includes(s, t)
  {
    IncludedCharsOccur(s, t);
  }
}
