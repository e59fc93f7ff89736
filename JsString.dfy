/**
  The string operations the views use: `split(' ')`, `join(' ')`,
  `toLowerCase()` (over ASCII letters only) and `includes`.
 */
module JsString {

  const Space := ' '

  /** toLowerCase on one character; only 'A'..'Z' are folded in this model. */
  function LowerChar(c: char): char {
    if 'A' <= c <= 'Z' then (c as int - 'A' as int + 'a' as int) as char else c
  }

  function ToLowerCase(s: string): string {
    seq(|s|, i requires 0 <= i < |s| => LowerChar(s[i]))
  }

  /** Folding twice is folding once, so lower-casing the search term is harmless. */
  lemma ToLowerCaseIdempotent(s: string)
    ensures ToLowerCase(ToLowerCase(s)) == ToLowerCase(s)
  {
  }

  /** `needle` sits in `haystack` starting at index i. */
  predicate OccursAt(haystack: string, needle: string, i: int) {
    0 <= i && i + |needle| <= |haystack| && haystack[i..i + |needle|] == needle
  }

  /** String.prototype.includes. */
  predicate Includes(haystack: string, needle: string) {
    exists i :: 0 <= i <= |haystack| - |needle| && OccursAt(haystack, needle, i)
  }

  /** Every string includes the empty string. */
  lemma IncludesEmpty(haystack: string)
    ensures Includes(haystack, "")
  {
    assert OccursAt(haystack, "", 0);
  }

  /** Number of space characters in s. */
  function Spaces(s: string): nat {
    if |s| == 0 then 0 else (if s[0] == Space then 1 else 0) + Spaces(s[1..])
  }

  lemma {:induction false} SpacesConcat(a: string, b: string)
    ensures Spaces(a + b) == Spaces(a) + Spaces(b)
  {
    if |a| == 0 {
      assert a + b == b;
    } else {
      assert (a + b)[1..] == a[1..] + b;
      SpacesConcat(a[1..], b);
    }
  }

  /**
    String.prototype.split(' '): the pieces between single spaces, so two
    adjacent spaces give an empty piece and the empty string gives [""].
   */
  function Split(s: string): (pieces: seq<string>)
    ensures |pieces| == Spaces(s) + 1
    ensures forall w :: w in pieces ==> Space !in w
    decreases |s|
  {
    if |s| == 0 then [""]
    else
      var rest := Split(s[1..]);
      if s[0] == Space then [""] + rest
      else [[s[0]] + rest[0]] + rest[1..]
  }

  /** Array.prototype.join(' '). */
  function Join(pieces: seq<string>): string {
    if |pieces| == 0 then ""
    else if |pieces| == 1 then pieces[0]
    else pieces[0] + [Space] + Join(pieces[1..])
  }

  /** Joining the pieces of a split gives back the string. */
  lemma {:induction false} JoinSplit(s: string)
    ensures Join(Split(s)) == s
    decreases |s|
  {
    if |s| > 0 {
      var rest := Split(s[1..]);
      JoinSplit(s[1..]);
      if s[0] == Space {
        assert Join(Split(s)) == "" + [Space] + Join(rest);
        assert s == [s[0]] + s[1..];
      } else if |rest| == 1 {
        assert s == [s[0]] + s[1..];
      } else {
        assert Join(rest) == rest[0] + [Space] + Join(rest[1..]);
        assert Split(s)[1..] == rest[1..];
        assert s == [s[0]] + s[1..];
      }
    }
  }

  /** Joining k >= 1 pieces, then a space, then the others is joining them all. */
  lemma {:induction false} JoinAt(pieces: seq<string>, k: nat)
    requires 1 <= k < |pieces|
    ensures Join(pieces) == Join(pieces[..k]) + [Space] + Join(pieces[k..])
  {
    if k > 1 {
      JoinAt(pieces[1..], k - 1);
      assert pieces[1..][..k - 1] == pieces[..k][1..];
      assert pieces[1..][k - 1..] == pieces[k..];
    }
  }

  /** Joining space-free pieces puts exactly one space between neighbours. */
  lemma {:induction false} JoinSpaces(pieces: seq<string>)
    requires |pieces| >= 1
    requires forall w :: w in pieces ==> Space !in w
    ensures Spaces(Join(pieces)) == |pieces| - 1
  {
    NoSpaceHasNoSpaces(pieces[0]);
    if |pieces| > 1 {
      JoinSpaces(pieces[1..]);
      SpacesConcat(pieces[0] + [Space], Join(pieces[1..]));
      SpacesConcat(pieces[0], [Space]);
    }
  }

  lemma {:induction false} NoSpaceHasNoSpaces(s: string)
    requires Space !in s
    ensures Spaces(s) == 0
  {
    if |s| > 0 {
      assert forall c :: c in s[1..] ==> c in s;
      NoSpaceHasNoSpaces(s[1..]);
    }
  }
}
