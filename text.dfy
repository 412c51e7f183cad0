/**
 * The few operations of Go's `strings` package that the request injector
 * uses, over text seen as a sequence of characters. Case mapping covers
 * ASCII letters only.
 */
module Text {

  /** `strings.ReplaceAll(s, c, "")` for a one-character `c`. */
  function RemoveAll(s: string, c: char): (r: string)
    ensures c !in r
    ensures |r| <= |s|
    // every other character is kept, as often as it occurs
    ensures forall x :: x != c ==> multiset(r)[x] == multiset(s)[x]
  {
    if s == [] then []
    else
      assert s == [s[0]] + s[1..];
      (if s[0] == c then [] else [s[0]]) + RemoveAll(s[1..], c)
  }

  lemma {:induction false} RemoveAllAbsent(s: string, c: char)
    requires c !in s
    ensures RemoveAll(s, c) == s
  {
    if s != [] {
      RemoveAllAbsent(s[1..], c);
    }
  }

  /** A trailing `c` after text free of `c` is all that is removed. */
  lemma {:induction false} RemoveAllTrailing(s: string, c: char)
    requires c !in s
    ensures RemoveAll(s + [c], c) == s
  {
    if s == [] {
      assert RemoveAll([c], c) == [] + RemoveAll([], c);
    } else {
      assert (s + [c])[1..] == s[1..] + [c];
      RemoveAllTrailing(s[1..], c);
    }
  }

  /** Removal works piecewise, so the characters kept stay in their order. */
  lemma {:induction false} RemoveAllConcat(a: string, b: string, c: char)
    ensures RemoveAll(a + b, c) == RemoveAll(a, c) + RemoveAll(b, c)
  {
    if a == [] {
      assert a + b == b;
    } else {
      var head := if a[0] == c then [] else [a[0]];
      assert (a + b)[0] == a[0] && (a + b)[1..] == a[1..] + b;
      assert RemoveAll(a + b, c) == head + RemoveAll(a[1..] + b, c);
      assert RemoveAll(a, c) == head + RemoveAll(a[1..], c);
      RemoveAllConcat(a[1..], b, c);
      assert head + (RemoveAll(a[1..], c) + RemoveAll(b, c)) == (head + RemoveAll(a[1..], c)) + RemoveAll(b, c);
    }
  }

  /** Removing one character adds no other. */
  lemma {:induction false} RemoveAllSubset(s: string, c: char, x: char)
    requires x !in s
    ensures x !in RemoveAll(s, c)
  {
    if s != [] {
      RemoveAllSubset(s[1..], c, x);
    }
  }

  /** Removing a character twice is removing it once. */
  lemma RemoveAllIdempotent(s: string, c: char)
    ensures RemoveAll(RemoveAll(s, c), c) == RemoveAll(s, c)
  {
    RemoveAllAbsent(RemoveAll(s, c), c);
  }

  /** The text before the first `c`: segment 0 of `strings.Split(s, c)`. */
  function Before(s: string, c: char): (r: string)
    ensures |r| <= |s| && r == s[..|r|]
    ensures c !in r
    ensures c in s ==> |r| < |s| && s[|r|] == c
    ensures c !in s ==> r == s
  {
    if s == [] || s[0] == c then [] else [s[0]] + Before(s[1..], c)
  }

  /** The text after the first `c`, which must occur in `s`. */
  function After(s: string, c: char): (r: string)
    requires c in s
    ensures s == Before(s, c) + [c] + r
  {
    var n := |Before(s, c)|;
    assert s == s[..n] + [s[n]] + s[n + 1..];
    s[n + 1..]
  }

  /** The text before the first `c` of `a + [c] + b` is `a` when `a` has no `c`. */
  lemma {:induction false} BeforeJoin(a: string, c: char, b: string)
    requires c !in a
    ensures Before(a + [c] + b, c) == a
  {
    if a != [] {
      assert (a + [c] + b)[1..] == a[1..] + [c] + b;
      BeforeJoin(a[1..], c, b);
    }
  }

  /** The text after the first `c` of `a + [c] + b` is `b` when `a` has no `c`. */
  lemma AfterJoin(a: string, c: char, b: string)
    requires c !in a
    ensures c in a + [c] + b && After(a + [c] + b, c) == b
  {
    assert (a + [c] + b)[|a|] == c;
    BeforeJoin(a, c, b);
  }

  function LowerChar(c: char): (r: char)
    ensures !('A' <= r <= 'Z')
    ensures 'A' <= c <= 'Z' ==> r as int == c as int + 32
    ensures !('A' <= c <= 'Z') ==> r == c
  {
    if 'A' <= c <= 'Z' then (c as int - 'A' as int + 'a' as int) as char else c
  }

  /** `strings.ToLower`, on ASCII letters. */
  function Lower(s: string): (r: string)
    ensures |r| == |s|
    ensures forall i :: 0 <= i < |s| ==> r[i] == LowerChar(s[i])
  {
    seq(|s|, i requires 0 <= i < |s| => LowerChar(s[i]))
  }

  /** Two texts have the same lower-case form exactly when they agree up to the case of ASCII letters. */
  lemma LowerSameIff(a: string, b: string)
    ensures Lower(a) == Lower(b) <==>
              |a| == |b| && forall i :: 0 <= i < |a| ==> LowerChar(a[i]) == LowerChar(b[i])
  {
    if |a| == |b| && forall i :: 0 <= i < |a| ==> LowerChar(a[i]) == LowerChar(b[i]) {
      assert forall i :: 0 <= i < |a| ==> Lower(a)[i] == Lower(b)[i];
    }
  }

  /** Lower-casing twice is lower-casing once. */
  lemma LowerIdempotent(s: string)
    ensures Lower(Lower(s)) == Lower(s)
  {
  }
}
