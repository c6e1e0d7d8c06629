/** Subsequences, prefixes and suffixes of sequences. */
module Sequences {
  /** The elements that satisfy p, in their order. */
  function Pick<T>(s: seq<T>, p: T -> bool): (r: seq<T>)
    ensures |r| <= |s|
  {
    if s == [] then [] else (if p(s[0]) then [s[0]] else []) + Pick(s[1..], p)
  }

  lemma {:induction false} ConcatAssociates<T>(a: seq<T>, b: seq<T>, c: seq<T>)
    ensures (a + b) + c == a + (b + c)
  {
  }

  lemma {:induction false} ConcatIndex<T>(a: seq<T>, b: seq<T>, i: nat)
    requires i < |a + b|
    ensures (a + b)[i] == if i < |a| then a[i] else b[i - |a|]
  {
  }

  lemma {:induction false} PickMembers<T>(s: seq<T>, p: T -> bool, x: T)
    ensures x in Pick(s, p) <==> x in s && p(x)
  {
    if s != [] {
      PickMembers(s[1..], p, x);
      assert s == [s[0]] + s[1..];
    }
  }

  lemma {:induction false} PickConcat<T>(a: seq<T>, b: seq<T>, p: T -> bool)
    ensures Pick(a + b, p) == Pick(a, p) + Pick(b, p)
  {
    if a == [] {
      assert a + b == b;
    } else {
      PickConcat(a[1..], b, p);
      assert (a + b)[1..] == a[1..] + b && (a + b)[0] == a[0];
      ConcatAssociates(if p(a[0]) then [a[0]] else [], Pick(a[1..], p), Pick(b, p));
    }
  }

  lemma {:induction false} PickNone<T>(s: seq<T>, p: T -> bool)
    requires forall i :: 0 <= i < |s| ==> !p(s[i])
    ensures Pick(s, p) == []
  {
    if s != [] { PickNone(s[1..], p); }
  }

  lemma {:induction false} PickAll<T>(s: seq<T>, p: T -> bool)
    requires forall i :: 0 <= i < |s| ==> p(s[i])
    ensures Pick(s, p) == s
  {
    if s != [] { PickAll(s[1..], p); }
  }

  lemma {:induction false} PickAgree<T>(s: seq<T>, p: T -> bool, q: T -> bool)
    requires forall i :: 0 <= i < |s| ==> p(s[i]) == q(s[i])
    ensures Pick(s, p) == Pick(s, q)
  {
    if s != [] { PickAgree(s[1..], p, q); }
  }

  lemma {:induction false} PickTwice<T>(s: seq<T>, p: T -> bool, q: T -> bool, both: T -> bool)
    requires forall i :: 0 <= i < |s| ==> (both(s[i]) <==> p(s[i]) && q(s[i]))
    ensures Pick(Pick(s, p), q) == Pick(s, both)
  {
    if s != [] {
      PickTwice(s[1..], p, q, both);
      if p(s[0]) {
        assert Pick(s, p)[0] == s[0] && Pick(s, p)[1..] == Pick(s[1..], p);
      } else {
        assert Pick(s, p) == Pick(s[1..], p);
      }
    }
  }

  /** When every element p picks comes before every one q picks, picking either is picking one after the other. */
  lemma {:induction false} PickSplit<T>(s: seq<T>, p: T -> bool, q: T -> bool, either: T -> bool)
    requires forall i :: 0 <= i < |s| ==> (either(s[i]) <==> p(s[i]) || q(s[i]))
    requires forall i, j :: 0 <= i <= j < |s| && q(s[i]) ==> !p(s[j])
    ensures Pick(s, either) == Pick(s, p) + Pick(s, q)
  {
    if s == [] {
    } else if q(s[0]) {
      PickNone(s, p);
      PickAgree(s, either, q);
    } else {
      PickSplit(s[1..], p, q, either);
      ConcatAssociates(if p(s[0]) then [s[0]] else [], Pick(s[1..], p), Pick(s[1..], q));
    }
  }

  function Min(a: int, b: int): int { if a < b then a else b }

  function FirstN<T>(n: nat, s: seq<T>): seq<T> { s[..Min(n, |s|)] }

  function LastN<T>(n: nat, s: seq<T>): seq<T> { s[|s| - Min(n, |s|)..] }
}
