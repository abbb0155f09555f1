/** Sequences from which elements are struck out. */
module Subsequences {
  // s is left when some elements of t are struck out
  ghost predicate Subsequence<T>(s: seq<T>, t: seq<T>) {
    s == [] || (t != [] && ((s[0] == t[0] && Subsequence(s[1..], t[1..])) || Subsequence(s, t[1..])))
  }

  lemma {:induction false} SubsequenceRefl<T>(s: seq<T>)
    ensures Subsequence(s, s)
  {
    if s != [] { SubsequenceRefl(s[1..]); }
  }

  lemma {:induction false} SubsequenceConcat<T>(a: seq<T>, b: seq<T>, c: seq<T>, d: seq<T>)
    requires Subsequence(a, b) && Subsequence(c, d)
    ensures Subsequence(a + c, b + d)
    decreases |b|
  {
    if b == [] {
      assert a + c == c && b + d == d;
    } else {
      assert (b + d)[1..] == b[1..] + d;
      if a != [] && a[0] == b[0] && Subsequence(a[1..], b[1..]) {
        assert (a + c)[1..] == a[1..] + c;
        SubsequenceConcat(a[1..], b[1..], c, d);
      } else {
        SubsequenceConcat(a, b[1..], c, d);
        SubsequenceSkip(a + c, b + d);
      }
    }
  }

  lemma SubsequenceSkip<T>(s: seq<T>, t: seq<T>)
    requires t != [] && Subsequence(s, t[1..])
    ensures Subsequence(s, t)
  {
  }

  lemma {:induction false} SubsequenceTrans<T>(a: seq<T>, b: seq<T>, c: seq<T>)
    requires Subsequence(a, b) && Subsequence(b, c)
    ensures Subsequence(a, c)
    decreases |c|
  {
    if a != [] && c != [] {
      if b[0] == c[0] && Subsequence(b[1..], c[1..]) {
        if a[0] == b[0] && Subsequence(a[1..], b[1..]) {
          SubsequenceTrans(a[1..], b[1..], c[1..]);
        } else {
          SubsequenceTrans(a, b[1..], c[1..]);
        }
      } else {
        SubsequenceTrans(a, b, c[1..]);
      }
    }
  }

  // Striking out shortens: only the whole sequence is as long as itself
  lemma {:induction false} SubsequenceSize<T>(s: seq<T>, t: seq<T>)
    requires Subsequence(s, t)
    ensures |s| <= |t|
    ensures |s| == |t| ==> s == t
    decreases |t|
  {
    if s != [] {
      if s[0] == t[0] && Subsequence(s[1..], t[1..]) {
        SubsequenceSize(s[1..], t[1..]);
        assert s == [s[0]] + s[1..] && t == [t[0]] + t[1..];
      } else {
        SubsequenceSize(s, t[1..]);
      }
    }
  }

  // ---- Keeping the elements at some places ----

  function Kept<T>(s: seq<T>, keep: nat -> bool): seq<T> {
    if s == [] then [] else var n := |s| - 1; Kept(s[..n], keep) + if keep(n) then [s[n]] else []
  }

  lemma {:induction false} SameKept<T>(s: seq<T>, keep: nat -> bool, other: nat -> bool)
    requires forall i: nat | i < |s| :: keep(i) <==> other(i)
    ensures Kept(s, keep) == Kept(s, other)
  {
    if s != [] { SameKept(s[..|s| - 1], keep, other); }
  }

  lemma SameParts<T>(a: seq<T>, b: seq<T>, c: seq<T>, d: seq<T>)
    requires Subsequence(a, b) && Subsequence(c, d)
    ensures a + c == b + d <==> a == b && c == d
  {
    SubsequenceSize(a, b);
    SubsequenceSize(c, d);
    assert a + c == b + d ==> |a| + |c| == |b| + |d|;
  }

  // What is kept is in order, and it is everything exactly when nothing was dropped
  lemma {:induction false} KeptIsSubsequence<T>(s: seq<T>, keep: nat -> bool)
    ensures Subsequence(Kept(s, keep), s)
    ensures Kept(s, keep) == s <==> forall i: nat | i < |s| :: keep(i)
  {
    hide Subsequence;
    if s == [] {
      SubsequenceRefl(s);
    } else {
      var n := |s| - 1;
      var last := if keep(n) then [s[n]] else [];
      KeptIsSubsequence(s[..n], keep);
      LastOrNothing(s[n], keep(n));
      SubsequenceConcat(Kept(s[..n], keep), s[..n], last, [s[n]]);
      SameParts(Kept(s[..n], keep), s[..n], last, [s[n]]);
      assert s == s[..n] + [s[n]];
      assert Kept(s, keep) == Kept(s[..n], keep) + last;
      hide Kept;
    }
  }

  lemma LastOrNothing<T>(x: T, kept: bool)
    ensures Subsequence(if kept then [x] else [], [x])
  {
    SubsequenceRefl([x]);
  }
}
