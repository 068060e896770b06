/** Sequence operations shared by the two domain modules: the `find`, `filter`
    and `reduce` of JavaScript arrays, stated over Dafny sequences, together
    with a reference sum and the facts about it that the domain lemmas use. */
module Seqs {

  datatype Option<+T> = None | Some(value: T)

  /** `r` is obtained from `s` by deleting elements, keeping the order of the rest. */
  ghost predicate IsSubsequence<T>(r: seq<T>, s: seq<T>)
    decreases |s|
  {
    if r == [] then true
    else if s == [] then false
    else (r[0] == s[0] && IsSubsequence(r[1..], s[1..])) || IsSubsequence(r, s[1..])
  }

  /** `Array.prototype.filter`: the elements of `s` that satisfy `p`, in order. */
  function Filter<T>(s: seq<T>, p: T -> bool): (r: seq<T>)
    ensures |r| <= |s|
    ensures forall i :: 0 <= i < |r| ==> p(r[i])
    decreases |s|
  {
    if s == [] then []
    else if p(s[0]) then [s[0]] + Filter(s[1..], p)
    else Filter(s[1..], p)
  }

  /** A filter keeps every element that satisfies `p` as often as `s` holds it, and no other. */
  lemma {:induction false} FilterMultiset<T(!new)>(s: seq<T>, p: T -> bool)
    ensures forall x :: multiset(Filter(s, p))[x] == if p(x) then multiset(s)[x] else 0
    ensures forall x :: x in Filter(s, p) <==> x in s && p(x)
    decreases |s|
  {
    if s != [] {
      assert s == [s[0]] + s[1..];
      FilterMultiset(s[1..], p);
    }
  }

  /** A filter keeps the order of `s`. */
  lemma {:induction false} FilterIsSubsequence<T>(s: seq<T>, p: T -> bool)
    ensures IsSubsequence(Filter(s, p), s)
    decreases |s|
  {
    if s != [] {
      FilterIsSubsequence(s[1..], p);
      if p(s[0]) {
        assert ([s[0]] + Filter(s[1..], p))[1..] == Filter(s[1..], p);
      }
    }
  }

  /** A filter is empty exactly when nothing satisfies `p`, and keeps everything
      exactly when everything does. */
  lemma {:induction false} FilterExtremes<T>(s: seq<T>, p: T -> bool)
    ensures Filter(s, p) == [] <==> forall i :: 0 <= i < |s| ==> !p(s[i])
    ensures |Filter(s, p)| == |s| <==> forall i :: 0 <= i < |s| ==> p(s[i])
    decreases |s|
  {
    if s != [] {
      FilterExtremes(s[1..], p);
      assert forall i :: 1 <= i < |s| ==> s[i] == s[1..][i - 1];
    }
  }

  /** `Array.prototype.find`: the first element of `s` that satisfies `p`, if any. */
  function Find<T>(s: seq<T>, p: T -> bool): (r: Option<T>)
    ensures r.None? <==> forall i :: 0 <= i < |s| ==> !p(s[i])
    ensures r.Some? ==>
      exists i :: 0 <= i < |s| && s[i] == r.value && p(s[i]) &&
        forall j :: 0 <= j < i ==> !p(s[j])
    decreases |s|
  {
    if s == [] then None
    else if p(s[0]) then Some(s[0])
    else
      var r := Find(s[1..], p);
      assert r.Some? ==> (exists i :: 1 <= i < |s| && s[i] == r.value && p(s[i]) &&
                                     forall j :: 0 <= j < i ==> !p(s[j])) by {
        if r.Some? {
          var k :| 0 <= k < |s[1..]| && s[1..][k] == r.value && p(s[1..][k]) &&
            forall j :: 0 <= j < k ==> !p(s[1..][j]);
          assert s[k + 1] == r.value && p(s[k + 1]);
          assert forall j :: 0 <= j < k + 1 ==> !p(s[j]) by {
            forall j | 0 <= j < k + 1 ensures !p(s[j]) {
              if j > 0 { assert s[j] == s[1..][j - 1]; }
            }
          }
        }
      }
      r
  }

  lemma {:induction false} FilterConcat<T>(a: seq<T>, b: seq<T>, p: T -> bool)
    ensures Filter(a + b, p) == Filter(a, p) + Filter(b, p)
    decreases |a|
  {
    if a == [] {
      assert a + b == b;
    } else {
      assert (a + b)[1..] == a[1..] + b;
      FilterConcat(a[1..], b, p);
    }
  }

  /** The plain sum of `f` over `s`, the reference for every fold below. */
  function Sum<T>(s: seq<T>, f: T -> real): real
    decreases |s|
  {
    if s == [] then 0.0 else f(s[0]) + Sum(s[1..], f)
  }

  /** `Array.prototype.reduce((acc, x) => acc + f(x), acc)`: a left fold that
      starts from `acc` and adds `f` of each element from first to last. */
  function Reduce<T>(acc: real, s: seq<T>, f: T -> real): (r: real)
    ensures r == acc + Sum(s, f)
    decreases |s|
  {
    if s == [] then acc else Reduce(acc + f(s[0]), s[1..], f)
  }

  lemma {:induction false} SumConcat<T>(a: seq<T>, b: seq<T>, f: T -> real)
    ensures Sum(a + b, f) == Sum(a, f) + Sum(b, f)
    decreases |a|
  {
    if a == [] {
      assert a + b == b;
    } else {
      assert (a + b)[1..] == a[1..] + b;
      SumConcat(a[1..], b, f);
    }
  }

  /** A sum over `n` terms each between `lo` and `hi` lies between `n * lo` and `n * hi`. */
  lemma {:induction false} SumBounds<T>(s: seq<T>, f: T -> real, lo: real, hi: real)
    requires forall i :: 0 <= i < |s| ==> lo <= f(s[i]) <= hi
    ensures (|s| as real) * lo <= Sum(s, f) <= (|s| as real) * hi
    decreases |s|
  {
    if s != [] {
      assert forall i :: 0 <= i < |s[1..]| ==> s[1..][i] == s[i + 1];
      SumBounds(s[1..], f, lo, hi);
      assert (|s| as real) * lo == lo + (|s[1..]| as real) * lo;
      assert (|s| as real) * hi == hi + (|s[1..]| as real) * hi;
    }
  }

  lemma {:induction false} SumNonNegative<T>(s: seq<T>, f: T -> real)
    requires forall i :: 0 <= i < |s| ==> f(s[i]) >= 0.0
    ensures Sum(s, f) >= 0.0
    decreases |s|
  {
    if s != [] {
      assert forall i :: 0 <= i < |s[1..]| ==> s[1..][i] == s[i + 1];
      SumNonNegative(s[1..], f);
    }
  }

  /** A sum does not depend on the order of its terms. */
  lemma {:induction false} SumPermutation<T>(a: seq<T>, b: seq<T>, f: T -> real)
    requires multiset(a) == multiset(b)
    ensures Sum(a, f) == Sum(b, f)
    decreases |a|
  {
    if a == [] {
      assert |b| == |multiset(b)| == 0;
    } else {
      var x := a[0];
      assert a == [x] + a[1..];
      assert x in multiset(b);
      var k :| 0 <= k < |b| && b[k] == x;
      var rest := b[..k] + b[k + 1..];
      assert b == b[..k] + [x] + b[k + 1..];
      assert multiset(b) == multiset(b[..k]) + multiset([x]) + multiset(b[k + 1..]);
      assert multiset(a) == multiset([x]) + multiset(a[1..]);
      assert multiset(rest) == multiset(b[..k]) + multiset(b[k + 1..]);
      assert multiset(a[1..]) == multiset(a) - multiset([x]);
      assert multiset(rest) == multiset(b) - multiset([x]);
      SumPermutation(a[1..], rest, f);
      SumConcat(b[..k] + [x], b[k + 1..], f);
      SumConcat(b[..k], [x], f);
      SumConcat(b[..k], b[k + 1..], f);
      assert Sum([x], f) == f(x) by {
        assert [x][1..] == [];
      }
    }
  }

  /** Summing over a filtered sequence is summing over the whole sequence with
      the rejected elements counted as zero. */
  lemma {:induction false} SumFilter<T>(s: seq<T>, p: T -> bool, f: T -> real, g: T -> real)
    requires forall x :: g(x) == if p(x) then f(x) else 0.0
    ensures Sum(Filter(s, p), f) == Sum(s, g)
    decreases |s|
  {
    if s != [] {
      SumFilter(s[1..], p, f, g);
      if p(s[0]) {
        assert ([s[0]] + Filter(s[1..], p))[1..] == Filter(s[1..], p);
      }
    }
  }
}
