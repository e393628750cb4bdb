/** `Array.prototype.filter`, `find` and `findIndex` on sequences, with the subsequence relation. */
module Seqs {
  import opened Wrappers

  /** `a` is obtained from `b` by deleting elements, keeping the order of the rest. */
  ghost predicate Subsequence<T>(a: seq<T>, b: seq<T>)
    decreases |b|
  {
    a == [] || (b != [] && ((a[0] == b[0] && Subsequence(a[1..], b[1..])) || Subsequence(a, b[1..])))
  }

  lemma {:induction false} SubsequenceTransitive<T>(a: seq<T>, b: seq<T>, c: seq<T>)
    requires Subsequence(a, b) && Subsequence(b, c)
    ensures Subsequence(a, c)
    decreases |c|
  {
    if a != [] {
      if Subsequence(b, c[1..]) {
        SubsequenceTransitive(a, b, c[1..]);
      } else {
        assert b[0] == c[0] && Subsequence(b[1..], c[1..]);
        if a[0] == b[0] && Subsequence(a[1..], b[1..]) {
          SubsequenceTransitive(a[1..], b[1..], c[1..]);
        } else {
          SubsequenceTransitive(a, b[1..], c[1..]);
        }
      }
    }
  }

  lemma {:induction false} SubsequenceReflexive<T>(a: seq<T>)
    ensures Subsequence(a, a)
    decreases |a|
  {
    if a != [] {
      SubsequenceReflexive(a[1..]);
    }
  }

  /** `s.filter(keep)`: exactly the elements that pass, each as often as in `s`, in their original order. */
  function Filter<T>(keep: T -> bool, s: seq<T>): (r: seq<T>)
    ensures |r| <= |s|
    ensures forall i :: 0 <= i < |r| ==> r[i] in s && keep(r[i])
    ensures forall i :: 0 <= i < |s| && keep(s[i]) ==> s[i] in r
    ensures forall i :: 0 <= i < |s| ==> multiset(r)[s[i]] == if keep(s[i]) then multiset(s)[s[i]] else 0
    ensures Subsequence(r, s)
    decreases |s|
  {
    if s == [] then []
    else
      assert s == [s[0]] + s[1..];
      if keep(s[0]) then [s[0]] + Filter(keep, s[1..])
      else Filter(keep, s[1..])
  }

  /** Filtering twice is filtering once by both conditions. */
  lemma {:induction false} FilterFuse<T>(first: T -> bool, second: T -> bool, s: seq<T>)
    ensures Filter(second, Filter(first, s)) == Filter(x => first(x) && second(x), s)
    decreases |s|
  {
    if s != [] {
      FilterFuse(first, second, s[1..]);
      if first(s[0]) {
        assert Filter(first, s) == [s[0]] + Filter(first, s[1..]);
        assert ([s[0]] + Filter(first, s[1..]))[1..] == Filter(first, s[1..]);
      }
    }
  }

  /** A condition every element passes leaves the sequence as it is. */
  lemma {:induction false} FilterAll<T>(keep: T -> bool, s: seq<T>)
    requires forall i :: 0 <= i < |s| ==> keep(s[i])
    ensures Filter(keep, s) == s
    decreases |s|
  {
    if s != [] {
      FilterAll(keep, s[1..]);
    }
  }

  /** A filter applied only when `cond` holds, as in `if (cond) { xs = xs.filter(keep) }`. */
  function KeepIf<T>(cond: bool, keep: T -> bool, s: seq<T>): seq<T> {
    if cond then Filter(keep, s) else s
  }

  /** A conditional filter keeps exactly the elements that pass it when it applies, in order, and all of them otherwise. */
  lemma KeepIfSpec<T>(cond: bool, keep: T -> bool, s: seq<T>)
    ensures var r := KeepIf(cond, keep, s);
      && Subsequence(r, s)
      && (forall i :: 0 <= i < |r| ==> r[i] in s && (cond ==> keep(r[i])))
      && (forall i :: 0 <= i < |s| && (cond ==> keep(s[i])) ==> s[i] in r)
      && (forall i :: 0 <= i < |s| ==> multiset(r)[s[i]] == if cond ==> keep(s[i]) then multiset(s)[s[i]] else 0)
      && (!cond ==> r == s)
  {
    if !cond {
      SubsequenceReflexive(s);
    }
  }

  /** Two conditional filters in a row keep exactly what passes both, in order. */
  lemma KeepIfTwice<T>(c1: bool, k1: T -> bool, c2: bool, k2: T -> bool, s: seq<T>)
    ensures var r := KeepIf(c2, k2, KeepIf(c1, k1, s));
      && Subsequence(r, s)
      && (forall i :: 0 <= i < |r| ==> r[i] in s && (c1 ==> k1(r[i])) && (c2 ==> k2(r[i])))
      && (forall i :: 0 <= i < |s| && (c1 ==> k1(s[i])) && (c2 ==> k2(s[i])) ==> s[i] in r)
      && (forall i :: 0 <= i < |s| ==>
            multiset(r)[s[i]] == if (c1 ==> k1(s[i])) && (c2 ==> k2(s[i])) then multiset(s)[s[i]] else 0)
      && (!c1 && !c2 ==> r == s)
  {
    var m := KeepIf(c1, k1, s);
    var r := KeepIf(c2, k2, m);
    KeepIfSpec(c1, k1, s);
    KeepIfSpec(c2, k2, m);
    SubsequenceTransitive(r, m, s);
    forall i | 0 <= i < |r|
      ensures r[i] in s && (c1 ==> k1(r[i])) && (c2 ==> k2(r[i]))
    {
      var j :| 0 <= j < |m| && m[j] == r[i];
    }
    forall i | 0 <= i < |s| && (c1 ==> k1(s[i])) && (c2 ==> k2(s[i]))
      ensures s[i] in r
    {
      var j :| 0 <= j < |m| && m[j] == s[i];
    }
    forall i | 0 <= i < |s|
      ensures multiset(r)[s[i]] == if (c1 ==> k1(s[i])) && (c2 ==> k2(s[i])) then multiset(s)[s[i]] else 0
    {
      MultiplicityThroughStage(c2, k2, m, s[i]);
    }
  }

  /** A conditional filter keeps all copies of an element that passes and none of one that does not, whether or not it occurs. */
  lemma MultiplicityThroughStage<T>(cond: bool, keep: T -> bool, m: seq<T>, x: T)
    ensures multiset(KeepIf(cond, keep, m))[x] == if cond ==> keep(x) then multiset(m)[x] else 0
  {
    var r := KeepIf(cond, keep, m);
    KeepIfSpec(cond, keep, m);
    if x in m {
      var j :| 0 <= j < |m| && m[j] == x;
    } else {
      assert x !in r;
    }
  }

  /** Three conditional filters in a row keep exactly what passes all three, in order. */
  lemma KeepIfThrice<T>(c1: bool, k1: T -> bool, c2: bool, k2: T -> bool, c3: bool, k3: T -> bool, s: seq<T>)
    ensures var r := KeepIf(c3, k3, KeepIf(c2, k2, KeepIf(c1, k1, s)));
      && Subsequence(r, s)
      && (forall i :: 0 <= i < |r| ==> r[i] in s && (c1 ==> k1(r[i])) && (c2 ==> k2(r[i])) && (c3 ==> k3(r[i])))
      && (forall i :: 0 <= i < |s| && (c1 ==> k1(s[i])) && (c2 ==> k2(s[i])) && (c3 ==> k3(s[i])) ==> s[i] in r)
      && (forall i :: 0 <= i < |s| ==>
            multiset(r)[s[i]] == if (c1 ==> k1(s[i])) && (c2 ==> k2(s[i])) && (c3 ==> k3(s[i])) then multiset(s)[s[i]] else 0)
      && (!c1 && !c2 && !c3 ==> r == s)
  {
    var m := KeepIf(c2, k2, KeepIf(c1, k1, s));
    var r := KeepIf(c3, k3, m);
    KeepIfTwice(c1, k1, c2, k2, s);
    KeepIfSpec(c3, k3, m);
    SubsequenceTransitive(r, m, s);
    forall i | 0 <= i < |r|
      ensures r[i] in s && (c1 ==> k1(r[i])) && (c2 ==> k2(r[i])) && (c3 ==> k3(r[i]))
    {
      var j :| 0 <= j < |m| && m[j] == r[i];
    }
    forall i | 0 <= i < |s| && (c1 ==> k1(s[i])) && (c2 ==> k2(s[i])) && (c3 ==> k3(s[i]))
      ensures s[i] in r
    {
      var j :| 0 <= j < |m| && m[j] == s[i];
    }
    forall i | 0 <= i < |s|
      ensures multiset(r)[s[i]] == if (c1 ==> k1(s[i])) && (c2 ==> k2(s[i])) && (c3 ==> k3(s[i])) then multiset(s)[s[i]] else 0
    {
      MultiplicityThroughStage(c3, k3, m, s[i]);
    }
  }

  /** `s.findIndex(p)`: the first index whose element passes, `None` standing for -1. */
  function FindIndex<T>(p: T -> bool, s: seq<T>): (r: Option<nat>)
    ensures r.None? <==> forall i :: 0 <= i < |s| ==> !p(s[i])
    ensures r.Some? ==> r.value < |s| && p(s[r.value]) && forall i :: 0 <= i < r.value ==> !p(s[i])
    decreases |s|
  {
    if s == [] then None
    else if p(s[0]) then Some(0)
    else match FindIndex(p, s[1..])
      case None => None
      case Some(i) => Some(i + 1)
  }

  /** `s.find(p)`: the element at `findIndex`. */
  function Find<T>(p: T -> bool, s: seq<T>): (r: Option<T>)
    ensures r.None? <==> forall i :: 0 <= i < |s| ==> !p(s[i])
    ensures r.Some? ==> exists i :: 0 <= i < |s| && s[i] == r.value && p(s[i]) && forall j :: 0 <= j < i ==> !p(s[j])
  {
    match FindIndex(p, s)
    case None => None
    case Some(i) => Some(s[i])
  }

  /** `s.some(p)`. */
  predicate Any<T>(p: T -> bool, s: seq<T>) {
    exists i :: 0 <= i < |s| && p(s[i])
  }
}
