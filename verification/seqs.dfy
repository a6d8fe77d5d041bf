/** Sequence operations shared by the table handlers and the page filters:
    `Array.prototype.filter`, first-match lookup, in-place update, and the
    order-preserving subsequence relation they are judged by. */
module Seqs {
  import opened Wrappers
  import opened Js

  /** `a` can be obtained from `b` by deleting elements, keeping the order of the rest. */
  predicate IsSubsequence<T(==,!new)>(a: seq<T>, b: seq<T>)
    decreases |b|
  {
    |a| == 0
    || (|b| > 0
        && ((a[0] == b[0] && IsSubsequence(a[1..], b[1..])) || IsSubsequence(a, b[1..])))
  }

  lemma {:induction false} SubsequenceRefl<T(!new)>(a: seq<T>)
    ensures IsSubsequence(a, a)
    decreases |a|
  {
    if |a| > 0 {
      SubsequenceRefl(a[1..]);
    }
  }

  lemma {:induction false} SubsequenceTrans<T(!new)>(a: seq<T>, b: seq<T>, c: seq<T>)
    requires IsSubsequence(a, b) && IsSubsequence(b, c)
    ensures IsSubsequence(a, c)
    decreases |c|
  {
    if |a| > 0 {
      if b[0] == c[0] && IsSubsequence(b[1..], c[1..]) {
        if a[0] == b[0] && IsSubsequence(a[1..], b[1..]) {
          SubsequenceTrans(a[1..], b[1..], c[1..]);
        } else {
          SubsequenceTrans(a, b[1..], c[1..]);
        }
      } else {
        SubsequenceTrans(a, b, c[1..]);
      }
    }
  }

  /** A subsequence has no more elements than the sequence it comes from. */
  lemma {:induction false} SubsequenceLength<T(!new)>(a: seq<T>, b: seq<T>)
    requires IsSubsequence(a, b)
    ensures |a| <= |b|
    decreases |b|
  {
    if |a| > 0 {
      if a[0] == b[0] && IsSubsequence(a[1..], b[1..]) {
        SubsequenceLength(a[1..], b[1..]);
      } else {
        SubsequenceLength(a, b[1..]);
      }
    }
  }

  /** `s.filter(p)`: the elements satisfying `p`, in their original order. */
  function Filter<T(==,!new)>(s: seq<T>, p: T -> bool): (r: seq<T>)
    ensures forall i :: 0 <= i < |r| ==> p(r[i])
    ensures forall x :: multiset(r)[x] == if p(x) then multiset(s)[x] else 0
    ensures IsSubsequence(r, s)
    decreases |s|
  {
    if |s| == 0 then []
    else
      var rest := Filter(s[1..], p);
      assert s == [s[0]] + s[1..];
      if p(s[0]) then [s[0]] + rest else rest
  }

  lemma FilterMembership<T(!new)>(s: seq<T>, p: T -> bool, x: T)
    ensures x in Filter(s, p) <==> x in s && p(x)
  {
    assert x in Filter(s, p) <==> multiset(Filter(s, p))[x] > 0;
    assert x in s <==> multiset(s)[x] > 0;
  }

  /** Filtering distributes over concatenation. */
  lemma {:induction false} FilterConcat<T(!new)>(a: seq<T>, b: seq<T>, p: T -> bool)
    ensures Filter(a + b, p) == Filter(a, p) + Filter(b, p)
    decreases |a|
  {
    if |a| == 0 {
      assert a + b == b;
    } else {
      assert (a + b)[1..] == a[1..] + b;
      FilterConcat(a[1..], b, p);
    }
  }

  /** Filtering with a predicate every element satisfies changes nothing. */
  lemma {:induction false} FilterAll<T(!new)>(s: seq<T>, p: T -> bool)
    requires forall i :: 0 <= i < |s| ==> p(s[i])
    ensures Filter(s, p) == s
    decreases |s|
  {
    if |s| > 0 {
      FilterAll(s[1..], p);
    }
  }

  /** Filtering with a predicate no element satisfies leaves nothing. */
  lemma {:induction false} FilterNone<T(!new)>(s: seq<T>, p: T -> bool)
    requires forall i :: 0 <= i < |s| ==> !p(s[i])
    ensures Filter(s, p) == []
    decreases |s|
  {
    if |s| > 0 {
      FilterNone(s[1..], p);
    }
  }

  /** Filtering twice is filtering once with the conjunction. */
  lemma {:induction false} FilterFilter<T(!new)>(s: seq<T>, p: T -> bool, q: T -> bool)
    ensures Filter(Filter(s, p), q) == Filter(s, x => p(x) && q(x))
    decreases |s|
  {
    if |s| > 0 {
      FilterFilter(s[1..], p, q);
    }
  }

  /** Number of elements satisfying `p`. */
  function Count<T(==,!new)>(s: seq<T>, p: T -> bool): (n: nat)
    ensures n == |Filter(s, p)|
    ensures n <= |s|
    decreases |s|
  {
    if |s| == 0 then 0
    else (if p(s[0]) then 1 else 0) + Count(s[1..], p)
  }

  /** Rewriting rows in a way `q` cannot see leaves the `q`-count alone. */
  lemma {:induction false} CountUpdate<T(!new)>(s: seq<T>, p: T -> bool, f: T -> T, q: T -> bool)
    requires forall x :: p(x) ==> (q(f(x)) <==> q(x))
    ensures Count(Update(s, p, f), q) == Count(s, q)
    decreases |s|
  {
    if |s| > 0 {
      assert Update(s, p, f)[1..] == Update(s[1..], p, f);
      CountUpdate(s[1..], p, f, q);
    }
  }

  lemma {:induction false} CountPositive<T(!new)>(s: seq<T>, q: T -> bool, i: nat)
    requires i < |s| && q(s[i])
    ensures Count(s, q) > 0
    decreases i
  {
    if i > 0 {
      CountPositive(s[1..], q, i - 1);
    }
  }

  lemma {:induction false} CountNone<T(!new)>(s: seq<T>, q: T -> bool)
    requires forall i :: 0 <= i < |s| ==> !q(s[i])
    ensures Count(s, q) == 0
    decreases |s|
  {
    if |s| > 0 {
      CountNone(s[1..], q);
    }
  }

  lemma {:induction false} CountAppend<T(!new)>(s: seq<T>, x: T, q: T -> bool)
    ensures Count(s + [x], q) == Count(s, q) + (if q(x) then 1 else 0)
    decreases |s|
  {
    if |s| == 0 {
      assert Count([x], q) == (if q(x) then 1 else 0) + Count([x][1..], q);
    } else {
      assert (s + [x])[1..] == s[1..] + [x];
      CountAppend(s[1..], x, q);
    }
  }

  /** The first element satisfying `p` (what `rows[0]` of a query returns). */
  function Find<T(!new)>(s: seq<T>, p: T -> bool): (r: Option<T>)
    ensures r.None? <==> forall i :: 0 <= i < |s| ==> !p(s[i])
    ensures r.Some? ==> exists i :: 0 <= i < |s| && s[i] == r.value && p(s[i])
                                     && forall j :: 0 <= j < i ==> !p(s[j])
    decreases |s|
  {
    if |s| == 0 then None
    else if p(s[0]) then Some(s[0])
    else
      var r := Find(s[1..], p);
      assert r.Some? ==> exists i :: 0 <= i < |s[1..]| && s[1..][i] == r.value && p(s[1..][i])
                                       && forall j :: 0 <= j < i ==> !p(s[1..][j]);
      assert r.Some? ==> exists i :: 1 <= i < |s| && s[i] == r.value && p(s[i])
                                       && forall j :: 0 <= j < i ==> !p(s[j]) by {
        if r.Some? {
          var i :| 0 <= i < |s[1..]| && s[1..][i] == r.value && p(s[1..][i])
                   && forall j :: 0 <= j < i ==> !p(s[1..][j]);
          assert s[i + 1] == r.value && p(s[i + 1]);
          forall j | 0 <= j < i + 1 ensures !p(s[j]) {
            if j > 0 { assert s[j] == s[1..][j - 1]; }
          }
        }
      }
      r
  }

  /** Any element satisfies `p` (the query returned at least one row). */
  predicate Exists<T(!new)>(s: seq<T>, p: T -> bool) {
    exists i :: 0 <= i < |s| && p(s[i])
  }

  /** `UPDATE ... WHERE p`: every row satisfying `p` is replaced by `f` of itself,
      every other row stays where it is. */
  function Update<T(!new)>(s: seq<T>, p: T -> bool, f: T -> T): (r: seq<T>)
    ensures |r| == |s|
    ensures forall i :: 0 <= i < |s| ==> r[i] == if p(s[i]) then f(s[i]) else s[i]
  {
    seq(|s|, i requires 0 <= i < |s| => if p(s[i]) then f(s[i]) else s[i])
  }

  /** An update that maps every selected row to itself changes nothing. */
  lemma UpdateFixed<T(!new)>(s: seq<T>, p: T -> bool, f: T -> T)
    requires forall i :: 0 <= i < |s| && p(s[i]) ==> f(s[i]) == s[i]
    ensures Update(s, p, f) == s
  {
  }

  /** `s.filter(p)` where evaluating `p` may throw: the first throw aborts the
      whole call, as `Array.prototype.filter` propagates it. */
  function FilterEval<T(==,!new)>(s: seq<T>, p: T -> Eval<bool>): (r: Eval<seq<T>>)
    ensures r.Throws? <==> exists i :: 0 <= i < |s| && p(s[i]).Throws?
    ensures r.Returns? ==> r.value == Filter(s, x => p(x).Returns? && p(x).value)
    decreases |s|
  {
    if |s| == 0 then Returns([])
    else
      var head := p(s[0]);
      var rest := FilterEval(s[1..], p);
      assert forall i :: 1 <= i < |s| ==> s[i] == s[1..][i - 1];
      if head.Throws? || rest.Throws? then Throws
      else if head.value then Returns([s[0]] + rest.value)
      else Returns(rest.value)
  }

  /** Where an evaluating predicate never throws, filtering with it is
      filtering with the values it returns. */
  lemma {:induction false} FilterEvalAsFilter<T(!new)>(s: seq<T>, p: T -> Eval<bool>, q: T -> bool)
    requires forall i :: 0 <= i < |s| ==> p(s[i]) == Returns(q(s[i]))
    ensures FilterEval(s, p) == Returns(Filter(s, q))
    decreases |s|
  {
    if |s| > 0 {
      assert forall i :: 1 <= i < |s| ==> s[i] == s[1..][i - 1];
      FilterEvalAsFilter(s[1..], p, q);
    }
  }
}
