/** `ORDER BY`: a result set is some permutation of the matching rows that is
    sorted by the key. The model sorts by insertion with a caller-supplied
    "comes no later than" relation. */
module Sorting {
  import opened Wrappers
  import Strings

  ghost predicate Total<T(!new)>(le: (T, T) -> bool) {
    forall a, b :: le(a, b) || le(b, a)
  }

  ghost predicate Transitive<T(!new)>(le: (T, T) -> bool) {
    forall a, b, c :: le(a, b) && le(b, c) ==> le(a, c)
  }

  ghost predicate TotalPreorder<T(!new)>(le: (T, T) -> bool) {
    Total(le) && Transitive(le)
  }

  predicate SortedBy<T>(s: seq<T>, le: (T, T) -> bool) {
    forall i, j :: 0 <= i < j < |s| ==> le(s[i], s[j])
  }

  function Insert<T(==,!new)>(x: T, s: seq<T>, le: (T, T) -> bool): (r: seq<T>)
    requires TotalPreorder(le)
    requires SortedBy(s, le)
    ensures SortedBy(r, le)
    ensures multiset(r) == multiset(s) + multiset{x}
    decreases |s|
  {
    if |s| == 0 then [x]
    else if le(x, s[0]) then [x] + s
    else
      var rest := Insert(x, s[1..], le);
      InsertedAfterHead(x, s, rest, le);
      [s[0]] + rest
  }

  /** Inserting past the head keeps the head first. */
  lemma InsertedAfterHead<T(!new)>(x: T, s: seq<T>, rest: seq<T>, le: (T, T) -> bool)
    requires TotalPreorder(le) && SortedBy(s, le) && |s| > 0 && !le(x, s[0])
    requires SortedBy(rest, le) && multiset(rest) == multiset(s[1..]) + multiset{x}
    ensures SortedBy([s[0]] + rest, le)
    ensures multiset([s[0]] + rest) == multiset(s) + multiset{x}
  {
    assert s == [s[0]] + s[1..];
    forall j | 0 <= j < |rest| ensures le(s[0], rest[j]) {
      var y := rest[j];
      assert y in multiset(rest);
      if y != x {
        assert y in s[1..];
      }
    }
  }

  /** The rows of `s` in an order `le` accepts. */
  function Sort<T(==,!new)>(s: seq<T>, le: (T, T) -> bool): (r: seq<T>)
    requires TotalPreorder(le)
    ensures SortedBy(r, le)
    ensures multiset(r) == multiset(s)
    decreases |s|
  {
    if |s| == 0 then []
    else
      assert s == [s[0]] + s[1..];
      Insert(s[0], Sort(s[1..], le), le)
  }

  /** Text keys under `ORDER BY ... ASC`: code-point order, NULLs last. */
  predicate TextAscNullsLast(a: Option<string>, b: Option<string>) {
    match (a, b)
    case (None, _) => b.None?
    case (Some(_), None) => true
    case (Some(x), Some(y)) => Strings.LexLe(x, y)
  }

  /** Any relation that orders by a text key ascending with NULLs last is a total preorder. */
  lemma TextAscNullsLastIsPreorder<T(!new)>(key: T -> Option<string>, le: (T, T) -> bool)
    requires forall u, v :: le(u, v) == TextAscNullsLast(key(u), key(v))
    ensures TotalPreorder(le)
  {
    forall a: string, b: string ensures Strings.LexLe(a, b) || Strings.LexLe(b, a) {
      Strings.LexLeTotal(a, b);
    }
    forall a: string, b: string, c: string | Strings.LexLe(a, b) && Strings.LexLe(b, c)
      ensures Strings.LexLe(a, c)
    {
      Strings.LexLeTrans(a, b, c);
    }
  }

  lemma IntDescIsPreorder<T(!new)>(key: T -> int, le: (T, T) -> bool)
    requires forall u, v :: le(u, v) == (key(u) >= key(v))
    ensures TotalPreorder(le)
  {
  }

  lemma IntAscIsPreorder<T(!new)>(key: T -> int, le: (T, T) -> bool)
    requires forall u, v :: le(u, v) == (key(u) <= key(v))
    ensures TotalPreorder(le)
  {
  }
}
