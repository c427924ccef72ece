/** Sequence operations of the JavaScript library that the modelled code leans on:
    `filter`, the stable `Array.prototype.sort` (section 23.1.3.30 of ECMA-262), `[...new Set(xs)]`. */
module Sequences {

  datatype Option<+T> = None | Some(value: T)

  datatype Result<+T, +E> = Ok(value: T) | Err(error: E)

  /** `s.filter(p)` */
  function Filter<T(!new)>(s: seq<T>, p: T -> bool): seq<T> {
    if s == [] then []
    else if p(s[0]) then [s[0]] + Filter(s[1..], p)
    else Filter(s[1..], p)
  }

  lemma {:induction false} FilterMembers<T(!new)>(s: seq<T>, p: T -> bool)
    ensures forall x :: x in Filter(s, p) <==> x in s && p(x)
    ensures |Filter(s, p)| <= |s|
  {
    if s != [] {
      FilterMembers(s[1..], p);
    }
  }

  lemma {:induction false} FilterEmpty<T(!new)>(s: seq<T>, p: T -> bool)
    ensures Filter(s, p) == [] <==> forall x :: x in s ==> !p(x)
  {
    if s != [] {
      FilterEmpty(s[1..], p);
    }
  }

  lemma {:induction false} FilterConcat<T(!new)>(a: seq<T>, b: seq<T>, p: T -> bool)
    ensures Filter(a + b, p) == Filter(a, p) + Filter(b, p)
  {
    if a == [] {
      assert a + b == b;
    } else {
      assert (a + b)[1..] == a[1..] + b;
      FilterConcat(a[1..], b, p);
    }
  }

  lemma {:induction false} FilterAll<T(!new)>(s: seq<T>, p: T -> bool)
    requires forall x :: x in s ==> p(x)
    ensures Filter(s, p) == s
  {
    if s != [] {
      FilterAll(s[1..], p);
    }
  }

  lemma {:induction false} FilterCong<T(!new)>(s: seq<T>, p: T -> bool, q: T -> bool)
    requires forall x :: x in s ==> p(x) == q(x)
    ensures Filter(s, p) == Filter(s, q)
  {
    if s != [] {
      FilterCong(s[1..], p, q);
    }
  }

  function Both<T>(p: T -> bool, q: T -> bool): T -> bool {
    x => p(x) && q(x)
  }

  function Not<T>(p: T -> bool): T -> bool {
    x => !p(x)
  }

  lemma {:induction false} FilterTwice<T(!new)>(s: seq<T>, p: T -> bool, q: T -> bool)
    ensures Filter(Filter(s, p), q) == Filter(s, Both(p, q))
  {
    if s != [] {
      FilterTwice(s[1..], p, q);
    }
  }

  /** A filter and its complement partition the multiset of the list. */
  lemma {:induction false} FilterSplit<T(!new)>(s: seq<T>, p: T -> bool)
    ensures multiset(Filter(s, p)) + multiset(Filter(s, Not(p))) == multiset(s)
    ensures |Filter(s, p)| + |Filter(s, Not(p))| == |s|
  {
    if s != [] {
      FilterSplit(s[1..], p);
      assert s == [s[0]] + s[1..];
    }
  }

  ghost predicate Distinct<T>(s: seq<T>) {
    forall i, j :: 0 <= i < j < |s| ==> s[i] != s[j]
  }

  // ---------------------------------------------------------------- stable sort

  /** The comparator contract of `sort`: `leq(x, y)` is "the comparator is not positive". */
  ghost predicate TotalPreorder<T(!new)>(leq: (T, T) -> bool) {
    && (forall x, y :: leq(x, y) || leq(y, x))
    && (forall x, y, z :: leq(x, y) && leq(y, z) ==> leq(x, z))
  }

  ghost predicate Sorted<T>(s: seq<T>, leq: (T, T) -> bool) {
    forall i, j :: 0 <= i < j < |s| ==> leq(s[i], s[j])
  }

  /** Puts `x` in front of the first element that may follow it. */
  function Insert<T(!new)>(x: T, s: seq<T>, leq: (T, T) -> bool): seq<T> {
    if s == [] || leq(x, s[0]) then [x] + s
    else [s[0]] + Insert(x, s[1..], leq)
  }

  /** `s.slice(0, n)` */
  function First<T>(s: seq<T>, n: nat): (r: seq<T>)
    ensures |r| == if |s| < n then |s| else n
  {
    if |s| <= n then s else s[..n]
  }

  /** The result of `[...s].sort(cmp)`. */
  function StableSort<T(!new)>(s: seq<T>, leq: (T, T) -> bool): (r: seq<T>)
    ensures |r| == |s|
    ensures multiset(r) == multiset(s)
  {
    if s == [] then []
    else
      InsertAdds(s[0], StableSort(s[1..], leq), leq);
      assert s == [s[0]] + s[1..];
      Insert(s[0], StableSort(s[1..], leq), leq)
  }

  lemma {:induction false} InsertAdds<T(!new)>(x: T, s: seq<T>, leq: (T, T) -> bool)
    ensures |Insert(x, s, leq)| == |s| + 1
    ensures multiset(Insert(x, s, leq)) == multiset{x} + multiset(s)
  {
    if s == [] || leq(x, s[0]) {
    } else {
      InsertAdds(x, s[1..], leq);
      assert s == [s[0]] + s[1..];
    }
  }

  lemma {:induction false} SortMembers<T(!new)>(s: seq<T>, leq: (T, T) -> bool)
    ensures forall x :: x in StableSort(s, leq) <==> x in s
  {
    var r := StableSort(s, leq);
    forall x ensures x in r <==> x in s {
      assert x in r <==> x in multiset(r);
      assert x in s <==> x in multiset(s);
    }
  }

  lemma {:induction false} InsertSorted<T(!new)>(x: T, s: seq<T>, leq: (T, T) -> bool)
    requires TotalPreorder(leq) && Sorted(s, leq)
    ensures Sorted(Insert(x, s, leq), leq)
  {
    if s == [] {
    } else if leq(x, s[0]) {
      forall j | 0 <= j < |s| ensures leq(x, s[j]) {
        assert leq(s[0], s[j]);
      }
    } else {
      InsertSorted(x, s[1..], leq);
      var t := Insert(x, s[1..], leq);
      InsertAdds(x, s[1..], leq);
      forall j | 0 <= j < |t| ensures leq(s[0], t[j]) {
        assert t[j] in multiset(t);
        if t[j] != x {
          assert t[j] in s[1..];
          var k :| 0 <= k < |s[1..]| && s[1..][k] == t[j];
          assert s[k + 1] == t[j];
        }
      }
    }
  }

  lemma {:induction false} SortSorts<T(!new)>(s: seq<T>, leq: (T, T) -> bool)
    requires TotalPreorder(leq)
    ensures Sorted(StableSort(s, leq), leq)
  {
    if s != [] {
      SortSorts(s[1..], leq);
      InsertSorted(s[0], StableSort(s[1..], leq), leq);
    }
  }

  /** The elements that tie with `x`, in list order. */
  function Ties<T(!new)>(s: seq<T>, leq: (T, T) -> bool, x: T): seq<T> {
    Filter(s, y => leq(x, y) && leq(y, x))
  }

  lemma {:induction false} TiesCons<T(!new)>(e: T, s: seq<T>, leq: (T, T) -> bool, x: T)
    ensures Ties([e] + s, leq, x) == (if leq(x, e) && leq(e, x) then [e] else []) + Ties(s, leq, x)
  {
    assert ([e] + s)[1..] == s;
  }

  lemma {:induction false} InsertTies<T(!new)>(e: T, s: seq<T>, leq: (T, T) -> bool, x: T)
    requires TotalPreorder(leq)
    ensures Ties(Insert(e, s, leq), leq, x) == Ties([e] + s, leq, x)
  {
    if s == [] || leq(e, s[0]) {
    } else {
      // e and s[0] cannot both tie with x, because e does not precede s[0]
      assert s == [s[0]] + s[1..];
      InsertTies(e, s[1..], leq, x);
      TiesCons(s[0], Insert(e, s[1..], leq), leq, x);
      TiesCons(e, s[1..], leq, x);
      TiesCons(e, s, leq, x);
      TiesCons(s[0], s[1..], leq, x);
    }
  }

  /** Sorting is stable: equally ranked elements keep their order. */
  lemma {:induction false} SortStable<T(!new)>(s: seq<T>, leq: (T, T) -> bool, x: T)
    requires TotalPreorder(leq)
    ensures Ties(StableSort(s, leq), leq, x) == Ties(s, leq, x)
  {
    if s != [] {
      SortStable(s[1..], leq, x);
      InsertTies(s[0], StableSort(s[1..], leq), leq, x);
      assert ([s[0]] + StableSort(s[1..], leq))[1..] == StableSort(s[1..], leq);
    }
  }

  // ---------------------------------------------------------------- Set

  /** `[...new Set(s)]`: first occurrences, in order. */
  function Dedup<T(==,!new)>(s: seq<T>): (r: seq<T>)
    ensures forall x :: x in r <==> x in s
    ensures Distinct(r)
    ensures |r| <= |s|
  {
    if s == [] then []
    else
      var front := Dedup(s[..|s| - 1]);
      var last := s[|s| - 1];
      assert s == s[..|s| - 1] + [last];
      if last in front then front else front + [last]
  }

  lemma {:induction false} DedupDistinct<T(!new)>(s: seq<T>)
    requires Distinct(s)
    ensures Dedup(s) == s
  {
    if s != [] {
      DedupDistinct(s[..|s| - 1]);
      assert s == s[..|s| - 1] + [s[|s| - 1]];
    }
  }

  lemma {:induction false} DedupSnoc<T(!new)>(s: seq<T>, x: T)
    ensures Dedup(s + [x]) == if x in s then Dedup(s) else Dedup(s) + [x]
  {
    assert (s + [x])[..|s|] == s;
  }

  lemma {:induction false} FilterSnoc<T(!new)>(s: seq<T>, x: T, p: T -> bool)
    ensures Filter(s + [x], p) == Filter(s, p) + (if p(x) then [x] else [])
  {
    FilterConcat(s, [x], p);
    assert [x][1..] == [];
  }
}
