/** Array.prototype.sort with a numeric comparator: stable. */
module Sorting {

  function Insert<T>(x: T, sorted: seq<T>, key: T -> int): seq<T> {
    if sorted == [] || key(x) <= key(sorted[0]) then [x] + sorted
    else [sorted[0]] + Insert(x, sorted[1..], key)
  }

  function SortBy<T>(items: seq<T>, key: T -> int): seq<T> {
    if items == [] then [] else Insert(items[0], SortBy(items[1..], key), key)
  }

  lemma {:induction false} InsertPermutes<T>(x: T, sorted: seq<T>, key: T -> int)
    ensures multiset(Insert(x, sorted, key)) == multiset(sorted) + multiset{x}
  {
    if sorted == [] || key(x) <= key(sorted[0]) {
    } else {
      assert sorted == [sorted[0]] + sorted[1..];
      InsertPermutes(x, sorted[1..], key);
    }
  }

  lemma {:induction false} SortPermutes<T>(items: seq<T>, key: T -> int)
    ensures multiset(SortBy(items, key)) == multiset(items)
  {
    if items == [] {
    } else {
      assert items == [items[0]] + items[1..];
      SortPermutes(items[1..], key);
      InsertPermutes(items[0], SortBy(items[1..], key), key);
    }
  }

  predicate Ascending<T>(items: seq<T>, key: T -> int) {
    forall i, j :: 0 <= i < j < |items| ==> key(items[i]) <= key(items[j])
  }

  lemma {:induction false} SameMember<T>(a: seq<T>, b: seq<T>, x: T)
    requires multiset(a) == multiset(b)
    ensures x in a <==> x in b
  {
    assert x in multiset(a) <==> x in multiset(b);
  }

  lemma {:induction false} SameLength<T>(a: seq<T>, b: seq<T>)
    requires multiset(a) == multiset(b)
    ensures |a| == |b|
  {
    assert |multiset(a)| == |a| && |multiset(b)| == |b|;
  }

  lemma {:induction false} MemberOfInsert<T>(x: T, sorted: seq<T>, key: T -> int, y: T)
    ensures y in Insert(x, sorted, key) <==> y == x || y in sorted
  {
    InsertPermutes(x, sorted, key);
    assert multiset(sorted) + multiset{x} == multiset(sorted + [x]);
    SameMember(Insert(x, sorted, key), sorted + [x], y);
  }

  lemma {:induction false} ConsAscends<T>(x: T, tail: seq<T>, key: T -> int)
    requires Ascending(tail, key) && forall y :: y in tail ==> key(x) <= key(y)
    ensures Ascending([x] + tail, key)
  {
  }

  lemma {:induction false} FirstIsLeast<T>(sorted: seq<T>, key: T -> int)
    requires Ascending(sorted, key) && sorted != []
    ensures forall y :: y in sorted ==> key(sorted[0]) <= key(y)
  {
  }

  lemma {:induction false} InsertAscends<T>(x: T, sorted: seq<T>, key: T -> int)
    requires Ascending(sorted, key)
    ensures Ascending(Insert(x, sorted, key), key)
  {
    if sorted == [] {
    } else if key(x) <= key(sorted[0]) {
      FirstIsLeast(sorted, key);
      ConsAscends(x, sorted, key);
    } else {
      FirstIsLeast(sorted, key);
      InsertAscends(x, sorted[1..], key);
      forall y | y in Insert(x, sorted[1..], key)
        ensures key(sorted[0]) <= key(y)
      {
        MemberOfInsert(x, sorted[1..], key, y);
      }
      ConsAscends(sorted[0], Insert(x, sorted[1..], key), key);
    }
  }

  lemma {:induction false} SortAscends<T>(items: seq<T>, key: T -> int)
    ensures Ascending(SortBy(items, key), key)
  {
    if items != [] {
      SortAscends(items[1..], key);
      InsertAscends(items[0], SortBy(items[1..], key), key);
    }
  }

  /** What is in order is left as it is. */
  lemma {:induction false} SortKeepsSorted<T>(items: seq<T>, key: T -> int)
    requires Ascending(items, key)
    ensures SortBy(items, key) == items
  {
    if items != [] {
      SortKeepsSorted(items[1..], key);
    }
  }

  /** The items with key k, in their order. */
  function Ties<T>(items: seq<T>, key: T -> int, k: int): seq<T> {
    if items == [] then []
    else if key(items[0]) == k then [items[0]] + Ties(items[1..], key, k)
    else Ties(items[1..], key, k)
  }

  lemma {:induction false} TiesTie<T>(items: seq<T>, key: T -> int, k: int)
    ensures forall y :: y in Ties(items, key, k) ==> y in items && key(y) == k
  {
    if items != [] {
      TiesTie(items[1..], key, k);
    }
  }

  lemma {:induction false} NoTies<T>(items: seq<T>, key: T -> int, k: int)
    requires forall y :: y in items ==> key(y) != k
    ensures Ties(items, key, k) == []
  {
    if items != [] {
      NoTies(items[1..], key, k);
    }
  }

  /** Where no key is above k, the items with key k go last, in their order. */
  lemma {:induction false} TiesGoLast<T>(items: seq<T>, key: T -> int, k: int) returns (less: seq<T>)
    requires forall y :: y in items ==> key(y) <= k
    ensures SortBy(items, key) == less + Ties(items, key, k)
    ensures forall y :: y in less ==> key(y) < k
  {
    less := [];
    if items != [] {
      var x, rest := items[0], items[1..];
      var a := TiesGoLast(rest, key, k);
      TiesTie(rest, key, k);
      if key(x) == k {
        less := a;
        InsertAfterLess(x, a, Ties(rest, key, k), key);
        assert a + ([x] + Ties(rest, key, k)) == a + Ties(items, key, k);
      } else {
        less := Insert(x, a, key);
        InsertIntoPrefix(x, a, Ties(rest, key, k), key);
        forall y | y in less
          ensures key(y) < k
        {
          MemberOfInsert(x, a, key, y);
        }
      }
    }
  }

  /** An item that no other is later than is followed by nothing but its ties from behind it. */
  lemma {:induction false} LatestGoesLate<T>(before: seq<T>, x: T, after: seq<T>, key: T -> int) returns (a: seq<T>)
    requires forall y :: y in before ==> key(y) <= key(x)
    requires forall y :: y in after ==> key(y) <= key(x)
    ensures SortBy(before + [x] + after, key) == a + ([x] + Ties(after, key, key(x)))
  {
    var ties := Ties(after, key, key(x));
    if before == [] {
      assert before + [x] + after == [x] + after;
      SortCons(x, after, [x] + after, key);
      a := TiesGoLast(after, key, key(x));
      TiesTie(after, key, key(x));
      InsertAfterLess(x, a, ties, key);
    } else {
      var y, rest := before[0], before[1..];
      assert before + [x] + after == [y] + (rest + [x] + after);
      var b := LatestGoesLate(rest, x, after, key);
      SortCons(y, rest + [x] + after, before + [x] + after, key);
      InsertIntoPrefix(y, b, [x] + ties, key);
      a := Insert(y, b, key);
    }
  }

  lemma {:induction false} InsertAfterLess<T>(x: T, less: seq<T>, rest: seq<T>, key: T -> int)
    requires forall y :: y in less ==> key(y) < key(x)
    requires rest == [] || key(x) <= key(rest[0])
    ensures Insert(x, less + rest, key) == less + ([x] + rest)
  {
    if less == [] {
      assert less + rest == rest;
    } else {
      assert (less + rest)[1..] == less[1..] + rest;
      InsertAfterLess(x, less[1..], rest, key);
      assert less + ([x] + rest) == [less[0]] + (less[1..] + ([x] + rest));
    }
  }

  lemma {:induction false} InsertIntoPrefix<T>(y: T, a: seq<T>, t: seq<T>, key: T -> int)
    requires t != [] ==> key(y) <= key(t[0])
    ensures Insert(y, a + t, key) == Insert(y, a, key) + t
  {
    if a == [] {
      assert a + t == t;
    } else if key(y) <= key(a[0]) {
      assert [y] + (a + t) == ([y] + a) + t;
    } else {
      assert (a + t)[1..] == a[1..] + t;
      InsertIntoPrefix(y, a[1..], t, key);
      assert [a[0]] + (Insert(y, a[1..], key) + t) == ([a[0]] + Insert(y, a[1..], key)) + t;
    }
  }

  lemma {:induction false} SortCons<T>(x: T, rest: seq<T>, all: seq<T>, key: T -> int)
    requires all == [x] + rest
    ensures SortBy(all, key) == Insert(x, SortBy(rest, key), key)
  {
    assert all[1..] == rest;
  }

  function Keys<T>(items: seq<T>, key: T -> int): (ks: seq<int>)
    ensures |ks| == |items| && forall i :: 0 <= i < |ks| ==> ks[i] == key(items[i])
  {
    seq(|items|, i requires 0 <= i < |items| => key(items[i]))
  }

  lemma {:induction false} KeysCons<T>(x: T, rest: seq<T>, key: T -> int)
    ensures multiset(Keys([x] + rest, key)) == multiset{key(x)} + multiset(Keys(rest, key))
  {
    assert Keys([x] + rest, key) == [key(x)] + Keys(rest, key);
  }

  lemma {:induction false} KeysOfInsert<T>(x: T, sorted: seq<T>, key: T -> int)
    ensures multiset(Keys(Insert(x, sorted, key), key)) == multiset{key(x)} + multiset(Keys(sorted, key))
  {
    if sorted == [] || key(x) <= key(sorted[0]) {
      KeysCons(x, sorted, key);
    } else {
      KeysOfInsert(x, sorted[1..], key);
      KeysCons(sorted[0], sorted[1..], key);
      KeysCons(sorted[0], Insert(x, sorted[1..], key), key);
      assert sorted == [sorted[0]] + sorted[1..];
    }
  }

  lemma {:induction false} InsertAmong<T>(x: T, rest: seq<T>, sorted: seq<T>, key: T -> int)
    requires multiset(Keys(sorted, key)) == multiset(Keys(rest, key))
    ensures multiset(Keys(Insert(x, sorted, key), key)) == multiset(Keys([x] + rest, key))
  {
    KeysOfInsert(x, sorted, key);
    KeysCons(x, rest, key);
  }

  lemma {:induction false} KeysOfSort<T>(items: seq<T>, key: T -> int)
    ensures multiset(Keys(SortBy(items, key), key)) == multiset(Keys(items, key))
  {
    if items == [] {
    } else {
      var x, rest := items[0], items[1..];
      KeysOfSort(rest, key);
      InsertAmong(x, rest, SortBy(rest, key), key);
      assert [x] + rest == items;
    }
  }
}
