/** The preview index of preview-cache-writer.ts: least recently accessed entries go first. */
module PreviewCache {
  import opened Sorting
  import PreviewLock

  datatype Item = Item(id: string, size: nat, at: int)

  const BY_ACCESS := (x: Item) => x.at

  /** The entries in insertion order, as Object.entries gives them. */
  type Index = seq<Item>

  predicate Unique(index: Index) {
    forall i, j :: 0 <= i < j < |index| ==> index[i].id != index[j].id
  }

  function Total(index: Index): nat {
    if index == [] then 0 else index[0].size + Total(index[1..])
  }

  /** `index[id] = ...`: in place if the key is there, at the end if not. */
  function Put(index: Index, x: Item): Index {
    if index == [] then [x]
    else if index[0].id == x.id then [x] + index[1..]
    else [index[0]] + Put(index[1..], x)
  }

  /** `delete index[id]`. */
  function Without(index: Index, id: string): Index {
    if index == [] then []
    else if index[0].id == id then index[1..]
    else [index[0]] + Without(index[1..], id)
  }

  /** How many of the oldest entries go: the fewest that bring the total within the limit. */
  function Cut(sorted: seq<Item>, max: nat): (k: nat)
    ensures k <= |sorted|
  {
    if Total(sorted) <= max then 0 else Cut(sorted[1..], max) + 1
  }

  lemma {:induction false} CutIsLeast(sorted: seq<Item>, max: nat)
    ensures Total(sorted[Cut(sorted, max)..]) <= max
    ensures Cut(sorted, max) > 0 ==> Total(sorted[Cut(sorted, max) - 1..]) > max
  {
    assert sorted[0..] == sorted;
    if Total(sorted) > max {
      CutIsLeast(sorted[1..], max);
      DropsAdd(sorted, Cut(sorted[1..], max));
    }
  }

  lemma {:induction false} DropsAdd(sorted: seq<Item>, k: nat)
    requires k < |sorted|
    ensures sorted[1..][k..] == sorted[k + 1..]
    ensures k > 0 ==> sorted[1..][k - 1..] == sorted[k..]
  {
  }

  function Survivors(index: Index, max: nat): seq<Item> {
    var sorted := SortBy(index, BY_ACCESS);
    sorted[Cut(sorted, max)..]
  }

  function RemoveFirst(index: Index, sorted: seq<Item>, k: nat): Index
    requires k <= |sorted|
  {
    if k == 0 then index else Without(RemoveFirst(index, sorted, k - 1), sorted[k - 1].id)
  }

  /** The index after eviction, in its own order. */
  function Trim(index: Index, max: nat): Index {
    var sorted := SortBy(index, BY_ACCESS);
    RemoveFirst(index, sorted, Cut(sorted, max))
  }

  /** What the body of writePreview makes of the index. */
  function Written(index: Index, x: Item, max: nat): Index {
    Trim(Put(index, x), max)
  }

  lemma {:induction false} TotalOfInsert(x: Item, sorted: seq<Item>)
    ensures Total(Insert(x, sorted, BY_ACCESS)) == x.size + Total(sorted)
  {
    if sorted == [] || x.at <= sorted[0].at {
      assert ([x] + sorted)[1..] == sorted;
    } else {
      TotalOfInsert(x, sorted[1..]);
      assert ([sorted[0]] + Insert(x, sorted[1..], BY_ACCESS))[1..] == Insert(x, sorted[1..], BY_ACCESS);
    }
  }

  lemma {:induction false} TotalOfSort(index: Index)
    ensures Total(SortBy(index, BY_ACCESS)) == Total(index)
  {
    if index != [] {
      TotalOfSort(index[1..]);
      TotalOfInsert(index[0], SortBy(index[1..], BY_ACCESS));
    }
  }

  lemma {:induction false} WithoutOne(index: Index, x: Item)
    requires Unique(index) && x in index
    ensures multiset(Without(index, x.id)) == multiset(index) - multiset{x}
    ensures Total(Without(index, x.id)) == Total(index) - x.size
    ensures Unique(Without(index, x.id))
  {
    WithoutCounts(index, x);
    WithoutUnique(index, x.id);
  }

  lemma {:induction false} WithoutCounts(index: Index, x: Item)
    requires Unique(index) && x in index
    ensures multiset(Without(index, x.id)) == multiset(index) - multiset{x}
    ensures Total(Without(index, x.id)) == Total(index) - x.size
  {
    var h, rest := index[0], index[1..];
    assert index == [h] + rest;
    if h.id == x.id {
      SameIdSameItem(index, x);
    } else {
      WithoutCounts(rest, x);
      assert ([h] + Without(rest, x.id))[1..] == Without(rest, x.id);
    }
  }

  lemma {:induction false} WithoutUnique(index: Index, id: string)
    requires Unique(index)
    ensures Unique(Without(index, id))
  {
    if index != [] && index[0].id != id {
      WithoutUnique(index[1..], id);
      WithoutKeeps(index[1..], id);
      HeadAndRest(index, Without(index[1..], id));
    }
  }

  lemma {:induction false} SameIdSameItem(index: Index, x: Item)
    requires Unique(index) && x in index && index[0].id == x.id
    ensures index[0] == x
  {
    var i :| 0 <= i < |index| && index[i] == x;
  }

  lemma {:induction false} HeadAndRest(index: Index, rest: Index)
    requires Unique(index) && index != [] && Unique(rest) && forall y :: y in rest ==> y in index[1..]
    ensures Unique([index[0]] + rest)
  {
    forall j | 0 <= j < |rest|
      ensures index[0].id != rest[j].id
    {
      assert rest[j] in index[1..];
    }
  }

  lemma {:induction false} WithoutKeeps(index: Index, id: string)
    ensures forall y :: y in Without(index, id) ==> y in index
  {
    if index != [] && index[0].id != id {
      WithoutKeeps(index[1..], id);
    }
  }

  class PreviewIndex {
    const maxCacheSizeBytes: nat
    var index: Index

    constructor (maxCacheSizeBytes: nat)
      ensures index == [] && this.maxCacheSizeBytes == maxCacheSizeBytes
    {
      this.maxCacheSizeBytes, index := maxCacheSizeBytes, [];
    }

    /** The body that writePreview runs under the lock. */
    method Write(nodeId: string, size: nat, now: int)
      requires Unique(index)
      modifies this
      ensures index == Written(old(index), Item(nodeId, size, now), maxCacheSizeBytes)
      ensures Unique(index) && Total(index) <= maxCacheSizeBytes
    {
      PutUnique(index, Item(nodeId, size, now));
      index := Put(index, Item(nodeId, size, now));
      TrimFits(index, maxCacheSizeBytes);
      var totalBytes := SumSizes(index);
      TotalOfSort(index);
      if totalBytes > maxCacheSizeBytes {
        index := Evict(index, totalBytes, maxCacheSizeBytes);
      }
    }
  }

  method SumSizes(index: Index) returns (total: nat)
    ensures total == Total(index)
  {
    total := 0;
    var rest := index;
    while rest != []
      invariant total + Total(rest) == Total(index)
    {
      total, rest := total + rest[0].size, rest[1..];
    }
  }

  /** The eviction loop. */
  method Evict(index: Index, total: nat, max: nat) returns (kept: Index)
    requires Unique(index) && total == Total(index)
    ensures kept == Trim(index, max)
  {
    var sorted := SortBy(index, BY_ACCESS);
    TotalOfSort(index);
    kept := EvictSorted(index, sorted, total, max);
  }

  method EvictSorted(index: Index, sorted: seq<Item>, total: nat, max: nat) returns (kept: Index)
    requires total == Total(sorted)
    ensures kept == RemoveFirst(index, sorted, Cut(sorted, max))
  {
    kept := index;
    var totalBytes := total;
    var i := 0;
    assert sorted[0..] == sorted;
    while i < |sorted| && totalBytes > max
      invariant i <= |sorted|
      invariant kept == RemoveFirst(index, sorted, i)
      invariant totalBytes == Total(sorted[i..])
      invariant i > 0 ==> Total(sorted[i - 1..]) > max
    {
      assert sorted[i..][1..] == sorted[i + 1..];
      kept := Without(kept, sorted[i].id);
      totalBytes := totalBytes - sorted[i].size;
      i := i + 1;
    }
    CutIsUnique(sorted, max, i);
  }

  lemma {:induction false} RemovedAreGone(index: Index, sorted: seq<Item>, k: nat)
    requires Unique(index) && multiset(sorted) == multiset(index) && Total(sorted) == Total(index) && k <= |sorted|
    ensures var kept := RemoveFirst(index, sorted, k);
      Unique(kept) && multiset(kept) == multiset(sorted[k..]) && Total(kept) == Total(sorted[k..])
  {
    if k == 0 {
      assert sorted[0..] == sorted;
    } else {
      RemovedAreGone(index, sorted, k - 1);
      EvictOne(RemoveFirst(index, sorted, k - 1), sorted, k - 1);
    }
  }

  /** Eviction leaves the survivors, and they fit. */
  lemma {:induction false} TrimFits(index: Index, max: nat)
    requires Unique(index)
    ensures Unique(Trim(index, max)) && Total(Trim(index, max)) <= max
    ensures multiset(Trim(index, max)) == multiset(Survivors(index, max))
  {
    var sorted := SortBy(index, BY_ACCESS);
    SortPermutes(index, BY_ACCESS);
    TotalOfSort(index);
    CutIsLeast(sorted, max);
    RemovedAreGone(index, sorted, Cut(sorted, max));
  }

  lemma {:induction false} EvictOne(kept: Index, sorted: seq<Item>, i: nat)
    requires i < |sorted| && Unique(kept)
    requires multiset(kept) == multiset(sorted[i..]) && Total(kept) == Total(sorted[i..])
    ensures var next := Without(kept, sorted[i].id);
      && Unique(next) && multiset(next) == multiset(sorted[i + 1..])
      && Total(next) == Total(sorted[i + 1..]) == Total(kept) - sorted[i].size
  {
    assert sorted[i..] == [sorted[i]] + sorted[i + 1..];
    SameMember(kept, sorted[i..], sorted[i]);
    WithoutOne(kept, sorted[i]);
  }

  lemma {:induction false} LaterIsLess(sorted: seq<Item>, i: nat, j: nat)
    requires i <= j <= |sorted|
    ensures Total(sorted[j..]) <= Total(sorted[i..])
    decreases j - i
  {
    if i < j {
      assert sorted[i..][1..] == sorted[i + 1..];
      LaterIsLess(sorted, i + 1, j);
    }
  }

  lemma {:induction false} CutIsUnique(sorted: seq<Item>, max: nat, i: nat)
    requires i <= |sorted| && (i == |sorted| || Total(sorted[i..]) <= max)
    requires i > 0 ==> Total(sorted[i - 1..]) > max
    ensures i == Cut(sorted, max)
    ensures Total(sorted[i..]) <= max
  {
    var k := Cut(sorted, max);
    CutIsLeast(sorted, max);
    if i < k {
      LaterIsLess(sorted, i, k - 1);
    } else if k < i {
      LaterIsLess(sorted, k, i - 1);
    }
    if i == |sorted| {
      assert sorted[i..] == [];
    }
  }

  lemma {:induction false} PutUnique(index: Index, x: Item)
    requires Unique(index)
    ensures Unique(Put(index, x))
    ensures forall y :: y in Put(index, x) ==> y == x || (y in index && y.id != x.id)
    ensures forall y :: y in index && y.id != x.id ==> y in Put(index, x)
    ensures x in Put(index, x)
  {
    if index == [] {
    } else if index[0].id == x.id {
      assert index == [index[0]] + index[1..];
    } else {
      PutUnique(index[1..], x);
      assert index == [index[0]] + index[1..];
    }
  }

  // ---------------------------------------------------------------------
  // Who survives.
  // ---------------------------------------------------------------------

  lemma {:induction false} SortedUnique(index: Index)
    requires Unique(index)
    ensures forall i, j :: 0 <= i < j < |SortBy(index, BY_ACCESS)| ==>
      SortBy(index, BY_ACCESS)[i] != SortBy(index, BY_ACCESS)[j]
  {
    var sorted := SortBy(index, BY_ACCESS);
    SortPermutes(index, BY_ACCESS);
    forall i, j | 0 <= i < j < |sorted|
      ensures sorted[i] != sorted[j]
    {
      OnceInIndex(index, sorted[i]);
      if sorted[i] == sorted[j] {
        TwiceInSeq(sorted, i, j);
        assert false;
      }
    }
  }

  lemma {:induction false} TwiceInSeq(s: seq<Item>, i: nat, j: nat)
    requires i < j < |s| && s[i] == s[j]
    ensures multiset(s)[s[i]] >= 2
  {
    assert s == s[..i] + [s[i]] + s[i + 1..j] + [s[j]] + s[j + 1..];
  }

  lemma {:induction false} OnceInIndex(index: Index, x: Item)
    requires Unique(index)
    ensures multiset(index)[x] <= 1
  {
    if index != [] {
      OnceInIndex(index[1..], x);
      NotAgain(index);
      assert index == [index[0]] + index[1..];
    }
  }

  lemma {:induction false} NotAgain(index: Index)
    requires Unique(index) && index != []
    ensures multiset(index[1..])[index[0]] == 0
  {
    var rest := index[1..];
    forall j | 0 <= j < |rest|
      ensures rest[j] != index[0]
    {
      assert rest[j].id != index[0].id;
    }
    assert index[0] !in rest;
  }

  /** Evicted entries are the shortest oldest-first run that suffices: the entry in place p of the
      access order survives exactly when it and all entries after it fit the limit. */
  lemma {:induction false} SurvivesExactly(index: Index, max: nat, p: nat)
    requires Unique(index) && p < |SortBy(index, BY_ACCESS)|
    ensures var sorted := SortBy(index, BY_ACCESS);
      sorted[p] in Survivors(index, max) <==> Total(sorted[p..]) <= max
  {
    SortedUnique(index);
    SurvivesSorted(SortBy(index, BY_ACCESS), max, p);
  }

  lemma {:induction false} SurvivesSorted(sorted: seq<Item>, max: nat, p: nat)
    requires p < |sorted| && forall i, j :: 0 <= i < j < |sorted| ==> sorted[i] != sorted[j]
    ensures sorted[p] in sorted[Cut(sorted, max)..] <==> Total(sorted[p..]) <= max
  {
    var k := Cut(sorted, max);
    InSuffix(sorted, k, p);
    CutIsLeast(sorted, max);
    if p < k {
      LaterIsLess(sorted, p, k - 1);
    } else {
      LaterIsLess(sorted, k, p);
    }
  }

  lemma {:induction false} InSuffix(s: seq<Item>, k: nat, p: nat)
    requires k <= |s| && p < |s| && forall i, j :: 0 <= i < j < |s| ==> s[i] != s[j]
    ensures s[p] in s[k..] <==> p >= k
  {
    if p >= k {
      assert s[k..][p - k] == s[p];
    }
  }

  /** Whoever goes was not accessed later than anyone who stays. */
  lemma {:induction false} OldestGoFirst(index: Index, max: nat, gone: Item, kept: Item)
    requires gone in index && gone !in Survivors(index, max) && kept in Survivors(index, max)
    ensures gone.at <= kept.at
  {
    var sorted := SortBy(index, BY_ACCESS);
    SortAscends(index, BY_ACCESS);
    SortPermutes(index, BY_ACCESS);
    SameMember(sorted, index, gone);
    OldestSorted(sorted, Cut(sorted, max), gone, kept);
  }

  lemma {:induction false} OldestSorted(sorted: seq<Item>, k: nat, gone: Item, kept: Item)
    requires Ascending(sorted, BY_ACCESS) && k <= |sorted|
    requires gone in sorted && gone !in sorted[k..] && kept in sorted[k..]
    ensures gone.at <= kept.at
  {
    assert sorted == sorted[..k] + sorted[k..];
    var i :| 0 <= i < k && sorted[i] == gone;
    var j :| k <= j < |sorted| && sorted[j] == kept;
    assert BY_ACCESS(sorted[i]) <= BY_ACCESS(sorted[j]);
  }

  /** The entries in front of and behind the place where a key is put. */
  function Before(index: Index, id: string): Index {
    if index == [] || index[0].id == id then [] else [index[0]] + Before(index[1..], id)
  }

  function After(index: Index, id: string): Index {
    if index == [] then [] else if index[0].id == id then index[1..] else After(index[1..], id)
  }

  lemma {:induction false} PutSplits(index: Index, x: Item)
    ensures Put(index, x) == Before(index, x.id) + [x] + After(index, x.id)
  {
    if index == [] {
    } else if index[0].id == x.id {
    } else {
      PutSplits(index[1..], x);
      HeadOfThree(index[0], Before(index[1..], x.id), x, After(index[1..], x.id));
    }
  }

  lemma {:induction false} HeadOfThree(h: Item, a: Index, x: Item, b: Index)
    ensures [h] + (a + [x] + b) == ([h] + a) + [x] + b
  {
  }

  lemma {:induction false} BeforeIsOther(index: Index, id: string, y: Item)
    requires y in Before(index, id)
    ensures y in index && y.id != id
  {
    if y != index[0] {
      BeforeIsOther(index[1..], id, y);
    }
  }

  lemma {:induction false} AfterIsOther(index: Index, id: string, y: Item)
    requires Unique(index) && y in After(index, id)
    ensures y in index && y.id != id && exists z :: z in index && z.id == id
  {
    if index[0].id == id {
      var j :| 0 <= j < |index[1..]| && index[1..][j] == y;
      assert index[j + 1] == y && index[0] in index;
    } else {
      AfterIsOther(index[1..], id, y);
      var z :| z in index[1..] && z.id == id;
      assert z in index;
    }
  }

  lemma {:induction false} AfterNewKey(index: Index, id: string)
    requires forall y :: y in index ==> y.id != id
    ensures After(index, id) == []
  {
    if index != [] {
      AfterNewKey(index[1..], id);
    }
  }

  /** The entries behind the place of x that were accessed at the very moment x is written. */
  function TiedBehind(index: Index, x: Item): Index {
    Ties(After(index, x.id), BY_ACCESS, x.at)
  }

  /** A preview written now, by a clock that does not go back, survives its own eviction exactly
      when it and the entries tied with it behind its place fit the limit together. */
  lemma {:induction false} NewestSurvivesExactly(index: Index, x: Item, max: nat)
    requires Unique(index) && forall y :: y in index && y.id != x.id ==> y.at <= x.at
    ensures x in Survivors(Put(index, x), max) <==> x.size + Total(TiedBehind(index, x)) <= max
  {
    var before, after, put := Before(index, x.id), After(index, x.id), Put(index, x);
    PutSplits(index, x);
    PutUnique(index, x);
    forall y | y in before
      ensures BY_ACCESS(y) <= BY_ACCESS(x)
    {
      BeforeIsOther(index, x.id, y);
    }
    forall y | y in after
      ensures BY_ACCESS(y) <= BY_ACCESS(x)
    {
      AfterIsOther(index, x.id, y);
    }
    var earlier := LatestGoesLate(before, x, after, BY_ACCESS);
    SurvivesBehind(put, max, earlier, x, TiedBehind(index, x));
  }

  lemma {:induction false} SurvivesBehind(put: Index, max: nat, earlier: seq<Item>, x: Item, ties: seq<Item>)
    requires Unique(put) && SortBy(put, BY_ACCESS) == earlier + ([x] + ties)
    ensures x in Survivors(put, max) <==> x.size + Total(ties) <= max
  {
    var sorted := SortBy(put, BY_ACCESS);
    assert sorted[|earlier|] == x && sorted[|earlier|..] == [x] + ties;
    SurvivesExactly(put, max, |earlier|);
    assert ([x] + ties)[1..] == ties;
  }

  /** So a new key survives exactly when it fits at all, and so does a rewritten one unless an
      entry was accessed at the same moment. */
  lemma {:induction false} NewestSurvives(index: Index, x: Item, max: nat)
    requires Unique(index) && forall y :: y in index && y.id != x.id ==> y.at <= x.at
    requires (forall y :: y in index ==> y.id != x.id) || (forall y :: y in index && y.id != x.id ==> y.at < x.at)
    ensures x in Survivors(Put(index, x), max) <==> x.size <= max
  {
    NewestSurvivesExactly(index, x, max);
    if forall y :: y in index ==> y.id != x.id {
      AfterNewKey(index, x.id);
    } else {
      forall y | y in After(index, x.id)
        ensures BY_ACCESS(y) != x.at
      {
        AfterIsOther(index, x.id, y);
      }
      NoTies(After(index, x.id), BY_ACCESS, x.at);
    }
  }

  /** Ties count: rewritten in the same millisecond as an entry behind it, a preview that fits is
      evicted at once under a limit of 1, and stays under a limit of 2. */
  lemma {:induction false} TieEvictsTheNewest()
    ensures var a, b := Item("a", 1, 5), Item("b", 1, 5);
      && Unique([a, b]) && Put([a, b], a) == [a, b]
      && a !in Survivors(Put([a, b], a), 1) && a in Survivors(Put([a, b], a), 2)
  {
    var a, b := Item("a", 1, 5), Item("b", 1, 5);
    var index := [a, b];
    assert Unique(index);
    assert index[1..] == [b] && [b][1..] == [];
    assert After(index, "a") == [b];
    assert Ties([b], BY_ACCESS, 5) == [b];
    assert Total([b]) == 1;
    NewestSurvivesExactly(index, a, 1);
    NewestSurvivesExactly(index, a, 2);
  }

  // ---------------------------------------------------------------------
  // Writes under the lock.
  // ---------------------------------------------------------------------

  /** After any interleaving of previews written through withLock, some of them failing, the index
      has distinct keys, and fits the limit as soon as one write has succeeded. */
  lemma {:induction false} IndexFitsUnderLock(start: Index, items: seq<Item>, max: nat,
                           acts: seq<PreviewLock.Action<Index>>, s: PreviewLock.State<Index>)
    requires Unique(start)
    requires PreviewLock.IsRun(PreviewLock.Init(start), acts) && s == PreviewLock.After(PreviewLock.Init(start), acts)
    requires |s.bodies| == |items| && forall i :: 0 <= i < |items| ==> s.bodies[i] == Writes(items[i], max)
    ensures Unique(s.disk)
    ensures (exists i :: 0 <= i < |s.phases| && s.phases[i] == PreviewLock.Settled(true)) ==> Total(s.disk) <= max
  {
    var d := PreviewLock.LockSerialises(start, acts, s);
    ReplayFits(start, items, max, s.bodies, s.phases, d);
  }

  function Writes(x: Item, max: nat): PreviewLock.Body<Index> {
    index => Written(index, x, max)
  }

  lemma {:induction false} WriteFits(before: Index, x: Item, max: nat, body: PreviewLock.Body<Index>)
    requires Unique(before) && body == Writes(x, max)
    ensures Unique(body(before)) && Total(body(before)) <= max
  {
    PutUnique(before, x);
    TrimFits(Put(before, x), max);
  }

  lemma {:induction false} ReplayFits(start: Index, items: seq<Item>, max: nat, bodies: seq<PreviewLock.Body<Index>>,
                                      phases: seq<PreviewLock.Phase<Index>>, n: nat)
    requires Unique(start) && n <= |phases| == |bodies| == |items|
    requires forall i :: 0 <= i < |items| ==> bodies[i] == Writes(items[i], max)
    ensures var index := PreviewLock.Replay(start, bodies, phases, n);
      && Unique(index)
      && ((exists i :: 0 <= i < n && phases[i] == PreviewLock.Settled(true)) ==> Total(index) <= max)
  {
    if n > 0 {
      ReplayFits(start, items, max, bodies, phases, n - 1);
      var before := PreviewLock.Replay(start, bodies, phases, n - 1);
      WriteFits(before, items[n - 1], max, bodies[n - 1]);
    }
  }
}
