/** Direct-mode completion: the parts check of sessions.ts and the ordering of S3's completeMultipart. */
module Parts {
  import opened Options
  import opened Sorting

  datatype Part = Part(number: int, etag: string)

  const BY_NUMBER := (p: Part) => p.number

  /** `[...parts].sort((a, b) => a.partNumber - b.partNumber)`. */
  function Sort(parts: seq<Part>): seq<Part> {
    SortBy(parts, BY_NUMBER)
  }

  function Numbers(parts: seq<Part>): seq<int> {
    Keys(parts, BY_NUMBER)
  }

  predicate NonDecreasing(ns: seq<int>) {
    forall i, j :: 0 <= i < j < |ns| ==> ns[i] <= ns[j]
  }

  // ---------------------------------------------------------------------
  // Permutations of 1..n.
  // ---------------------------------------------------------------------

  function OneTo(n: nat): (ns: seq<int>)
    ensures |ns| == n && forall i :: 0 <= i < n ==> ns[i] == i + 1
  {
    seq(n, i => i + 1)
  }

  predicate IsPermutationOfOneTo(ns: seq<int>, n: nat) {
    multiset(ns) == multiset(OneTo(n))
  }

  lemma {:induction false} AscendingUnique(a: seq<int>, b: seq<int>)
    requires NonDecreasing(a) && NonDecreasing(b) && multiset(a) == multiset(b)
    ensures a == b
  {
    assert |multiset(a)| == |a| && |multiset(b)| == |b|;
    if a != [] {
      LeastFirst(a, b);
      LeastFirst(b, a);
      assert a == [a[0]] + a[1..] && b == [b[0]] + b[1..];
      assert multiset(a[1..]) == multiset(a) - multiset{a[0]};
      assert multiset(b[1..]) == multiset(b) - multiset{b[0]};
      AscendingUnique(a[1..], b[1..]);
    }
  }

  lemma {:induction false} LeastFirst(a: seq<int>, b: seq<int>)
    requires a != [] && b != [] && NonDecreasing(b) && multiset(a) == multiset(b)
    ensures b[0] <= a[0]
  {
    assert a[0] in multiset(b);
    var k :| 0 <= k < |b| && b[k] == a[0];
  }

  // ---------------------------------------------------------------------
  // The check.
  // ---------------------------------------------------------------------

  predicate Tagged(parts: seq<Part>) {
    forall p :: p in parts ==> p.etag != ""
  }

  /** The direct branch of completeUploadSession: what is stored, or None if refused. It accepts
      exactly the lists whose numbers are a permutation of 1..totalChunks, every etag present,
      and stores that list in ascending order. */
  method CompleteDirect(parts: Option<seq<Part>>, totalChunks: nat) returns (stored: Option<seq<Part>>)
    ensures stored.Some? <==>
      parts.Some? && IsPermutationOfOneTo(Numbers(parts.value), totalChunks) && Tagged(parts.value)
    ensures stored.Some? ==>
      multiset(stored.value) == multiset(parts.value) && Numbers(stored.value) == OneTo(totalChunks)
  {
    if parts.None? || |parts.value| != totalChunks {
      if parts.Some? {
        assert |multiset(Numbers(parts.value))| == |parts.value|;
        assert |multiset(OneTo(totalChunks))| == totalChunks;
      }
      return None;
    }
    var sorted := Sort(parts.value);
    SortedIsOneTo(parts.value, sorted, totalChunks);
    SortPermutes(parts.value, BY_NUMBER);
    var numbered := CheckNumbered(sorted);
    TaggedSame(sorted, parts.value);
    return if numbered then Some(sorted) else None;
  }

  method CheckNumbered(sorted: seq<Part>) returns (ok: bool)
    ensures ok <==> Numbers(sorted) == OneTo(|sorted|) && Tagged(sorted)
  {
    for i := 0 to |sorted|
      invariant forall k :: 0 <= k < i ==> sorted[k].number == k + 1 && sorted[k].etag != ""
    {
      if sorted[i].number != i + 1 {
        assert Numbers(sorted)[i] != OneTo(|sorted|)[i];
        return false;
      }
      if sorted[i].etag == "" {
        return false;
      }
    }
    return true;
  }

  lemma {:induction false} TaggedSame(a: seq<Part>, b: seq<Part>)
    requires multiset(a) == multiset(b)
    ensures Tagged(a) <==> Tagged(b)
  {
    forall p
      ensures p in a <==> p in b
    {
      SameMember(a, b, p);
    }
  }

  lemma {:induction false} SortedIsOneTo(parts: seq<Part>, sorted: seq<Part>, n: nat)
    requires sorted == Sort(parts) && |parts| == n
    ensures |sorted| == n
    ensures Numbers(sorted) == OneTo(n) <==> IsPermutationOfOneTo(Numbers(parts), n)
  {
    SortPermutes(parts, BY_NUMBER);
    SameLength(sorted, parts);
    KeysOfSort(parts, BY_NUMBER);
    SortAscends(parts, BY_NUMBER);
    if IsPermutationOfOneTo(Numbers(parts), n) {
      AscendingUnique(Numbers(sorted), OneTo(n));
    }
  }

  /** The parts the browser collects: number i + 1 with the ETag header of response i. */
  method CollectParts(etags: seq<string>) returns (parts: seq<Part>)
    ensures |parts| == |etags| && forall i :: 0 <= i < |parts| ==> parts[i] == Part(i + 1, etags[i])
    ensures IsPermutationOfOneTo(Numbers(parts), |etags|)
    ensures Tagged(parts) <==> forall i :: 0 <= i < |etags| ==> etags[i] != ""
  {
    parts := [];
    for i := 0 to |etags|
      invariant |parts| == i && forall k :: 0 <= k < i ==> parts[k] == Part(k + 1, etags[k])
    {
      parts := parts + [Part(i + 1, etags[i])];
    }
    assert Numbers(parts) == OneTo(|etags|);
    forall i | 0 <= i < |etags|
      ensures parts[i] in parts
    {
    }
  }

  // ---------------------------------------------------------------------
  // completeMultipart.
  // ---------------------------------------------------------------------

  predicate Quoted(etag: string) {
    etag != "" && etag[0] == '"'
  }

  function Quote(etag: string): string {
    if Quoted(etag) then etag else "\"" + etag + "\""
  }

  function QuoteAll(parts: seq<Part>): (r: seq<Part>)
    ensures |r| == |parts|
    ensures forall i :: 0 <= i < |r| ==> r[i] == Part(parts[i].number, Quote(parts[i].etag))
  {
    seq(|parts|, i requires 0 <= i < |parts| => Part(parts[i].number, Quote(parts[i].etag)))
  }

  /** What completeMultipart sends to S3. */
  function Manifest(parts: seq<Part>): seq<Part> {
    QuoteAll(Sort(parts))
  }

  /** The manifest of an accepted session: part i + 1 in place i with its own etag, quoted; the
      second sort moves nothing. */
  lemma {:induction false} ManifestOfStored(stored: seq<Part>)
    requires Numbers(stored) == OneTo(|stored|)
    ensures Sort(stored) == stored
    ensures |Manifest(stored)| == |stored|
    ensures forall i :: 0 <= i < |stored| ==> Manifest(stored)[i] == Part(i + 1, Quote(stored[i].etag))
    ensures forall i :: 0 <= i < |stored| ==>
      Manifest(stored)[i].etag ==
        if ['"'] <= stored[i].etag then stored[i].etag else ['"'] + stored[i].etag + ['"']
  {
    assert Ascending(stored, BY_NUMBER) by {
      forall i, j | 0 <= i < j < |stored|
        ensures stored[i].number <= stored[j].number
      {
        assert Numbers(stored)[i] == i + 1 && Numbers(stored)[j] == j + 1;
      }
    }
    SortKeepsSorted(stored, BY_NUMBER);
    forall i | 0 <= i < |stored|
      ensures Manifest(stored)[i] == Part(i + 1, Quote(stored[i].etag))
    {
      assert Numbers(stored)[i] == i + 1;
    }
  }
}
