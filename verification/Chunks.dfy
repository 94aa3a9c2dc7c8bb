/** Cutting a file into chunks: the size arithmetic of sessions.ts and the slicing loop of use-upload-files.ts. */
module Chunks {
  import opened Options

  newtype Byte = b: int | 0 <= b < 256

  type Bytes = seq<Byte>

  function Flatten(pieces: seq<Bytes>): Bytes {
    if pieces == [] then [] else pieces[0] + Flatten(pieces[1..])
  }

  lemma {:induction false} FlattenSnoc(pieces: seq<Bytes>, last: Bytes)
    ensures Flatten(pieces + [last]) == Flatten(pieces) + last
  {
    if pieces == [] {
      assert [last][1..] == [] && pieces + [last] == [last];
    } else {
      assert (pieces + [last])[1..] == pieces[1..] + [last];
      FlattenSnoc(pieces[1..], last);
    }
  }

  /** Math.max(1, Math.ceil(size / chunkSize)): the least number of chunks that holds the file. */
  function TotalChunks(size: nat, chunkSize: nat): (n: nat)
    requires size > 0 && chunkSize > 0
    ensures n >= 1
    ensures (n - 1) * chunkSize < size <= n * chunkSize
  {
    var q := (size + chunkSize - 1) / chunkSize;
    CeilingBounds(size, chunkSize, q);
    Max(1, q)
  }

  function Max(a: int, b: int): (m: int)
    ensures m >= a && m >= b && (m == a || m == b)
  {
    if a < b then b else a
  }

  lemma {:induction false} CeilingBounds(size: nat, c: nat, q: int)
    requires size > 0 && c > 0 && q == (size + c - 1) / c
    ensures q >= 1 && (q - 1) * c < size <= q * c
  {
    var r := (size + c - 1) % c;
    assert size + c - 1 == c * q + r;
    assert (q - 1) * c == c * q - c;
    Positive(c, q);
  }

  lemma {:induction false} Positive(c: nat, q: int)
    requires c > 0 && c * q > 0
    ensures q > 0
  {
  }

  /** The loop of initiateUploadSession: a chunk count for every upload entry, or the refusal of the
      whole request if the chunk size or the size of any entry is not positive. */
  method PlanSessions(sizes: seq<int>, chunkSize: int) returns (counts: Option<seq<nat>>)
    ensures counts.None? <==> sizes == [] || chunkSize <= 0 || exists i :: 0 <= i < |sizes| && sizes[i] <= 0
    ensures counts.Some? ==> |counts.value| == |sizes|
    ensures counts.Some? ==>
      forall i :: 0 <= i < |sizes| ==> (counts.value[i] - 1) * chunkSize < sizes[i] <= counts.value[i] * chunkSize
  {
    if sizes == [] || chunkSize <= 0 {
      return None;
    }
    var totals: seq<nat> := [];
    for i := 0 to |sizes|
      invariant |totals| == i
      invariant forall k :: 0 <= k < i ==>
        sizes[k] > 0 && (totals[k] - 1) * chunkSize < sizes[k] <= totals[k] * chunkSize
    {
      if sizes[i] <= 0 {
        return None;
      }
      totals := totals + [TotalChunks(sizes[i], chunkSize)];
    }
    return Some(totals);
  }

  /** `file.slice(i * chunkSize, Math.min(i * chunkSize + chunkSize, file.size))`. */
  function Slice(file: Bytes, chunkSize: nat, i: nat): Bytes
    requires i * chunkSize <= |file|
  {
    file[i * chunkSize..Bound(file, chunkSize, i)]
  }

  function Bound(file: Bytes, chunkSize: nat, i: nat): (end: nat)
    requires i * chunkSize <= |file|
    ensures i * chunkSize <= end <= |file|
  {
    if i * chunkSize + chunkSize < |file| then i * chunkSize + chunkSize else |file|
  }

  predicate Fits(file: Bytes, chunkSize: nat) {
    |file| > 0 && chunkSize > 0
  }

  function ChunkCount(file: Bytes, chunkSize: nat): nat
    requires Fits(file, chunkSize)
  {
    TotalChunks(|file|, chunkSize)
  }

  lemma {:induction false} StartsInside(file: Bytes, chunkSize: nat, i: nat)
    requires Fits(file, chunkSize) && i < ChunkCount(file, chunkSize)
    ensures i * chunkSize < |file|
    ensures i + 1 < ChunkCount(file, chunkSize) ==> (i + 1) * chunkSize < |file|
  {
    var n := ChunkCount(file, chunkSize);
    Monotone(i, n - 1, chunkSize);
    if i + 1 < n {
      Monotone(i + 1, n - 1, chunkSize);
    }
  }

  lemma {:induction false} Monotone(a: nat, b: nat, c: nat)
    requires a <= b
    ensures a * c <= b * c
  {
    assert b * c == a * c + (b - a) * c;
  }

  /** What the client sends for index i. */
  function ChunkOf(file: Bytes, chunkSize: nat, i: nat): Bytes
    requires Fits(file, chunkSize) && i < ChunkCount(file, chunkSize)
  {
    StartsInside(file, chunkSize, i);
    Slice(file, chunkSize, i)
  }

  /** Every chunk is non-empty, at most chunkSize long, and full but for the last. */
  lemma {:induction false} ChunkSizes(file: Bytes, chunkSize: nat, i: nat)
    requires Fits(file, chunkSize) && i < ChunkCount(file, chunkSize)
    ensures 0 < |ChunkOf(file, chunkSize, i)| <= chunkSize
    ensures i + 1 < ChunkCount(file, chunkSize) ==> |ChunkOf(file, chunkSize, i)| == chunkSize
  {
    StartsInside(file, chunkSize, i);
    assert (i + 1) * chunkSize == i * chunkSize + chunkSize;
  }

  function FirstChunks(file: Bytes, chunkSize: nat, k: nat): (pieces: seq<Bytes>)
    requires Fits(file, chunkSize) && k <= ChunkCount(file, chunkSize)
    ensures |pieces| == k
    ensures forall i :: 0 <= i < k ==> pieces[i] == ChunkOf(file, chunkSize, i)
  {
    seq(k, i requires 0 <= i < k => ChunkOf(file, chunkSize, i))
  }

  /** The chunks tile the file: no gap, no overlap. */
  lemma {:induction false} ChunksTile(file: Bytes, chunkSize: nat, k: nat)
    requires Fits(file, chunkSize) && k <= ChunkCount(file, chunkSize)
    ensures k < ChunkCount(file, chunkSize) ==>
      k * chunkSize <= |file| && Flatten(FirstChunks(file, chunkSize, k)) == file[..k * chunkSize]
    ensures k == ChunkCount(file, chunkSize) ==> Flatten(FirstChunks(file, chunkSize, k)) == file
  {
    if k == 0 {
      assert FirstChunks(file, chunkSize, 0) == [];
    } else {
      ChunksTile(file, chunkSize, k - 1);
      StartsInside(file, chunkSize, k - 1);
      assert k * chunkSize == (k - 1) * chunkSize + chunkSize;
      assert FirstChunks(file, chunkSize, k) == FirstChunks(file, chunkSize, k - 1) + [ChunkOf(file, chunkSize, k - 1)];
      TileOn(file, FirstChunks(file, chunkSize, k - 1), (k - 1) * chunkSize, Bound(file, chunkSize, k - 1));
    }
  }

  lemma {:induction false} TileOn(file: Bytes, sent: seq<Bytes>, start: nat, end: nat)
    requires start <= end <= |file| && Flatten(sent) == file[..start]
    ensures Flatten(sent + [file[start..end]]) == file[..end]
    ensures file[..|file|] == file
  {
    FlattenSnoc(sent, file[start..end]);
    OneMoreChunk(file, start, end);
  }

  lemma {:induction false} OneMoreChunk(file: Bytes, start: nat, end: nat)
    requires start <= end <= |file|
    ensures file[..start] + file[start..end] == file[..end]
    ensures file[..|file|] == file
  {
  }

  /** The client's loop. */
  method SliceFile(file: Bytes, chunkSize: nat, totalChunks: nat) returns (sent: seq<Bytes>, fileLoaded: nat)
    requires Fits(file, chunkSize) && totalChunks == ChunkCount(file, chunkSize)
    ensures sent == FirstChunks(file, chunkSize, totalChunks)
    ensures Flatten(sent) == file
    ensures fileLoaded == |file|
  {
    sent, fileLoaded := [], 0;
    for i := 0 to totalChunks
      invariant sent == FirstChunks(file, chunkSize, i)
      invariant fileLoaded == if i < totalChunks then i * chunkSize else |file|
    {
      StartsInside(file, chunkSize, i);
      assert (i + 1) * chunkSize == i * chunkSize + chunkSize;
      var start := i * chunkSize;
      var end := if start + chunkSize < |file| then start + chunkSize else |file|;
      sent := sent + [file[start..end]];
      fileLoaded := fileLoaded + (end - start);
    }
    ChunksTile(file, chunkSize, totalChunks);
  }

  // ---------------------------------------------------------------------
  // Prefixes of the chunks make up the file only if they are the chunks.
  // ---------------------------------------------------------------------

  lemma {:induction false} FlattenSplitsAt(pieces: seq<Bytes>, k: nat)
    requires k < |pieces|
    ensures Flatten(pieces[..k + 1]) == Flatten(pieces[..k]) + pieces[k]
  {
    assert pieces[..k + 1] == pieces[..k] + [pieces[k]];
    FlattenSnoc(pieces[..k], pieces[k]);
  }

  lemma {:induction false} ShorterPieces(a: seq<Bytes>, b: seq<Bytes>, k: nat)
    requires k <= |a| == |b| && forall i :: 0 <= i < k ==> |a[i]| <= |b[i]|
    ensures |Flatten(a[..k])| <= |Flatten(b[..k])|
    ensures |Flatten(a[..k])| == |Flatten(b[..k])| ==> forall i :: 0 <= i < k ==> |a[i]| == |b[i]|
  {
    if k > 0 {
      ShorterPieces(a, b, k - 1);
      FlattenSplitsAt(a, k - 1);
      FlattenSplitsAt(b, k - 1);
    }
  }

  lemma {:induction false} PrefixesMakeFileOnlyWhole(a: seq<Bytes>, b: seq<Bytes>)
    requires |a| == |b| && forall i :: 0 <= i < |a| ==> a[i] <= b[i]
    ensures Flatten(a) == Flatten(b) <==> a == b
  {
    if Flatten(a) == Flatten(b) {
      assert a[..|a|] == a && b[..|b|] == b;
      ShorterPieces(a, b, |a|);
      forall i | 0 <= i < |a|
        ensures a[i] == b[i]
      {
        assert a[i] == b[i][..|a[i]|];
      }
    }
  }
}
