/** openAssembledStream: one stream over the staged chunks, pulled read by read. */
module Reassembly {
  import opened Options
  import opened Chunks
  import opened Staging

  /** The reads one staged file yields, however the runtime splits them; None: no such file. */
  type Reads = Option<seq<Bytes>>

  /** The bytes up to the first missing file. */
  function Content(files: seq<Reads>): Bytes {
    if files == [] || files[0].None? then [] else Flatten(files[0].value) + Content(files[1..])
  }

  /** The bytes of the open file, then of those ahead. */
  function LeftOf(reader: Reads, ahead: seq<Reads>): Bytes {
    (if reader.Some? then Flatten(reader.value) else []) + Content(ahead)
  }

  predicate Whole(files: seq<Reads>) {
    forall i :: 0 <= i < |files| ==> files[i].Some?
  }

  datatype Pulled = Chunk(value: Bytes) | Closed | Broken

  class AssembledStream {
    const files: seq<Reads>
    var current: nat
    var currentReader: Reads

    ghost predicate Valid()
      reads this
    {
      current <= |files|
    }

    ghost function Ahead(): seq<Reads>
      reads this
      requires Valid()
    {
      files[current..]
    }

    /** What the consumer will still be given. */
    ghost function Left(): Bytes
      reads this
      requires Valid()
    {
      LeftOf(currentReader, Ahead())
    }

    constructor (files: seq<Reads>)
      ensures Valid() && this.files == files && Left() == Content(files) && Ahead() == files
    {
      this.files := files;
      current, currentReader := 0, None;
    }

    /** pull: the next non-empty read, in order; closes after the last file; breaks at a
        missing file, and only then. */
    method Pull() returns (r: Pulled)
      requires Valid()
      modifies this
      ensures Valid() && old(current) <= current
      ensures r.Chunk? ==> r.value != [] && old(Left()) == r.value + Left()
      ensures r.Chunk? ==> (Whole(Ahead()) <==> Whole(old(Ahead())))
      ensures !r.Chunk? ==> old(Left()) == [] && (r.Closed? <==> Whole(old(Ahead())))
    {
      ghost var left, whole := Left(), Whole(Ahead());
      while true
        invariant old(current) <= current <= |files|
        invariant LeftOf(currentReader, files[current..]) == left
        invariant Whole(files[current..]) == whole
        decreases |files| - current, if currentReader.Some? then |currentReader.value| + 1 else 0
      {
        if currentReader.None? {
          if current >= |files| {
            NothingLeft(files);
            return Closed;
          }
          NextFile(files, current);
          if files[current].None? {
            current := current + 1;
            return Broken;
          }
          current, currentReader := current + 1, files[current];
        }
        var pieces := currentReader.value;
        if pieces == [] {
          LastRead(files[current..]);
          currentReader := None;
          continue;
        }
        var value := pieces[0];
        FirstRead(pieces, files[current..]);
        currentReader := Some(pieces[1..]);
        if value == [] {
          continue;
        }
        return Chunk(value);
      }
    }
  }

  lemma {:induction false} WholeTail(files: seq<Reads>)
    requires files != [] && files[0].Some?
    ensures Whole(files) <==> Whole(files[1..])
  {
    if Whole(files[1..]) {
      forall i | 0 <= i < |files|
        ensures files[i].Some?
      {
        if i > 0 {
          assert files[1..][i - 1].Some?;
        }
      }
    }
  }

  lemma {:induction false} NothingLeft(files: seq<Reads>)
    ensures LeftOf(None, files[|files|..]) == []
  {
  }

  lemma {:induction false} NextFile(files: seq<Reads>, k: nat)
    requires k < |files|
    ensures files[k].None? ==> LeftOf(None, files[k..]) == [] && !Whole(files[k..])
    ensures files[k].Some? ==> LeftOf(None, files[k..]) == LeftOf(files[k], files[k + 1..])
    ensures files[k].Some? ==> (Whole(files[k..]) <==> Whole(files[k + 1..]))
  {
    assert files[k..][0] == files[k] && files[k..][1..] == files[k + 1..];
    if files[k].Some? {
      WholeTail(files[k..]);
    }
  }

  lemma {:induction false} FirstRead(pieces: seq<Bytes>, ahead: seq<Reads>)
    requires pieces != []
    ensures LeftOf(Some(pieces), ahead) == pieces[0] + LeftOf(Some(pieces[1..]), ahead)
    ensures pieces[0] == [] ==> LeftOf(Some(pieces), ahead) == LeftOf(Some(pieces[1..]), ahead)
  {
    Passed(pieces[0], Flatten(pieces[1..]), Content(ahead));
  }

  lemma {:induction false} LastRead(ahead: seq<Reads>)
    ensures LeftOf(Some([]), ahead) == LeftOf(None, ahead)
  {
  }

  lemma {:induction false} Passed(out: Bytes, value: Bytes, rest: Bytes)
    ensures (out + value) + rest == out + (value + rest)
  {
  }

  /** The consumer: the provider's upload reads the stream to its end. */
  method Drain(files: seq<Reads>) returns (ok: bool, out: Bytes)
    ensures ok <==> Whole(files)
    ensures out == Content(files)
  {
    var stream := new AssembledStream(files);
    out := [];
    while true
      invariant stream.Valid() && fresh(stream)
      invariant out + stream.Left() == Content(files)
      invariant Whole(stream.Ahead()) <==> Whole(files)
      decreases |stream.Left()|
    {
      ghost var left := stream.Left();
      var r := stream.Pull();
      if !r.Chunk? {
        return r.Closed?, out;
      }
      Passed(out, r.value, stream.Left());
      out := out + r.value;
    }
  }

  /** The reads are those of the staged chunks of s. */
  ghost predicate ReadsOf(files: seq<Reads>, total: nat, s: Session) {
    && |files| == total
    && forall i :: 0 <= i < total ==>
      (files[i].Some? <==> i in s.disk) && (files[i].Some? ==> Flatten(files[i].value) == s.disk[i])
  }

  /** The stream over a session's chunks ends without error and yields the file exactly when
      the session holds the file, however the reads are split. */
  lemma {:induction false} StreamYieldsStagedFile(files: seq<Reads>, file: Bytes, total: nat, s: Session)
    requires ReadsOf(files, total, s)
    ensures Whole(files) && Content(files) == file <==> HoldsFile(file, total, s)
  {
    if OnDisk(total, s) {
      ContentIsStaged(files, Staged(total, s));
    }
  }

  lemma {:induction false} ContentIsStaged(files: seq<Reads>, pieces: seq<Bytes>)
    requires |files| == |pieces|
    requires forall i :: 0 <= i < |files| ==> files[i].Some? && Flatten(files[i].value) == pieces[i]
    ensures Content(files) == Flatten(pieces)
  {
    if files != [] {
      ContentIsStaged(files[1..], pieces[1..]);
    }
  }

  /** Browser to provider: the client's chunks, sent in any order with any retries as long as
      the last PUT of each index was acknowledged, come out of the stream as the file. */
  method RoundTrip(file: Bytes, chunkSize: nat, puts: seq<Put>, files: seq<Reads>) returns (ok: bool, out: Bytes)
    requires Fits(file, chunkSize)
    requires forall p :: p in puts ==> OfClient(file, chunkSize, p)
    requires ReadsOf(files, ChunkCount(file, chunkSize), AfterPuts(ChunkCount(file, chunkSize), FRESH, puts))
    ensures ok && out == file <==>
      forall i: nat :: i < ChunkCount(file, chunkSize) ==> LastWhole(ChunkCount(file, chunkSize), puts, i)
  {
    ok, out := Drain(files);
    UploadRoundTrip(file, chunkSize, puts);
    var total := ChunkCount(file, chunkSize);
    StreamYieldsStagedFile(files, file, total, AfterPuts(total, FRESH, puts));
  }

  /** assembledSize: the sizes on disk added up; None where stat finds no file. */
  method AssembledSize(total: nat, s: Session) returns (size: Option<nat>)
    ensures size.Some? <==> OnDisk(total, s)
    ensures size.Some? ==> size.value == |Flatten(Staged(total, s))|
  {
    var n := 0;
    ghost var seen: seq<Bytes> := [];
    for i := 0 to total
      invariant forall k :: 0 <= k < i ==> k in s.disk
      invariant |seen| == i && forall k :: 0 <= k < i ==> seen[k] == s.disk[k]
      invariant n == |Flatten(seen)|
    {
      if i !in s.disk {
        return None;
      }
      FlattenSnoc(seen, s.disk[i]);
      seen := seen + [s.disk[i]];
      n := n + |s.disk[i]|;
    }
    assert seen == Staged(total, s);
    return Some(n);
  }
}
