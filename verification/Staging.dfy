/**
  A proxy-mode upload session: the staging directory, the receipt rows and the
  session row, under chunk PUTs, completion and cancellation, one request at a time.
  */
module Staging {
  import opened Options
  import opened Chunks

  datatype SessionStatus = Pending | Uploading | Ready | Completed | Failed | Cancelled

  /** One PUT: the reads of its body, whether the body then breaks off with an error, and
      the declared content length if the header is a number. */
  datatype Put = Put(index: nat, body: Option<seq<Bytes>>, breaks: bool, declared: Option<nat>)

  datatype Reply = Accepted(size: nat) | BadRequest | Conflict | ServerError

  datatype Completion = Complete | NotOpen | Missing(count: nat, first: seq<nat>)

  datatype Session = Session(status: SessionStatus, disk: map<nat, Bytes>, receipts: map<nat, nat>)

  predicate Open(s: Session) {
    s.status == Pending || s.status == Uploading
  }

  const FRESH: Session := Session(Pending, map[], map[])

  predicate LengthMatches(p: Put) {
    p.declared.Some? && p.body.Some? ==> p.declared.value == |Flatten(p.body.value)|
  }

  /** The PUT gets as far as the disk. */
  predicate Writes(total: nat, p: Put) {
    p.index < total && p.body.Some?
  }

  /** The PUT is answered with 200 by an open session. */
  predicate Acknowledged(total: nat, p: Put) {
    Writes(total, p) && !p.breaks && LengthMatches(p)
  }

  /** What writeChunk leaves at the path of the chunk. */
  function DiskAfter(disk: map<nat, Bytes>, p: Put): map<nat, Bytes>
    requires p.body.Some?
  {
    if p.breaks then disk - {p.index} else disk[p.index := Flatten(p.body.value)]
  }

  function AfterPut(total: nat, s: Session, p: Put): Session {
    if !Open(s) || !Writes(total, p) then s
    else if !Acknowledged(total, p) then s.(disk := DiskAfter(s.disk, p))
    else Session(Uploading, DiskAfter(s.disk, p), s.receipts[p.index := |Flatten(p.body.value)|])
  }

  function ReplyTo(total: nat, s: Session, p: Put): Reply {
    if !Open(s) then Conflict
    else if !Writes(total, p) then BadRequest
    else if p.breaks then ServerError
    else if !LengthMatches(p) then BadRequest
    else Accepted(|Flatten(p.body.value)|)
  }

  predicate AllReceived(total: nat, s: Session) {
    forall i :: 0 <= i < total ==> i in s.receipts
  }

  /** completeUploadSession, when it succeeds. */
  predicate Completes(total: nat, s: Session) {
    Open(s) && AllReceived(total, s)
  }

  /** The indices below n without a receipt, ascending. */
  function MissingUpTo(receipts: map<nat, nat>, n: nat): seq<nat> {
    if n == 0 then []
    else if n - 1 in receipts then MissingUpTo(receipts, n - 1)
    else MissingUpTo(receipts, n - 1) + [n - 1]
  }

  lemma {:induction false} MissingAscends(receipts: map<nat, nat>, n: nat)
    ensures forall k :: 0 <= k < |MissingUpTo(receipts, n)| ==>
      MissingUpTo(receipts, n)[k] < n && MissingUpTo(receipts, n)[k] !in receipts
    ensures forall k: nat :: k < n && k !in receipts ==> k in MissingUpTo(receipts, n)
    ensures forall k, l :: 0 <= k < l < |MissingUpTo(receipts, n)| ==>
      MissingUpTo(receipts, n)[k] < MissingUpTo(receipts, n)[l]
  {
    if n > 0 {
      MissingAscends(receipts, n - 1);
      var below, all := MissingUpTo(receipts, n - 1), MissingUpTo(receipts, n);
      if n - 1 !in receipts {
        assert all == below + [n - 1] && all[|below|] == n - 1;
      }
    }
  }

  method FindMissing(receipts: map<nat, nat>, totalChunks: nat) returns (missing: seq<nat>)
    ensures missing == MissingUpTo(receipts, totalChunks)
  {
    missing := [];
    for i := 0 to totalChunks
      invariant missing == MissingUpTo(receipts, i)
    {
      if i !in receipts {
        missing := missing + [i];
      }
    }
  }

  lemma {:induction false} NoneMissing(total: nat, s: Session)
    ensures MissingUpTo(s.receipts, total) == [] <==> AllReceived(total, s)
  {
    MissingAscends(s.receipts, total);
    var missing := MissingUpTo(s.receipts, total);
    if missing != [] {
      assert missing[0] !in s.receipts;
    }
  }

  function FirstTen(s: seq<nat>): seq<nat> {
    if |s| <= 10 then s else s[..10]
  }

  /** The indices below total without a receipt. */
  function Unreceived(receipts: map<nat, nat>, total: nat): set<nat> {
    set i: nat | i < total && i !in receipts
  }

  lemma {:induction false} CountMissing(receipts: map<nat, nat>, n: nat)
    ensures |MissingUpTo(receipts, n)| == |Unreceived(receipts, n)|
  {
    if n == 0 {
      assert Unreceived(receipts, 0) == {};
    } else {
      CountMissing(receipts, n - 1);
      if n - 1 in receipts {
        assert Unreceived(receipts, n) == Unreceived(receipts, n - 1);
      } else {
        assert Unreceived(receipts, n) == Unreceived(receipts, n - 1) + {n - 1};
      }
    }
  }

  /** first names the least ten of the unreceived indices, ascending, or all if there are fewer. */
  ghost predicate NamesLeastTen(first: seq<nat>, receipts: map<nat, nat>, total: nat) {
    && |first| == (if |Unreceived(receipts, total)| < 10 then |Unreceived(receipts, total)| else 10)
    && (forall k, l :: 0 <= k < l < |first| ==> first[k] < first[l])
    && (forall i :: i in first ==> i in Unreceived(receipts, total))
    && (forall i, k :: i in Unreceived(receipts, total) && i !in first && 0 <= k < |first| ==> first[k] < i)
  }

  lemma {:induction false} RestIsGreater(s: seq<nat>, n: nat, i: nat)
    requires n <= |s| && i in s && i !in s[..n]
    requires forall k, l :: 0 <= k < l < |s| ==> s[k] < s[l]
    ensures forall k :: 0 <= k < n ==> s[k] < i
  {
    assert s == s[..n] + s[n..];
    var l :| 0 <= l < |s[n..]| && s[n..][l] == i;
    assert s[n + l] == i;
  }

  lemma {:induction false} FirstTenAreLeast(receipts: map<nat, nat>, total: nat)
    ensures NamesLeastTen(FirstTen(MissingUpTo(receipts, total)), receipts, total)
  {
    var missing := MissingUpTo(receipts, total);
    MissingAscends(receipts, total);
    CountMissing(receipts, total);
    var n := if |missing| < 10 then |missing| else 10;
    assert FirstTen(missing) == missing[..n];
    forall i | i in Unreceived(receipts, total) && i !in missing[..n]
      ensures forall k :: 0 <= k < n ==> missing[k] < i
    {
      RestIsGreater(missing, n, i);
    }
  }

  class UploadSession {
    const totalChunks: nat
    var status: SessionStatus
    var disk: map<nat, Bytes>
    var receipts: map<nat, nat>

    function View(): Session
      reads this
    {
      Session(status, disk, receipts)
    }

    constructor (totalChunks: nat)
      ensures View() == FRESH && this.totalChunks == totalChunks
    {
      this.totalChunks := totalChunks;
      status, disk, receipts := Pending, map[], map[];
    }

    /** writeChunk: removes the old file, appends every read, and removes the file again
        if the body breaks. Reports the size, or None for the thrown error. */
    method WriteChunk(index: nat, pieces: seq<Bytes>, breaks: bool) returns (size: Option<nat>)
      modifies this`disk
      ensures size == if breaks then None else Some(|Flatten(pieces)|)
      ensures disk == if breaks then old(disk) - {index} else old(disk)[index := Flatten(pieces)]
    {
      disk := disk - {index};
      disk := disk[index := []];
      var n := 0;
      assert pieces[..0] == [];
      for i := 0 to |pieces|
        invariant disk == old(disk)[index := Flatten(pieces[..i])]
        invariant n == |Flatten(pieces[..i])|
      {
        FlattenSplitsAt(pieces, i);
        disk := disk[index := disk[index] + pieces[i]];
        n := n + |pieces[i]|;
      }
      assert pieces[..|pieces|] == pieces;
      if breaks {
        disk := disk - {index};
        return None;
      }
      return Some(n);
    }

    /** Answers 200 exactly if the session is open, the index in range, the body there and whole, and
        its length the declared one; exactly then it leaves a receipt for the bytes it leaves on
        disk. A body that breaks takes the chunk file with it, a body of the wrong length
        replaces it; everything else is refused before the disk. */
    method HandleUploadChunk(p: Put) returns (reply: Reply)
      modifies this
      ensures View() == AfterPut(totalChunks, old(View()), p)
      ensures reply == ReplyTo(totalChunks, old(View()), p)
      ensures reply.Conflict? <==> old(status) !in {Pending, Uploading}
      ensures reply.ServerError? <==>
        old(status) in {Pending, Uploading} && p.index < totalChunks && p.body.Some? && p.breaks
      ensures reply.Accepted? <==>
        && old(status) in {Pending, Uploading} && p.index < totalChunks && p.body.Some? && !p.breaks
        && (p.declared.Some? ==> p.declared.value == |Flatten(p.body.value)|)
      ensures reply.Accepted? ==>
        && reply.size == |Flatten(p.body.value)| && receipts == old(receipts)[p.index := reply.size]
        && disk == old(disk)[p.index := Flatten(p.body.value)] && status == Uploading
      ensures !reply.Accepted? ==> receipts == old(receipts) && status == old(status)
      ensures reply.ServerError? ==> disk == old(disk) - {p.index}
      ensures reply.BadRequest? ==>
        disk == if p.index < totalChunks && p.body.Some? then old(disk)[p.index := Flatten(p.body.value)] else old(disk)
      ensures reply.Conflict? ==> disk == old(disk)
    {
      if status != Pending && status != Uploading {
        return Conflict;
      }
      if p.index >= totalChunks || p.body.None? {
        return BadRequest;
      }
      var written := WriteChunk(p.index, p.body.value, p.breaks);
      if written.None? {
        return ServerError;
      }
      if p.declared.Some? && p.declared.value != written.value {
        return BadRequest;
      }
      receipts := receipts[p.index := written.value];
      if status == Pending {
        status := Uploading;
      }
      return Accepted(written.value);
    }

    /** The proxy branch of completeUploadSession. */
    method CompleteUploadSession() returns (outcome: Completion)
      modifies this`status
      ensures outcome.Complete? <==> Completes(totalChunks, old(View()))
      ensures status == if outcome.Complete? then Ready else old(status)
      ensures outcome.NotOpen? <==> old(status) !in {Pending, Uploading}
      ensures outcome.Complete? <==>
        old(status) in {Pending, Uploading} && forall i: nat :: i < totalChunks ==> i in receipts
      ensures outcome.Missing? ==>
        && outcome.count == |Unreceived(receipts, totalChunks)|
        && NamesLeastTen(outcome.first, receipts, totalChunks)
    {
      if status != Pending && status != Uploading {
        return NotOpen;
      }
      var missing := FindMissing(receipts, totalChunks);
      NoneMissing(totalChunks, View());
      CountMissing(receipts, totalChunks);
      FirstTenAreLeast(receipts, totalChunks);
      if |missing| > 0 {
        return Missing(|missing|, FirstTen(missing));
      }
      status := Ready;
      return Complete;
    }

    /** cancelUploadSession of a proxy-mode session: the directory goes, the receipts stay. */
    method CancelUploadSession()
      modifies this`status, this`disk
      ensures old(status) in {Completed, Failed, Cancelled} ==> View() == old(View())
      ensures old(status) !in {Completed, Failed, Cancelled} ==>
        View() == old(View()).(status := Cancelled, disk := map[])
    {
      if status == Completed || status == Failed || status == Cancelled {
        return;
      }
      disk, status := map[], Cancelled;
    }
  }

  // ---------------------------------------------------------------------
  // Runs of PUTs.
  // ---------------------------------------------------------------------

  function AfterPuts(total: nat, s: Session, puts: seq<Put>): Session {
    if puts == [] then s
    else AfterPut(total, AfterPuts(total, s, puts[..|puts| - 1]), puts[|puts| - 1])
  }

  /** The last PUT of index i that got as far as the disk. */
  function LastPut(total: nat, puts: seq<Put>, i: nat): (r: Option<Put>)
    ensures r.Some? ==> r.value in puts && r.value.index == i && Writes(total, r.value)
  {
    if puts == [] then None
    else
      var p := puts[|puts| - 1];
      if Writes(total, p) && p.index == i then Some(p) else LastPut(total, puts[..|puts| - 1], i)
  }

  ghost predicate Arrived(total: nat, puts: seq<Put>, i: nat) {
    exists p :: p in puts && p.index == i && Acknowledged(total, p)
  }

  /** What a session holds after any PUTs: on disk, for every index, what its last PUT left
      there; in the receipts, the indices with an acknowledged PUT. */
  lemma {:induction false} SessionHolds(total: nat, puts: seq<Put>, i: nat)
    ensures var s := AfterPuts(total, FRESH, puts);
      && Open(s)
      && (i in s.disk <==> LastPut(total, puts, i).Some? && !LastPut(total, puts, i).value.breaks)
      && (i in s.disk ==> s.disk[i] == Flatten(LastPut(total, puts, i).value.body.value))
      && (i in s.receipts <==> Arrived(total, puts, i))
  {
    if puts != [] {
      var init, p := puts[..|puts| - 1], puts[|puts| - 1];
      SessionHolds(total, init, i);
      assert puts == init + [p];
      assert Arrived(total, puts, i) <==> Arrived(total, init, i) || (p.index == i && Acknowledged(total, p));
    }
  }

  /** What the kth PUT of a fresh session is answered. */
  function Answer(total: nat, puts: seq<Put>, k: nat): Reply
    requires k < |puts|
  {
    ReplyTo(total, AfterPuts(total, FRESH, puts[..k]), puts[k])
  }

  /** The size in the last 200 that a PUT of index i was answered with. */
  function LastAccepted(total: nat, puts: seq<Put>, i: nat): Option<nat> {
    if puts == [] then None
    else
      var n := |puts| - 1;
      if puts[n].index == i && Answer(total, puts, n).Accepted? then Some(Answer(total, puts, n).size)
      else LastAccepted(total, puts[..n], i)
  }

  /** What the client was told is what the session has: index i has a receipt if and only if some
      PUT of it was answered with 200, and the receipt is the size the last such answer gave. */
  lemma {:induction false} ReceiptsAreAnswers(total: nat, puts: seq<Put>, i: nat)
    ensures var receipts := AfterPuts(total, FRESH, puts).receipts;
      && (i in receipts <==> exists k :: 0 <= k < |puts| && puts[k].index == i && Answer(total, puts, k).Accepted?)
      && (if i in receipts then LastAccepted(total, puts, i) == Some(receipts[i])
          else LastAccepted(total, puts, i) == None)
  {
    if puts != [] {
      var n := |puts| - 1;
      var init := puts[..n];
      ReceiptsAreAnswers(total, init, i);
      SessionHolds(total, init, i);
      forall k: nat | k < n
        ensures Answer(total, puts, k) == Answer(total, init, k)
      {
        assert puts[..k] == init[..k];
      }
      if i in AfterPuts(total, FRESH, init).receipts {
        var k :| 0 <= k < n && init[k].index == i && Answer(total, init, k).Accepted?;
        assert puts[k].index == i && Answer(total, puts, k).Accepted?;
      }
    }
  }

  /** PUTs change nothing in a session that is not open. */
  lemma {:induction false} ClosedToPuts(total: nat, s: Session, puts: seq<Put>)
    requires !Open(s)
    ensures AfterPuts(total, s, puts) == s
  {
    if puts != [] {
      ClosedToPuts(total, s, puts[..|puts| - 1]);
    }
  }

  // ---------------------------------------------------------------------
  // The round trip.
  // ---------------------------------------------------------------------

  /** A PUT of the client: it declares the length of its chunk and delivers a prefix of it. */
  ghost predicate OfClient(file: Bytes, chunkSize: nat, p: Put)
    requires Fits(file, chunkSize)
  {
    && p.index < ChunkCount(file, chunkSize)
    && p.body.Some?
    && Flatten(p.body.value) <= ChunkOf(file, chunkSize, p.index)
    && p.declared == Some(|ChunkOf(file, chunkSize, p.index)|)
  }

  ghost predicate OnDisk(total: nat, s: Session) {
    forall i :: 0 <= i < total ==> i in s.disk
  }

  function Staged(total: nat, s: Session): (pieces: seq<Bytes>)
    requires forall i :: 0 <= i < total ==> i in s.disk
    ensures |pieces| == total && forall i :: 0 <= i < total ==> pieces[i] == s.disk[i]
  {
    seq(total, i requires 0 <= i < total => s.disk[i])
  }

  /** The worker can read every chunk and reads the file. */
  ghost predicate HoldsFile(file: Bytes, total: nat, s: Session) {
    OnDisk(total, s) && Flatten(Staged(total, s)) == file
  }

  lemma {:induction false} AcknowledgedIsWhole(file: Bytes, chunkSize: nat, p: Put)
    requires Fits(file, chunkSize) && OfClient(file, chunkSize, p)
    ensures Acknowledged(ChunkCount(file, chunkSize), p) <==>
      !p.breaks && Flatten(p.body.value) == ChunkOf(file, chunkSize, p.index)
  {
  }

  /** The last PUT of index i was acknowledged. */
  ghost predicate LastWhole(total: nat, puts: seq<Put>, i: nat) {
    LastPut(total, puts, i).Some? && Acknowledged(total, LastPut(total, puts, i).value)
  }

  ghost predicate Sent(puts: seq<Put>, i: nat) {
    exists p :: p in puts && p.index == i
  }

  /** For every file, chunk size and sequence of client PUTs, in any order, repeated, cut
      short or broken off: completion is accepted exactly when every index had a PUT that
      was acknowledged, and the staged chunks then are the file exactly when the last PUT
      of every index was. */
  lemma {:induction false} UploadRoundTrip(file: Bytes, chunkSize: nat, puts: seq<Put>)
    requires Fits(file, chunkSize)
    requires forall p :: p in puts ==> OfClient(file, chunkSize, p)
    ensures var total := ChunkCount(file, chunkSize);
      Completes(total, AfterPuts(total, FRESH, puts)) <==> forall i: nat :: i < total ==> Arrived(total, puts, i)
    ensures var total := ChunkCount(file, chunkSize);
      HoldsFile(file, total, AfterPuts(total, FRESH, puts)) <==>
        forall i: nat :: i < total ==> LastWhole(total, puts, i)
  {
    var total := ChunkCount(file, chunkSize);
    var s := AfterPuts(total, FRESH, puts);
    SessionHolds(total, puts, 0);
    forall i: nat | i < total
      ensures i in s.receipts <==> Arrived(total, puts, i)
    {
      SessionHolds(total, puts, i);
    }
    assert AllReceived(total, s) <==> forall i: nat :: i < total ==> Arrived(total, puts, i);
    DiskIsFile(file, chunkSize, puts);
  }

  lemma {:induction false} DiskIsFile(file: Bytes, chunkSize: nat, puts: seq<Put>)
    requires Fits(file, chunkSize)
    requires forall p :: p in puts ==> OfClient(file, chunkSize, p)
    ensures var total := ChunkCount(file, chunkSize);
      HoldsFile(file, total, AfterPuts(total, FRESH, puts)) <==>
        forall i: nat :: i < total ==> LastWhole(total, puts, i)
  {
    var total := ChunkCount(file, chunkSize);
    var s := AfterPuts(total, FRESH, puts);
    forall i: nat | i < total
      ensures LastWhole(total, puts, i) <==> i in s.disk && s.disk[i] == ChunkOf(file, chunkSize, i)
      ensures i in s.disk ==> s.disk[i] <= ChunkOf(file, chunkSize, i)
    {
      SessionHolds(total, puts, i);
      if LastPut(total, puts, i).Some? {
        AcknowledgedIsWhole(file, chunkSize, LastPut(total, puts, i).value);
      }
    }
    if OnDisk(total, s) {
      StagedIsFile(file, chunkSize, s);
    }
  }

  lemma {:induction false} StagedIsFile(file: Bytes, chunkSize: nat, s: Session)
    requires Fits(file, chunkSize) && OnDisk(ChunkCount(file, chunkSize), s)
    requires forall i: nat :: i < ChunkCount(file, chunkSize) ==> s.disk[i] <= ChunkOf(file, chunkSize, i)
    ensures HoldsFile(file, ChunkCount(file, chunkSize), s) <==>
      forall i: nat :: i < ChunkCount(file, chunkSize) ==> s.disk[i] == ChunkOf(file, chunkSize, i)
  {
    var total := ChunkCount(file, chunkSize);
    ChunksTile(file, chunkSize, total);
    PrefixesMakeFileOnlyWhole(Staged(total, s), FirstChunks(file, chunkSize, total));
  }

  /** What the documented use comes to: if the last PUT of every index that was sent was
      acknowledged, completion is accepted exactly when all indices were sent, and then
      the worker reads the file, whatever is sent afterwards. */
  lemma {:induction false} CompletedUploadIsTheFile(file: Bytes, chunkSize: nat, puts: seq<Put>, later: seq<Put>)
    requires Fits(file, chunkSize)
    requires forall p :: p in puts ==> OfClient(file, chunkSize, p)
    requires var total := ChunkCount(file, chunkSize);
      forall i: nat :: i < total && Sent(puts, i) ==> LastWhole(total, puts, i)
    ensures var total := ChunkCount(file, chunkSize);
      var s := AfterPuts(total, FRESH, puts);
      && (Completes(total, s) <==> forall i: nat :: i < total ==> Sent(puts, i))
      && (Completes(total, s) ==> HoldsFile(file, total, AfterPuts(total, s.(status := Ready), later)))
  {
    var total := ChunkCount(file, chunkSize);
    var s := AfterPuts(total, FRESH, puts);
    UploadRoundTrip(file, chunkSize, puts);
    forall i: nat | i < total
      ensures Sent(puts, i) ==> LastWhole(total, puts, i) && Arrived(total, puts, i)
      ensures LastWhole(total, puts, i) || Arrived(total, puts, i) ==> Sent(puts, i)
    {
    }
    ClosedToPuts(total, s.(status := Ready), later);
  }

  /** The receipt outlives the bytes: a second PUT of a received chunk that breaks off removes
      the chunk, and one that is cut short replaces it, yet completion is accepted. */
  lemma {:induction false} ReceiptOutlivesBytes(byte: Byte)
    ensures var good := Put(0, Some([[byte]]), false, Some(1));
      var broken := Put(0, Some([[byte]]), true, Some(1));
      var short := Put(0, Some([]), false, Some(1));
      && OfClient([byte], 1, good) && OfClient([byte], 1, broken) && OfClient([byte], 1, short)
      && ChunkCount([byte], 1) == 1
      && Completes(1, AfterPuts(1, FRESH, [good, broken])) && !OnDisk(1, AfterPuts(1, FRESH, [good, broken]))
      && Completes(1, AfterPuts(1, FRESH, [good, short])) && !HoldsFile([byte], 1, AfterPuts(1, FRESH, [good, short]))
  {
    OneByteFile(byte);
    var good := Put(0, Some([[byte]]), false, Some(1));
    TwoPuts(good, Put(0, Some([[byte]]), true, Some(1)));
    var short := Put(0, Some([]), false, Some(1));
    TwoPuts(good, short);
    assert Flatten([[byte]]) == [byte] + Flatten([]);
    var s := AfterPuts(1, FRESH, [good, short]);
    assert s.disk[0] == [];
    if OnDisk(1, s) {
      var staged := Staged(1, s);
      assert Flatten(staged) == staged[0] + Flatten(staged[1..]) == [];
    }
  }

  lemma {:induction false} OneByteFile(byte: Byte)
    ensures ChunkCount([byte], 1) == 1 && ChunkOf([byte], 1, 0) == [byte]
  {
  }

  lemma {:induction false} TwoPuts(p: Put, q: Put)
    ensures AfterPuts(1, FRESH, [p, q]) == AfterPut(1, AfterPut(1, FRESH, p), q)
  {
    var one, two := [p], [p, q];
    assert one[..|one| - 1] == [] && two[..|two| - 1] == one;
    assert AfterPuts(1, FRESH, one) == AfterPut(1, AfterPuts(1, FRESH, []), p);
  }
}
