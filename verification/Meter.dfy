/** meterStream of stream.ts: bytes pass through, progress is reported now and then. */
module Meter {
  import opened Options
  import opened Chunks

  class MeterStream {
    const minIntervalMs: int
    const chunkThreshold: int
    var source: seq<Bytes>
    var total: nat
    var sinceTick: nat
    var lastEmit: int
    var reports: seq<nat>

    constructor (source: seq<Bytes>, minIntervalMs: int, chunkThreshold: int)
      ensures this.source == source && this.minIntervalMs == minIntervalMs && this.chunkThreshold == chunkThreshold
      ensures total == 0 && sinceTick == 0 && lastEmit == 0 && reports == []
    {
      this.source, this.minIntervalMs, this.chunkThreshold := source, minIntervalMs, chunkThreshold;
      total, sinceTick, lastEmit, reports := 0, 0, 0, [];
    }

    /** pull at time `now`; None closes the stream. */
    method Pull(now: int) returns (value: Option<Bytes>)
      modifies this
      ensures old(source) == [] ==>
        && value == None && source == [] && reports == old(reports) + [old(total)]
        && total == old(total) && sinceTick == old(sinceTick) && lastEmit == old(lastEmit)
      ensures old(source) != [] ==>
        var n := |old(source)[0]|;
        && value == Some(old(source)[0]) && source == old(source)[1..] && total == old(total) + n
        && if old(sinceTick) + n >= chunkThreshold || now - old(lastEmit) >= minIntervalMs
           then reports == old(reports) + [total] && sinceTick == 0 && lastEmit == now
           else reports == old(reports) && sinceTick == old(sinceTick) + n && lastEmit == old(lastEmit)
    {
      if source == [] {
        reports := reports + [total];
        return None;
      }
      value := Some(source[0]);
      source := source[1..];
      total := total + |value.value|;
      sinceTick := sinceTick + |value.value|;
      if sinceTick >= chunkThreshold || now - lastEmit >= minIntervalMs {
        lastEmit := now;
        sinceTick := 0;
        reports := reports + [total];
      }
    }
  }

  predicate NonDecreasing(s: seq<int>) {
    forall i, j :: 0 <= i < j < |s| ==> s[i] <= s[j]
  }

  /** Reports so far: never going back, none beyond the bytes passed on. */
  predicate Growing(reports: seq<nat>, total: nat) {
    && (forall i, j :: 0 <= i < j < |reports| ==> reports[i] <= reports[j])
    && (forall i :: 0 <= i < |reports| ==> reports[i] <= total)
  }

  /** `bytes` reports are due to the byte threshold, `ticks` to the interval, and one to the start. */
  ghost predicate Throttled(m: MeterStream, count: nat, start: int, bytes: nat, ticks: nat)
    reads m
  {
    && count <= 1 + bytes + ticks
    && bytes * m.chunkThreshold + m.sinceTick <= m.total
    && (count == 0 ==> bytes == 0 && ticks == 0)
    && (count > 0 ==> ticks * m.minIntervalMs <= m.lastEmit - start)
  }

  lemma {:induction false} OneMore(a: nat, b: int)
    ensures (a + 1) * b == a * b + b
  {
  }

  lemma {:induction false} AtMostQuotient(a: nat, b: int, n: int)
    requires b > 0 && a * b <= n
    ensures a <= n / b
  {
    assert n == b * (n / b) + n % b;
    if a > n / b {
      Larger(a, n / b + 1, b);
      OneMore(if n / b >= 0 then n / b else 0, b);
    }
  }

  lemma {:induction false} Larger(a: int, c: int, b: int)
    requires a >= c && b > 0
    ensures a * b >= c * b
  {
  }

  /** The consumer pulls the stream dry, chunk k at time clock[k], the end some time later. The
      chunks come out unchanged; the reports grow and end with the exact total; and under a clock
      that does not go back there are at most two of them, and one for every chunkThreshold
      bytes, and one for every minIntervalMs. */
  method Drain(chunks: seq<Bytes>, clock: seq<int>, end: int, minIntervalMs: int, chunkThreshold: int)
      returns (out: seq<Bytes>, reports: seq<nat>)
    requires |clock| == |chunks|
    ensures out == chunks
    ensures Growing(reports, |Flatten(chunks)|)
    ensures reports != [] && reports[|reports| - 1] == |Flatten(chunks)|
    ensures minIntervalMs > 0 && chunkThreshold > 0 && NonDecreasing(clock) ==>
      |reports| <= 2 + |Flatten(chunks)| / chunkThreshold
                   + if clock == [] then 0 else (clock[|clock| - 1] - clock[0]) / minIntervalMs
  {
    var m := new MeterStream(chunks, minIntervalMs, chunkThreshold);
    out := [];
    ghost var regular := minIntervalMs > 0 && chunkThreshold > 0 && NonDecreasing(clock);
    ghost var bytes, ticks := 0, 0;
    for k := 0 to |chunks|
      invariant fresh(m) && m.minIntervalMs == minIntervalMs && m.chunkThreshold == chunkThreshold
      invariant m.source == chunks[k..] && out == chunks[..k]
      invariant m.total == |Flatten(chunks[..k])|
      invariant Growing(m.reports, m.total)
      invariant regular && k > 0 ==>
        Throttled(m, |m.reports|, clock[0], bytes, ticks) && (m.reports != [] ==> m.lastEmit <= clock[k - 1])
      invariant k == 0 ==> m.reports == [] && m.sinceTick == 0 && bytes == 0 && ticks == 0
    {
      FlattenSplitsAt(chunks, k);
      ghost var since, last, count := m.sinceTick, m.lastEmit, |m.reports|;
      var value := m.Pull(clock[k]);
      out := out + [value.value];
      if regular && |m.reports| > count {
        if since + |chunks[k]| >= chunkThreshold {
          OneMore(bytes, chunkThreshold);
          bytes := bytes + 1;
        } else if count > 0 {
          OneMore(ticks, minIntervalMs);
          ticks := ticks + 1;
        }
      }
    }
    assert chunks[..|chunks|] == chunks && chunks[|chunks|..] == [];
    ghost var count := |m.reports|;
    var _ := m.Pull(end);
    reports := m.reports;
    if regular {
      FewReports(count, bytes, ticks, |Flatten(chunks)|, chunkThreshold,
                 if clock == [] then 0 else clock[|clock| - 1] - clock[0], minIntervalMs);
    }
  }

  lemma {:induction false} FewReports(count: nat, bytes: nat, ticks: nat, total: nat, chunkThreshold: int,
                                      elapsed: int, minIntervalMs: int)
    requires chunkThreshold > 0 && minIntervalMs > 0 && elapsed >= 0
    requires count <= 1 + bytes + ticks && bytes * chunkThreshold <= total && ticks * minIntervalMs <= elapsed
    ensures count <= 1 + total / chunkThreshold + elapsed / minIntervalMs
  {
    AtMostQuotient(bytes, chunkThreshold, total);
    AtMostQuotient(ticks, minIntervalMs, elapsed);
  }

  // ---------------------------------------------------------------------
  // readStreamToBytes.
  // ---------------------------------------------------------------------

  /** One `out.set(c, off)`. */
  method SetAt(out: array<Byte>, c: Bytes, off: nat)
    requires off + |c| <= out.Length
    modifies out
    ensures out[..off] == old(out[..off]) && out[off..off + |c|] == c
  {
    for k := 0 to |c|
      invariant out[..off] == old(out[..off]) && out[off..off + k] == c[..k]
    {
      out[off + k] := c[k];
    }
  }

  method ReadStreamToBytes(source: seq<Bytes>) returns (out: array<Byte>)
    ensures fresh(out) && out[..] == Flatten(source)
  {
    var total := 0;
    assert source[..0] == [];
    for i := 0 to |source|
      invariant total == |Flatten(source[..i])|
    {
      FlattenSplitsAt(source, i);
      total := total + |source[i]|;
    }
    assert source[..|source|] == source;
    out := new Byte[total];
    var off := 0;
    for i := 0 to |source|
      invariant fresh(out) && out.Length == total
      invariant 0 <= off <= total && out[..off] == Flatten(source[..i])
    {
      FlattenSplitsAt(source, i);
      FlattenGrows(source, i);
      SetAt(out, source[i], off);
      assert out[..off + |source[i]|] == out[..off] + out[off..off + |source[i]|];
      off := off + |source[i]|;
    }
    assert out[..] == out[..off];
  }

  lemma {:induction false} FlattenGrows(source: seq<Bytes>, i: nat)
    requires i < |source|
    ensures |Flatten(source[..i + 1])| <= |Flatten(source)|
    decreases |source| - i
  {
    if i + 1 == |source| {
      assert source[..i + 1] == source;
    } else {
      FlattenGrows(source, i + 1);
      FlattenSplitsAt(source, i + 1);
    }
  }
}
