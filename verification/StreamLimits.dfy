/**
  The writers that keep only the beginning of a stream. Each is compared with "the first bytes of
  everything written so far", kept in the ghost field `seen`.
*/
module StreamLimits {
  import opened Octets
  import opened Options

  class LimitedBuffer {
    ghost const limit: int
    ghost var seen: Bytes
    var data: Bytes
    var remaining: int
    var truncated: bool

    ghost predicate Valid()
      reads this
    {
      && data == Take(seen, limit) && remaining == limit - |data|
      && (truncated <==> data != seen)
    }

    constructor (limit: int)
      ensures Valid() && this.limit == limit && seen == []
    {
      this.limit, seen, data, remaining, truncated := limit, [], [], limit, false;
    }

    method Write(p: Bytes) returns (n: nat)
      requires Valid()
      modifies this
      ensures Valid() && seen == old(seen) + p && n == |p|
    {
      TakeMore(seen, p, limit);
      var accepted := [];
      if remaining > 0 {
        accepted := if |p| > remaining then p[..remaining] else p;
        data := data + accepted;
        remaining := remaining - |accepted|;
      }
      if |accepted| < |p| {
        truncated := true;
      }
      seen := seen + p;
      return |p|;
    }
  }

  /** What the file system does with one write of `n` bytes. */
  datatype Disk = Whole | Partial(written: nat, failed: bool)

  function DiskWrote(disk: Disk, n: nat): nat {
    if disk.Whole? || disk.written > n then n else disk.written
  }

  predicate DiskOk(disk: Disk, n: nat) {
    disk.Whole? || (!disk.failed && disk.written >= n)
  }

  class SpoolCapture {
    ghost const limit: int
    ghost var seen: Bytes
    ghost var broken: bool
    var file: Bytes
    var remaining: int
    var truncated: bool

    /** Until a write fails, the file holds the first bytes of the stream; afterwards, fewer of them. */
    ghost predicate Valid()
      reads this
    {
      && file <= Take(seen, limit) && remaining == limit - |file|
      && (!broken ==> file == Take(seen, limit) && (truncated <==> file != seen))
    }

    constructor (limit: int)
      ensures Valid() && this.limit == limit && seen == [] && !broken
    {
      this.limit, seen, broken, file, remaining, truncated := limit, [], false, [], limit, false;
    }

    method Write(p: Bytes, disk: Disk) returns (n: nat, ok: bool)
      requires Valid() && !broken
      modifies this
      ensures Valid() && broken == !ok && seen == old(seen) + p
      ensures ok ==> n == |p|
      ensures ok <==> old(remaining) <= 0 || DiskOk(disk, |Take(p, old(remaining))|)
    {
      TakeMore(seen, p, limit);
      seen := seen + p;
      if remaining <= 0 {
        truncated := truncated || |p| > 0;
        return |p|, true;
      }
      var accepted := if |p| > remaining then p[..remaining] else p;
      var written := DiskWrote(disk, |accepted|);
      file := file + accepted[..written];
      remaining := remaining - written;
      if !DiskOk(disk, |accepted|) {
        broken := true;
        return written, false;
      }
      if |accepted| < |p| {
        truncated := true;
      }
      return |p|, true;
    }
  }

  class MediaCapture {
    const limit: int
    ghost var seen: Bytes
    var spool: Bytes
    var hashed: Bytes       // what the digest was fed
    var size: nat
    var failed: bool
    var truncated: bool

    ghost predicate Valid()
      reads this
    {
      && hashed <= spool <= Take(seen, limit)
      && (!failed ==> hashed == spool == Take(seen, limit) && size == |seen| && (truncated <==> spool != seen))
    }

    constructor (limit: int)
      ensures Valid() && this.limit == limit && seen == [] && !failed
    {
      this.limit, seen, spool, hashed, size, failed, truncated := limit, [], [], [], 0, false, false;
    }

    /** Never reports an error; a failed write is remembered and ends the capture. */
    method Write(p: Bytes, disk: Disk) returns (n: nat)
      requires Valid()
      modifies this
      ensures Valid() && seen == old(seen) + p && n == |p|
      ensures var n := |Take(p, limit - old(size))|; failed <==> old(failed) || (0 < n && !DiskOk(disk, n))
    {
      TakeMore(seen, p, limit);
      seen := seen + p;
      if failed {
        return |p|;
      }
      var remaining := limit - size;
      size := size + |p|;
      if remaining <= 0 {
        truncated := truncated || |p| > 0;
        return |p|;
      }
      var accepted := p;
      if |accepted| > remaining {
        accepted := accepted[..remaining];
        truncated := true;
      }
      if |accepted| > 0 {
        spool := spool + accepted[..DiskWrote(disk, |accepted|)];
        if !DiskOk(disk, |accepted|) {
          failed := true;
          return |p|;
        }
        hashed := hashed + accepted;
      }
      return |p|;
    }
  }

  // ---- Copying a whole stream, however it is split ----

  /** What is kept of an output: its size, the bytes the digest covered, and the whole content if it
      is small enough to archive. */
  datatype Kept = Kept(size: nat, hashed: Bytes, body: Option<Bytes>)

  predicate BadLimits(archiveLimit: int, fingerprintLimit: int) {
    archiveLimit < 0 || fingerprintLimit <= 0 || archiveLimit > fingerprintLimit
  }

  /** What the two copies below promise about a stream. */
  function KeptOf(stream: Bytes, archiveLimit: int, fingerprintLimit: int): Option<Kept> {
    if BadLimits(archiveLimit, fingerprintLimit) || |stream| > fingerprintLimit then None
    else Some(Kept(|stream|, stream, if |stream| <= archiveLimit then Some(stream) else None))
  }

  /** `head` is what a limit reader has handed on before part `i`. */
  ghost predicate HandedOn(parts: seq<Bytes>, i: nat, head: Bytes, limit: int)
    requires i <= |parts|
  {
    && |head| <= limit + 1
    && if |head| <= limit then Joined(parts) == head + Joined(parts[i..]) else |Joined(parts)| > limit
  }

  lemma NothingHandedOn(parts: seq<Bytes>, limit: int)
    requires limit >= 0
    ensures HandedOn(parts, 0, [], limit)
  {
    assert parts[0..] == parts && [] + Joined(parts) == Joined(parts);
  }

  lemma HandOn(parts: seq<Bytes>, i: nat, head: Bytes, limit: int)
    requires i < |parts| && HandedOn(parts, i, head, limit)
    ensures HandedOn(parts, i + 1, head + Take(parts[i], limit + 1 - |head|), limit)
  {
    JoinedTail(parts, i);
    var p := Take(parts[i], limit + 1 - |head|);
    if |head| <= limit {
      assert head + (parts[i] + Joined(parts[i + 1..])) == head + parts[i] + Joined(parts[i + 1..]);
    }
  }

  lemma AllHandedOn(parts: seq<Bytes>, head: Bytes, limit: int)
    requires HandedOn(parts, |parts|, head, limit)
    ensures if |head| <= limit then Joined(parts) == head else |Joined(parts)| > limit
  {
    assert parts[|parts|..] == [] && head + [] == head;
  }

  lemma JoinedTail(parts: seq<Bytes>, i: nat)
    requires i < |parts|
    ensures Joined(parts[i..]) == parts[i] + Joined(parts[i + 1..])
  {
    assert parts[i..][1..] == parts[i + 1..];
  }

  /** readGenerationOutputArchive: the stream arrives in any parts, through a limit reader. */
  method ReadArchive(parts: seq<Bytes>, archiveLimit: int, fingerprintLimit: int) returns (kept: Option<Kept>)
    ensures kept == KeptOf(Joined(parts), archiveLimit, fingerprintLimit)
  {
    if BadLimits(archiveLimit, fingerprintLimit) {
      return None;
    }
    var capture := new LimitedBuffer(archiveLimit);
    var hashed: Bytes := [];
    NothingHandedOn(parts, fingerprintLimit);
    hide Joined, HandedOn;
    for i := 0 to |parts|
      invariant fresh(capture) && capture.Valid() && capture.limit == archiveLimit
      invariant capture.seen == hashed && HandedOn(parts, i, hashed, fingerprintLimit)
    {
      HandOn(parts, i, hashed, fingerprintLimit);
      var p := Take(parts[i], fingerprintLimit + 1 - |hashed|);
      hashed := hashed + p;
      var _ := capture.Write(p);
    }
    AllHandedOn(parts, hashed, fingerprintLimit);
    if |hashed| > fingerprintLimit {
      return None;
    }
    return Some(Kept(|hashed|, hashed, if capture.truncated then None else Some(capture.data)));
  }

  /** spoolGenerationOutputArchive: the same through a file. A failing disk makes it fail. */
  method SpoolArchive(parts: seq<Bytes>, disk: seq<Disk>, archiveLimit: int, fingerprintLimit: int)
    returns (kept: Option<Kept>)
    requires |disk| == |parts|
    ensures kept == KeptOf(Joined(parts), archiveLimit, fingerprintLimit) || kept == None
    ensures (forall i :: 0 <= i < |parts| ==> DiskOk(disk[i], |parts[i]|)) ==>
              kept == KeptOf(Joined(parts), archiveLimit, fingerprintLimit)
  {
    if BadLimits(archiveLimit, fingerprintLimit) {
      return None;
    }
    var capture := new SpoolCapture(archiveLimit);
    var hashed: Bytes := [];
    NothingHandedOn(parts, fingerprintLimit);
    hide Joined, HandedOn;
    for i := 0 to |parts|
      invariant fresh(capture) && capture.Valid() && capture.limit == archiveLimit && !capture.broken
      invariant capture.seen == hashed && HandedOn(parts, i, hashed, fingerprintLimit)
    {
      HandOn(parts, i, hashed, fingerprintLimit);
      var p := Take(parts[i], fingerprintLimit + 1 - |hashed|);
      hashed := hashed + p;
      var _, ok := capture.Write(p, disk[i]);
      if !ok {
        return None;
      }
    }
    AllHandedOn(parts, hashed, fingerprintLimit);
    if |hashed| > fingerprintLimit {
      return None;
    }
    return Some(Kept(|hashed|, hashed, if capture.truncated then None else Some(capture.file)));
  }

  /** A proxied response captured part by part: what is kept, what was hashed and the truncation
      mark depend on the stream only, not on how it was split. */
  method CaptureMedia(parts: seq<Bytes>, limit: int) returns (spool: Bytes, hashed: Bytes, truncated: bool)
    ensures spool == hashed == Take(Joined(parts), limit)
    ensures truncated <==> |Joined(parts)| > |Take(Joined(parts), limit)|
  {
    var capture := new MediaCapture(limit);
    assert parts[0..] == parts && capture.seen + Joined(parts) == Joined(parts);
    for i := 0 to |parts|
      invariant fresh(capture) && capture.Valid() && capture.limit == limit && !capture.failed
      invariant capture.seen + Joined(parts[i..]) == Joined(parts)
    {
      JoinedTail(parts, i);
      var _ := capture.Write(parts[i], Whole);
    }
    assert capture.seen == Joined(parts);
    return capture.spool, capture.hashed, capture.truncated;
  }
}
