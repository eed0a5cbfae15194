/**
  Archived media, encrypted chunk by chunk. The cipher is ideal: it opens what it sealed, and no
  row in the database opens that was not sealed. Rows come back as they may be.
*/
module MediaChunks {
  import opened ArchiveResults
  import opened Octets
  import opened Options

  // ---- The tag of a chunk ----

  function Decimal(n: nat): string {
    if n < 10 then [Digit(n)] else Decimal(n / 10) + [Digit(n % 10)]
  }

  function Digit(d: nat): char
    requires d < 10
  {
    "0123456789"[d]
  }

  const TAG_PREFIX := "ai-access-gateway:content-media:chunk:v1:"

  /** contentMediaChunkAAD */
  function Tag(media: nat, index: nat): string {
    TAG_PREFIX + Decimal(media) + ":" + Decimal(index)
  }

  lemma {:induction false} DecimalReadsBack(m: nat, n: nat)
    requires Decimal(m) == Decimal(n)
    ensures m == n
  {
    var a, b := Decimal(m), Decimal(n);
    if m >= 10 && n >= 10 {
      assert a[|a| - 1] == Digit(m % 10) && b[|b| - 1] == Digit(n % 10);
      assert a[..|a| - 1] == Decimal(m / 10) && b[..|b| - 1] == Decimal(n / 10);
      DecimalReadsBack(m / 10, n / 10);
    } else {
      DecimalLength(m);
      DecimalLength(n);
      assert a[0] == b[0];
    }
  }

  lemma {:induction false} DecimalLength(n: nat)
    ensures |Decimal(n)| >= 1 && (n >= 10 ==> |Decimal(n)| >= 2)
    ensures ':' !in Decimal(n)
  {
    if n >= 10 { DecimalLength(n / 10); }
  }

  lemma {:induction false} SplitAtColon(a: string, b: string, x: string, y: string)
    requires ':' !in a && ':' !in b && a + ":" + x == b + ":" + y
    ensures a == b && x == y
  {
    var s, t := a + ":" + x, b + ":" + y;
    assert s[0] == (if a == "" then ':' else a[0]) && s[1..] == (if a == "" then x else a[1..] + ":" + x);
    assert t[0] == (if b == "" then ':' else b[0]) && t[1..] == (if b == "" then y else b[1..] + ":" + y);
    if a != "" && b != "" {
      SplitAtColon(a[1..], b[1..], x, y);
    }
  }

  /** A tag belongs to one chunk of one medium. */
  lemma TagIdentifies(media: nat, index: nat, media': nat, index': nat)
    requires Tag(media, index) == Tag(media', index')
    ensures media == media' && index == index'
  {
    var n := |TAG_PREFIX|;
    assert Tag(media, index)[n..] == Decimal(media) + ":" + Decimal(index);
    assert Tag(media', index')[n..] == Decimal(media') + ":" + Decimal(index');
    DecimalLength(media);
    DecimalLength(media');
    SplitAtColon(Decimal(media), Decimal(media'), Decimal(index), Decimal(index'));
    DecimalReadsBack(media, media');
    DecimalReadsBack(index, index');
  }

  // ---- The cipher ----

  datatype Aead = Aead(seal: (Bytes, Bytes, string) -> Bytes, open: (Bytes, Bytes, string) -> Option<Bytes>,
                       nonceSize: nat, overhead: nat)

  /** Sealing adds the overhead, and what was sealed opens under the same nonce and tag. */
  ghost predicate Correct(c: Aead) {
    forall nonce, plain, tag ::
      && |c.seal(nonce, plain, tag)| == |plain| + c.overhead
      && c.open(nonce, c.seal(nonce, plain, tag), tag) == Some(plain)
  }

  function Encrypted(c: Aead, nonce: Bytes, plain: Bytes, tag: string): Bytes {
    nonce + c.seal(nonce, plain, tag)
  }

  function Decrypted(c: Aead, payload: Bytes, tag: string): Option<Bytes> {
    if |payload| < c.nonceSize then None else c.open(payload[..c.nonceSize], payload[c.nonceSize..], tag)
  }

  lemma Opens(c: Aead, nonce: Bytes, plain: Bytes, tag: string)
    requires Correct(c) && |nonce| == c.nonceSize
    ensures Decrypted(c, Encrypted(c, nonce, plain, tag), tag) == Some(plain)
  {
    var payload := Encrypted(c, nonce, plain, tag);
    assert payload[..c.nonceSize] == nonce && payload[c.nonceSize..] == c.seal(nonce, plain, tag);
  }

  lemma EncryptedLength(c: Aead, nonce: Bytes, plain: Bytes, tag: string)
    requires Correct(c) && |nonce| == c.nonceSize
    ensures |Encrypted(c, nonce, plain, tag)| == c.nonceSize + |plain| + c.overhead
  {
  }

  method Put(a: array<Byte>, at: nat, s: Bytes)
    requires at + |s| <= a.Length
    modifies a
    ensures a[..at] == old(a[..at]) && a[at..at + |s|] == s
  {
    forall i | 0 <= i < |s| { a[at + i] := s[i]; }
  }

  method Clear(a: array<Byte>, n: nat)
    requires n <= a.Length
    modifies a
    ensures a[..n] == seq(n, _ => 0) && a[n..] == old(a[n..])
  {
    forall i | 0 <= i < n { a[i] := 0; }
  }

  /** EncryptBytesWithAADInto: reuses the destination if it is large enough. */
  method EncryptInto(c: Aead, destination: array<Byte>, nonce: Bytes, plain: Bytes, tag: string)
    returns (out: array<Byte>, n: nat)
    requires Correct(c) && |nonce| == c.nonceSize
    modifies destination
    ensures out == destination || fresh(out)
    ensures n <= out.Length && out[..n] == Encrypted(c, nonce, plain, tag)
  {
    var required := c.nonceSize + |plain| + c.overhead;
    if destination.Length < required {
      out := new Byte[required];
    } else {
      out := destination;
    }
    Put(out, 0, nonce);
    assert out[..|nonce|] == nonce;
    Put(out, |nonce|, c.seal(nonce, plain, tag));
    n := required;
    assert out[..n] == out[..|nonce|] + out[|nonce|..|nonce| + |c.seal(nonce, plain, tag)|];
  }

  /** DecryptBytesWithAADInto: appends to the emptied destination, or to a larger one. */
  method DecryptInto(c: Aead, destination: array<Byte>, payload: Bytes, tag: string)
    returns (ok: bool, out: array<Byte>, n: nat)
    modifies destination
    ensures out == destination || fresh(out)
    ensures n <= out.Length && ok == Decrypted(c, payload, tag).Some?
    ensures ok ==> out[..n] == Decrypted(c, payload, tag).value
  {
    if |payload| < c.nonceSize {
      return false, destination, 0;
    }
    var plain := c.open(payload[..c.nonceSize], payload[c.nonceSize..], tag);
    if plain.None? {
      return false, destination, 0;
    }
    if destination.Length < |plain.value| {
      out := new Byte[|plain.value|];
    } else {
      out := destination;
    }
    Put(out, 0, plain.value);
    return true, out, |plain.value|;
  }

  // ---- Cutting a file ----

  function Cut(file: Bytes, size: nat): (chunks: seq<Bytes>)
    requires size > 0
    decreases |file|
  {
    if file == [] then []
    else if |file| <= size then [file]
    else [file[..size]] + Cut(file[size..], size)
  }

  lemma {:induction false} CutJoins(file: Bytes, size: nat)
    requires size > 0
    ensures Joined(Cut(file, size)) == file
    decreases |file|
  {
    if |file| > size {
      CutJoins(file[size..], size);
      assert file == file[..size] + file[size..];
      assert Cut(file, size)[1..] == Cut(file[size..], size);
    } else if file != [] {
      assert [file][1..] == [];
      assert file + [] == file;
    }
  }

  /** A stored chunk. */
  datatype Chunk = Chunk(index: int, payload: Bytes, plainSize: int)

  /** The rows written for these chunks, starting at `index`. */
  function Sealed(c: Aead, nonces: nat -> Bytes, media: nat, index: nat, chunks: seq<Bytes>): seq<Chunk>
    decreases |chunks|
  {
    if chunks == [] then []
    else
      [Chunk(index, Encrypted(c, nonces(index), chunks[0], Tag(media, index)), |chunks[0]|)]
      + Sealed(c, nonces, media, index + 1, chunks[1..])
  }

  // ---- Writing ----

  class Reader {
    var data: Bytes

    constructor (data: Bytes)
      ensures this.data == data
    {
      this.data := data;
    }

    /** io.ReadFull into the front of the buffer. */
    method ReadFull(buffer: array<Byte>, n: nat) returns (ok: bool)
      requires n <= buffer.Length
      modifies this, buffer
      ensures ok == (n <= |old(data)|)
      ensures ok ==> buffer[..n] == old(data)[..n] && data == old(data)[n..]
    {
      if |data| < n {
        Put(buffer, 0, data);
        data := [];
        return false;
      }
      Put(buffer, 0, data[..n]);
      data := data[n..];
      return true;
    }
  }

  /** The store's side of one archive, inside one transaction. */
  class ChunkWriter {
    const maxChunk: nat
    const expected: nat
    var rows: seq<Chunk>
    var written: nat

    constructor (maxChunk: nat, expected: nat)
      ensures this.maxChunk == maxChunk && this.expected == expected && rows == [] && written == 0
    {
      this.maxChunk, this.expected, rows, written := maxChunk, expected, [], 0;
    }

    method WriteChunk(index: nat, payload: Bytes, plainSize: nat) returns (ok: bool)
      modifies this
      ensures ok == (index == |old(rows)| && 0 < plainSize <= maxChunk && payload != [])
      ensures rows == if ok then old(rows) + [Chunk(index, payload, plainSize)] else old(rows)
      ensures written == if ok then old(written) + plainSize else old(written)
    {
      if index != |rows| || plainSize == 0 || plainSize > maxChunk || payload == [] {
        return false;
      }
      rows, written := rows + [Chunk(index, payload, plainSize)], written + plainSize;
      return true;
    }

    method Commit() returns (committed: Option<seq<Chunk>>)
      ensures committed == if rows != [] && written == expected then Some(rows) else None
    {
      return if rows == [] || written != expected then None else Some(rows);
    }
  }

  /** One turn of the write loop: read, digest, seal into the reused buffer, store, wipe. */
  method WriteNext(c: Aead, nonce: Bytes, media: nat, reader: Reader, writer: ChunkWriter,
                   buffer: array<Byte>, reused: array<Byte>, n: nat)
    returns (ok: bool, chunk: Bytes, encrypted: array<Byte>)
    requires Correct(c) && |nonce| == c.nonceSize > 0
    requires 0 < n <= buffer.Length == writer.maxChunk && reused != buffer
    modifies reader, writer, buffer, reused
    ensures encrypted == reused || fresh(encrypted)
    ensures ok == (n <= |old(reader.data)|)
    ensures ok ==>
              && chunk == old(reader.data)[..n] && reader.data == old(reader.data)[n..]
              && writer.written == old(writer.written) + n
              && var index := |old(writer.rows)|;
                 writer.rows == old(writer.rows) + [Chunk(index, Encrypted(c, nonce, chunk, Tag(media, index)), n)]
  {
    ok := reader.ReadFull(buffer, n);
    if !ok {
      return false, [], reused;
    }
    chunk := buffer[..n];
    var index, m := |writer.rows|, 0;
    encrypted, m := EncryptInto(c, reused, nonce, chunk, Tag(media, index));
    EncryptedLength(c, nonce, chunk, Tag(media, index));
    hide Encrypted, Tag, Correct;
    ok := writer.WriteChunk(index, encrypted[..m], n);
    Clear(encrypted, m);
    Clear(buffer, n);
  }

  /** The write loop of persistComfyMediaReader. It stores exactly the readers of the declared length
      whose content has the declared hash, if one was declared. */
  method Persist(c: Aead, nonces: nat -> Bytes, hash: Bytes -> nat, media: nat, chunkSize: nat,
                 reader: Reader, size: nat, contentHash: Option<nat>)
    returns (stored: Option<seq<Chunk>>)
    requires Correct(c) && c.nonceSize > 0 && forall i :: |nonces(i)| == c.nonceSize
    requires chunkSize > 0 && size > 0
    modifies reader
    ensures stored.Some? <==>
              |old(reader.data)| == size && (contentHash.Some? ==> contentHash.value == hash(old(reader.data)))
    ensures stored.Some? ==> stored.value == Sealed(c, nonces, media, 0, Cut(old(reader.data), chunkSize))
  {
    hide Sealed, Cut, Encrypted, Tag, Correct;
    var writer := new ChunkWriter(chunkSize, size);
    var buffer := new Byte[chunkSize];
    var encrypted := new Byte[0];
    var digested: Bytes := [];
    var remaining := size;
    ghost var file := old(reader.data);
    while remaining > 0
      invariant fresh(writer) && fresh(buffer) && fresh(encrypted) && encrypted != buffer
      invariant writer.maxChunk == chunkSize == buffer.Length && writer.expected == size
      invariant writer.written == size - remaining && remaining <= size
      invariant digested + reader.data == file && |digested| == size - remaining
      invariant remaining < size ==> writer.rows != []
      invariant |file| == size ==> writer.rows + Sealed(c, nonces, media, |writer.rows|, Cut(reader.data, chunkSize))
                                   == Sealed(c, nonces, media, 0, Cut(file, chunkSize))
      decreases remaining
    {
      var n := if remaining < buffer.Length then remaining else buffer.Length;
      ghost var before, rows := reader.data, writer.rows;
      var ok, chunk;
      ok, chunk, encrypted := WriteNext(c, nonces(|writer.rows|), media, reader, writer, buffer, encrypted, n);
      if !ok {
        return None;
      }
      assert before == chunk + reader.data;
      if |file| == size {
        NextChunk(c, nonces, media, rows, before, chunkSize, n);
      }
      digested := digested + chunk;
      remaining := remaining - n;
    }
    if reader.data != [] {
      return None;
    }
    assert digested == digested + reader.data;
    if contentHash.Some? && contentHash.value != hash(digested) {
      return None;
    }
    stored := writer.Commit();
    WroteAll(c, nonces, media, writer.rows, chunkSize);
  }

  lemma WroteAll(c: Aead, nonces: nat -> Bytes, media: nat, rows: seq<Chunk>, size: nat)
    requires size > 0
    ensures rows + Sealed(c, nonces, media, |rows|, Cut([], size)) == rows
  {
  }

  /** The next row is the seal of as much as fits into one chunk. */
  lemma NextChunk(c: Aead, nonces: nat -> Bytes, media: nat, rows: seq<Chunk>, rest: Bytes, size: nat, n: nat)
    requires size > 0 && rest != [] && n == if |rest| < size then |rest| else size
    ensures var index := |rows|;
            rows + Sealed(c, nonces, media, index, Cut(rest, size))
            == rows + [Chunk(index, Encrypted(c, nonces(index), rest[..n], Tag(media, index)), n)]
               + Sealed(c, nonces, media, index + 1, Cut(rest[n..], size))
  {
    var index := |rows|;
    if |rest| <= size {
      assert rest[..n] == rest && rest[n..] == [];
    }
    var more := Cut(rest[n..], size);
    assert Cut(rest, size) == [rest[..n]] + more;
    assert Cut(rest, size)[1..] == more;
    var row := Chunk(index, Encrypted(c, nonces(index), rest[..n], Tag(media, index)), n);
    assert Sealed(c, nonces, media, index, Cut(rest, size)) == [row] + Sealed(c, nonces, media, index + 1, more);
    hide Sealed, Cut, Encrypted, Tag;
  }

  // ---- Whether an output is stored at all ----

  const MAX_ARCHIVED: nat := 536870912
  const MAX_PER_USER: nat := 536870912

  /** What opening the medium's row comes to; a row of the same output may be there already. */
  datatype Slot = BeginFailed | Conflict | Opened(media: nat)

  predicate Received(status: int, size: int) {
    200 <= status < 300 && size > 0
  }

  /** When storing a medium of this content comes to which result. */
  ghost predicate ComesTo(result: ArchiveResult, content: Bytes, hash: Bytes -> nat, status: int, size: int,
                          contentHash: Option<nat>, used: Option<nat>, hasEvent: bool, memory: bool, slot: Slot) {
    var limit := 512 * 1024 * 1024;
    var fits := Received(status, size) && size <= limit && used.Some?;
    var admitted := fits && used.value + size <= limit;
    && (result == Skipped(NothingReceived) <==> !Received(status, size))
    && (result == Skipped(TooLarge) <==> Received(status, size) && size > limit)
    && (result == Skipped(QuotaExceeded) <==> fits && !admitted)
    && (result == Skipped(NoEvent) <==> admitted && !hasEvent)
    && (result == Skipped(AlreadyStored) <==> admitted && hasEvent && memory && slot.Conflict?)
    && (result == Stored <==>
          && admitted && hasEvent && memory && slot.Opened?
          && |content| == size && (contentHash.Some? ==> contentHash.value == hash(content)))
    && (result.Skipped? ==> !result.reason.NoCipher? && !result.reason.OverArchiveLimit?)
  }

  /** persistComfyMediaReader. `used` is what the user's media take up, if it could be read; `hasEvent`
      whether a content event was found to attach the medium to. */
  method PersistMedia(c: Aead, nonces: nat -> Bytes, hash: Bytes -> nat, chunkSize: nat, reader: Reader,
                      status: int, size: int, contentHash: Option<nat>,
                      used: Option<nat>, hasEvent: bool, memory: bool, slot: Slot)
    returns (result: ArchiveResult, rows: Option<seq<Chunk>>)
    requires Correct(c) && c.nonceSize > 0 && (forall i :: |nonces(i)| == c.nonceSize) && chunkSize > 0
    modifies reader
    ensures ComesTo(result, old(reader.data), hash, status, size, contentHash, used, hasEvent, memory, slot)
    ensures rows.Some? <==> result == Stored
    ensures rows.Some? ==> rows.value == Sealed(c, nonces, slot.media, 0, Cut(old(reader.data), chunkSize))
  {
    hide Correct, Sealed, Cut;
    rows := None;
    if size <= 0 || status < 200 || status >= 300 {
      return Skipped(NothingReceived), None;
    }
    if size > MAX_ARCHIVED {
      return Skipped(TooLarge), None;
    }
    if used.None? {
      return ArchiveFailed, None;
    }
    if used.value + size > MAX_PER_USER {
      return Skipped(QuotaExceeded), None;
    }
    if !hasEvent {
      return Skipped(NoEvent), None;
    }
    if !memory || slot.BeginFailed? {
      return ArchiveFailed, None;
    }
    if slot.Conflict? {
      return Skipped(AlreadyStored), None;
    }
    rows := Persist(c, nonces, hash, slot.media, chunkSize, reader, size, contentHash);
    result := if rows.Some? then Stored else ArchiveFailed;
  }

  /** What fetching an output yields: an error, an output over the archive limit, whose bytes are not
      kept, or a file. */
  datatype Fetched = FetchFailed | NoFile | File(status: int, size: int, contentHash: nat)

  /** archiveGenerationOutput: an output that is not stored is an error, or was skipped for a reason. */
  method ArchiveOutput(c: Aead, nonces: nat -> Bytes, hash: Bytes -> nat, chunkSize: nat, reader: Reader,
                       hasCipher: bool, fetched: Fetched, used: Option<nat>, hasEvent: bool, memory: bool, slot: Slot)
    returns (result: ArchiveResult, rows: Option<seq<Chunk>>)
    requires Correct(c) && c.nonceSize > 0 && (forall i :: |nonces(i)| == c.nonceSize) && chunkSize > 0
    modifies reader
    ensures result == Skipped(NoCipher) <==> !fetched.FetchFailed? && !hasCipher
    ensures result == Skipped(OverArchiveLimit) <==> fetched.NoFile? && hasCipher
    ensures fetched.FetchFailed? ==> result.ArchiveFailed?
    ensures fetched.File? && hasCipher ==>
              ComesTo(result, old(reader.data), hash, fetched.status, fetched.size, Some(fetched.contentHash),
                      used, hasEvent, memory, slot)
    ensures rows.Some? <==> result == Stored
    ensures rows.Some? ==>
              && fetched.File? && slot.Opened?
              && rows.value == Sealed(c, nonces, slot.media, 0, Cut(old(reader.data), chunkSize))
  {
    hide Correct, Sealed, Cut;
    if fetched.FetchFailed? {
      return ArchiveFailed, None;
    }
    if !hasCipher {
      return Skipped(NoCipher), None;
    }
    if fetched.NoFile? {
      return Skipped(OverArchiveLimit), None;
    }
    result, rows := PersistMedia(c, nonces, hash, chunkSize, reader, fetched.status, fetched.size,
                                 Some(fetched.contentHash), used, hasEvent, memory, slot);
  }

  // ---- Reading ----

  function Prepend(front: Bytes, rest: Option<Bytes>): Option<Bytes> {
    if rest.None? then None else Some(front + rest.value)
  }

  lemma PrependTwice(a: Bytes, b: Bytes, rest: Option<Bytes>)
    ensures Prepend(a, Prepend(b, rest)) == Prepend(a + b, rest)
  {
    if rest.Some? {
      assert a + (b + rest.value) == a + b + rest.value;
    }
  }

  lemma PrependNothing(rest: Option<Bytes>)
    ensures Prepend([], rest) == rest
  {
    if rest.Some? {
      assert [] + rest.value == rest.value;
    }
  }

  lemma PrependNone(a: Bytes)
    ensures Prepend(a, None) == None
  {
  }

  lemma PrependAll(a: Bytes)
    ensures Prepend(a, Some([])) == Some(a)
  {
    assert a + [] == a;
  }

  /** What reading rows in order yields: each must have the expected index, open under its own tag
      and have the recorded size. */
  function Opened(c: Aead, media: nat, index: nat, rows: seq<Chunk>): Option<Bytes>
    decreases |rows|
  {
    if rows == [] then Some([])
    else
      var plain := Decrypted(c, rows[0].payload, Tag(media, index));
      if rows[0].index != index || plain.None? || |plain.value| != rows[0].plainSize then None
      else Prepend(plain.value, Opened(c, media, index + 1, rows[1..]))
  }

  function Materialized(c: Aead, media: nat, rows: seq<Chunk>, size: nat): Option<Bytes> {
    var all := Opened(c, media, 0, rows);
    if rows == [] || all.None? || (size > 0 && |all.value| != size) then None else all
  }

  /** The chunked branch of materializeContentMedia over ForEachContentMediaChunk. */
  method Materialize(c: Aead, media: nat, rows: seq<Chunk>, size: nat) returns (file: Option<Bytes>)
    ensures file == Materialized(c, media, rows, size)
  {
    hide Decrypted, Tag, Prepend;
    var written: Bytes := [];
    PrependNothing(Opened(c, media, 0, rows));
    var plain := new Byte[0];
    assert rows[0..] == rows;
    for index := 0 to |rows|
      invariant fresh(plain)
      invariant Opened(c, media, 0, rows) == Prepend(written, Opened(c, media, index, rows[index..]))
    {
      var row := rows[index];
      assert rows[index..][1..] == rows[index + 1..];
      PrependNone(written);
      if row.index != index {
        return None;
      }
      var ok, n;
      ok, plain, n := DecryptInto(c, plain, row.payload, Tag(media, index));
      if !ok {
        return None;
      }
      if n != row.plainSize {
        Clear(plain, n);
        return None;
      }
      PrependTwice(written, plain[..n], Opened(c, media, index + 1, rows[index + 1..]));
      written := written + plain[..n];
      Clear(plain, n);
    }
    PrependAll(written);
    if rows == [] {
      return None;
    }
    if size > 0 && |written| != size {
      return None;
    }
    return Some(written);
  }

  /** A read succeeds exactly when there are rows, every row is at its place, opens under the tag of
      that place and has the recorded size, and together they have the declared size, if there is one. */
  lemma ReadsExactly(c: Aead, media: nat, rows: seq<Chunk>, size: nat)
    ensures Materialized(c, media, rows, size).Some? <==>
              && rows != []
              && (forall i :: 0 <= i < |rows| ==> Sound(c, media, i, rows[i]))
              && (size > 0 ==> Opened(c, media, 0, rows).Some? && |Opened(c, media, 0, rows).value| == size)
  {
    hide Sound, Opened;
    OpenedExactly(c, media, 0, rows);
  }

  ghost predicate Sound(c: Aead, media: nat, index: nat, row: Chunk) {
    var plain := Decrypted(c, row.payload, Tag(media, index));
    row.index == index && plain.Some? && row.plainSize == |plain.value|
  }

  lemma {:induction false} OpenedExactly(c: Aead, media: nat, index: nat, rows: seq<Chunk>)
    ensures Opened(c, media, index, rows).Some? <==>
              forall i :: 0 <= i < |rows| ==> Sound(c, media, index + i, rows[i])
    decreases |rows|
  {
    hide Decrypted, Tag;
    if rows != [] {
      OpenedExactly(c, media, index + 1, rows[1..]);
      assert Opened(c, media, index, rows).Some? <==>
             Sound(c, media, index, rows[0]) && Opened(c, media, index + 1, rows[1..]).Some?;
      hide Sound, Opened;
      if forall i :: 0 <= i < |rows| ==> Sound(c, media, index + i, rows[i]) {
        forall i | 0 <= i < |rows[1..]|
          ensures Sound(c, media, index + 1 + i, rows[1..][i])
        {
          assert Sound(c, media, index + (i + 1), rows[i + 1]);
        }
      }
      if Sound(c, media, index, rows[0])
         && forall i :: 0 <= i < |rows[1..]| ==> Sound(c, media, index + 1 + i, rows[1..][i])
      {
        forall i | 0 <= i < |rows|
          ensures Sound(c, media, index + i, rows[i])
        {
          if i > 0 {
            assert Sound(c, media, index + 1 + (i - 1), rows[1..][i - 1]);
          }
        }
      }
    }
  }

  // ---- What the format promises ----

  lemma {:induction false} SealedOpens(c: Aead, nonces: nat -> Bytes, media: nat, index: nat, chunks: seq<Bytes>)
    requires Correct(c) && forall i :: |nonces(i)| == c.nonceSize
    ensures Opened(c, media, index, Sealed(c, nonces, media, index, chunks)) == Some(Joined(chunks))
    decreases |chunks|
  {
    if chunks != [] {
      SealedOpens(c, nonces, media, index + 1, chunks[1..]);
      Opens(c, nonces(index), chunks[0], Tag(media, index));
      var rows := Sealed(c, nonces, media, index, chunks);
      assert rows[0] == Chunk(index, Encrypted(c, nonces(index), chunks[0], Tag(media, index)), |chunks[0]|);
      assert rows[1..] == Sealed(c, nonces, media, index + 1, chunks[1..]);
    }
    hide Correct, Encrypted, Decrypted, Tag;
  }

  /** What was stored reads back as the same bytes, for every file and chunk size. */
  lemma RoundTrip(c: Aead, nonces: nat -> Bytes, media: nat, file: Bytes, chunkSize: nat)
    requires Correct(c) && (forall i :: |nonces(i)| == c.nonceSize) && chunkSize > 0 && file != []
    ensures Materialized(c, media, Sealed(c, nonces, media, 0, Cut(file, chunkSize)), |file|) == Some(file)
  {
    SealedOpens(c, nonces, media, 0, Cut(file, chunkSize));
    CutJoins(file, chunkSize);
  }

  /** No payload among these rows opens but one that was sealed for a chunk of an archived file, and
      that only under the tag it was sealed with. */
  ghost predicate Unforged(c: Aead, files: map<nat, Bytes>, chunkSize: nat, rows: seq<Chunk>)
    requires chunkSize > 0
  {
    forall i, tag :: 0 <= i < |rows| && Decrypted(c, rows[i].payload, tag).Some? ==>
      exists media, index :: media in files && 0 <= index < |Cut(files[media], chunkSize)|
        && tag == Tag(media, index) && Decrypted(c, rows[i].payload, tag).value == Cut(files[media], chunkSize)[index]
  }

  lemma OnlyOwnChunk(c: Aead, files: map<nat, Bytes>, chunkSize: nat, media: nat, index: nat, rows: seq<Chunk>)
    requires chunkSize > 0 && Unforged(c, files, chunkSize, rows) && rows != []
    requires Decrypted(c, rows[0].payload, Tag(media, index)).Some?
    ensures media in files && index < |Cut(files[media], chunkSize)|
    ensures Decrypted(c, rows[0].payload, Tag(media, index)).value == Cut(files[media], chunkSize)[index]
    ensures Unforged(c, files, chunkSize, rows[1..])
  {
    var tag := Tag(media, index);
    var m, i :| m in files && 0 <= i < |Cut(files[m], chunkSize)|
      && tag == Tag(m, i) && Decrypted(c, rows[0].payload, tag).value == Cut(files[m], chunkSize)[i];
    TagIdentifies(media, index, m, i);
    assert forall k :: 0 <= k < |rows[1..]| ==> rows[1..][k] == rows[k + 1];
    hide Decrypted, Tag, Cut;
  }

  lemma {:induction false} OpenedIsPrefix(c: Aead, files: map<nat, Bytes>, chunkSize: nat,
                                          media: nat, index: nat, rows: seq<Chunk>)
    requires chunkSize > 0 && Unforged(c, files, chunkSize, rows) && media in files
    requires Opened(c, media, index, rows).Some? && index <= |Cut(files[media], chunkSize)|
    ensures Opened(c, media, index, rows).value <= Joined(Cut(files[media], chunkSize)[index..])
    decreases |rows|
  {
    hide Unforged, Decrypted, Tag, Cut;
    var chunks := Cut(files[media], chunkSize);
    if rows != [] {
      OnlyOwnChunk(c, files, chunkSize, media, index, rows);
      OpenedIsPrefix(c, files, chunkSize, media, index + 1, rows[1..]);
      assert chunks[index..][0] == chunks[index] && chunks[index..][1..] == chunks[index + 1..];
      var tail := Joined(chunks[index + 1..]);
      assert Joined(chunks[index..]) == chunks[index] + tail;
      var rest := Opened(c, media, index + 1, rows[1..]).value;
      assert Opened(c, media, index, rows).value == chunks[index] + rest;
      assert chunks[index] + tail == (chunks[index] + rest) + tail[|rest|..];
    }
  }

  /** Whatever rows the database returns (dropped, repeated, reordered, swapped between media or
      altered), a read that succeeds with the declared size returns exactly the archived file. */
  lemma ReadsArchivedFileOnly(c: Aead, files: map<nat, Bytes>, chunkSize: nat, media: nat, rows: seq<Chunk>)
    requires chunkSize > 0 && Unforged(c, files, chunkSize, rows) && media in files && files[media] != []
    ensures var read := Materialized(c, media, rows, |files[media]|);
            read.Some? ==> read == Some(files[media])
  {
    if Materialized(c, media, rows, |files[media]|).Some? {
      OpenedIsPrefix(c, files, chunkSize, media, 0, rows);
      CutJoins(files[media], chunkSize);
      var chunks := Cut(files[media], chunkSize);
      assert chunks[0..] == chunks;
      var read := Opened(c, media, 0, rows).value;
      assert read <= files[media] && |read| == |files[media]|;
      assert read == files[media];
    }
  }

  /** The chunks that are still there, in order. */
  function Kept(chunks: seq<Bytes>, keep: seq<bool>): seq<Bytes>
    requires |keep| == |chunks|
    decreases |chunks|
  {
    if chunks == [] then []
    else (if keep[0] then [chunks[0]] else []) + Kept(chunks[1..], keep[1..])
  }

  lemma {:induction false} KeptFullSize(chunks: seq<Bytes>, keep: seq<bool>)
    requires |keep| == |chunks| && forall chunk <- chunks :: chunk != []
    ensures |Joined(Kept(chunks, keep))| <= |Joined(chunks)|
    ensures |Joined(Kept(chunks, keep))| == |Joined(chunks)| ==> Kept(chunks, keep) == chunks
    decreases |chunks|
  {
    if chunks != [] {
      assert chunks[0] in chunks && forall chunk <- chunks[1..] :: chunk in chunks;
      KeptFullSize(chunks[1..], keep[1..]);
      var rest := Kept(chunks[1..], keep[1..]);
      assert ([chunks[0]] + rest)[1..] == rest;
      assert [] + rest == rest;
      assert [chunks[0]] + chunks[1..] == chunks;
    }
  }

  lemma {:induction false} CutIsNeverEmpty(file: Bytes, size: nat)
    requires size > 0
    ensures forall chunk <- Cut(file, size) :: chunk != []
    decreases |file|
  {
    if |file| > size { CutIsNeverEmpty(file[size..], size); }
  }

  /** Any chunks of a file, in order and with gaps, that add up to its size are the whole file. */
  lemma GapsShowInTheSize(file: Bytes, size: nat, keep: seq<bool>)
    requires size > 0 && |keep| == |Cut(file, size)|
    ensures |Joined(Kept(Cut(file, size), keep))| == |file| <==> Kept(Cut(file, size), keep) == Cut(file, size)
  {
    CutIsNeverEmpty(file, size);
    CutJoins(file, size);
    KeptFullSize(Cut(file, size), keep);
  }
}
