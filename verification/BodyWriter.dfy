/** The replayable body: kept in memory while small, in a temporary file from then on. */
module BodyWriter {
  import opened Bytes
  import opened Base64

  const CHUNK: nat := 65_536

  ghost function Sum(live: map<nat, nat>): nat
    decreases |live|
  {
    if live == map[] then 0
    else
      var k :| k in live;
      live[k] + Sum(live - {k})
  }

  lemma {:induction false} SumOne(live: map<nat, nat>, k: nat)
    requires k in live
    ensures Sum(live) == live[k] + Sum(live - {k})
    decreases |live|
  {
    var x :| x in live && Sum(live) == live[x] + Sum(live - {x});
    if x != k {
      SumOne(live - {x}, k);
      SumOne(live - {k}, x);
      assert live - {x} - {k} == live - {k} - {x};
    }
  }

  lemma SumPut(live: map<nat, nat>, k: nat, n: nat)
    ensures Sum(live[k := n]) == n + Sum(live - {k})
  {
    SumOne(live[k := n], k);
    assert live[k := n] - {k} == live - {k};
  }

  /** No file but `mine` came, went or changed. */
  ghost predicate OthersKept(before: map<nat, nat>, after: map<nat, nat>, mine: set<nat>) {
    before - mine == after - mine
  }

  /** The shared gauges over all temporary files that are alive. */
  class SpoolMetrics {
    var activeFiles: nat
    var activeBytes: nat
    var next: nat
    ghost var live: map<nat, nat>

    ghost predicate Valid()
      reads this
    {
      && activeFiles == |live|
      && activeBytes == Sum(live)
      && forall k :: k in live ==> k < next
    }

    constructor ()
      ensures Valid() && live == map[]
    {
      activeFiles, activeBytes, next := 0, 0, 0;
      live := map[];
    }

    method NewFile() returns (file: nat)
      requires Valid()
      modifies this
      ensures Valid() && file !in old(live) && live == old(live)[file := 0]
    {
      file := next;
      SumPut(live, file, 0);
      assert live - {file} == live;
      next := next + 1;
      activeFiles := activeFiles + 1;
      live := live[file := 0];
    }

    method AddBytes(file: nat, n: nat)
      requires Valid() && file in live
      modifies this
      ensures Valid() && live == old(live)[file := old(live)[file] + n]
    {
      SumOne(live, file);
      SumPut(live, file, live[file] + n);
      activeBytes := activeBytes + n;
      live := live[file := live[file] + n];
      assert live.Keys == old(live).Keys;
    }

    method DropFile(file: nat, length: nat)
      requires Valid() && file in live && live[file] == length
      modifies this
      ensures Valid() && live == old(live) - {file}
    {
      SumOne(live, file);
      activeFiles := activeFiles - 1;
      activeBytes := activeBytes - length;
      live := live - {file};
      assert live.Keys == old(live).Keys - {file};
    }
  }

  /** `content` is made of the chunks that were written in full. */
  datatype Storage = Memory(bytes: Bytes) | TempFile(file: nat, content: Bytes)

  datatype BodyError = NoError | BodyTooLarge | StorageUnavailable | FileTooLarge | MalformedMultipart

  class ReplayableBodyWriter {
    const metrics: SpoolMetrics
    const memoryBytes: nat
    const maxBytes: nat
    var storage: Storage
    var length: nat

    ghost function Contents(): Bytes
      reads this
    {
      if storage.Memory? then storage.bytes else storage.content
    }

    /** The gauges agree with this writer's file, whether or not the writer is still usable. */
    ghost predicate Metered()
      reads this, metrics
    {
      && metrics.Valid()
      && (storage.TempFile? ==> storage.file in metrics.live && metrics.live[storage.file] == |storage.content|)
    }

    ghost predicate Valid()
      reads this, metrics
    {
      && Metered()
      && length == |Contents()| <= maxBytes
      && (storage.Memory? <==> length <= memoryBytes)
    }

    constructor (metrics: SpoolMetrics, memoryBytes: nat, maxBytes: nat)
      requires metrics.Valid()
      ensures Valid() && Contents() == [] && this.metrics == metrics
      ensures this.memoryBytes == memoryBytes && this.maxBytes == maxBytes
    {
      this.metrics := metrics;
      this.memoryBytes := memoryBytes;
      this.maxBytes := maxBytes;
      storage := Memory([]);
      length := 0;
    }

    /** Writes `bytes` behind a temporary file in chunks; any chunk may fail. */
    method WriteChunks(bytes: Bytes) returns (ok: bool)
      requires storage.TempFile? && Metered()
      modifies this`storage, metrics
      ensures storage.TempFile? && storage.file == old(storage.file) && Metered()
      ensures ok ==> storage.content == old(storage.content) + bytes
      ensures OthersKept(old(metrics.live), metrics.live, {storage.file})
    {
      hide Sum;
      var i := 0;
      while i < |bytes|
        invariant 0 <= i <= |bytes|
        invariant storage.TempFile? && storage.file == old(storage.file) && Metered()
        invariant storage.content == old(storage.content) + bytes[..i]
        invariant OthersKept(old(metrics.live), metrics.live, {storage.file})
      {
        var end := if i + CHUNK <= |bytes| then i + CHUNK else |bytes|;
        var written: bool := *;
        if !written {
          return false;
        }
        assert bytes[..end] == bytes[..i] + bytes[i..end];
        storage := TempFile(storage.file, storage.content + bytes[i..end]);
        metrics.AddBytes(storage.file, end - i);
        i := end;
      }
      assert bytes[..i] == bytes;
      ok := true;
    }

    /** Moves the body from memory to a new file.  A failure loses the body and takes the file back. */
    method Spill() returns (ok: bool)
      requires storage.Memory? && Metered()
      modifies this`storage, metrics
      ensures Metered()
      ensures ok ==> storage.TempFile? && storage.content == old(storage.bytes) && storage.file !in old(metrics.live)
      ensures !ok ==> storage == Memory([]) && metrics.live == old(metrics.live)
      ensures ok ==> OthersKept(old(metrics.live), metrics.live, {storage.file})
    {
      hide Sum;
      var memory := storage.bytes;
      storage := Memory([]);
      var created: bool := *;
      if !created {
        return false;
      }
      var file := metrics.NewFile();
      storage := TempFile(file, []);
      ok := WriteChunks(memory);
      if !ok {
        metrics.DropFile(file, |storage.content|);
        storage := Memory([]);
        assert metrics.live == old(metrics.live);
      } else {
        assert [] + memory == memory;
      }
    }

    ghost function Mine(): set<nat>
      reads this
    {
      if storage.TempFile? then {storage.file} else {}
    }

    /**
      Appends to the body.  A body that would be too large is refused and stays as it is; after a storage
      failure the body is unusable, but the gauges are still right.
     */
    method Write(bytes: Bytes) returns (error: BodyError)
      requires Valid()
      modifies this, metrics
      ensures error in {NoError, BodyTooLarge, StorageUnavailable}
      ensures error == BodyTooLarge <==> old(length) + |bytes| > maxBytes
      ensures error == BodyTooLarge ==> Valid() && storage == old(storage) && metrics.live == old(metrics.live)
      ensures error == NoError ==> Valid() && Contents() == old(Contents()) + bytes
      ensures Metered() && OthersKept(old(metrics.live), metrics.live, old(Mine()) + Mine())
    {
      hide Sum;
      var next := length + |bytes|;
      if next > maxBytes {
        return BodyTooLarge;
      }
      if storage.Memory? && next > memoryBytes {
        var spilled := Spill();
        if !spilled {
          return StorageUnavailable;
        }
      }
      if storage.Memory? {
        storage := Memory(storage.bytes + bytes);
      } else {
        var written := WriteChunks(bytes);
        assert old(Mine()) + Mine() == {storage.file};
        if !written {
          return StorageUnavailable;
        }
      }
      length := next;
      error := NoError;
    }

    /** Dropping the writer, or the body it became, takes its file out of the gauges. */
    method Drop()
      requires Metered()
      modifies this, metrics
      ensures Metered() && Mine() == {}
      ensures metrics.live == old(metrics.live) - old(Mine())
    {
      hide Sum;
      if storage.TempFile? {
        metrics.DropFile(storage.file, |storage.content|);
      }
      storage := Memory([]);
    }
  }

  /** Any writes that all succeed leave their concatenation, in memory exactly if it is small enough. */
  method WriteAll(writer: ReplayableBodyWriter, parts: seq<Bytes>) returns (error: BodyError)
    requires writer.Valid()
    modifies writer, writer.metrics
    ensures error == NoError ==>
              && writer.Contents() == old(writer.Contents()) + Concat(parts)
              && (writer.storage.Memory? <==> |writer.Contents()| <= writer.memoryBytes)
    ensures error == BodyTooLarge ==> |old(writer.Contents())| + |Concat(parts)| > writer.maxBytes
    ensures writer.metrics.Valid()
  {
    hide Sum, OthersKept, Concat, SpoolMetrics.Valid;
    error := NoError;
    ConcatNone();
    assert parts[..0] == [];
    var i := 0;
    while i < |parts|
      invariant 0 <= i <= |parts|
      invariant writer.Valid() && writer.Contents() == old(writer.Contents()) + Concat(parts[..i])
    {
      ConcatSnoc(parts, i);
      ConcatPrefix(parts, i + 1);
      error := writer.Write(parts[i]);
      if error != NoError {
        return;
      }
      i := i + 1;
    }
    assert parts[..i] == parts;
    error := NoError;
  }

  /** Encodes the whole groups of what was carried over and the next chunk; `rest` is carried over in turn. */
  method WriteGroups(writer: ReplayableBodyWriter, remainder: Bytes, chunk: Bytes, ghost start: Bytes, ghost done: Bytes)
    returns (error: BodyError, rest: Bytes, ghost now: Bytes)
    requires writer.Valid() && writer.Contents() == start + Encode(done) && |done| % 3 == 0
    modifies writer, writer.metrics
    ensures error in {NoError, BodyTooLarge, StorageUnavailable}
    ensures |rest| < 3 && |now| % 3 == 0 && now + rest == done + remainder + chunk
    ensures error == NoError ==> writer.Valid() && writer.Contents() == start + Encode(now)
    ensures error == BodyTooLarge ==> |start| + |Encode(now)| > writer.maxBytes
    ensures writer.metrics.Valid()
  {
    hide Sum, OthersKept, SpoolMetrics.Valid, Encode;
    var input := remainder + chunk;
    var encodeBytes := |input| / 3 * 3;
    CarryOver(done, remainder, chunk, encodeBytes);
    now, rest := done + input[..encodeBytes], input[encodeBytes..];
    error := NoError;
    if encodeBytes > 0 {
      error := writer.Write(Encode(input[..encodeBytes]));
    } else {
      assert now == done;
    }
  }

  /**
    Writes one file of the form as base64, chunk by chunk, carrying at most two bytes over.  `malformed` says
    whether the form breaks off after these chunks.
   */
  method WriteBase64Field(chunks: seq<Bytes>, malformed: bool, writer: ReplayableBodyWriter, maxFileBytes: nat)
    returns (error: BodyError)
    requires writer.Valid()
    modifies writer, writer.metrics
    ensures error == NoError ==>
              && !malformed && |Concat(chunks)| <= maxFileBytes
              && writer.Valid() && writer.Contents() == old(writer.Contents()) + Encode(Concat(chunks))
    ensures error == MalformedMultipart ==> malformed
    ensures error == FileTooLarge ==> |Concat(chunks)| > maxFileBytes
    ensures error == BodyTooLarge ==>
              |old(writer.Contents())| + EncodedLen(|Concat(chunks)|) > writer.maxBytes
    ensures writer.metrics.Valid()
  {
    hide Sum, OthersKept, Concat, SpoolMetrics.Valid, Encode, EncodedLen;
    ghost var start := writer.Contents();
    var remainder: Bytes := [];
    var length := 0;
    ghost var done: Bytes := [];
    var i := 0;
    ConcatNone();
    assert chunks[..0] == [] && start + [] == start;
    while i < |chunks|
      invariant 0 <= i <= |chunks|
      invariant |done| % 3 == 0 && |remainder| < 3
      invariant Concat(chunks[..i]) == done + remainder
      invariant length == |Concat(chunks[..i])| && length <= maxFileBytes
      invariant writer.Valid() && writer.Contents() == start + Encode(done)
    {
      ConcatSnoc(chunks, i);
      ConcatPrefix(chunks, i + 1);
      length := length + |chunks[i]|;
      if length > maxFileBytes {
        return FileTooLarge;
      }
      error, remainder, done := WriteGroups(writer, remainder, chunks[i], start, done);
      WrittenFits(done, Concat(chunks));
      if error != NoError {
        return;
      }
      i := i + 1;
    }
    assert chunks[..i] == chunks;
    if malformed {
      return MalformedMultipart;
    }
    EncodeSplit(done, remainder);
    EncodeLength(done + remainder);
    error := NoError;
    if remainder != [] {
      error := writer.Write(Encode(remainder));
    } else {
      assert done + remainder == done;
    }
  }

  lemma ConcatNone()
    ensures Concat([]) == [] && Encode([]) == []
  {
  }

  /** What one round of the loop encodes extends the whole groups encoded so far. */
  lemma CarryOver(done: Bytes, remainder: Bytes, chunk: Bytes, n: nat)
    requires |done| % 3 == 0 && n == |remainder + chunk| / 3 * 3
    ensures |(done + (remainder + chunk)[..n])| % 3 == 0 && |(remainder + chunk)[n..]| < 3
    ensures done + remainder + chunk == done + (remainder + chunk)[..n] + (remainder + chunk)[n..]
    ensures Encode(done + (remainder + chunk)[..n]) == Encode(done) + Encode((remainder + chunk)[..n])
  {
    hide Encode;
    EncodeSplit(done, (remainder + chunk)[..n]);
  }

  lemma WrittenFits(written: Bytes, whole: Bytes)
    requires |written| <= |whole|
    ensures |Encode(written)| <= EncodedLen(|whole|)
  {
    hide Encode;
    EncodeLength(written);
  }
}
