/** Chunked uploads: the gateway's 64 KiB chunkers (internal/gateway/handler/profile_handler.go:78-106,
    file_handler.go:105-132), the avatar receiver (internal/auth/grpc/server.go:161-187), and the reader
    that forwards to storage (internal/auth/usecase/storage_uploader.go:19-68). */
module Uploads {
  import opened Wrappers

  type Data = seq<int>
  const CHUNK_SIZE := 64 * 1024

  // An absent protobuf field reads as its zero value.
  datatype Meta = Meta(owner: int, filename: string, size: int, category: string)
  const NO_META := Meta(0, "", 0, "")
  datatype Chunk = Chunk(meta: Meta, data: Data)

  function Joined(chunks: seq<Chunk>): Data {
    if chunks == [] then [] else Joined(chunks[..|chunks| - 1]) + chunks[|chunks| - 1].data
  }

  function DataOf(chunks: seq<Chunk>): (ds: seq<Data>)
    ensures |ds| == |chunks|
  {
    if chunks == [] then [] else DataOf(chunks[..|chunks| - 1]) + [chunks[|chunks| - 1].data]
  }

  lemma JoinedSnoc(chunks: seq<Chunk>, c: Chunk)
    ensures Joined(chunks + [c]) == Joined(chunks) + c.data
    ensures DataOf(chunks + [c]) == DataOf(chunks) + [c.data]
  {
    assert (chunks + [c])[..|chunks|] == chunks;
  }

  /** The metadata travels with the first chunk and with no other. */
  ghost predicate MetaFirst(meta: Meta, chunks: seq<Chunk>) {
    forall i :: 0 <= i < |chunks| ==> chunks[i].meta == if i == 0 then meta else NO_META
  }

  // ---------------------------------------------------------------- the gateway's chunkers

  function ChunkCount(n: nat): nat {
    if n == 0 then 1 else (n + CHUNK_SIZE - 1) / CHUNK_SIZE
  }

  /** Every chunk but the last is full, and the last is not too long. */
  ghost predicate FullButLast(chunks: seq<Chunk>) {
    forall i :: 0 <= i < |chunks| ==>
      if i == |chunks| - 1 then |chunks[i].data| <= CHUNK_SIZE else |chunks[i].data| == CHUNK_SIZE
  }

  /** A complete upload of `data`. */
  ghost predicate Uploaded(meta: Meta, data: Data, chunks: seq<Chunk>) {
    Joined(chunks) == data && MetaFirst(meta, chunks) && FullButLast(chunks) && |chunks| == ChunkCount(|data|)
  }

  /** One send on the stream; `failAt` says which send fails, if any. */
  method Send(sent: seq<Chunk>, chunk: Chunk, failAt: Option<nat>) returns (ok: bool, now: seq<Chunk>)
    ensures ok <==> failAt.None? || failAt.value != |sent|
    ensures if ok then now == sent + [chunk] && |now| == |sent| + 1 else now == sent
  {
    ok := failAt.None? || failAt.value != |sent|;
    now := if ok then sent + [chunk] else sent;
  }

  /** Sends data in chunks of at most 64 KiB until one send fails (`failAt` counts sends from zero).
      What was sent is always a prefix of the data; without a failure it is all of it. */
  method SendInChunks(meta: Meta, data: Data, failAt: Option<nat>) returns (ok: bool, sent: seq<Chunk>)
    ensures ok ==> Uploaded(meta, data, sent)
    ensures ok <==> failAt.None? || failAt.value >= ChunkCount(|data|)
    ensures Joined(sent) <= data && MetaFirst(meta, sent)
    ensures !ok ==> |sent| == failAt.value
  {
    sent := [];
    var i := 0;
    while i < |data|
      invariant SentSoFar(meta, data, sent, i)
      invariant failAt.None? || |sent| <= failAt.value
    {
      var end := if i + CHUNK_SIZE > |data| then |data| else i + CHUNK_SIZE;
      var chunk := Chunk(if i == 0 then meta else NO_META, data[i..end]);
      NextChunk(meta, data, sent, i, chunk);
      assert |sent| < ChunkCount(|data|) by { CountBeyond(|data|, |sent|, i); }
      ok, sent := Send(sent, chunk, failAt);
      if !ok {
        return;
      }
      i := i + CHUNK_SIZE;
    }
    SentAll(meta, data, sent, i);
    ok := true;
    if |data| == 0 {
      OnlyChunk(meta, sent);
      ok, sent := Send(sent, Chunk(meta, []), failAt);
    }
  }

  /** The loop so far: a prefix of the data in full chunks, the metadata on the first. */
  ghost predicate SentSoFar(meta: Meta, data: Data, sent: seq<Chunk>, i: nat) {
    && i == |sent| * CHUNK_SIZE
    && i < |data| + CHUNK_SIZE
    && Joined(sent) == data[..if i <= |data| then i else |data|]
    && MetaFirst(meta, sent)
    && FullButLast(sent)
    && (0 < |sent| && i <= |data| ==> |sent[|sent| - 1].data| == CHUNK_SIZE)
  }

  lemma NextChunk(meta: Meta, data: Data, sent: seq<Chunk>, i: nat, chunk: Chunk)
    requires SentSoFar(meta, data, sent, i) && i < |data|
    requires chunk.meta == if i == 0 then meta else NO_META
    requires chunk.data == data[i..if i + CHUNK_SIZE > |data| then |data| else i + CHUNK_SIZE]
    ensures SentSoFar(meta, data, sent + [chunk], i + CHUNK_SIZE)
  {
    JoinedSnoc(sent, chunk);
    var end := if i + CHUNK_SIZE > |data| then |data| else i + CHUNK_SIZE;
    assert data[..i] + data[i..end] == data[..end];
  }

  lemma CountBeyond(n: nat, sent: nat, i: nat)
    requires i == sent * CHUNK_SIZE < n
    ensures sent < ChunkCount(n)
  {}

  lemma SentAll(meta: Meta, data: Data, sent: seq<Chunk>, i: nat)
    requires SentSoFar(meta, data, sent, i) && |data| <= i
    ensures if |data| == 0 then sent == [] else Uploaded(meta, data, sent)
  {
    assert data[..|data|] == data;
  }

  lemma OnlyChunk(meta: Meta, sent: seq<Chunk>)
    requires sent == []
    ensures Uploaded(meta, [], sent + [Chunk(meta, [])])
  {
    var chunks := sent + [Chunk(meta, [])];
    JoinedSnoc(sent, Chunk(meta, []));
    Complete(meta, chunks, Joined(chunks));
  }

  lemma Complete(meta: Meta, chunks: seq<Chunk>, joined: Data)
    requires |chunks| == 1 && chunks[0] == Chunk(meta, []) && Joined(chunks) == joined == []
    ensures Uploaded(meta, [], chunks)
  {}

  // ---------------------------------------------------------------- the avatar receiver

  datatype Received = Rejected | Received(owner: int, filename: string, size: int, data: Data)

  /** Accumulates chunks until the end of the stream; metadata is taken while no owner is known. */
  method ReceiveAvatar(chunks: seq<Chunk>, streamFails: bool) returns (r: Received)
    ensures r.Received? <==> !streamFails && exists i :: 0 <= i < |chunks| && chunks[i].meta.owner != 0
    ensures r.Received? ==> r.data == Joined(chunks)
    ensures r.Received? ==> exists i: nat :: FirstOwner(chunks, i) && Names(r, chunks[i].meta)
  {
    var buf: Data := [];
    var owner, filename, size := 0, "", 0;
    ghost var first: nat := 0;
    for k := 0 to |chunks|
      invariant buf == Joined(chunks[..k])
      invariant owner == 0 <==> forall i :: 0 <= i < k ==> chunks[i].meta.owner == 0
      invariant owner != 0 ==> FirstOwner(chunks, first) && first < k
      invariant owner != 0 ==> Names(Received.Received(owner, filename, size, []), chunks[first].meta)
    {
      var chunk := chunks[k];
      if owner == 0 {
        owner, filename, size := chunk.meta.owner, chunk.meta.filename, chunk.meta.size;
        first := k;
      }
      assert chunks[..k + 1] == chunks[..k] + [chunk];
      JoinedSnoc(chunks[..k], chunk);
      buf := buf + chunk.data;
    }
    assert chunks[..|chunks|] == chunks;
    if streamFails || owner == 0 {
      return Rejected;
    }
    return Received.Received(owner, filename, size, buf);
  }

  predicate Names(r: Received, meta: Meta) {
    r.Received? && r.owner == meta.owner && r.filename == meta.filename && r.size == meta.size
  }

  ghost predicate FirstOwner(chunks: seq<Chunk>, i: nat) {
    i < |chunks| && chunks[i].meta.owner != 0 && forall j :: 0 <= j < i ==> chunks[j].meta.owner == 0
  }

  /** End to end: for every byte string, the receiver ends up with exactly the sender's data and the
      first chunk's metadata when there is an owner, and refuses the upload exactly when there is none. */
  method UploadAvatar(meta: Meta, data: Data) returns (r: Received)
    ensures r == if meta.owner == 0 then Rejected else Received.Received(meta.owner, meta.filename, meta.size, data)
  {
    var ok, chunks := SendInChunks(meta, data, None);
    assert |chunks| >= 1 && chunks[0].meta == meta;
    assert meta.owner != 0 ==> FirstOwner(chunks, 0) && forall i: nat :: FirstOwner(chunks, i) ==> i == 0;
    r := ReceiveAvatar(chunks, false);
  }

  // ---------------------------------------------------------------- the storage uploader

  datatype ReadError = NoError | Eof | Broken

  /** One call of io.Reader.Read: bytes and an error, in any combination the contract allows. */
  datatype Read = Read(data: Data, err: ReadError)

  /** The io.Reader contract over finitely many reads: no read exceeds the buffer, and the last one, and
      only the last, reports the end or a failure. */
  ghost predicate ObeysReader(script: seq<Read>) {
    && script != []
    && (forall i :: 0 <= i < |script| ==> |script[i].data| <= CHUNK_SIZE)
    && (forall i :: 0 <= i < |script| ==> (script[i].err == NoError <==> i < |script| - 1))
  }

  /** How the reader ends. */
  function Ending(script: seq<Read>): ReadError
    requires script != []
  {
    script[|script| - 1].err
  }

  lemma EndsHere(script: seq<Read>, k: nat)
    requires ObeysReader(script) && k < |script|
    ensures if script[k].err == NoError then k + 1 < |script| else k + 1 == |script| && Ending(script) == script[k].err
  {}

  /** What the first `k` reads delivered, and the reads among them that delivered anything. */
  function Delivered(script: seq<Read>, k: nat): Data
    requires k <= |script|
  {
    if k == 0 then [] else Delivered(script, k - 1) + script[k - 1].data
  }

  function NonEmpty(script: seq<Read>, k: nat): seq<Data>
    requires k <= |script|
  {
    if k == 0 then []
    else if script[k - 1].data == [] then NonEmpty(script, k - 1)
    else NonEmpty(script, k - 1) + [script[k - 1].data]
  }

  /** The chunks are the non-empty reads among the first `k`, one each. */
  ghost predicate ForwardedSoFar(meta: Meta, script: seq<Read>, k: nat, sent: seq<Chunk>)
    requires k <= |script|
  {
    MetaFirst(meta, sent) && Joined(sent) == Delivered(script, k) && DataOf(sent) == NonEmpty(script, k)
  }

  /** What the chunks of the whole reader hold: one non-empty read each, or, for an empty reader, nothing once. */
  function Portions(script: seq<Read>): seq<Data> {
    var full := NonEmpty(script, |script|);
    if full == [] then [[]] else full
  }

  /** A complete upload of what the reader delivered. */
  ghost predicate Forwarded(meta: Meta, script: seq<Read>, sent: seq<Chunk>) {
    MetaFirst(meta, sent) && Joined(sent) == Delivered(script, |script|) && DataOf(sent) == Portions(script)
  }

  /** No portion is too long, and none is empty unless it is the only one. */
  lemma PortionsFit(script: seq<Read>)
    requires ObeysReader(script)
    ensures forall d :: d in Portions(script) ==> |d| <= CHUNK_SIZE && (d == [] ==> |Portions(script)| == 1)
  {
    ReadsFit(script, |script|);
  }

  lemma {:induction false} ReadsFit(script: seq<Read>, k: nat)
    requires ObeysReader(script) && k <= |script|
    ensures forall d :: d in NonEmpty(script, k) ==> 0 < |d| <= CHUNK_SIZE
  {
    if k > 0 { ReadsFit(script, k - 1); }
  }

  /** Forwards a reader chunk by chunk through one reused buffer.  The chunks join to the reader's data,
      exactly the first carries metadata, and there is one even for an empty reader.  The upload succeeds
      exactly when the reader ends cleanly and no send it takes fails. */
  method Forward(meta: Meta, script: seq<Read>, failAt: Option<nat>) returns (ok: bool, sent: seq<Chunk>)
    requires ObeysReader(script)
    ensures MetaFirst(meta, sent) && Joined(sent) <= Delivered(script, |script|)
    ensures ok ==> Forwarded(meta, script, sent)
    ensures ok <==> Ending(script) == Eof && (failAt.None? || failAt.value >= |Portions(script)|)
  {
    var first, k;
    ok, first, sent, k := ForwardReads(meta, script, failAt);
    PartForwarded(meta, script, k, sent);
    if ok {
      if first {
        OnlyForwarded(meta, script, sent);
        ok, sent := Send(sent, Chunk(meta, []), failAt);
      } else {
        WholeForwarded(meta, script, sent);
      }
    }
  }

  lemma PartForwarded(meta: Meta, script: seq<Read>, k: nat, sent: seq<Chunk>)
    requires k <= |script| && ForwardedSoFar(meta, script, k, sent)
    ensures Joined(sent) <= Delivered(script, |script|)
    ensures |NonEmpty(script, |script|)| <= |Portions(script)|
  {
    DeliveredPrefix(script, k);
  }

  lemma WholeForwarded(meta: Meta, script: seq<Read>, sent: seq<Chunk>)
    requires ForwardedSoFar(meta, script, |script|, sent) && sent != []
    ensures Forwarded(meta, script, sent) && |sent| == |Portions(script)|
  {
    assert |DataOf(sent)| == |sent|;
  }

  /** The read loop: on success every read up to the end was forwarded, otherwise the first `k` were, and either the
      next read's send failed or the reader broke. */
  method ForwardReads(meta: Meta, script: seq<Read>, failAt: Option<nat>)
    returns (ok: bool, first: bool, sent: seq<Chunk>, k: nat)
    requires ObeysReader(script)
    ensures k <= |script| && ForwardedSoFar(meta, script, k, sent)
    ensures failAt.None? || |sent| <= failAt.value
    ensures ok ==> (first <==> sent == []) && k == |script| && Ending(script) == Eof
    ensures !ok ==> Ending(script) == Broken
                    || (failAt.Some? && failAt.value == |sent| < |NonEmpty(script, |script|)|)
  {
    var buf := new int[CHUNK_SIZE];
    ok, first, sent, k := true, true, [], 0;
    while true
      invariant ok && k < |script|
      invariant first <==> sent == []
      invariant ForwardedSoFar(meta, script, k, sent)
      invariant failAt.None? || |sent| <= failAt.value
      decreases |script| - k
    {
      var read := script[k];
      EndsHere(script, k);
      var n := Fill(buf, read.data);
      if n > 0 {
        var chunk := Chunk(if first then meta else NO_META, buf[..n]);
        NextForwarded(meta, script, k, sent, chunk);
        SendIsDue(meta, script, k, sent);
        ok, sent := Send(sent, chunk, failAt);
        if !ok {
          return;
        }
        first := false;
      } else {
        NothingForwarded(meta, script, k, sent);
      }
      k := k + 1;
      if read.err == Eof {
        break;
      }
      if read.err == Broken {
        ok := false;
        return;
      }
    }
  }

  lemma SendIsDue(meta: Meta, script: seq<Read>, k: nat, sent: seq<Chunk>)
    requires k < |script| && ForwardedSoFar(meta, script, k, sent) && script[k].data != []
    ensures |sent| < |NonEmpty(script, |script|)|
  {
    NonEmptyGrows(script, k + 1);
    assert |DataOf(sent)| == |sent|;
  }

  lemma {:induction false} NonEmptyGrows(script: seq<Read>, k: nat)
    requires k <= |script|
    ensures |NonEmpty(script, k)| <= |NonEmpty(script, |script|)|
    decreases |script| - k
  {
    if k < |script| {
      NonEmptyGrows(script, k + 1);
    }
  }

  /** One read into the reused buffer. */
  method Fill(buf: array<int>, data: Data) returns (n: nat)
    requires |data| <= buf.Length
    modifies buf
    ensures n == |data| && buf[..n] == data
  {
    n := |data|;
    forall i | 0 <= i < n {
      buf[i] := data[i];
    }
  }

  lemma NextForwarded(meta: Meta, script: seq<Read>, k: nat, sent: seq<Chunk>, chunk: Chunk)
    requires k < |script| && ForwardedSoFar(meta, script, k, sent)
    requires chunk == Chunk(if sent == [] then meta else NO_META, script[k].data)
    requires 0 < |script[k].data| <= CHUNK_SIZE
    ensures ForwardedSoFar(meta, script, k + 1, sent + [chunk])
  {
    JoinedSnoc(sent, chunk);
  }

  lemma NothingForwarded(meta: Meta, script: seq<Read>, k: nat, sent: seq<Chunk>)
    requires k < |script| && ForwardedSoFar(meta, script, k, sent) && script[k].data == []
    ensures ForwardedSoFar(meta, script, k + 1, sent)
  {}

  lemma OnlyForwarded(meta: Meta, script: seq<Read>, sent: seq<Chunk>)
    requires sent == [] && ForwardedSoFar(meta, script, |script|, sent)
    ensures |Portions(script)| == 1
    ensures var one := sent + [Chunk(meta, [])];
            Forwarded(meta, script, one) && MetaFirst(meta, one) && Joined(one) == Delivered(script, |script|)
  {
    JoinedSnoc(sent, Chunk(meta, []));
    assert |DataOf(sent)| == |sent|;
  }

  lemma {:induction false} DeliveredPrefix(script: seq<Read>, k: nat)
    requires k <= |script|
    ensures Delivered(script, k) <= Delivered(script, |script|)
    decreases |script| - k
  {
    if k < |script| {
      DeliveredPrefix(script, k + 1);
    }
  }
}
