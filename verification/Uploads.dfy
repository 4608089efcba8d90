/** The resumable upload store: an append log per upload with its metadata, an idempotent retry of
    the last slice, and an all-or-nothing batch. */
module Uploads {
  import PlayTypes
  import opened Text

  type Byte = bv8
  type Bytes = seq<Byte>

  const MAX_ROM_BYTES := 8 * 1024 * 1024
  const BATCH_MAX_CHUNKS := 16
  const BATCH_MAX_BYTES := 64 * 1024
  const TTL_SECONDS := 1800.0

  datatype UploadError =
    | BadIndex | TextRequired | TextTooLong | BadBase64 | EmptyChunk | ChunkTooLong | Hole | PastTotal | DiskFailed
    | BadUploadId | UnknownUpload | EmptyBatch | BatchTooLong | BatchTooBig | Incomplete | DigestMismatch
    | BadTotal | TotalTooBig | BadDigest | NoFreeId

  datatype Outcome<+T> = Done(value: T) | Failed(error: UploadError)

  datatype Meta = Meta(
    fileName: string,
    owner: PlayTypes.Option<string>,
    totalBytes: nat,
    sha256: string,
    chunkSize: nat,
    nextIndex: nat,
    receivedBytes: nat,
    createdAt: real)

  /** One staging directory: data.bin and meta.json. */
  datatype Upload = Upload(data: Bytes, meta: Meta)

  datatype Reply = Reply(receivedBytes: nat, nextIndex: nat, totalBytes: nat)

  /** What the disk does while one chunk is written. */
  datatype Fault =
    | Clean
    | WriteCut(kept: nat)  // the write fails after this many bytes
    | SyncFails            // the bytes are there, the metadata is not rewritten
    | MetaFails

  function Cut(data: Bytes, n: nat): Bytes { if n < |data| then data[..n] else data }

  /** The bytes of the chunk that end up in the file. */
  function Landed(data: Bytes, fault: Fault): Bytes {
    if fault.WriteCut? then Cut(data, fault.kept) else data
  }

  // ---------------------------------------------------------------------------------------------
  // One chunk

  /** Base64 decoding, strict about its alphabet, is left to the caller of the model. */
  type Decoder = string -> Outcome<Bytes>

  function MaxB64Len(chunkSize: nat): nat { (chunkSize + 2) / 3 * 4 + 16 }

  function DecodeChunk(decode: Decoder, text: string, chunkSize: nat): (r: Outcome<Bytes>)
    ensures r.Done? ==> 0 < |r.value| <= chunkSize && decode(text) == r
  {
    if text == "" then Failed(TextRequired)
    else if |text| > MaxB64Len(chunkSize) then Failed(TextTooLong)
    else match decode(text)
      case Failed(_) => Failed(BadBase64)
      case Done(data) =>
        if data == [] then Failed(EmptyChunk)
        else if |data| > chunkSize then Failed(ChunkTooLong)
        else Done(data)
  }

  /** Writes the next chunk; a chunk out of order or past the total is refused untouched. */
  function Apply(u: Upload, index: int, data: Bytes, fault: Fault): (Upload, Outcome<Reply>) {
    var received := u.meta.receivedBytes + |data|;
    if index != u.meta.nextIndex then (u, Failed(Hole))
    else if received > u.meta.totalBytes then (u, Failed(PastTotal))
    else if !fault.Clean? then (u.(data := u.data + Landed(data, fault)), Failed(DiskFailed))
    else
      (Upload(u.data + data, u.meta.(receivedBytes := received, nextIndex := u.meta.nextIndex + 1)),
       Done(Reply(received, u.meta.nextIndex + 1, u.meta.totalBytes)))
  }

  predicate EndsWith(data: Bytes, tail: Bytes) { |tail| <= |data| && data[|data| - |tail|..] == tail }

  /** Is this a repeat of what was just received? */
  predicate IsRetry(u: Upload, index: int, data: Bytes) {
    index == u.meta.nextIndex - 1 && |data| <= u.meta.receivedBytes && EndsWith(u.data, data)
  }

  function AppendDecoded(u: Upload, index: int, data: Bytes, fault: Fault): (Upload, Outcome<Reply>) {
    if IsRetry(u, index, data)
    then (u, Done(Reply(u.meta.receivedBytes, u.meta.nextIndex, u.meta.totalBytes)))
    else Apply(u, index, data, fault)
  }

  function AppendChunk(decode: Decoder, u: Upload, index: int, text: string, fault: Fault): (Upload, Outcome<Reply>) {
    match DecodeChunk(decode, text, u.meta.chunkSize)
    case Failed(e) => (u, Failed(e))
    case Done(data) => AppendDecoded(u, index, data, fault)
  }

  // ---------------------------------------------------------------------------------------------
  // Batches

  function DecodeAll(decode: Decoder, texts: seq<string>, chunkSize: nat, total: nat): Outcome<seq<Bytes>>
    decreases |texts|
  {
    if texts == [] then Done([])
    else match DecodeChunk(decode, texts[0], chunkSize)
      case Failed(e) => Failed(e)
      case Done(data) =>
        if total + |data| > BATCH_MAX_BYTES then Failed(BatchTooBig)
        else Prefixed([data], DecodeAll(decode, texts[1..], chunkSize, total + |data|))
  }

  function Prefixed(before: seq<Bytes>, r: Outcome<seq<Bytes>>): Outcome<seq<Bytes>> {
    if r.Done? then Done(before + r.value) else r
  }

  lemma {:induction false} PrefixedNone(r: Outcome<seq<Bytes>>)
    ensures Prefixed([], r) == r
  {
    assert r.Done? ==> [] + r.value == r.value;
  }

  lemma {:induction false} PrefixedOne(before: seq<Bytes>, x: Bytes, r: Outcome<seq<Bytes>>)
    ensures Prefixed(before, Prefixed([x], r)) == Prefixed(before + [x], r)
  {
    assert r.Done? ==> before + ([x] + r.value) == (before + [x]) + r.value;
  }

  /** Apply in a row, stopping at the first failure. */
  function ApplyAll(u: Upload, start: nat, chunks: seq<Bytes>, faults: nat -> Fault): (Upload, Outcome<Reply>)
    requires chunks != []
    decreases |chunks|
  {
    var n := |chunks| - 1;
    if n == 0 then Apply(u, start, chunks[0], faults(0))
    else
      var (v, r) := ApplyAll(u, start, chunks[..n], faults);
      if r.Failed? then (v, r) else Apply(v, start + n, chunks[n], faults(n))
  }

  /** The batch keeps its effect only if every chunk was written. */
  function ApplyBatch(u: Upload, start: nat, chunks: seq<Bytes>, faults: nat -> Fault): (Upload, Outcome<Reply>)
    requires chunks != []
  {
    var (v, r) := ApplyAll(u, start, chunks, faults);
    if r.Failed? then (u, r) else (v, r)
  }

  function AppendBatch(decode: Decoder, u: Upload, start: nat, texts: seq<string>, faults: nat -> Fault)
    : (Upload, Outcome<Reply>)
    requires texts != []
  {
    match DecodeAll(decode, texts, u.meta.chunkSize, 0)
    case Failed(e) => (u, Failed(e))
    case Done(chunks) => if chunks == [] then (u, Failed(EmptyBatch)) else ApplyBatch(u, start, chunks, faults)
  }

  // ---------------------------------------------------------------------------------------------
  // Agreement of the file, its metadata and the accepted chunks

  function Concat(chunks: seq<Bytes>): Bytes {
    if chunks == [] then [] else Concat(chunks[..|chunks| - 1]) + chunks[|chunks| - 1]
  }

  /** The file is the accepted chunks in order, and the metadata counts it. */
  predicate Agree(u: Upload, accepted: seq<Bytes>) {
    && u.data == Concat(accepted)
    && u.meta.receivedBytes == |u.data| <= u.meta.totalBytes
    && u.meta.nextIndex == |accepted|
  }

  datatype Op =
    | OpAppend(index: int, text: string, fault: Fault)
    | OpBatch(start: nat, texts: seq<string>, faults: nat -> Fault)

  function Do(decode: Decoder, u: Upload, op: Op): (Upload, Outcome<Reply>) {
    match op
    case OpAppend(index, text, fault) => AppendChunk(decode, u, index, text, fault)
    case OpBatch(start, texts, faults) =>
      if texts == [] then (u, Failed(EmptyBatch)) else AppendBatch(decode, u, start, texts, faults)
  }

  /** The chunks accepted after an operation: a refusal and a retry add none. */
  function AcceptedAfter(decode: Decoder, u: Upload, accepted: seq<Bytes>, op: Op): seq<Bytes> {
    if Do(decode, u, op).1.Failed? then accepted
    else match op
      case OpAppend(index, text, _) =>
        var data := decode(text);
        if data.Failed? || IsRetry(u, index, data.value) then accepted else accepted + [data.value]
      case OpBatch(_, texts, _) =>
        var chunks := DecodeAll(decode, texts, u.meta.chunkSize, 0);
        if chunks.Failed? then accepted else accepted + chunks.value
  }

  /** A single append has no rollback: its write must leave no byte behind when it fails. */
  predicate Tidy(op: Op) {
    op.OpAppend? ==> op.fault == Clean || op.fault == WriteCut(0)
  }

  lemma {:induction false} AgreeNext(u: Upload, accepted: seq<Bytes>, index: int, data: Bytes, fault: Fault)
    requires Agree(u, accepted)
    ensures var (v, r) := Apply(u, index, data, fault);
            && (r.Done? <==> index == |accepted| && |u.data| + |data| <= u.meta.totalBytes && fault.Clean?)
            && (r.Done? ==> Agree(v, accepted + [data]))
            && (r.Failed? && (fault.Clean? || fault == WriteCut(0)) ==> v == u)
            && v.meta.totalBytes == u.meta.totalBytes && v.meta.sha256 == u.meta.sha256
            && v.meta.chunkSize == u.meta.chunkSize
  {
    assert (accepted + [data])[..|accepted|] == accepted;
  }

  lemma {:induction false} ApplyAllAgrees(u: Upload, accepted: seq<Bytes>, start: nat, chunks: seq<Bytes>,
                                          faults: nat -> Fault)
    requires Agree(u, accepted) && chunks != []
    ensures var (v, r) := ApplyAll(u, start, chunks, faults);
            && (r.Done? ==> Agree(v, accepted + chunks) && start == |accepted|)
            && v.meta.totalBytes == u.meta.totalBytes && v.meta.sha256 == u.meta.sha256
            && v.meta.chunkSize == u.meta.chunkSize
    decreases |chunks|
  {
    var n := |chunks| - 1;
    if n == 0 {
      AgreeNext(u, accepted, start, chunks[0], faults(0));
      assert chunks == [chunks[0]];
    } else {
      ApplyAllAgrees(u, accepted, start, chunks[..n], faults);
      var (v, r) := ApplyAll(u, start, chunks[..n], faults);
      if r.Done? {
        AgreeNext(v, accepted + chunks[..n], start + n, chunks[n], faults(n));
        assert accepted + chunks == (accepted + chunks[..n]) + [chunks[n]];
      }
    }
  }

  /** No operation changes what an upload was begun with. */
  lemma {:induction false} OpKeepsMeta(decode: Decoder, u: Upload, accepted: seq<Bytes>, op: Op)
    requires Agree(u, accepted)
    ensures var m := Do(decode, u, op).0.meta;
            m.(nextIndex := u.meta.nextIndex, receivedBytes := u.meta.receivedBytes) == u.meta
  {
    match op {
      case OpAppend(index, text, fault) =>
      case OpBatch(start, texts, faults) =>
        var d := DecodeAll(decode, texts, u.meta.chunkSize, 0);
        if texts != [] && d.Done? && d.value != [] {
          ApplyAllKeepsMeta(u, start, d.value, faults);
        }
    }
  }

  lemma {:induction false} ApplyAllKeepsMeta(u: Upload, start: nat, chunks: seq<Bytes>, faults: nat -> Fault)
    requires chunks != []
    ensures var m := ApplyAll(u, start, chunks, faults).0.meta;
            m.(nextIndex := u.meta.nextIndex, receivedBytes := u.meta.receivedBytes) == u.meta
    decreases |chunks|
  {
    if |chunks| > 1 {
      ApplyAllKeepsMeta(u, start, chunks[..|chunks| - 1], faults);
    }
  }

  /** Every operation, accepted or refused, keeps the file and its metadata in agreement. */
  lemma {:induction false} DoKeepsAgreement(decode: Decoder, u: Upload, accepted: seq<Bytes>, op: Op)
    requires Agree(u, accepted) && Tidy(op)
    ensures Agree(Do(decode, u, op).0, AcceptedAfter(decode, u, accepted, op))
    ensures Do(decode, u, op).1.Failed? ==> Do(decode, u, op).0 == u
    ensures Do(decode, u, op).0.meta.totalBytes == u.meta.totalBytes && Do(decode, u, op).0.meta.sha256 == u.meta.sha256
  {
    match op {
      case OpAppend(index, text, fault) =>
        var d := DecodeChunk(decode, text, u.meta.chunkSize);
        if d.Done? {
          AgreeNext(u, accepted, index, d.value, fault);
        }
      case OpBatch(start, texts, faults) =>
        var d := DecodeAll(decode, texts, u.meta.chunkSize, 0);
        if texts != [] && d.Done? && d.value != [] {
          ApplyAllAgrees(u, accepted, start, d.value, faults);
        }
    }
  }

  /** An append that fails on the disk stays in agreement with some list of chunks exactly when no
      byte of it landed. */
  lemma {:induction false} FailedWriteAgrees(u: Upload, accepted: seq<Bytes>, index: int, data: Bytes, fault: Fault)
    requires Agree(u, accepted) && !IsRetry(u, index, data)
    requires AppendDecoded(u, index, data, fault).1 == Failed(DiskFailed)
    ensures (exists any :: Agree(AppendDecoded(u, index, data, fault).0, any)) <==> Landed(data, fault) == []
  {
    var v := AppendDecoded(u, index, data, fault).0;
    if Landed(data, fault) == [] {
      assert v.data == u.data;
      assert Agree(v, accepted);
    } else {
      assert |v.data| > v.meta.receivedBytes;
    }
  }

  function RunOps(decode: Decoder, u: Upload, ops: seq<Op>): Upload {
    if ops == [] then u
    else Do(decode, RunOps(decode, u, ops[..|ops| - 1]), ops[|ops| - 1]).0
  }

  function AcceptedBy(decode: Decoder, u: Upload, accepted: seq<Bytes>, ops: seq<Op>): seq<Bytes> {
    if ops == [] then accepted
    else
      var before := ops[..|ops| - 1];
      AcceptedAfter(decode, RunOps(decode, u, before), AcceptedBy(decode, u, accepted, before), ops[|ops| - 1])
  }

  /** After any sequence of accepted, refused, retried and batched appends the file is exactly the
      concatenation of the chunks accepted, and the metadata counts it. */
  lemma {:induction false} RunAgrees(decode: Decoder, u: Upload, accepted: seq<Bytes>, ops: seq<Op>)
    requires Agree(u, accepted) && forall op :: op in ops ==> Tidy(op)
    ensures Agree(RunOps(decode, u, ops), AcceptedBy(decode, u, accepted, ops))
    ensures RunOps(decode, u, ops).meta.totalBytes == u.meta.totalBytes
    ensures RunOps(decode, u, ops).meta.sha256 == u.meta.sha256
  {
    if ops != [] {
      var before := ops[..|ops| - 1];
      RunAgrees(decode, u, accepted, before);
      DoKeepsAgreement(decode, RunOps(decode, u, before), AcceptedBy(decode, u, accepted, before), ops[|ops| - 1]);
    }
  }

  // ---------------------------------------------------------------------------------------------
  // Retries, batches and the round trip

  /** A repeated index answers success exactly when the bytes are a tail of the file, and changes
      nothing either way. */
  lemma {:induction false} RetryIsIdempotent(u: Upload, accepted: seq<Bytes>, index: int, data: Bytes)
    requires Agree(u, accepted) && index == |accepted| - 1
    ensures AppendDecoded(u, index, data, Clean).0 == u
    ensures AppendDecoded(u, index, data, Clean).1.Done? <==> EndsWith(u.data, data)
    ensures accepted != [] ==> EndsWith(u.data, accepted[|accepted| - 1])
  {
  }

  /** The same chunks, one append at a time. */
  function AppendEach(u: Upload, start: nat, chunks: seq<Bytes>, faults: nat -> Fault): (Upload, Outcome<Reply>)
    requires chunks != []
    decreases |chunks|
  {
    var n := |chunks| - 1;
    if n == 0 then AppendDecoded(u, start, chunks[0], faults(0))
    else
      var (v, r) := AppendEach(u, start, chunks[..n], faults);
      if r.Failed? then (v, r) else AppendDecoded(v, start + n, chunks[n], faults(n))
  }

  /** A batch that succeeds did what the same appends one by one would have done; a batch that fails
      anywhere did nothing. */
  lemma {:induction false} BatchIsAllOrNothing(u: Upload, accepted: seq<Bytes>, start: nat, chunks: seq<Bytes>,
                                               faults: nat -> Fault)
    requires Agree(u, accepted) && chunks != []
    ensures var (v, r) := ApplyBatch(u, start, chunks, faults);
            if r.Done? then (v, r) == AppendEach(u, start, chunks, faults) && Agree(v, accepted + chunks) else v == u
  {
    ApplyAllAgrees(u, accepted, start, chunks, faults);
    if ApplyAll(u, start, chunks, faults).1.Done? {
      ApplyIsAppend(u, accepted, start, chunks, faults);
    }
  }

  lemma {:induction false} ApplyIsAppend(u: Upload, accepted: seq<Bytes>, start: nat, chunks: seq<Bytes>,
                                         faults: nat -> Fault)
    requires Agree(u, accepted) && chunks != [] && ApplyAll(u, start, chunks, faults).1.Done?
    ensures ApplyAll(u, start, chunks, faults) == AppendEach(u, start, chunks, faults)
    decreases |chunks|
  {
    var n := |chunks| - 1;
    if n > 0 {
      ApplyIsAppend(u, accepted, start, chunks[..n], faults);
      ApplyAllAgrees(u, accepted, start, chunks[..n], faults);
    }
  }

  /** A batch succeeds exactly when it starts at the next index, fits the total, and no write of it fails. */
  lemma {:induction false} BatchSucceeds(u: Upload, accepted: seq<Bytes>, start: nat, chunks: seq<Bytes>,
                                         faults: nat -> Fault)
    requires Agree(u, accepted) && chunks != []
    ensures ApplyBatch(u, start, chunks, faults).1.Done? <==>
            && start == |accepted| && |u.data| + |Concat(chunks)| <= u.meta.totalBytes
            && AllClean(faults, |chunks|)
    decreases |chunks|
  {
    var n := |chunks| - 1;
    if n == 0 {
      AgreeNext(u, accepted, start, chunks[0], faults(0));
      assert Concat(chunks[..0]) == [];
    } else {
      BatchSucceeds(u, accepted, start, chunks[..n], faults);
      ApplyAllAgrees(u, accepted, start, chunks[..n], faults);
      assert AllClean(faults, |chunks|) <==> AllClean(faults, n) && faults(n).Clean?;
      var (v, r) := ApplyAll(u, start, chunks[..n], faults);
      if r.Done? {
        AgreeNext(v, accepted + chunks[..n], start + n, chunks[n], faults(n));
        ConcatAppend(accepted, chunks[..n]);
      }
    }
  }

  /** None of the first n writes fails. */
  predicate AllClean(faults: nat -> Fault, n: nat) { forall k :: 0 <= k < n ==> faults(k).Clean? }

  lemma {:induction false} ConcatAppend(a: seq<Bytes>, b: seq<Bytes>)
    ensures Concat(a + b) == Concat(a) + Concat(b)
  {
    if b == [] {
      assert a + b == a;
    } else {
      assert (a + b)[..|a + b| - 1] == a + b[..|b| - 1];
      ConcatAppend(a, b[..|b| - 1]);
    }
  }

  /** How many of the chunks are sent once an operation is through, if it is one of an upload in order: the
      next slice or a batch of the next slices, which may fail on the disk and then leave nothing behind, a
      repeat of the last slice, or a request for any other place. */
  function SentAfter(decode: Decoder, chunkSize: nat, chunks: seq<Bytes>, sent: nat, op: Op): (r: Outcome<nat>)
    requires sent <= |chunks|
    ensures r.Done? ==> r.value <= |chunks|
  {
    match op
    case OpAppend(index, text, fault) =>
      var data := DecodeChunk(decode, text, chunkSize);
      if !Tidy(op) then Failed(DiskFailed)
      else if index == sent then
        if sent < |chunks| && data == Done(chunks[sent]) then Done(if fault.Clean? then sent + 1 else sent)
        else Failed(Hole)
      else if sent > 0 && index == sent - 1 && data != Done(chunks[sent - 1]) then Failed(Hole)
      else Done(sent)
    case OpBatch(start, texts, faults) =>
      if start != sent then Done(sent)
      else if sent + |texts| <= |chunks| && DecodeAll(decode, texts, chunkSize, 0) == Done(chunks[sent..sent + |texts|])
      then Done(if AllClean(faults, |texts|) then sent + |texts| else sent)
      else Failed(Hole)
  }

  /** An upload in order: all chunks are sent in the end. */
  predicate InOrder(decode: Decoder, chunkSize: nat, chunks: seq<Bytes>, sent: nat, ops: seq<Op>)
    requires sent <= |chunks|
    decreases |ops|
  {
    if ops == [] then sent == |chunks|
    else
      var next := SentAfter(decode, chunkSize, chunks, sent, ops[0]);
      next.Done? && InOrder(decode, chunkSize, chunks, next.value, ops[1..])
  }

  function RunFront(decode: Decoder, u: Upload, ops: seq<Op>): Upload
    decreases |ops|
  {
    if ops == [] then u else RunFront(decode, Do(decode, u, ops[0]).0, ops[1..])
  }

  lemma {:induction false} PrefixFits(chunks: seq<Bytes>, n: nat)
    requires n <= |chunks|
    ensures |Concat(chunks[..n])| <= |Concat(chunks)|
  {
    ConcatAppend(chunks[..n], chunks[n..]);
    assert chunks == chunks[..n] + chunks[n..];
  }

  lemma {:induction false} AppendKeepsSent(decode: Decoder, u: Upload, chunks: seq<Bytes>, sent: nat, op: Op)
    requires sent <= |chunks| && Agree(u, chunks[..sent]) && |Concat(chunks)| == u.meta.totalBytes
    requires op.OpAppend? && SentAfter(decode, u.meta.chunkSize, chunks, sent, op).Done?
    ensures Agree(Do(decode, u, op).0, chunks[..SentAfter(decode, u.meta.chunkSize, chunks, sent, op).value])
  {
    DoKeepsAgreement(decode, u, chunks[..sent], op);
    if op.index == sent {
      PrefixFits(chunks, sent + 1);
      AgreeNext(u, chunks[..sent], sent, chunks[sent], op.fault);
      assert chunks[..sent + 1] == chunks[..sent] + [chunks[sent]];
    }
  }

  /** A batch of the next slices sends them all, or none. */
  lemma {:induction false} BatchLands(u: Upload, chunks: seq<Bytes>, sent: nat, n: nat, faults: nat -> Fault)
    requires sent < n <= |chunks| && Agree(u, chunks[..sent]) && |Concat(chunks)| == u.meta.totalBytes
    ensures Agree(ApplyBatch(u, sent, chunks[sent..n], faults).0,
                  chunks[..if AllClean(faults, n - sent) then n else sent])
  {
    BatchSucceeds(u, chunks[..sent], sent, chunks[sent..n], faults);
    BatchIsAllOrNothing(u, chunks[..sent], sent, chunks[sent..n], faults);
    PrefixFits(chunks, n);
    ConcatAppend(chunks[..sent], chunks[sent..n]);
    assert chunks[..n] == chunks[..sent] + chunks[sent..n];
  }

  lemma {:induction false} BatchKeepsSent(decode: Decoder, u: Upload, chunks: seq<Bytes>, sent: nat, op: Op)
    requires sent <= |chunks| && Agree(u, chunks[..sent]) && |Concat(chunks)| == u.meta.totalBytes
    requires op.OpBatch? && SentAfter(decode, u.meta.chunkSize, chunks, sent, op).Done?
    ensures Agree(Do(decode, u, op).0, chunks[..SentAfter(decode, u.meta.chunkSize, chunks, sent, op).value])
  {
    if op.start == sent && op.texts != [] {
      BatchLands(u, chunks, sent, sent + |op.texts|, op.faults);
    } else {
      var decoded := DecodeAll(decode, op.texts, u.meta.chunkSize, 0);
      if decoded.Done? && decoded.value != [] {
        ApplyAllAgrees(u, chunks[..sent], op.start, decoded.value, op.faults);
      }
    }
  }

  /** However the file is sliced and batched, whatever is repeated and whichever writes fail, the upload
      ends with exactly the file. */
  lemma {:induction false} UploadRoundTrip(decode: Decoder, u: Upload, chunks: seq<Bytes>, sent: nat, ops: seq<Op>)
    requires sent <= |chunks| && Agree(u, chunks[..sent]) && |Concat(chunks)| == u.meta.totalBytes
    requires InOrder(decode, u.meta.chunkSize, chunks, sent, ops)
    ensures var v := RunFront(decode, u, ops);
            v.data == Concat(chunks) && v.meta.totalBytes == u.meta.totalBytes && v.meta.sha256 == u.meta.sha256
    decreases |ops|
  {
    if ops == [] {
      assert chunks[..sent] == chunks;
    } else {
      var op := ops[0];
      if op.OpAppend? {
        AppendKeepsSent(decode, u, chunks, sent, op);
      } else {
        BatchKeepsSent(decode, u, chunks, sent, op);
      }
      OpKeepsMeta(decode, u, chunks[..sent], op);
      UploadRoundTrip(decode, Do(decode, u, op).0, chunks, SentAfter(decode, u.meta.chunkSize, chunks, sent, op).value,
                      ops[1..]);
    }
  }

  function Take(hash: Bytes -> string, u: Upload): Outcome<Bytes> {
    if |u.data| != u.meta.totalBytes then Failed(Incomplete)
    else if hash(u.data) != u.meta.sha256 then Failed(DigestMismatch)
    else Done(u.data)
  }

  /** The file taken is the file uploaded. */
  lemma {:induction false} TakeReturnsTheFile(decode: Decoder, hash: Bytes -> string, u: Upload, file: Bytes,
                                              chunks: seq<Bytes>, ops: seq<Op>)
    requires Agree(u, []) && Concat(chunks) == file && u.meta.totalBytes == |file| && u.meta.sha256 == hash(file)
    requires InOrder(decode, u.meta.chunkSize, chunks, 0, ops)
    ensures Take(hash, RunFront(decode, u, ops)) == Done(file)
  {
    assert chunks[..0] == [];
    UploadRoundTrip(decode, u, chunks, 0, ops);
  }

  // ---------------------------------------------------------------------------------------------
  // The store

  predicate IsHex(s: string, n: nat) {
    |s| == n && forall i :: 0 <= i < n ==> '0' <= s[i] <= '9' || 'a' <= s[i] <= 'f'
  }

  function Live(uploads: map<string, Upload>, now: real): map<string, Upload> {
    map id | id in uploads && uploads[id].meta.createdAt > now - TTL_SECONDS :: uploads[id]
  }

  /** Where an operation that names an upload finds it: expired uploads go first, at `now`; the age
      is looked at again at `later`. */
  function Locate(uploads: map<string, Upload>, idText: string, now: real, later: real)
    : (map<string, Upload>, Outcome<string>) {
    var live, id := Live(uploads, now), Canon(idText);
    if !IsHex(id, 32) then (live, Failed(BadUploadId))
    else if id !in live then (live, Failed(UnknownUpload))
    else if later - live[id].meta.createdAt > TTL_SECONDS then (live - {id}, Failed(UnknownUpload))
    else (live, Done(id))
  }

  /** An upload is found if and only if it is young enough at both looks, the second allowing it one
      instant more; nobody else's upload is touched unless it is too old. */
  lemma {:induction false} LocateFinds(uploads: map<string, Upload>, idText: string, now: real, later: real)
    requires now <= later
    ensures var (live, r), id := Locate(uploads, idText, now, later), Canon(idText);
            && (r.Done? <==>
                && IsHex(id, 32) && id in uploads
                && now - uploads[id].meta.createdAt < TTL_SECONDS && later - uploads[id].meta.createdAt <= TTL_SECONDS)
            && (r.Done? ==> r.value == id && id in live)
            && (forall k :: k in live ==> k in uploads && live[k] == uploads[k])
            && (forall k :: k in uploads && later - uploads[k].meta.createdAt < TTL_SECONDS ==> k in live)
  {
  }

  class UploadStore {
    const decode: Decoder
    const hash: Bytes -> string
    const sanitize: string -> string
    var uploads: map<string, Upload>

    constructor (decode: Decoder, hash: Bytes -> string, sanitize: string -> string)
      ensures this.decode == decode && this.hash == hash && this.sanitize == sanitize && uploads == map[]
    {
      this.decode := decode;
      this.hash := hash;
      this.sanitize := sanitize;
      uploads := map[];
    }

    /** Deletes every upload whose time is over, and nothing else. */
    method ExpireUploads(now: real)
      modifies this
      ensures forall id :: id in uploads <==>
                id in old(uploads) && now - old(uploads)[id].meta.createdAt < TTL_SECONDS
      ensures forall id :: id in uploads ==> uploads[id] == old(uploads)[id]
    {
      var deadline := now - TTL_SECONDS;
      var children := uploads.Keys;
      while children != {}
        invariant children <= uploads.Keys
        invariant forall id :: id in uploads <==>
                    id in old(uploads) && (id in children || old(uploads)[id].meta.createdAt > deadline)
        invariant forall id :: id in uploads ==> uploads[id] == old(uploads)[id]
        decreases children
      {
        var child :| child in children;
        children := children - {child};
        if uploads[child].meta.createdAt <= deadline {
          uploads := uploads - {child};
        }
      }
    }

    method LoadLive(idText: string, now: real, later: real) returns (r: Outcome<string>)
      modifies this
      ensures (uploads, r) == Locate(old(uploads), idText, now, later)
      ensures r.Done? ==> r.value in uploads
    {
      ExpireUploads(now);
      assert uploads == Live(old(uploads), now);
      var id := Canon(idText);
      if !IsHex(id, 32) {
        return Failed(BadUploadId);
      }
      if id !in uploads {
        return Failed(UnknownUpload);
      }
      if later - uploads[id].meta.createdAt > TTL_SECONDS {
        uploads := uploads - {id};
        return Failed(UnknownUpload);
      }
      r := Done(id);
    }

    /** A new upload starts in agreement with no chunk at all, under an id nobody has. */
    method BeginUpload(fileName: string, totalBytes: int, shaText: string, owner: PlayTypes.Option<string>,
                       chunkSize: nat, candidates: seq<string>, now: real)
      returns (r: Outcome<string>)
      modifies this
      ensures r.Done? ==>
                && r.value in candidates && r.value !in Live(old(uploads), now) && r.value in uploads
                && uploads == Live(old(uploads), now)[r.value := uploads[r.value]]
                && Agree(uploads[r.value], [])
                && uploads[r.value].meta.totalBytes == totalBytes && 0 < totalBytes <= MAX_ROM_BYTES
                && uploads[r.value].meta.sha256 == Canon(shaText) && IsHex(Canon(shaText), 64)
                && uploads[r.value].meta.chunkSize == chunkSize && uploads[r.value].meta.createdAt == now
                && uploads[r.value].meta.fileName == sanitize(fileName) && uploads[r.value].meta.owner == owner
      ensures r.Failed? && r.error != NoFreeId ==> uploads == old(uploads)
      ensures r == Failed(BadTotal) <==> totalBytes <= 0
      ensures r == Failed(TotalTooBig) <==> totalBytes > MAX_ROM_BYTES
      ensures r == Failed(BadDigest) <==> 0 < totalBytes <= MAX_ROM_BYTES && !IsHex(Canon(shaText), 64)
      ensures r == Failed(NoFreeId) ==>
                uploads == Live(old(uploads), now) && forall i :: 0 <= i < 8 && i < |candidates| ==>
                    candidates[i] in uploads
    {
      if totalBytes <= 0 {
        return Failed(BadTotal);
      }
      if totalBytes > MAX_ROM_BYTES {
        return Failed(TotalTooBig);
      }
      var digest := Canon(shaText);
      if !IsHex(digest, 64) {
        return Failed(BadDigest);
      }
      var safe := sanitize(fileName);
      ExpireUploads(now);
      assert uploads == Live(old(uploads), now);
      for i := 0 to 8
        invariant uploads == Live(old(uploads), now)
        invariant forall k :: 0 <= k < i && k < |candidates| ==> candidates[k] in uploads
      {
        if i < |candidates| && candidates[i] !in uploads {
          uploads := uploads[candidates[i] := Upload([], Meta(safe, owner, totalBytes, digest, chunkSize, 0, 0, now))];
          return Done(candidates[i]);
        }
      }
      r := Failed(NoFreeId);
    }

    /** Writes one decoded chunk to data.bin, then rewrites meta.json. */
    method ApplyDecodedChunk(id: string, index: int, data: Bytes, fault: Fault) returns (r: Outcome<Reply>)
      requires id in uploads
      modifies this
      ensures id in uploads && (uploads[id], r) == Apply(old(uploads)[id], index, data, fault)
      ensures uploads == old(uploads)[id := uploads[id]]
    {
      var meta := uploads[id].meta;
      if index != meta.nextIndex {
        return Failed(Hole);
      }
      var received := meta.receivedBytes + |data|;
      if received > meta.totalBytes {
        return Failed(PastTotal);
      }
      uploads := uploads[id := uploads[id].(data := uploads[id].data + Landed(data, fault))];
      if !fault.Clean? {
        return Failed(DiskFailed);
      }
      meta := meta.(receivedBytes := received, nextIndex := index + 1);
      uploads := uploads[id := uploads[id].(meta := meta)];
      r := Done(Reply(received, index + 1, meta.totalBytes));
    }

    method RollbackUpload(id: string, metaBefore: Meta, sizeBefore: nat)
      requires id in uploads && sizeBefore <= |uploads[id].data|
      modifies this
      ensures uploads == old(uploads)[id := Upload(old(uploads)[id].data[..sizeBefore], metaBefore)]
    {
      uploads := uploads[id := uploads[id].(data := uploads[id].data[..sizeBefore])];
      uploads := uploads[id := uploads[id].(meta := metaBefore)];
    }

    method AppendOne(idText: string, index: int, text: string, fault: Fault, now: real, later: real)
      returns (r: Outcome<Reply>)
      modifies this
      ensures index < 0 ==> r == Failed(BadIndex) && uploads == old(uploads)
      ensures index >= 0 && text == "" ==> r == Failed(TextRequired) && uploads == old(uploads)
      ensures index >= 0 && text != "" ==>
                match Locate(old(uploads), idText, now, later)
                case (live, Failed(e)) => r == Failed(e) && uploads == live
                case (live, Done(id)) =>
                  && id in live && id in uploads && uploads == live[id := uploads[id]]
                  && (uploads[id], r) == AppendChunk(decode, live[id], index, text, fault)
    {
      if index < 0 {
        return Failed(BadIndex);
      }
      if text == "" {
        return Failed(TextRequired);
      }
      var found := LoadLive(idText, now, later);
      if found.Failed? {
        return Failed(found.error);
      }
      var id := found.value;
      var u := uploads[id];
      var decoded := DecodeChunk(decode, text, u.meta.chunkSize);
      if decoded.Failed? {
        return Failed(decoded.error);
      }
      var data := decoded.value;
      if index == u.meta.nextIndex - 1 && |data| <= u.meta.receivedBytes && EndsWith(u.data, data) {
        return Done(Reply(u.meta.receivedBytes, u.meta.nextIndex, u.meta.totalBytes));
      }
      r := ApplyDecodedChunk(id, index, data, fault);
    }

    method DecodeEach(texts: seq<string>, chunkSize: nat) returns (r: Outcome<seq<Bytes>>)
      ensures r == DecodeAll(decode, texts, chunkSize, 0)
      ensures r.Done? ==> |r.value| == |texts|
    {
      var decoded: seq<Bytes> := [];
      var total := 0;
      assert texts[0..] == texts;
      PrefixedNone(DecodeAll(decode, texts, chunkSize, 0));
      for i := 0 to |texts|
        invariant |decoded| == i && total >= 0
        invariant DecodeAll(decode, texts, chunkSize, 0)
            == Prefixed(decoded, DecodeAll(decode, texts[i..], chunkSize, total))
      {
        assert texts[i..][0] == texts[i] && texts[i..][1..] == texts[i + 1..];
        var d := DecodeChunk(decode, texts[i], chunkSize);
        if d.Failed? {
          return Failed(d.error);
        }
        total := total + |d.value|;
        if total > BATCH_MAX_BYTES {
          return Failed(BatchTooBig);
        }
        PrefixedOne(decoded, d.value, DecodeAll(decode, texts[i + 1..], chunkSize, total));
        decoded := decoded + [d.value];
      }
      assert texts[|texts|..] == [] && decoded + [] == decoded;
      r := Done(decoded);
    }

    /** Applies the chunks in a row; a failure at any point restores the file and the metadata. */
    method ApplyOrRollBack(id: string, start: nat, chunks: seq<Bytes>, faults: nat -> Fault) returns (r: Outcome<Reply>)
      requires id in uploads && chunks != []
      modifies this
      ensures id in uploads && (uploads[id], r) == ApplyBatch(old(uploads)[id], start, chunks, faults)
      ensures uploads == old(uploads)[id := uploads[id]]
    {
      var before := uploads[id];
      r := ApplyDecodedChunk(id, start, chunks[0], faults(0));
      assert chunks[..1] == [chunks[0]];
      var offset := 1;
      while offset < |chunks| && r.Done?
        invariant 1 <= offset <= |chunks| && id in uploads && uploads == old(uploads)[id := uploads[id]]
        invariant (uploads[id], r) == ApplyAll(before, start, chunks[..offset], faults)
        invariant before.data <= uploads[id].data
      {
        assert chunks[..offset + 1][..offset] == chunks[..offset];
        r := ApplyDecodedChunk(id, start + offset, chunks[offset], faults(offset));
        offset := offset + 1;
      }
      assert chunks[..|chunks|] == chunks;
      if r.Failed? {
        FailureSticks(before, start, chunks, faults, offset);
        RollbackUpload(id, before.meta, |before.data|);
        assert uploads[id] == before;
      }
    }

    /** Once a chunk has failed, the rest of the batch is not tried. */
    lemma {:induction false} FailureSticks(u: Upload, start: nat, chunks: seq<Bytes>, faults: nat -> Fault, k: nat)
      requires 0 < k <= |chunks| && ApplyAll(u, start, chunks[..k], faults).1.Failed?
      ensures ApplyAll(u, start, chunks, faults) == ApplyAll(u, start, chunks[..k], faults)
      decreases |chunks|
    {
      if k == |chunks| {
        assert chunks[..k] == chunks;
      } else {
        var n := |chunks| - 1;
        assert chunks[..n][..k] == chunks[..k];
        FailureSticks(u, start, chunks[..n], faults, k);
      }
    }

    method AppendMany(idText: string, start: int, texts: seq<string>, faults: nat -> Fault, now: real, later: real)
      returns (r: Outcome<Reply>)
      modifies this
      ensures start < 0 ==> r == Failed(BadIndex) && uploads == old(uploads)
      ensures start >= 0 && texts == [] ==> r == Failed(EmptyBatch) && uploads == old(uploads)
      ensures start >= 0 && |texts| > BATCH_MAX_CHUNKS ==> r == Failed(BatchTooLong) && uploads == old(uploads)
      ensures start >= 0 && 0 < |texts| <= BATCH_MAX_CHUNKS && "" in texts ==>
                r == Failed(TextRequired) && uploads == old(uploads)
      ensures start >= 0 && 0 < |texts| <= BATCH_MAX_CHUNKS && "" !in texts ==>
                match Locate(old(uploads), idText, now, later)
                case (live, Failed(e)) => r == Failed(e) && uploads == live
                case (live, Done(id)) =>
                  && id in live && id in uploads && uploads == live[id := uploads[id]]
                  && (uploads[id], r) == AppendBatch(decode, live[id], start, texts, faults)
    {
      if start < 0 {
        return Failed(BadIndex);
      }
      if texts == [] {
        return Failed(EmptyBatch);
      }
      if |texts| > BATCH_MAX_CHUNKS {
        return Failed(BatchTooLong);
      }
      if "" in texts {
        return Failed(TextRequired);
      }
      var found := LoadLive(idText, now, later);
      if found.Failed? {
        return Failed(found.error);
      }
      var id := found.value;
      var decoded := DecodeEach(texts, uploads[id].meta.chunkSize);
      if decoded.Failed? {
        return Failed(decoded.error);
      }
      r := ApplyOrRollBack(id, start, decoded.value, faults);
    }

    method TakeAssembled(idText: string, now: real, later: real) returns (r: Outcome<Bytes>)
      modifies this
      ensures match Locate(old(uploads), idText, now, later)
              case (live, Failed(e)) => r == Failed(e) && uploads == live
              case (live, Done(id)) => id in live && uploads == live && r == Take(hash, live[id])
    {
      var found := LoadLive(idText, now, later);
      if found.Failed? {
        return Failed(found.error);
      }
      var u := uploads[found.value];
      if |u.data| != u.meta.totalBytes {
        return Failed(Incomplete);
      }
      if hash(u.data) != u.meta.sha256 {
        return Failed(DigestMismatch);
      }
      r := Done(u.data);
    }
  }
}
