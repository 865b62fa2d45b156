/** The data plane of a file transfer: the chunking sender (filetransfer/sender.go) and the
    reassembling receiver (filetransfer/receiver.go). */
module ChunkStream {
  import opened Basics
  import opened ChunkCipher
  import opened TransferState

  const DEFAULT_CHUNK_SIZE := 64 * 1024
  const FLAG_DATA: Byte := 1
  const FLAG_FIN: Byte := 2
  const ACK_INTERVAL := 100

  datatype DataFrame = DataFrame(seqNo: UInt32, flags: Byte, payload: Payload)

  predicate HasFlag(flags: Byte, bit: Byte)
    requires bit > 0
  {
    flags / bit % 2 == 1
  }

  // ---- Sending ---------------------------------------------------------------------------

  /** What the sender transmits: the file, the agreed key, and the wire bytes the cipher will
      pick for the chunk at each sequence number. */
  datatype Source = Source(fileId: string, file: Bytes, key: Option<Key>, wire: UInt32 -> Bytes)

  function Next(s: UInt32): UInt32 {
    Truncate32(s + 1)
  }

  lemma NextOf(number: nat)
    ensures Next(Truncate32(number)) == Truncate32(number + 1)
  {
  }

  function Wrap(src: Source, seqNo: UInt32, chunk: Bytes): Payload {
    match src.key
    case None => Clear(chunk)
    case Some(k) => EncryptChunk(k, src.wire(seqNo), chunk, ChunkAAD(src.fileId, seqNo))
  }

  function Sum(cuts: seq<nat>): nat {
    if cuts == [] then 0 else cuts[0] + Sum(cuts[1..])
  }

  /** The sizes that successive reads of the file may return: each one is positive and fits the
      buffer, and together they exhaust what is left of the file. */
  predicate ValidReads(cuts: seq<nat>, left: nat, chunkSize: nat) {
    Sum(cuts) == left && forall i :: 0 <= i < |cuts| ==> 0 < cuts[i] <= chunkSize
  }

  /** Data frames for successive reads from the offset on. The number is counted without
      bound and wrapped where it is written into a frame. */
  function DataFrames(src: Source, offset: nat, number: nat, cuts: seq<nat>): (fs: seq<DataFrame>)
    requires cuts == [] || offset + Sum(cuts) <= |src.file|
    ensures |fs| == |cuts|
    decreases |cuts|
  {
    if cuts == [] then []
    else
      var chunk := src.file[offset..offset + cuts[0]];
      [DataFrame(Truncate32(number), FLAG_DATA, Wrap(src, Truncate32(number), chunk))]
      + DataFrames(src, offset + cuts[0], number + 1, cuts[1..])
  }

  function FinFrame(number: nat): DataFrame {
    DataFrame(Truncate32(number), FLAG_FIN, Clear([]))
  }

  /** Everything one run of the send loop puts on the channel. */
  function Emission(src: Source, offset: nat, number: nat, cuts: seq<nat>): seq<DataFrame>
    requires cuts == [] || offset + Sum(cuts) <= |src.file|
  {
    DataFrames(src, offset, number, cuts) + [FinFrame(number + |cuts|)]
  }

  function StartSeq(lastConfirmed: UInt32): UInt32 {
    Next(lastConfirmed)
  }

  function StartOffset(lastConfirmed: UInt32, chunkSize: nat): nat {
    var start := StartSeq(lastConfirmed);
    if start > 1 then (start - 1) * chunkSize else 0
  }

  function Left(file: Bytes, offset: nat): nat {
    if offset <= |file| then |file| - offset else 0
  }

  /** An error that ends the send loop when the given number of chunks is out: a cancelled context,
      at the head of the loop or while waiting for the token, or a failure to open, seek, read,
      encrypt or send. */
  datatype Fault = Fault(after: nat, error: string)

  /** The frames that are out, and the error. A fault after the last chunk keeps back the FIN. */
  predicate Stopped(fault: Option<Fault>, cuts: seq<nat>) {
    fault.Some? && fault.value.after <= |cuts|
  }

  /** The send loop. The list of read sizes says how the operating system splits the reads. */
  method SendLoop(src: Source, chunkSize: nat, lastConfirmed: UInt32, cuts: seq<nat>, fault: Option<Fault>)
    returns (sent: seq<DataFrame>, bytesSent: nat, error: Option<string>)
    requires chunkSize > 0
    requires ValidReads(cuts, Left(src.file, StartOffset(lastConfirmed, chunkSize)), chunkSize)
    ensures !Stopped(fault, cuts) ==>
              && sent == Emission(src, StartOffset(lastConfirmed, chunkSize), StartSeq(lastConfirmed), cuts)
              && bytesSent == Left(src.file, StartOffset(lastConfirmed, chunkSize)) && error == None
    ensures Stopped(fault, cuts) ==>
              && sent == Emission(src, StartOffset(lastConfirmed, chunkSize), StartSeq(lastConfirmed), cuts)[..fault.value.after]
              && bytesSent == Sum(cuts[..fault.value.after]) && error == Some(fault.value.error)
  {
    var startSeq := Next(lastConfirmed);
    var offset := 0;
    if startSeq > 1 {
      offset := (startSeq - 1) * chunkSize;
    }
    sent, bytesSent, error := SendFrom(src, chunkSize, offset, startSeq, cuts, fault);
  }

  /** One read of n bytes into the reused buffer. */
  method ReadInto(buf: array<Byte>, file: Bytes, position: nat, n: nat)
    requires n <= buf.Length && position + n <= |file|
    modifies buf
    ensures buf[..n] == file[position..position + n]
  {
    forall i | 0 <= i < n {
      buf[i] := file[position + i];
    }
  }

  method SendFrom(src: Source, chunkSize: nat, offset: nat, startSeq: UInt32, cuts: seq<nat>, fault: Option<Fault>)
    returns (sent: seq<DataFrame>, bytesSent: nat, error: Option<string>)
    requires ValidReads(cuts, Left(src.file, offset), chunkSize)
    ensures !Stopped(fault, cuts) ==>
              sent == Emission(src, offset, startSeq, cuts) && bytesSent == Left(src.file, offset) && error == None
    ensures Stopped(fault, cuts) ==>
              && sent == Emission(src, offset, startSeq, cuts)[..fault.value.after]
              && bytesSent == Sum(cuts[..fault.value.after]) && error == Some(fault.value.error)
  {
    var buf := new Byte[chunkSize];
    var position, seqNo := offset, startSeq;
    sent, bytesSent := [], 0;
    ghost var all := DataFrames(src, offset, startSeq, cuts);
    var k := 0;
    while k < |cuts|
      invariant 0 <= k <= |cuts| && |all| == |cuts|
      invariant fault.Some? ==> fault.value.after >= k
      invariant bytesSent == Sum(cuts[..k]) && position == offset + bytesSent
      invariant seqNo == Truncate32(startSeq + k)
      invariant sent == all[..k]
    {
      if fault.Some? && fault.value.after == k {
        assert all[..k] == Emission(src, offset, startSeq, cuts)[..k];
        return sent, bytesSent, Some(fault.value.error);
      }
      FrameAt(src, offset, startSeq, cuts, k);
      ReadInto(buf, src.file, position, cuts[k]);
      sent := sent + [DataFrame(seqNo, FLAG_DATA, Wrap(src, seqNo, buf[..cuts[k]]))];
      bytesSent, position := bytesSent + cuts[k], position + cuts[k];
      NextOf(startSeq + k);
      seqNo := Next(seqNo);
      k := k + 1;
    }
    assert cuts[..k] == cuts;
    if fault.Some? && fault.value.after == k {
      assert all == Emission(src, offset, startSeq, cuts)[..k];
      return sent, bytesSent, Some(fault.value.error);
    }
    sent := sent + [DataFrame(seqNo, FLAG_FIN, Clear([]))];
    error := None;
  }

  /** The k-th data frame, and how far into the file it starts. */
  lemma {:induction false} FrameAt(src: Source, offset: nat, number: nat, cuts: seq<nat>, k: nat)
    requires k < |cuts| && offset + Sum(cuts) <= |src.file|
    ensures Sum(cuts[..k + 1]) == Sum(cuts[..k]) + cuts[k] <= Sum(cuts)
    ensures var at, s := offset + Sum(cuts[..k]), Truncate32(number + k);
            DataFrames(src, offset, number, cuts)[k] ==
              DataFrame(s, FLAG_DATA, Wrap(src, s, src.file[at..at + cuts[k]]))
    decreases k
  {
    if k == 0 {
      assert cuts[..0] == [] && cuts[..1] == [cuts[0]] && [cuts[0]][1..] == [];
    } else {
      assert cuts[..k][1..] == cuts[1..][..k - 1] && cuts[..k + 1][1..] == cuts[1..][..k];
      FrameAt(src, offset + cuts[0], number + 1, cuts[1..], k - 1);
    }
  }

  // ---- Receiving -------------------------------------------------------------------------

  /** A write either takes the whole chunk or fails after some of it. */
  datatype WriteResult = Whole | Short(accepted: nat)

  /** The receiver's state: the transfer record, the output file, the counters, and the control
      messages it has sent. */
  datatype Intake = Intake(record: Record, written: Bytes, bytesRecv: nat, chunkCount: UInt32,
                           acks: seq<UInt32>, completes: seq<bool>)

  function Plaintext(fileId: string, key: Option<Key>, fr: DataFrame): Option<Bytes> {
    match key
    case Some(k) => DecryptChunk(k, fr.payload, ChunkAAD(fileId, fr.seqNo))
    case None => Some(if fr.payload.Clear? then fr.payload.chunk else fr.payload.wire)
  }

  function OnChunk(fileId: string, i: Intake, fr: DataFrame, w: WriteResult, now: int): Intake {
    match Plaintext(fileId, i.record.sessionKey, fr)
    case None =>
      i.(record := Moved(i.record.(error := "decrypt chunk"), Failed, now))
    case Some(p) =>
      if w.Short? then
        i.(written := i.written + p[..if w.accepted <= |p| then w.accepted else |p|],
           record := Moved(i.record.(error := "write"), Failed, now))
      else
        var count := Next(i.chunkCount);
        i.(written := i.written + p,
           bytesRecv := i.bytesRecv + |p|,
           record := i.record.(lastActive := now, lastConfirmed := fr.seqNo),
           chunkCount := count,
           acks := if count % ACK_INTERVAL == 0 then i.acks + [fr.seqNo] else i.acks)
  }

  /** Whether the received file matches the offered digest; hashOk is false when reading the
      file back fails. Without an offered digest there is nothing to verify. */
  predicate Verified(i: Intake, hashOk: bool) {
    i.record.digest.None? || (hashOk && i.record.digest.value == Digest(i.written))
  }

  function Announce(i: Intake, verified: bool): Intake {
    i.(completes := i.completes + [verified])
  }

  function CloseOut(r: Record, verified: bool, now: int): Record {
    if verified then Moved(Moved(r, Completing, now), Done, now)
    else Moved(r.(error := "SHA-256 mismatch"), Failed, now)
  }

  function OnFrame(fileId: string, i: Intake, fr: DataFrame, w: WriteResult, hashOk: bool, now: int): Intake {
    if HasFlag(fr.flags, FLAG_FIN) then
      Announce(i, Verified(i, hashOk)).(record := CloseOut(i.record, Verified(i, hashOk), now))
    else if !HasFlag(fr.flags, FLAG_DATA) then i
    else OnChunk(fileId, i, fr, w, now)
  }

  /** The receiving end of one data channel. */
  class Receiver {
    const transfer: Transfer
    const fileId: string
    var written: Bytes
    var bytesRecv: nat
    var chunkCount: UInt32
    var acks: seq<UInt32>
    var completes: seq<bool>

    function Snapshot(): Intake
      reads this, transfer
    {
      Intake(transfer.Snapshot(), written, bytesRecv, chunkCount, acks, completes)
    }

    /** Creating the output file empties it. */
    constructor (fileId: string, transfer: Transfer)
      ensures this.transfer == transfer && this.fileId == fileId
      ensures Snapshot() == Intake(transfer.Snapshot(), [], 0, 0, [], [])
    {
      this.transfer := transfer;
      this.fileId := fileId;
      written, bytesRecv, chunkCount, acks, completes := [], 0, 0, [], [];
    }

    method OnMessage(fr: DataFrame, w: WriteResult, hashOk: bool, now: int)
      modifies this, transfer
      ensures Snapshot() == OnFrame(fileId, old(Snapshot()), fr, w, hashOk, now)
    {
      if HasFlag(fr.flags, FLAG_FIN) {
        Finalize(hashOk, now);
        return;
      }
      if !HasFlag(fr.flags, FLAG_DATA) {
        return;
      }
      var plain := Plaintext(fileId, transfer.sessionKey, fr);
      if plain == None {
        transfer.error := "decrypt chunk";
        var _ := transfer.Transition(Failed, now);
        return;
      }
      var p := plain.value;
      if w.Short? {
        written := written + p[..if w.accepted <= |p| then w.accepted else |p|];
        transfer.error := "write";
        var _ := transfer.Transition(Failed, now);
        return;
      }
      written := written + p;
      bytesRecv := bytesRecv + |p|;
      transfer.lastActive := now;
      transfer.lastConfirmed := fr.seqNo;
      chunkCount := Next(chunkCount);
      if chunkCount % ACK_INTERVAL == 0 {
        acks := acks + [fr.seqNo];
      }
    }

    method Finalize(hashOk: bool, now: int)
      modifies this, transfer
      ensures var i := old(Snapshot());
              Snapshot() == Announce(i, Verified(i, hashOk)).(record := CloseOut(i.record, Verified(i, hashOk), now))
    {
      var verified := transfer.digest == None || (hashOk && transfer.digest.value == Digest(written));
      completes := completes + [verified];
      if verified {
        var _ := transfer.Transition(Completing, now);
        var _ := transfer.Transition(Done, now);
      } else {
        transfer.error := "SHA-256 mismatch";
        var _ := transfer.Transition(Failed, now);
      }
    }
  }

  // ---- The stream law --------------------------------------------------------------------

  /** Frames handled in order, without write faults, at time now. */
  function ReceiveAll(fileId: string, i: Intake, fs: seq<DataFrame>, now: int): Intake
    decreases |fs|
  {
    if fs == [] then i else ReceiveAll(fileId, OnFrame(fileId, i, fs[0], Whole, true, now), fs[1..], now)
  }

  lemma {:induction false} ReceiveAllSplit(fileId: string, i: Intake, fs: seq<DataFrame>, gs: seq<DataFrame>, now: int)
    ensures ReceiveAll(fileId, i, fs + gs, now) == ReceiveAll(fileId, ReceiveAll(fileId, i, fs, now), gs, now)
    decreases |fs|
  {
    if fs == [] {
      assert fs + gs == gs;
    } else {
      assert (fs + gs)[1..] == fs[1..] + gs;
      ReceiveAllSplit(fileId, OnFrame(fileId, i, fs[0], Whole, true, now), fs[1..], gs, now);
    }
  }

  /** The plaintext length a frame carries. */
  function PayloadSize(fr: DataFrame): nat {
    match fr.payload
    case Clear(c) => |c|
    case Sealed(_, _, _, p) => |p|
  }

  function InFlight(fs: seq<DataFrame>): nat {
    if fs == [] then 0 else PayloadSize(fs[0]) + InFlight(fs[1..])
  }

  /** The receiver holds the key the sender uses and a file that reaches up to the offset. */
  predicate InStep(src: Source, i: Intake, offset: nat) {
    offset <= |src.file| && i.written == src.file[..offset] && i.record.sessionKey == src.key
  }

  lemma ReceiveChunk(src: Source, offset: nat, seqNo: UInt32, n: nat, i: Intake, now: int)
    requires offset + n <= |src.file| && InStep(src, i, offset)
    ensures var fr := DataFrame(seqNo, FLAG_DATA, Wrap(src, seqNo, src.file[offset..offset + n]));
            var j := OnFrame(src.fileId, i, fr, Whole, true, now);
            && InStep(src, j, offset + n) && j.bytesRecv == i.bytesRecv + n && j.completes == i.completes
            && j.record.state == i.record.state && j.record.digest == i.record.digest
            && j.record.lastConfirmed == seqNo
  {
    assert src.file[..offset] + src.file[offset..offset + n] == src.file[..offset + n];
  }

  lemma {:induction false} ReceiveData(src: Source, offset: nat, number: nat, cuts: seq<nat>, i: Intake, now: int)
    requires offset + Sum(cuts) <= |src.file| && InStep(src, i, offset)
    ensures var j := ReceiveAll(src.fileId, i, DataFrames(src, offset, number, cuts), now);
            && InStep(src, j, offset + Sum(cuts))
            && j.bytesRecv == i.bytesRecv + Sum(cuts)
            && j.completes == i.completes
            && j.record.state == i.record.state && j.record.digest == i.record.digest
            && (cuts != [] ==> j.record.lastConfirmed == Truncate32(number + |cuts| - 1))
    decreases |cuts|
  {
    if cuts != [] {
      var first, rest := cuts[0], cuts[1..];
      assert cuts == [first] + rest;
      FramesCons(src, offset, number, first, rest);
      ReceiveChunk(src, offset, Truncate32(number), first, i, now);
      var fs := DataFrames(src, offset, number, cuts);
      assert fs[1..] == DataFrames(src, offset + first, number + 1, rest);
      ReceiveData(src, offset + first, number + 1, rest, OnFrame(src.fileId, i, fs[0], Whole, true, now), now);
    }
  }

  lemma FramesCons(src: Source, offset: nat, number: nat, first: nat, rest: seq<nat>)
    requires offset + first + Sum(rest) <= |src.file|
    ensures Sum([first] + rest) == first + Sum(rest)
    ensures DataFrames(src, offset, number, [first] + rest)
         == [DataFrame(Truncate32(number), FLAG_DATA, Wrap(src, Truncate32(number), src.file[offset..offset + first]))]
          + DataFrames(src, offset + first, number + 1, rest)
  {
    assert ([first] + rest)[1..] == rest;
  }

  lemma Reassociate<T>(h: T, x: seq<T>, y: seq<T>)
    ensures [h] + (x + y) == [h] + x + y
  {
  }

  lemma {:induction false} FramesConcat(src: Source, offset: nat, number: nat, a: seq<nat>, b: seq<nat>)
    requires offset + Sum(a) + Sum(b) <= |src.file|
    ensures Sum(a + b) == Sum(a) + Sum(b)
    ensures DataFrames(src, offset, number, a + b)
         == DataFrames(src, offset, number, a) + DataFrames(src, offset + Sum(a), number + |a|, b)
    decreases |a|
  {
    if a == [] {
      assert a + b == b;
    } else {
      var first, rest := a[0], a[1..];
      assert a == [first] + rest;
      assert a + b == [first] + (rest + b);
      FramesConcat(src, offset + first, number + 1, rest, b);
      FramesCons(src, offset, number, first, rest);
      FramesCons(src, offset, number, first, rest + b);
      Reassociate(DataFrames(src, offset, number, a)[0], DataFrames(src, offset + first, number + 1, rest),
                  DataFrames(src, offset + Sum(a), number + |a|, b));
    }
  }

  lemma {:induction false} SumSplit(cuts: seq<nat>, k: nat)
    requires k <= |cuts|
    ensures Sum(cuts[..k]) + Sum(cuts[k..]) == Sum(cuts)
    decreases k
  {
    if k > 0 {
      assert cuts[..k][1..] == cuts[1..][..k - 1] && cuts[k..] == cuts[1..][k - 1..];
      SumSplit(cuts[1..], k - 1);
    } else {
      assert cuts[0..] == cuts;
    }
  }

  lemma FramesSplit(src: Source, offset: nat, number: nat, cuts: seq<nat>, k: nat)
    requires offset + Sum(cuts) <= |src.file| && k <= |cuts|
    ensures Sum(cuts[..k]) + Sum(cuts[k..]) == Sum(cuts)
    ensures DataFrames(src, offset, number, cuts)
         == DataFrames(src, offset, number, cuts[..k])
          + DataFrames(src, offset + Sum(cuts[..k]), number + k, cuts[k..])
  {
    SumSplit(cuts, k);
    assert cuts == cuts[..k] + cuts[k..];
    FramesConcat(src, offset, number, cuts[..k], cuts[k..]);
  }

  lemma {:induction false} InFlightOfFrames(src: Source, offset: nat, number: nat, cuts: seq<nat>)
    requires offset + Sum(cuts) <= |src.file|
    ensures InFlight(DataFrames(src, offset, number, cuts)) == Sum(cuts)
    decreases |cuts|
  {
    if cuts != [] {
      InFlightOfFrames(src, offset + cuts[0], number + 1, cuts[1..]);
      assert DataFrames(src, offset, number, cuts)[1..] == DataFrames(src, offset + cuts[0], number + 1, cuts[1..]);
    }
  }

  /** A receiver that has just been started for this transfer. */
  predicate FreshIntake(src: Source, i: Intake) {
    && i.written == [] && i.bytesRecv == 0 && i.completes == []
    && i.record.state == Transferring && i.record.sessionKey == src.key
    && i.record.digest == Some(Digest(src.file))
  }

  /** However the reads were split, after any number of frames the receiver has exactly the
      prefix that was sent, and sent bytes equal received bytes plus bytes in flight. */
  lemma PrefixAndConservation(src: Source, chunkSize: nat, cuts: seq<nat>, i: Intake, k: nat, now: int)
    requires ValidReads(cuts, |src.file|, chunkSize) && FreshIntake(src, i) && k <= |cuts|
    ensures var fs := DataFrames(src, 0, 1, cuts);
            var j := ReceiveAll(src.fileId, i, fs[..k], now);
            && Sum(cuts[..k]) <= |src.file| && j.written == src.file[..Sum(cuts[..k])]
            && j.bytesRecv + InFlight(fs[k..]) == |src.file|
            && j.record.state == Transferring
  {
    var fs := DataFrames(src, 0, 1, cuts);
    FramesSplit(src, 0, 1, cuts, k);
    assert fs[..k] == DataFrames(src, 0, 1, cuts[..k]);
    assert fs[k..] == DataFrames(src, Sum(cuts[..k]), 1 + k, cuts[k..]);
    ReceiveData(src, 0, 1, cuts[..k], i, now);
    InFlightOfFrames(src, Sum(cuts[..k]), 1 + k, cuts[k..]);
  }

  lemma ReceiveFin(fileId: string, i: Intake, number: nat, now: int)
    requires i.record.state == Transferring && i.record.digest == Some(Digest(i.written))
    ensures var j := ReceiveAll(fileId, i, [FinFrame(number)], now);
            && j.written == i.written && j.bytesRecv == i.bytesRecv && j.completes == i.completes + [true]
            && j.record.state == Done && j.record.lastConfirmed == i.record.lastConfirmed
  {
    assert [FinFrame(number)][1..] == [];
  }

  /** A fresh transfer writes exactly the file, for any splitting of the reads, and ends
      verified and Done. */
  lemma FreshTransferWritesFile(src: Source, chunkSize: nat, cuts: seq<nat>, i: Intake, now: int)
    requires ValidReads(cuts, |src.file|, chunkSize) && FreshIntake(src, i)
    ensures var j := ReceiveAll(src.fileId, i, Emission(src, 0, 1, cuts), now);
            && j.written == src.file && j.bytesRecv == |src.file|
            && j.completes == [true] && j.record.state == Done
            && (cuts != [] ==> j.record.lastConfirmed == Truncate32(|cuts|))
  {
    var fs := DataFrames(src, 0, 1, cuts);
    ReceiveData(src, 0, 1, cuts, i, now);
    ReceiveAllSplit(src.fileId, i, fs, [FinFrame(1 + |cuts|)], now);
    var j := ReceiveAll(src.fileId, i, fs, now);
    assert j.written == src.file;
    ReceiveFin(src.fileId, j, 1 + |cuts|, now);
  }

  /** Sequence numbers run consecutively from the start number, through the FIN frame, modulo 2^32. */
  lemma {:induction false} ConsecutiveNumbers(src: Source, offset: nat, number: nat, cuts: seq<nat>, k: nat)
    requires cuts == [] || offset + Sum(cuts) <= |src.file|
    requires k <= |cuts|
    ensures var fs := Emission(src, offset, number, cuts);
            && |fs| == |cuts| + 1 && fs[k].seqNo == Truncate32(number + k)
            && fs[k].flags == if k < |cuts| then FLAG_DATA else FLAG_FIN
    decreases |cuts|
  {
    if 0 < k {
      var rest := Emission(src, offset + cuts[0], number + 1, cuts[1..]);
      ConsecutiveNumbers(src, offset + cuts[0], number + 1, cuts[1..], k - 1);
      assert Emission(src, offset, number, cuts)[k] == rest[k - 1];
    }
  }

  // ---- Frames that end the stream, or are no use to it -----------------------------------

  /** A FIN frame, whatever else its flags say, leaves the output and the counters alone and announces
      whether the file is the one offered: there was no digest, or the file can be read back and has
      it. A transfer under way ends accordingly. */
  lemma FinDecides(fileId: string, i: Intake, fr: DataFrame, w: WriteResult, hashOk: bool, now: int)
    requires fr.flags / 2 % 2 == 1
    ensures var j, r := OnFrame(fileId, i, fr, w, hashOk, now), i.record;
            var fine := r.digest.None? || (hashOk && r.digest == Some(Digest(i.written)));
            && j == i.(completes := i.completes + [fine], record := j.record)
            && (r.state == Transferring || r.state == Completing ==> j.record.state == if fine then Done else Failed)
            && (r.state == Done || r.state == Failed || r.state == Cancelled ==> j.record.state == r.state)
  {
  }

  /** A frame that is neither FIN nor data is ignored. A data frame that does not open changes the record
      only; a write that stops after n bytes leaves these in the output, and counts nothing. */
  lemma UselessFrames(fileId: string, i: Intake, fr: DataFrame, n: nat, hashOk: bool, now: int)
    requires fr.flags / 2 % 2 == 0
    ensures fr.flags % 2 == 0 ==> OnFrame(fileId, i, fr, Short(n), hashOk, now) == OnFrame(fileId, i, fr, Whole, hashOk, now) == i
    ensures var j := OnFrame(fileId, i, fr, Short(n), hashOk, now);
            var p := Plaintext(fileId, i.record.sessionKey, fr);
            fr.flags % 2 == 1 ==>
              j == i.(record := j.record,
                      written := i.written + if p.None? then [] else if n <= |p.value| then p.value[..n] else p.value)
  {
  }

  // ---- Chunk counts and resuming ---------------------------------------------------------

  /** The read sizes when every read fills the buffer as far as the file allows. */
  function FullReads(left: nat, chunkSize: nat): seq<nat>
    requires chunkSize > 0
  {
    if left == 0 then [] else if left <= chunkSize then [left] else [chunkSize] + FullReads(left - chunkSize, chunkSize)
  }

  /** The chunk count announced in the offer; an empty file counts as one chunk. */
  function TotalChunks(size: nat, chunkSize: nat): nat
    requires chunkSize > 0
  {
    if size == 0 then 1 else (size + chunkSize - 1) / chunkSize
  }

  lemma MultiplyMonotone(a: nat, b: nat, d: nat)
    requires a <= b
    ensures a * d <= b * d
  {
  }

  lemma DivideUnique(x: nat, d: nat, q: nat, r: nat)
    requires d > 0 && x == q * d + r && r < d
    ensures x / d == q
  {
    var q' := x / d;
    assert x == q' * d + x % d;
    if q < q' {
      MultiplyMonotone(q + 1, q', d);
    } else if q' < q {
      MultiplyMonotone(q' + 1, q, d);
    }
  }

  lemma DivideStep(x: nat, d: nat)
    requires d > 0
    ensures (x + d) / d == x / d + 1
  {
    var q, r := x / d, x % d;
    assert (q + 1) * d == q * d + d;
    DivideUnique(x + d, d, q + 1, r);
  }

  lemma {:induction false} FullReadsAreValid(left: nat, chunkSize: nat)
    requires chunkSize > 0
    ensures ValidReads(FullReads(left, chunkSize), left, chunkSize)
    ensures |FullReads(left, chunkSize)| == (left + chunkSize - 1) / chunkSize
    decreases left
  {
    if left == 0 {
      DivideUnique(chunkSize - 1, chunkSize, 0, chunkSize - 1);
    } else if left <= chunkSize {
      DivideUnique(left + chunkSize - 1, chunkSize, 1, left - 1);
      assert [left][1..] == [];
    } else {
      FullReadsAreValid(left - chunkSize, chunkSize);
      DivideStep(left - 1, chunkSize);
      assert FullReads(left, chunkSize)[1..] == FullReads(left - chunkSize, chunkSize);
    }
  }

  /** With full reads the number of data frames is the announced count, for exactly the
      nonempty files: an empty file is announced as one chunk and sent as none. */
  lemma {:induction false} DataFrameCount(size: nat, chunkSize: nat)
    requires chunkSize > 0
    ensures |FullReads(size, chunkSize)| == TotalChunks(size, chunkSize) <==> size > 0
  {
    FullReadsAreValid(size, chunkSize);
  }

  /** What the sender emits when it starts after the given confirmed sequence number. */
  function Resumed(src: Source, chunkSize: nat, lastConfirmed: UInt32): seq<DataFrame>
    requires chunkSize > 0
  {
    var offset := StartOffset(lastConfirmed, chunkSize);
    var left := Left(src.file, offset);
    FullReadsAreValid(left, chunkSize);
    Emission(src, offset, StartSeq(lastConfirmed), FullReads(left, chunkSize))
  }

  lemma {:induction false} DropFullReads(left: nat, chunkSize: nat, k: nat)
    requires chunkSize > 0 && k <= |FullReads(left, chunkSize)|
    ensures k < |FullReads(left, chunkSize)| ==> k * chunkSize < left && Sum(FullReads(left, chunkSize)[..k]) == k * chunkSize
    ensures FullReads(left, chunkSize)[k..] == FullReads(if k * chunkSize <= left then left - k * chunkSize else 0, chunkSize)
    decreases k
  {
    if k > 0 {
      var cuts := FullReads(left, chunkSize);
      if left <= chunkSize {
        assert k * chunkSize >= left;
      } else {
        DropFullReads(left - chunkSize, chunkSize, k - 1);
        assert k * chunkSize == (k - 1) * chunkSize + chunkSize;
        assert cuts[k..] == cuts[1..][k - 1..];
        assert cuts[..k][1..] == cuts[1..][..k - 1];
      }
    } else {
      assert FullReads(left, chunkSize)[..0] == [];
    }
  }

  lemma StartOffsetOf(k: UInt32, chunkSize: nat)
    requires k + 1 < TWO_TO_THE_32
    ensures StartSeq(k) == k + 1 && StartOffset(k, chunkSize) == k * chunkSize
  {
  }

  lemma FramesFrom(src: Source, chunkSize: nat, k: nat, offset: nat)
    requires chunkSize > 0 && k <= |FullReads(|src.file|, chunkSize)| && offset == k * chunkSize
    ensures var cuts := FullReads(|src.file|, chunkSize);
            var rest := FullReads(Left(src.file, offset), chunkSize);
            && rest == cuts[k..] && Sum(cuts) == |src.file|
            && (rest == [] || offset + Sum(rest) <= |src.file|)
            && DataFrames(src, offset, 1 + k, rest) == DataFrames(src, 0, 1, cuts)[k..]
  {
    var cuts := FullReads(|src.file|, chunkSize);
    FullReadsAreValid(|src.file|, chunkSize);
    DropFullReads(|src.file|, chunkSize, k);
    FramesSplit(src, 0, 1, cuts, k);
    assert |DataFrames(src, 0, 1, cuts[..k])| == k;
  }

  lemma ResumeWithinStream(src: Source, chunkSize: nat, k: UInt32)
    requires chunkSize > 0 && k <= |FullReads(|src.file|, chunkSize)| && k + 1 < TWO_TO_THE_32
    ensures k < |Resumed(src, chunkSize, 0)|
    ensures Resumed(src, chunkSize, k) == Resumed(src, chunkSize, 0)[k..]
  {
    var cuts := FullReads(|src.file|, chunkSize);
    var offset := k * chunkSize;
    StartOffsetOf(0, chunkSize);
    StartOffsetOf(k, chunkSize);
    FramesFrom(src, chunkSize, k, offset);
    var whole := DataFrames(src, 0, 1, cuts);
    assert Resumed(src, chunkSize, 0) == whole + [FinFrame(1 + |cuts|)];
    assert Resumed(src, chunkSize, k) == whole[k..] + [FinFrame(1 + |cuts|)];
  }

  /** Resuming at confirmed number k replays the original stream without its first k frames,
      FIN number included, exactly when k does not exceed the number of data frames and k + 1
      does not wrap around. */
  lemma ResumeDropsConfirmed(src: Source, chunkSize: nat, k: UInt32)
    requires chunkSize > 0
    ensures var whole := Resumed(src, chunkSize, 0);
            var n := |FullReads(|src.file|, chunkSize)|;
            (k <= |whole| && Resumed(src, chunkSize, k) == whole[k..]) <==> (k <= n && k + 1 < TWO_TO_THE_32)
  {
    var n := |FullReads(|src.file|, chunkSize)|;
    if k <= n && k + 1 < TWO_TO_THE_32 {
      ResumeWithinStream(src, chunkSize, k);
    } else if k <= n {
      assert StartOffset(k, chunkSize) == 0;
      assert |Resumed(src, chunkSize, k)| == |Resumed(src, chunkSize, 0)|;
    } else {
      assert |Resumed(src, chunkSize, 0)| == n + 1;
    }
  }
}
