/** The chunk stream on the wire: frames are encoded by the sender (filetransfer/frame.go) and
    decoded by the receiver before they are handled (filetransfer/receiver.go). A sealed chunk
    travels as its wire bytes; the ideal cipher knows which chunk it made them for. */
module WireStream {
  import opened Basics
  import opened ChunkCipher
  import opened TransferState
  import opened ChunkStream
  import F = FrameCodec

  function PayloadBytes(p: Payload): Bytes {
    match p
    case Clear(chunk) => chunk
    case Sealed(_, wire, _, _) => wire
  }

  function Encoded(fr: DataFrame): Bytes {
    F.Encoding(F.Frame(fr.seqNo, fr.flags, PayloadBytes(fr.payload)))
  }

  /** What some bytes are to the cipher. Bytes it did not make authenticate under no key. */
  function Recognised(made: map<Bytes, Payload>, bytes: Bytes): Payload {
    if bytes in made then made[bytes] else Clear(bytes)
  }

  /** One message of the data channel: what does not decode is dropped. */
  function OnBytes(fileId: string, made: map<Bytes, Payload>, i: Intake, data: Bytes, now: int): Intake {
    match F.Decoding(data)
    case Err(_) => i
    case Ok(f) => OnFrame(fileId, i, DataFrame(f.seqNo, f.flags, Recognised(made, f.payload)), Whole, true, now)
  }

  function ReceiveBytes(fileId: string, made: map<Bytes, Payload>, i: Intake, fs: seq<DataFrame>, now: int): Intake
    decreases |fs|
  {
    if fs == [] then i
    else ReceiveBytes(fileId, made, OnBytes(fileId, made, i, Encoded(fs[0]), now), fs[1..], now)
  }

  /** The cipher recognises what the frame carries, and the length field holds its size. */
  predicate Travels(made: map<Bytes, Payload>, fr: DataFrame) {
    Recognised(made, PayloadBytes(fr.payload)) == fr.payload && |PayloadBytes(fr.payload)| < TWO_TO_THE_32
  }

  /** Handling an encoded frame is handling the frame. */
  lemma OneFrameTravels(fileId: string, made: map<Bytes, Payload>, i: Intake, fr: DataFrame, now: int)
    requires Travels(made, fr)
    ensures OnBytes(fileId, made, i, Encoded(fr), now) == OnFrame(fileId, i, fr, Whole, true, now)
  {
    F.DecodeBelowLimit(F.Frame(fr.seqNo, fr.flags, PayloadBytes(fr.payload)), []);
    assert Encoded(fr) + [] == Encoded(fr);
  }

  lemma {:induction false} StreamTravels(fileId: string, made: map<Bytes, Payload>, i: Intake, fs: seq<DataFrame>, now: int)
    requires forall k :: 0 <= k < |fs| ==> Travels(made, fs[k])
    ensures ReceiveBytes(fileId, made, i, fs, now) == ReceiveAll(fileId, i, fs, now)
    decreases |fs|
  {
    if fs != [] {
      OneFrameTravels(fileId, made, i, fs[0], now);
      StreamTravels(fileId, made, OnFrame(fileId, i, fs[0], Whole, true, now), fs[1..], now);
    }
  }

  // ---- What the cipher made --------------------------------------------------------------

  /** The sealed chunks of the first count data frames, by their wire bytes. */
  function Ledger(fs: seq<DataFrame>): map<Bytes, Payload> {
    if fs == [] then map[]
    else
      var rest := Ledger(fs[..|fs| - 1]);
      var p := fs[|fs| - 1].payload;
      if p.Sealed? then rest[p.wire := p] else rest
  }

  /** The cipher's output is never empty and differs from chunk to chunk: its nonces do. */
  predicate Distinct(fs: seq<DataFrame>) {
    && (forall i, j :: 0 <= i < j < |fs| && fs[i].payload.Sealed? && fs[j].payload.Sealed? ==>
          fs[i].payload.wire != fs[j].payload.wire)
    && forall i :: 0 <= i < |fs| && fs[i].payload.Sealed? ==> fs[i].payload.wire != []
  }

  lemma {:induction false} LedgerOf(fs: seq<DataFrame>)
    requires Distinct(fs)
    ensures forall b :: b in Ledger(fs) ==> exists i :: 0 <= i < |fs| && fs[i].payload.Sealed? && fs[i].payload.wire == b
    ensures forall i :: 0 <= i < |fs| && fs[i].payload.Sealed? ==>
              fs[i].payload.wire in Ledger(fs) && Ledger(fs)[fs[i].payload.wire] == fs[i].payload
    decreases |fs|
  {
    if fs != [] {
      var before := fs[..|fs| - 1];
      LedgerOf(before);
      forall b | b in Ledger(fs)
        ensures exists i :: 0 <= i < |fs| && fs[i].payload.Sealed? && fs[i].payload.wire == b
      {
        if b in Ledger(before) {
          var i :| 0 <= i < |before| && before[i].payload.Sealed? && before[i].payload.wire == b;
          assert fs[i].payload.wire == b;
        } else {
          assert fs[|fs| - 1].payload.wire == b;
        }
      }
    }
  }

  /** Data frames are clear or sealed as the key says. */
  lemma {:induction false} DataFramePayloads(src: Source, offset: nat, number: nat, cuts: seq<nat>)
    requires offset + Sum(cuts) <= |src.file|
    ensures var fs := DataFrames(src, offset, number, cuts);
            forall i :: 0 <= i < |fs| ==> if src.key.None? then fs[i].payload.Clear? && |fs[i].payload.chunk| == cuts[i]
                                          else fs[i].payload.Sealed?
    decreases |cuts|
  {
    if cuts != [] {
      DataFramePayloads(src, offset + cuts[0], number + 1, cuts[1..]);
    }
  }

  /** A fresh transfer on the wire, for any splitting of the reads, with or without a session key:
      the sender's frames, encoded, decoded and handled one by one, write exactly the file and end
      verified and Done, as long as each payload fits the length field. */
  lemma EncodedStreamWritesFile(src: Source, chunkSize: nat, cuts: seq<nat>, i: Intake, now: int)
    requires ValidReads(cuts, |src.file|, chunkSize) && FreshIntake(src, i)
    requires Distinct(DataFrames(src, 0, 1, cuts))
    requires forall k :: 0 <= k < |cuts| ==> |PayloadBytes(DataFrames(src, 0, 1, cuts)[k].payload)| < TWO_TO_THE_32
    ensures var j := ReceiveBytes(src.fileId, Ledger(DataFrames(src, 0, 1, cuts)), i, Emission(src, 0, 1, cuts), now);
            j.written == src.file && j.bytesRecv == |src.file| && j.completes == [true] && j.record.state == Done
  {
    var fs, all := DataFrames(src, 0, 1, cuts), Emission(src, 0, 1, cuts);
    var made := Ledger(fs);
    LedgerOf(fs);
    DataFramePayloads(src, 0, 1, cuts);
    forall k | 0 <= k < |all|
      ensures Travels(made, all[k])
    {
      if k < |fs| && src.key.None? {
        assert fs[k].payload.chunk !in made;
      }
    }
    StreamTravels(src.fileId, made, i, all, now);
    FreshTransferWritesFile(src, chunkSize, cuts, i, now);
  }
}
