/** What the receiver acknowledges, and where a sender resumes that has heard of it
    (filetransfer/receiver.go, manager.go and sender.go). */
module Acknowledgements {
  import opened Basics
  import opened ChunkCipher
  import opened TransferState
  import opened TransferManager
  import opened ChunkStream

  /** The acknowledgements of the first k chunks: one for each whose number, modulo 2^32, is a multiple of
      a hundred. */
  function Acknowledged(k: nat): seq<UInt32> {
    if k == 0 then [] else Acknowledged(k - 1) + if Truncate32(k) % 100 == 0 then [Truncate32(k)] else []
  }

  lemma ChunkAcknowledged(src: Source, offset: nat, k: nat, n: nat, i: Intake, now: int)
    requires offset + n <= |src.file| && InStep(src, i, offset) && i.chunkCount == Truncate32(k)
    ensures var s := Truncate32(k + 1);
            var j := OnFrame(src.fileId, i, DataFrame(s, FLAG_DATA, Wrap(src, s, src.file[offset..offset + n])), Whole, true, now);
            && j.chunkCount == s && j.acks == i.acks + (if s % 100 == 0 then [s] else [])
            && j.record.lastConfirmed == s && j.record.lastActive == now
  {
    NextOf(k);
  }

  lemma ReceivedSoFar(src: Source, cuts: seq<nat>, i: Intake, k: nat, now: int)
    requires k <= |cuts| && Sum(cuts) <= |src.file| && FreshIntake(src, i)
    ensures Sum(cuts[..k]) <= |src.file|
    ensures InStep(src, ReceiveAll(src.fileId, i, DataFrames(src, 0, 1, cuts)[..k], now), Sum(cuts[..k]))
  {
    FramesSplit(src, 0, 1, cuts, k);
    assert DataFrames(src, 0, 1, cuts)[..k] == DataFrames(src, 0, 1, cuts[..k]);
    ReceiveData(src, 0, 1, cuts[..k], i, now);
  }

  lemma ReceiveLast(fileId: string, i: Intake, fs: seq<DataFrame>, k: nat, now: int)
    requires 0 < k <= |fs|
    ensures ReceiveAll(fileId, i, fs[..k], now) ==
              OnFrame(fileId, ReceiveAll(fileId, i, fs[..k - 1], now), fs[k - 1], Whole, true, now)
  {
    assert fs[..k] == fs[..k - 1] + [fs[k - 1]];
    ReceiveAllSplit(fileId, i, fs[..k - 1], [fs[k - 1]], now);
    assert [fs[k - 1]][1..] == [];
  }

  lemma NextAcknowledged(src: Source, cuts: seq<nat>, i: Intake, k: nat, now: int)
    requires 0 < k <= |cuts| && Sum(cuts) <= |src.file| && FreshIntake(src, i)
    requires ReceiveAll(src.fileId, i, DataFrames(src, 0, 1, cuts)[..k - 1], now).chunkCount == Truncate32(k - 1)
    ensures var fs := DataFrames(src, 0, 1, cuts);
            var before, after := ReceiveAll(src.fileId, i, fs[..k - 1], now), ReceiveAll(src.fileId, i, fs[..k], now);
            && after.chunkCount == Truncate32(k)
            && after.acks == before.acks + (if Truncate32(k) % 100 == 0 then [Truncate32(k)] else [])
            && after.record.lastConfirmed == Truncate32(k) && after.record.lastActive == now
  {
    var fs := DataFrames(src, 0, 1, cuts);
    var before := ReceiveAll(src.fileId, i, fs[..k - 1], now);
    ReceivedSoFar(src, cuts, i, k - 1, now);
    FrameAt(src, 0, 1, cuts, k - 1);
    ReceiveLast(src.fileId, i, fs, k, now);
    ChunkAcknowledged(src, Sum(cuts[..k - 1]), k - 1, cuts[k - 1], before, now);
  }

  /** After k chunks of any stream: what has been acknowledged, and what the receiver's record says. */
  lemma {:induction false} ChunksAcknowledged(src: Source, cuts: seq<nat>, i: Intake, k: nat, now: int)
    requires k <= |cuts| && Sum(cuts) <= |src.file| && FreshIntake(src, i) && i.chunkCount == 0 && i.acks == []
    ensures var j := ReceiveAll(src.fileId, i, DataFrames(src, 0, 1, cuts)[..k], now);
            && j.chunkCount == Truncate32(k) && j.acks == Acknowledged(k)
            && (k > 0 ==> j.record.lastConfirmed == Truncate32(k) && j.record.lastActive == now)
    decreases k
  {
    if k > 0 {
      ChunksAcknowledged(src, cuts, i, k - 1, now);
      NextAcknowledged(src, cuts, i, k, now);
    }
  }

  lemma LastAcknowledged(k: nat)
    requires 0 < k < TWO_TO_THE_32 && k % 100 == 0
    ensures Acknowledged(k) != [] && Acknowledged(k)[|Acknowledged(k)| - 1] == k
  {
  }

  /** An acknowledgement makes the sender resume right after its chunk: when the k-th chunk of a file has
      been acknowledged and the sender has taken that, or a resume request for it, into its record, what
      it would send on resuming is the original stream without its first k frames. */
  lemma ResumesAfterAcknowledged(src: Source, chunkSize: nat, i: Intake, k: nat, r: Record, now: int)
    requires chunkSize > 0 && FreshIntake(src, i) && i.chunkCount == 0 && i.acks == []
    requires 0 < k <= |FullReads(|src.file|, chunkSize)| && k % 100 == 0 && k + 1 < TWO_TO_THE_32
    ensures var whole := Resumed(src, chunkSize, 0);
            && k <= |whole|
            && var acks := ReceiveAll(src.fileId, i, whole[..k], now).acks;
            && acks != []
            && Resumed(src, chunkSize, OnChunkAck(r, acks[|acks| - 1], now).lastConfirmed) == whole[k..]
            && Resumed(src, chunkSize, OnResume(r, acks[|acks| - 1], now).lastConfirmed) == whole[k..]
            && OnResume(r, acks[|acks| - 1], now).lastActive == OnChunkAck(r, acks[|acks| - 1], now).lastActive == now
  {
    var cuts := FullReads(|src.file|, chunkSize);
    FullReadsAreValid(|src.file|, chunkSize);
    StartOffsetOf(0, chunkSize);
    assert Resumed(src, chunkSize, 0)[..k] == DataFrames(src, 0, 1, cuts)[..k];
    ChunksAcknowledged(src, cuts, i, k, now);
    LastAcknowledged(k);
    ResumeDropsConfirmed(src, chunkSize, k);
  }
}
