/** What the protocol delivers when the two sides hold the same session key and the receiver's
    disk works: the bytes are conserved on their way, and the completion is never negative. Module
    DeliveryPossible says when the transfer can still be completed. */
module TransferDelivery {
  import opened Basics
  import opened ChunkCipher
  import opened TransferState
  import opened TransferManager
  import opened ChunkStream
  import opened TransferProtocol

  /** The step looks up the session key k on either side, and the receiver's file can be written
      and read back: the disk works, and the file has not been closed before the channel was, as
      stopping a receiver may do. Losses, forgeries, cancellations, timeouts and send failures
      remain possible. */
  predicate SameKeyNoFault(a: Action, k: Option<Key>) {
    && (a.DeliverAccept? || a.DeliverReady? ==> a.key == k)
    && (a.ReceiveFrame? ==> a.w.Whole? && a.hashOk)
  }

  predicate IsFin(fr: DataFrame) {
    HasFlag(fr.flags, FLAG_FIN)
  }

  /** The plaintext that a stretch of the channel carries for the holder of k. */
  function Carried(fileId: string, k: Option<Key>, fs: seq<DataFrame>): Option<Bytes> {
    if fs == [] then Some([])
    else
      var first := if IsFin(fs[0]) then Some([]) else Plaintext(fileId, k, fs[0]);
      var rest := Carried(fileId, k, fs[1..]);
      if first.Some? && rest.Some? then Some(first.value + rest.value) else None
  }

  lemma {:induction false} CarriedAppend(fileId: string, k: Option<Key>, fs: seq<DataFrame>, fr: DataFrame)
    requires Carried(fileId, k, fs).Some? && (IsFin(fr) || Plaintext(fileId, k, fr).Some?)
    ensures Carried(fileId, k, fs + [fr]).Some?
    ensures Carried(fileId, k, fs + [fr]).value ==
              Carried(fileId, k, fs).value + if IsFin(fr) then [] else Plaintext(fileId, k, fr).value
  {
    if fs == [] {
      assert [fr][1..] == [] && fs + [fr] == [fr];
    } else {
      CarriedAppend(fileId, k, fs[1..], fr);
      assert (fs + [fr])[1..] == fs[1..] + [fr];
    }
  }

  predicate NotYetSending(spc: SenderPc) {
    spc.Waiting? || spc.ReadyPending? || spc.ChannelPending? || spc.Opening?
  }

  /** The keys are in place where they are needed. */
  predicate Keyed(w: World, k: Option<Key>) {
    && (w.snd.Some? && w.spc != Waiting ==> w.snd.value.sessionKey == k)
    && (w.rcv.Some? && Past(w.rcv.value.state) ==> w.rcv.value.sessionKey == k)
    && (w.rpc.Live? ==> w.rcv.Some? && w.rcv.value.sessionKey == k)
  }

  /** Nothing is acknowledged before something was sent. */
  ghost predicate Unstarted(w: World) {
    NotYetSending(w.spc) ==>
      && w.channel == [] && (w.snd.Some? ==> w.snd.value.lastConfirmed == 0)
      && forall n :: MAck(n) !in w.toSnd
  }

  /** As long as the output can still grow, output and channel together are a prefix of the
      file: all that was sent, and the whole file once the FIN is out. */
  predicate Conserved(w: World, k: Option<Key>) {
    !OutputFinal(w) ==>
      var inFlight := Carried(w.src.fileId, k, w.channel);
      && (w.rpc.NoChannel? ==> w.written == [])
      && inFlight.Some? && w.written + inFlight.value <= w.src.file
      && (w.spc.Sending? ==> |w.written + inFlight.value| == w.spc.offset && forall i :: 0 <= i < |w.channel| ==> !IsFin(w.channel[i]))
      && (NotYetSending(w.spc) ==> w.written == [])
      && forall i :: 0 <= i < |w.channel| && IsFin(w.channel[i]) ==>
           i == |w.channel| - 1 && w.written + inFlight.value == w.src.file && !w.spc.Sending?
  }

  ghost predicate Positive(w: World) {
    (w.rpc.Announced? ==> w.rpc.verified) && MComplete(false) !in w.toSnd
  }

  ghost predicate DataInv(w: World, k: Option<Key>) {
    Inv(w) && Keyed(w, k) && Unstarted(w) && Conserved(w, k) && Positive(w)
  }

  lemma InitDataInv(src: Source, k: Option<Key>)
    ensures DataInv(Init(src), k)
  {
    InitInv(src);
  }

  // ---- Step by step ----------------------------------------------------------------------

  /** A step that touches neither the stream nor the keys. */
  ghost predicate Quiet(w: World, w': World) {
    && w'.src == w.src && w'.channel == w.channel && w'.written == w.written
    && (w'.spc == w.spc || (w.spc != Waiting && (w'.spc == Exited || (NotYetSending(w.spc) && NotYetSending(w'.spc)))))
    && (w'.rpc == w.rpc || w'.rpc == Closed || w'.rpc == Marked)
    && (w'.snd == w.snd || (w.snd.Some? && w'.snd.Some? && QuietSender(w'.spc, w.snd.value, w'.snd.value)))
    && (w'.rcv == w.rcv || (w.rcv.Some? && w'.rcv.Some? && QuietReceiver(w.rcv.value, w'.rcv.value)))
    && (forall n :: MAck(n) in w'.toSnd ==> MAck(n) in w.toSnd)
    && (MComplete(false) in w'.toSnd ==> MComplete(false) in w.toSnd)
  }

  predicate QuietSender(spc: SenderPc, r: Record, r': Record) {
    r'.sessionKey == r.sessionKey && (NotYetSending(spc) ==> r'.lastConfirmed == r.lastConfirmed)
  }

  predicate QuietReceiver(r: Record, r': Record) {
    r'.sessionKey == r.sessionKey && (Past(r'.state) ==> Past(r.state))
  }

  lemma QuietKeepsData(w: World, w': World, k: Option<Key>)
    requires DataInv(w, k) && Quiet(w, w')
    ensures Keyed(w', k) && Unstarted(w') && Conserved(w', k) && Positive(w')
  {
  }

  lemma ExtendPrefix(file: Bytes, done: Bytes, b: Bytes, off: nat, n: nat)
    requires off + n <= |file| && done + b <= file && |done + b| == off
    ensures done + (b + file[off..off + n]) == file[..off + n]
  {
    assert done + b == file[..off];
    assert done + (b + file[off..off + n]) == (done + b) + file[off..off + n];
  }

  lemma PushData(w: World, fr: DataFrame, n: nat, k: Option<Key>)
    requires Conserved(w, k) && !OutputFinal(w) && w.spc.Sending? && w.spc.offset + n <= |w.src.file| && !IsFin(fr)
    requires Plaintext(w.src.fileId, k, fr) == Some(w.src.file[w.spc.offset..w.spc.offset + n])
    ensures Conserved(w.(spc := Sending(w.spc.offset + n, w.spc.number + 1), channel := w.channel + [fr]), k)
  {
    CarriedAppend(w.src.fileId, k, w.channel, fr);
    ExtendPrefix(w.src.file, w.written, Carried(w.src.fileId, k, w.channel).value, w.spc.offset, n);
  }

  lemma ChunkSent(w: World, n: nat, k: Option<Key>)
    requires DataInv(w, k) && w.spc.Sending? && w.snd.Some?
    requires 0 < n <= DEFAULT_CHUNK_SIZE && w.spc.offset + n <= |w.src.file|
    ensures var off, s := w.spc.offset, Truncate32(w.spc.number);
            var fr := DataFrame(s, FLAG_DATA, Wrap(SendingSource(w), s, w.src.file[off..off + n]));
            var w' := w.(spc := Sending(off + n, w.spc.number + 1), channel := w.channel + [fr]);
            Keyed(w', k) && Unstarted(w') && Conserved(w', k) && Positive(w')
  {
    if !OutputFinal(w) {
      var off, s := w.spc.offset, Truncate32(w.spc.number);
      PushData(w, DataFrame(s, FLAG_DATA, Wrap(SendingSource(w), s, w.src.file[off..off + n])), n, k);
    }
  }

  lemma SendStops(w: World, error: string, now: int, k: Option<Key>)
    requires DataInv(w, k) && w.spc.Sending? && w.snd.Some?
    ensures var w' := w.(spc := Exited, snd := Some(Moved(w.snd.value.(error := error), Failed, now)));
            Keyed(w', k) && Unstarted(w') && Conserved(w', k) && Positive(w')
  {
    QuietKeepsData(w, w.(spc := Exited, snd := Some(Moved(w.snd.value.(error := error), Failed, now))), k);
  }

  lemma SendChunkData(w: World, a: Action, k: Option<Key>)
    requires DataInv(w, k) && a.SendChunk?
    ensures var w' := StepSendChunk(w, a); Keyed(w', k) && Unstarted(w') && Conserved(w', k) && Positive(w')
  {
    if w.spc.Sending? && w.snd.Some? && 0 < a.n <= DEFAULT_CHUNK_SIZE && w.spc.offset + a.n <= |w.src.file| {
      if a.sendOk {
        ChunkSent(w, a.n, k);
      } else {
        SendStops(w, "send chunk", a.now, k);
      }
    } else {
      assert StepSendChunk(w, a) == w;
    }
  }

  lemma SendFinData(w: World, a: Action, k: Option<Key>)
    requires DataInv(w, k) && a.SendFin?
    ensures var w' := StepSendFin(w, a); Keyed(w', k) && Unstarted(w') && Conserved(w', k) && Positive(w')
  {
    if w.spc.Sending? && w.snd.Some? && w.spc.offset >= |w.src.file| && a.sendOk && !OutputFinal(w) {
      CarriedAppend(w.src.fileId, k, w.channel, FinFrame(w.spc.number));
      var b := Carried(w.src.fileId, k, w.channel).value;
      assert b + [] == b && w.written + b == w.src.file;
    }
  }

  lemma FrameData(w: World, a: Action, k: Option<Key>)
    requires DataInv(w, k) && a.ReceiveFrame? && SameKeyNoFault(a, k)
    ensures var w' := StepReceive(w, a); Keyed(w', k) && Unstarted(w') && Conserved(w', k) && Positive(w')
  {
    if w.rpc.Live? && w.rcv.Some? && w.channel != [] {
      var fr := w.channel[0];
      var rest := Carried(w.src.fileId, k, w.channel[1..]);
      if IsFin(fr) {
        assert w.channel[1..] == [];
        assert w.written == w.src.file;
      } else {
        var p := Plaintext(w.src.fileId, k, fr).value;
        assert w.written + p + rest.value == w.written + (p + rest.value);
        OnChunkShape(w.src.fileId, IntakeOf(w), fr, a.w, a.now);
      }
    }
  }

  lemma OpensData(w: World, k: Option<Key>)
    requires DataInv(w, k)
    ensures var w' := Step(w, ChannelOpens); Keyed(w', k) && Unstarted(w') && Conserved(w', k) && Positive(w')
  {
    assert Step(w, ChannelOpens) == StepOpens(w);
  }

  lemma ArrivesData(w: World, a: Action, k: Option<Key>)
    requires DataInv(w, k) && a.ChannelArrives?
    ensures var w' := StepArrives(w, a); Keyed(w', k) && Unstarted(w') && Conserved(w', k) && Positive(w')
  {
  }

  lemma EnterData(w: World, r: Record, ready: Ready, counter: string, k: Option<Key>)
    requires Keyed(w, k) && Unstarted(w) && Conserved(w, k) && Positive(w)
    requires w.spc == Waiting && w.snd.Some? && r.sessionKey == k
    requires r.lastConfirmed == w.snd.value.lastConfirmed
    ensures var w' := w.(snd := Some(r), spc := ReadyPending(ready), entered := Some(counter));
            Keyed(w', k) && Unstarted(w') && Conserved(w', k) && Positive(w')
  {
  }

  lemma AnswerShape(r: Record, accept: Accept, key: Option<Key>, now: int)
    ensures var (r', answer) := OnAccept(r, accept, Some(RECEIVER), SENDER, key, now);
            && r'.lastConfirmed == r.lastConfirmed
            && (answer.None? ==> r'.sessionKey == r.sessionKey)
            && (answer.Some? ==> r'.sessionKey == key && r.state == Offered)
  {
  }

  lemma UnmovedData(w: World, r: Record, k: Option<Key>)
    requires Keyed(w, k) && Unstarted(w) && Conserved(w, k) && Positive(w) && w.snd.Some?
    requires r.sessionKey == w.snd.value.sessionKey && r.lastConfirmed == w.snd.value.lastConfirmed
    ensures var w' := w.(snd := Some(r)); Keyed(w', k) && Unstarted(w') && Conserved(w', k) && Positive(w')
  {
  }

  lemma AcceptData(w: World, a: Action, k: Option<Key>)
    requires DataInv(w, k) && a.DeliverAccept? && SameKeyNoFault(a, k)
    ensures var w' := StepAccept(w, a); Keyed(w', k) && Unstarted(w') && Conserved(w', k) && Positive(w')
  {
    if MAccept(a.accept) in w.toSnd {
      var w1 := w.(toSnd := w.toSnd - multiset{MAccept(a.accept)});
      QuietKeepsData(w, w1, k);
      if w.snd.Some? {
        var (r, answer) := OnAccept(w.snd.value, a.accept, Some(RECEIVER), SENDER, a.key, a.now);
        AnswerShape(w.snd.value, a.accept, a.key, a.now);
        if answer.None? {
          UnmovedData(w1, r, k);
        } else {
          EnterData(w1, r, answer.value, a.accept.counterChallenge, k);
        }
      }
    }
  }

  lemma RekeyedData(w: World, r: Record, k: Option<Key>)
    requires Keyed(w, k) && Unstarted(w) && Conserved(w, k) && Positive(w) && w.rcv.Some?
    requires r.sessionKey == k || (r.sessionKey == w.rcv.value.sessionKey && (Past(r.state) ==> Past(w.rcv.value.state)))
    ensures var w' := w.(rcv := Some(r)); Keyed(w', k) && Unstarted(w') && Conserved(w', k) && Positive(w')
  {
  }

  lemma ReadyData(w: World, a: Action, k: Option<Key>)
    requires DataInv(w, k) && a.DeliverReady? && SameKeyNoFault(a, k)
    ensures var w' := StepReady(w, a); Keyed(w', k) && Unstarted(w') && Conserved(w', k) && Positive(w')
  {
    if MReady(a.ready) in w.toRcv {
      var w1 := w.(toRcv := w.toRcv - multiset{MReady(a.ready)});
      QuietKeepsData(w, w1, k);
      if w.rcv.Some? {
        RekeyedData(w1, OnReady(w.rcv.value, a.ready, Some(SENDER), k, a.now), k);
      }
    }
  }

  lemma RecordData(w: World, a: Action, k: Option<Key>)
    requires DataInv(w, k) && a.RecordOutcome?
    ensures var w' := StepRecord(w, a); Keyed(w', k) && Unstarted(w') && Conserved(w', k) && Positive(w')
  {
  }

  lemma InitiateData(w: World, a: Action, k: Option<Key>)
    requires DataInv(w, k) && a.Initiate?
    ensures var w' := StepInitiate(w, a); Keyed(w', k) && Unstarted(w') && Conserved(w', k) && Positive(w')
  {
  }

  lemma OfferData(w: World, a: Action, k: Option<Key>)
    requires DataInv(w, k) && a.DeliverOffer?
    ensures var w' := StepOffer(w, a); Keyed(w', k) && Unstarted(w') && Conserved(w', k) && Positive(w')
  {
  }

  lemma SendReadyQuiet(w: World, a: Action, k: Option<Key>)
    requires DataInv(w, k) && a.SendReady?
    ensures Quiet(w, StepSendReady(w, a))
  {
  }

  lemma OpenChannelData(w: World, a: Action, k: Option<Key>)
    requires DataInv(w, k) && a.OpenChannel?
    ensures var w' := StepOpenChannel(w, a); Keyed(w', k) && Unstarted(w') && Conserved(w', k) && Positive(w')
  {
  }

  lemma RejectQuiet(w: World, a: Action, k: Option<Key>)
    requires DataInv(w, k) && a.DeliverReject?
    ensures Quiet(w, StepReject(w, a))
  {
  }

  lemma CompleteQuiet(w: World, a: Action, k: Option<Key>)
    requires DataInv(w, k) && a.DeliverComplete?
    ensures Quiet(w, StepComplete(w, a))
  {
  }

  lemma AckQuiet(w: World, a: Action, k: Option<Key>)
    requires DataInv(w, k) && a.DeliverAck?
    ensures Quiet(w, StepAck(w, a))
  {
  }

  lemma LossQuiet(w: World, a: Action, k: Option<Key>)
    requires DataInv(w, k) && (a.LoseToSender? || a.LoseToReceiver?)
    ensures Quiet(w, Step(w, a))
  {
  }

  lemma ForgeryQuiet(w: World, a: Action, k: Option<Key>)
    requires DataInv(w, k) && (a.ForgeAccept? || a.ForgeReady?)
    ensures Quiet(w, Step(w, a))
  {
  }

  lemma FinishQuiet(w: World, a: Action, k: Option<Key>)
    requires DataInv(w, k) && a.FinishSending?
    ensures Quiet(w, StepFinishSending(w, a))
  {
  }

  lemma AbortQuiet(w: World, a: Action, k: Option<Key>)
    requires DataInv(w, k) && a.AbortSending?
    ensures Quiet(w, StepAbort(w, a))
  {
  }

  lemma DropQuiet(w: World, a: Action, k: Option<Key>)
    requires DataInv(w, k) && a.DropChannel?
    ensures Quiet(w, Step(w, a))
  {
  }

  lemma CancelQuiet(w: World, a: Action, k: Option<Key>)
    requires DataInv(w, k) && (a.CancelSender? || a.CancelReceiver?)
    ensures Quiet(w, Step(w, a))
  {
  }

  lemma TickQuiet(w: World, a: Action, k: Option<Key>)
    requires DataInv(w, k) && (a.TickSender? || a.TickReceiver?)
    ensures Quiet(w, Step(w, a))
  {
  }

  lemma HandshakeStepData(w: World, a: Action, k: Option<Key>)
    requires DataInv(w, k) && SameKeyNoFault(a, k)
    requires a.Initiate? || a.DeliverOffer? || a.DeliverAccept? || a.SendReady? || a.OpenChannel?
             || a.DeliverReject? || a.DeliverReady? || a.DeliverComplete? || a.DeliverAck?
    ensures var w' := Step(w, a); Keyed(w', k) && Unstarted(w') && Conserved(w', k) && Positive(w')
  {
    match a
    case Initiate(_, _, _) => InitiateData(w, a, k);
    case DeliverOffer(_, _, _, _) => OfferData(w, a, k);
    case DeliverAccept(_, _, _) => AcceptData(w, a, k);
    case SendReady(_) => SendReadyQuiet(w, a, k); QuietKeepsData(w, Step(w, a), k);
    case OpenChannel(_, _) => OpenChannelData(w, a, k);
    case DeliverReject(_) => RejectQuiet(w, a, k); QuietKeepsData(w, Step(w, a), k);
    case DeliverReady(_, _, _) => ReadyData(w, a, k);
    case DeliverComplete(_, _) => CompleteQuiet(w, a, k); QuietKeepsData(w, Step(w, a), k);
    case DeliverAck(_, _) => AckQuiet(w, a, k); QuietKeepsData(w, Step(w, a), k);
  }

  lemma SendingStepData(w: World, a: Action, k: Option<Key>)
    requires DataInv(w, k) && (a.ChannelOpens? || a.SendChunk? || a.SendFin?)
    ensures var w' := Step(w, a); Keyed(w', k) && Unstarted(w') && Conserved(w', k) && Positive(w')
  {
    match a
    case ChannelOpens => OpensData(w, k);
    case SendChunk(_, _, _) => SendChunkData(w, a, k);
    case SendFin(_, _) => SendFinData(w, a, k);
  }

  lemma ReceivingStepData(w: World, a: Action, k: Option<Key>)
    requires DataInv(w, k) && SameKeyNoFault(a, k) && (a.ChannelArrives? || a.ReceiveFrame? || a.RecordOutcome?)
    ensures var w' := Step(w, a); Keyed(w', k) && Unstarted(w') && Conserved(w', k) && Positive(w')
  {
    match a
    case ChannelArrives(_, _) => ArrivesData(w, a, k);
    case ReceiveFrame(_, _, _) => FrameData(w, a, k);
    case RecordOutcome(_) => RecordData(w, a, k);
  }

  lemma QuietStepData(w: World, a: Action, k: Option<Key>)
    requires DataInv(w, k)
    requires a.LoseToSender? || a.LoseToReceiver? || a.ForgeAccept? || a.ForgeReady? || a.FinishSending? || a.AbortSending?
             || a.DropChannel? || a.CancelSender? || a.CancelReceiver? || a.TickSender? || a.TickReceiver?
    ensures Quiet(w, Step(w, a))
  {
    match a
    case LoseToSender(_) => LossQuiet(w, a, k);
    case LoseToReceiver(_) => LossQuiet(w, a, k);
    case ForgeAccept(_) => ForgeryQuiet(w, a, k);
    case ForgeReady(_) => ForgeryQuiet(w, a, k);
    case FinishSending(_) => FinishQuiet(w, a, k);
    case AbortSending(_) => AbortQuiet(w, a, k);
    case DropChannel => DropQuiet(w, a, k);
    case CancelSender(_) => CancelQuiet(w, a, k);
    case CancelReceiver(_) => CancelQuiet(w, a, k);
    case TickSender(_) => TickQuiet(w, a, k);
    case TickReceiver(_) => TickQuiet(w, a, k);
  }

  lemma StepKeepsData(w: World, a: Action, k: Option<Key>)
    requires DataInv(w, k) && SameKeyNoFault(a, k)
    ensures DataInv(Step(w, a), k)
  {
    StepKeepsInv(w, a);
    if a.ChannelOpens? || a.SendChunk? || a.SendFin? {
      SendingStepData(w, a, k);
    } else if a.ChannelArrives? || a.ReceiveFrame? || a.RecordOutcome? {
      ReceivingStepData(w, a, k);
    } else if a.Initiate? || a.DeliverOffer? || a.DeliverAccept? || a.SendReady? || a.OpenChannel?
              || a.DeliverReject? || a.DeliverReady? || a.DeliverComplete? || a.DeliverAck? {
      HandshakeStepData(w, a, k);
    } else {
      QuietStepData(w, a, k);
      QuietKeepsData(w, Step(w, a), k);
    }
  }

  lemma {:induction false} RunKeepsData(w: World, acts: seq<Action>, k: Option<Key>)
    requires DataInv(w, k) && forall i :: 0 <= i < |acts| ==> SameKeyNoFault(acts[i], k)
    ensures DataInv(Run(w, acts), k)
    decreases |acts|
  {
    if acts != [] {
      StepKeepsData(w, acts[0], k);
      RunKeepsData(Step(w, acts[0]), acts[1..], k);
    }
  }

  /** With a shared key and a working disk no completion is ever negative, in any run: losses,
      reorderings, forgeries, cancellations and aborted sends can stop the transfer but not
      corrupt it. Until the outcome is announced, the output followed by the plaintext in
      flight is a prefix of the file, as long as what the sender has sent. */
  lemma PartiesRaiseNoAlarm(src: Source, acts: seq<Action>, k: Option<Key>)
    requires forall i :: 0 <= i < |acts| ==> SameKeyNoFault(acts[i], k)
    ensures var w := Run(Init(src), acts);
            && MComplete(false) !in w.toSnd && (w.rpc.Announced? ==> w.rpc.verified)
            && (!OutputFinal(w) ==>
                  var inFlight := Carried(src.fileId, k, w.channel);
                  && inFlight.Some? && w.written + inFlight.value <= src.file
                  && (w.spc.Sending? ==> |w.written| + |inFlight.value| == w.spc.offset))
  {
    InitDataInv(src, k);
    RunKeepsData(Init(src), acts, k);
    SourceIsFixed(Init(src), acts);
  }
}
