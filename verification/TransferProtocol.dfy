/** The file-transfer protocol between a sender and a receiver, as a state machine over single
    steps of the handlers and goroutines on both sides (filetransfer/manager.go, sender.go and
    receiver.go). The messages here are those of the two parties; what other agents can do is the
    subject of module ThirdParties. Control messages may be lost and reordered but not
    duplicated; the data channel is ordered, and either side may cancel, time out or hit an I/O
    error at any step. Resume requests are not part of the protocol. */
module TransferProtocol {
  import opened Basics
  import opened ChunkCipher
  import opened TransferState
  import opened TransferManager
  import opened ChunkStream

  const SENDER := "sender"
  const RECEIVER := "receiver"

  // Challenges for the runs that are constructed
  const CHALLENGE := "challenge"
  const COUNTER := "counter-challenge"

  /** Where the sender's handler and goroutine stand. */
  datatype SenderPc =
    | Waiting
    | ReadyPending(ready: Ready)             // entered Transferring, TransferReady not yet sent
    | ChannelPending                         // data channel not yet created
    | Opening
    | Sending(offset: nat, number: nat)
    | FinSent                                // FIN sent, Completing not yet recorded
    | Exited

  /** Where the receiver's data-channel callback stands. */
  datatype ReceiverPc =
    | NoChannel
    | Live
    | Announced(verified: bool)              // TransferComplete sent, outcome not yet recorded
    | Marked                                 // Completing recorded, Done not yet
    | Closed

  datatype World = World(
    src: Source,
    snd: Option<Record>,
    rcv: Option<Record>,
    toSnd: multiset<Control>,
    toRcv: multiset<Control>,
    spc: SenderPc,
    rpc: ReceiverPc,
    incoming: bool,                          // a data channel is on its way to the receiver
    channel: seq<DataFrame>,
    written: Bytes,
    bytesRecv: nat,
    chunkCount: UInt32,
    issued: set<Signature>,                  // honest signatures that have been on the wire
    entered: Option<string>)                 // the counter-challenge under which the sender entered Transferring

  function Init(src: Source): World {
    World(src, None, None, multiset{}, multiset{}, Waiting, NoChannel, false, [], [], 0, 0, {}, None)
  }

  datatype Action =
    | Initiate(challenge: string, sendOk: bool, now: int)
    | DeliverOffer(offer: Offer, trusted: bool, counter: string, now: int)
    | DeliverAccept(accept: Accept, key: Option<Key>, now: int)
    | SendReady(ok: bool)
    | OpenChannel(channel: Channel, now: int)
    | DeliverReject(now: int)
    | DeliverReady(ready: Ready, key: Option<Key>, now: int)
    | DeliverComplete(verified: bool, now: int)
    | DeliverAck(lastSeq: UInt32, now: int)
    | LoseToSender(m: Control)
    | LoseToReceiver(m: Control)
    | ForgeAccept(accept: Accept)
    | ForgeReady(ready: Ready)
    | ChannelArrives(createOk: bool, now: int)
    | ChannelOpens
    | SendChunk(n: nat, sendOk: bool, now: int)
    | SendFin(sendOk: bool, now: int)
    | FinishSending(now: int)
    | AbortSending(now: int)
    | ReceiveFrame(w: WriteResult, hashOk: bool, now: int)
    | RecordOutcome(now: int)
    | DropChannel
    | CancelSender(now: int)
    | CancelReceiver(now: int)
    | TickSender(now: int)
    | TickReceiver(now: int)

  predicate TakesMessage(a: Action) {
    a.DeliverOffer? || a.DeliverAccept? || a.DeliverReject? || a.DeliverReady? || a.DeliverComplete? || a.DeliverAck?
  }

  /** Whoever poses as one of the two parties can use its own signatures and those it has seen. */
  predicate Forgeable(w: World, sig: Signature) {
    sig in w.issued || sig.signer !in {SENDER, RECEIVER}
  }

  // ---- Handshake steps -------------------------------------------------------------------

  function StepInitiate(w: World, a: Action): World
    requires a.Initiate?
  {
    if w.snd.Some? || !a.sendOk then w
    else
      var offer := Offer(Some(Digest(w.src.file)), a.challenge);
      w.(snd := Some(OfferedRecord(RECEIVER, offer, a.now)), toRcv := w.toRcv + multiset{MOffer(offer)})
  }

  function StepOffer(w: World, a: Action): World
    requires a.DeliverOffer?
  {
    if MOffer(a.offer) !in w.toRcv then w
    else
      var w' := w.(toRcv := w.toRcv - multiset{MOffer(a.offer)});
      if !a.trusted then w'.(toSnd := w.toSnd + multiset{MReject})
      else
        var sig := Signature(RECEIVER, a.offer.challenge);
        w'.(rcv := Some(AcceptedRecord(SENDER, a.offer, a.counter, a.now)),
            toSnd := w.toSnd + multiset{MAccept(Accept(sig, a.counter))},
            issued := w.issued + {sig})
  }

  function StepAccept(w: World, a: Action): World
    requires a.DeliverAccept?
  {
    if MAccept(a.accept) !in w.toSnd then w
    else
      var w' := w.(toSnd := w.toSnd - multiset{MAccept(a.accept)});
      if w.snd.None? then w'
      else
        var (r, answer) := OnAccept(w.snd.value, a.accept, Some(RECEIVER), SENDER, a.key, a.now);
        if answer.None? then w'.(snd := Some(r))
        else w'.(snd := Some(r), spc := ReadyPending(answer.value), entered := Some(a.accept.counterChallenge))
  }

  function StepSendReady(w: World, a: Action): World
    requires a.SendReady?
  {
    if !w.spc.ReadyPending? then w
    else if !a.ok then w.(spc := Exited)
    else w.(spc := ChannelPending,
            toRcv := w.toRcv + multiset{MReady(w.spc.ready)},
            issued := w.issued + {w.spc.ready.counterSig})
  }

  function StepOpenChannel(w: World, a: Action): World
    requires a.OpenChannel?
  {
    if !w.spc.ChannelPending? || w.snd.None? then w
    else if a.channel.Opened? then w.(spc := Opening, incoming := true)
    else w.(spc := Exited, snd := Some(OnStart(w.snd.value, a.channel, a.now)))
  }

  function StepReject(w: World, a: Action): World
    requires a.DeliverReject?
  {
    if MReject !in w.toSnd then w
    else
      var w' := w.(toSnd := w.toSnd - multiset{MReject});
      if w.snd.None? then w' else w'.(snd := Some(OnReject(w.snd.value, "not trusted", a.now)))
  }

  function StepReady(w: World, a: Action): World
    requires a.DeliverReady?
  {
    if MReady(a.ready) !in w.toRcv then w
    else
      var w' := w.(toRcv := w.toRcv - multiset{MReady(a.ready)});
      if w.rcv.None? then w' else w'.(rcv := Some(OnReady(w.rcv.value, a.ready, Some(SENDER), a.key, a.now)))
  }

  function StepComplete(w: World, a: Action): World
    requires a.DeliverComplete?
  {
    if MComplete(a.verified) !in w.toSnd then w
    else
      var w' := w.(toSnd := w.toSnd - multiset{MComplete(a.verified)});
      if w.snd.None? then w' else w'.(snd := Some(OnComplete(w.snd.value, a.verified, a.now)))
  }

  function StepAck(w: World, a: Action): World
    requires a.DeliverAck?
  {
    if MAck(a.lastSeq) !in w.toSnd then w
    else
      var w' := w.(toSnd := w.toSnd - multiset{MAck(a.lastSeq)});
      if w.snd.None? then w' else w'.(snd := Some(OnChunkAck(w.snd.value, a.lastSeq, a.now)))
  }

  // ---- Data-channel steps ----------------------------------------------------------------

  /** The receiver takes the channel, and creates an empty file, only in state Transferring. */
  function StepArrives(w: World, a: Action): World
    requires a.ChannelArrives?
  {
    if !w.incoming then w
    else
      var w' := w.(incoming := false);
      if w.rcv.None? || w.rcv.value.state != Transferring then w'.(rpc := Closed)
      else if a.createOk then w'.(rpc := Live, written := [], bytesRecv := 0, chunkCount := 0)
      else w'.(rpc := Closed, rcv := Some(Moved(w.rcv.value.(error := "create file"), Failed, a.now)))
  }

  function StepOpens(w: World): World {
    if !w.spc.Opening? || w.snd.None? then w
    else
      var last := w.snd.value.lastConfirmed;
      w.(spc := Sending(StartOffset(last, DEFAULT_CHUNK_SIZE), StartSeq(last)))
  }

  /** The key in use is the one stored in the sender's record. */
  function SendingSource(w: World): Source
    requires w.snd.Some?
  {
    w.src.(key := w.snd.value.sessionKey)
  }

  function StepSendChunk(w: World, a: Action): World
    requires a.SendChunk?
  {
    if !w.spc.Sending? || w.snd.None? then w
    else
      var off, number := w.spc.offset, w.spc.number;
      if !(0 < a.n <= DEFAULT_CHUNK_SIZE && off + a.n <= |w.src.file|) then w
      else if !a.sendOk then w.(spc := Exited, snd := Some(Moved(w.snd.value.(error := "send chunk"), Failed, a.now)))
      else
        var s := Truncate32(number);
        w.(spc := Sending(off + a.n, number + 1),
           channel := w.channel + [DataFrame(s, FLAG_DATA, Wrap(SendingSource(w), s, w.src.file[off..off + a.n]))])
  }

  function StepSendFin(w: World, a: Action): World
    requires a.SendFin?
  {
    if !w.spc.Sending? || w.snd.None? || w.spc.offset < |w.src.file| then w
    else if !a.sendOk then w.(spc := Exited, snd := Some(Moved(w.snd.value.(error := "send FIN"), Failed, a.now)))
    else w.(spc := FinSent, channel := w.channel + [FinFrame(w.spc.number)])
  }

  function StepFinishSending(w: World, a: Action): World
    requires a.FinishSending?
  {
    if !w.spc.FinSent? || w.snd.None? then w
    else w.(spc := Exited, snd := Some(Moved(w.snd.value, Completing, a.now)))
  }

  /** A cancelled context ends the goroutine; inside the send loop it is reported as an error. */
  function StepAbort(w: World, a: Action): World
    requires a.AbortSending?
  {
    if w.spc.Opening? then w.(spc := Exited)
    else if w.spc.Sending? && w.snd.Some? then
      w.(spc := Exited, snd := Some(Moved(w.snd.value.(error := "context cancelled"), Failed, a.now)))
    else w
  }

  function IntakeOf(w: World): Intake
    requires w.rcv.Some?
  {
    Intake(w.rcv.value, w.written, w.bytesRecv, w.chunkCount, [], [])
  }

  function StepReceive(w: World, a: Action): World
    requires a.ReceiveFrame?
  {
    if !w.rpc.Live? || w.rcv.None? || w.channel == [] then w
    else
      var fr := w.channel[0];
      var w' := w.(channel := w.channel[1..]);
      if HasFlag(fr.flags, FLAG_FIN) then
        var v := Verified(IntakeOf(w), a.hashOk);
        w'.(rpc := Announced(v), toSnd := w.toSnd + multiset{MComplete(v)})
      else
        var i := OnChunk(w.src.fileId, IntakeOf(w), fr, a.w, a.now);
        w'.(rcv := Some(i.record), written := i.written, bytesRecv := i.bytesRecv, chunkCount := i.chunkCount,
            toSnd := if i.acks == [] then w.toSnd else w.toSnd + multiset{MAck(i.acks[0])})
  }

  function StepRecord(w: World, a: Action): World
    requires a.RecordOutcome?
  {
    if w.rcv.None? then w
    else match w.rpc
      case Announced(true) => w.(rpc := Marked, rcv := Some(Moved(w.rcv.value, Completing, a.now)))
      case Announced(false) => w.(rpc := Closed, rcv := Some(Moved(w.rcv.value.(error := "SHA-256 mismatch"), Failed, a.now)))
      case Marked => w.(rpc := Closed, rcv := Some(Moved(w.rcv.value, Done, a.now)))
      case _ => w
  }

  function Step(w: World, a: Action): World {
    match a
    case Initiate(_, _, _) => StepInitiate(w, a)
    case DeliverOffer(_, _, _, _) => StepOffer(w, a)
    case DeliverAccept(_, _, _) => StepAccept(w, a)
    case SendReady(_) => StepSendReady(w, a)
    case OpenChannel(_, _) => StepOpenChannel(w, a)
    case DeliverReject(_) => StepReject(w, a)
    case DeliverReady(_, _, _) => StepReady(w, a)
    case DeliverComplete(_, _) => StepComplete(w, a)
    case DeliverAck(_, _) => StepAck(w, a)
    case LoseToSender(m) => w.(toSnd := w.toSnd - multiset{m})
    case LoseToReceiver(m) => w.(toRcv := w.toRcv - multiset{m})
    case ForgeAccept(acc) => if Forgeable(w, acc.challengeSig) then w.(toSnd := w.toSnd + multiset{MAccept(acc)}) else w
    case ForgeReady(rdy) => if Forgeable(w, rdy.counterSig) then w.(toRcv := w.toRcv + multiset{MReady(rdy)}) else w
    case ChannelArrives(_, _) => StepArrives(w, a)
    case ChannelOpens => StepOpens(w)
    case SendChunk(_, _, _) => StepSendChunk(w, a)
    case SendFin(_, _) => StepSendFin(w, a)
    case FinishSending(_) => StepFinishSending(w, a)
    case AbortSending(_) => StepAbort(w, a)
    case ReceiveFrame(_, _, _) => StepReceive(w, a)
    case RecordOutcome(_) => StepRecord(w, a)
    case DropChannel => if w.rpc.Live? then w.(rpc := Closed) else w
    case CancelSender(now) => if w.snd.Some? then w.(snd := Some(OnCancel(w.snd.value, now))) else w
    case CancelReceiver(now) => if w.rcv.Some? then w.(rcv := Some(OnCancel(w.rcv.value, now))) else w
    case TickSender(now) => if w.snd.Some? then w.(snd := Some(OnTick(w.snd.value, now))) else w
    case TickReceiver(now) => if w.rcv.Some? then w.(rcv := Some(OnTick(w.rcv.value, now))) else w
  }

  function Run(w: World, acts: seq<Action>): World
    decreases |acts|
  {
    if acts == [] then w else Run(Step(w, acts[0]), acts[1..])
  }

  // ---- What every step keeps -------------------------------------------------------------

  /** The receiver's output can no longer change. */
  predicate OutputFinal(w: World) {
    !w.rpc.NoChannel? && !w.rpc.Live?
  }

  predicate Past(s: State) {
    s == Transferring || s == Completing || s == Done
  }

  /** Who has proved what to whom. */
  ghost predicate Authenticated(w: World) {
    && (w.spc.ReadyPending? ==> w.entered == Some(w.spc.ready.counterSig.message) && w.spc.ready.counterSig.signer == SENDER)
    && (forall c :: Signature(SENDER, c) in w.issued ==> w.entered == Some(c))
    && (forall c :: Signature(RECEIVER, c) in w.issued ==> w.rcv.Some? && w.rcv.value.challenge == c)
    && (forall r :: MReady(r) in w.toRcv && r.counterSig.signer == SENDER ==> r.counterSig in w.issued)
    && (forall x :: MAccept(x) in w.toSnd && x.challengeSig.signer == RECEIVER ==> x.challengeSig in w.issued)
    && (w.rcv.Some? && Past(w.rcv.value.state) ==> w.entered == Some(w.rcv.value.counterChallenge))
    && (w.entered.Some? ==>
          && w.snd.Some? && w.rcv.Some? && w.rcv.value.challenge == w.snd.value.challenge
          && Rank(w.snd.value.state) >= Rank(Transferring))
    && (w.snd.Some? && Past(w.snd.value.state) ==> w.entered.Some?)
  }

  /** There is one offer, it names the sender's file, and it is in transit or has been acted on. */
  ghost predicate OneOffer(w: World) {
    && (forall o :: MOffer(o) in w.toRcv ==>
          && w.rcv.None? && w.snd.Some? && w.toRcv[MOffer(o)] == 1
          && o == Offer(Some(Digest(w.src.file)), w.snd.value.challenge))
    && (w.rcv.Some? ==> w.snd.Some? && w.rcv.value.digest == Some(Digest(w.src.file)))
    && (w.snd.None? ==> w.spc == Waiting)
    && (w.spc != Waiting ==> w.entered.Some?)
  }

  /** A verified completion means that the output is the file, for good. */
  ghost predicate Faithful(w: World) {
    && (MComplete(true) in w.toSnd ==> OutputFinal(w) && w.written == w.src.file)
    && (w.rpc == Announced(true) || w.rpc == Marked ==> w.written == w.src.file)
    && (w.snd.Some? && w.snd.value.state == Done ==> OutputFinal(w) && w.written == w.src.file)
    && (w.rcv.Some? && (w.rcv.value.state == Done || w.rcv.value.state == Completing) ==> OutputFinal(w) && w.written == w.src.file)
    && (w.incoming ==> w.rpc.NoChannel? && w.spc !in {Waiting, ChannelPending} && !w.spc.ReadyPending?)
    && (w.spc == Waiting || w.spc.ReadyPending? || w.spc == ChannelPending ==> w.rpc.NoChannel?)
    && (w.rpc.Live? ==> w.rcv.Some?)
  }

  ghost predicate Inv(w: World) {
    Authenticated(w) && OneOffer(w) && Faithful(w)
  }

  lemma InitInv(src: Source)
    ensures Inv(Init(src))
  {
  }

  /** A state moves forward, and a finished one stays as it is. */
  predicate Later(before: State, after: State) {
    Rank(before) <= Rank(after) && (Terminal(before) ==> after == before)
  }

  predicate Onward(w: World, w': World) {
    && (w.snd.Some? ==> w'.snd.Some? && Later(w.snd.value.state, w'.snd.value.state))
    && (w.rcv.Some? ==> w'.rcv.Some? && Later(w.rcv.value.state, w'.rcv.value.state))
  }

  /** What a new receiver record may look like. */
  predicate ReceiverFits(w: World, r: Record)
    requires w.rcv.Some?
  {
    && r.challenge == w.rcv.value.challenge && r.counterChallenge == w.rcv.value.counterChallenge
    && r.digest == w.rcv.value.digest
    && Later(w.rcv.value.state, r.state)
    && (Past(r.state) ==> Past(w.rcv.value.state) || w.entered == Some(r.counterChallenge))
    && (r.state == Done || r.state == Completing ==> r.state == w.rcv.value.state || (OutputFinal(w) && w.written == w.src.file))
  }

  lemma ReceiverUpdate(w: World, r: Record)
    requires Inv(w) && w.rcv.Some? && ReceiverFits(w, r)
    ensures Inv(w.(rcv := Some(r)))
  {
  }

  /** What a new sender record may look like. */
  predicate SenderFits(w: World, r: Record)
    requires w.snd.Some?
  {
    && r.challenge == w.snd.value.challenge
    && Later(w.snd.value.state, r.state)
    && (Past(r.state) ==> Past(w.snd.value.state))
    && (r.state == Done ==> w.snd.value.state == Done || (OutputFinal(w) && w.written == w.src.file))
  }

  lemma SenderUpdate(w: World, r: Record)
    requires Inv(w) && w.snd.Some? && SenderFits(w, r)
    ensures Inv(w.(snd := Some(r)))
  {
  }

  lemma LossKeepsInv(w: World, m: Control)
    requires Inv(w)
    ensures Inv(w.(toSnd := w.toSnd - multiset{m})) && Inv(w.(toRcv := w.toRcv - multiset{m}))
  {
  }

  lemma StopKeepsInv(w: World)
    requires Inv(w)
    ensures w.spc != Waiting ==> Inv(w.(spc := Exited))
  {
  }

  lemma InitiateKeepsInv(w: World, a: Action)
    requires Inv(w) && a.Initiate?
    ensures Inv(StepInitiate(w, a)) && Onward(w, StepInitiate(w, a))
  {
  }

  lemma RefusalKeepsInv(w: World)
    requires Inv(w)
    ensures Inv(w.(toSnd := w.toSnd + multiset{MReject}))
  {
  }

  /** The receiver's record and its answer, once the one offer has been taken. */
  lemma AnswerKeepsInv(w: World, r: Record)
    requires Inv(w) && w.rcv.None? && w.snd.Some? && forall o :: MOffer(o) !in w.toRcv
    requires r.challenge == w.snd.value.challenge && r.digest == Some(Digest(w.src.file)) && r.state == Accepted
    ensures var sig := Signature(RECEIVER, r.challenge);
            Inv(w.(rcv := Some(r), toSnd := w.toSnd + multiset{MAccept(Accept(sig, r.counterChallenge))}, issued := w.issued + {sig}))
  {
  }

  lemma OfferKeepsInv(w: World, a: Action)
    requires Inv(w) && a.DeliverOffer?
    ensures Inv(StepOffer(w, a)) && Onward(w, StepOffer(w, a))
  {
    if MOffer(a.offer) in w.toRcv {
      LossKeepsInv(w, MOffer(a.offer));
      var w' := w.(toRcv := w.toRcv - multiset{MOffer(a.offer)});
      if a.trusted {
        AnswerKeepsInv(w', AcceptedRecord(SENDER, a.offer, a.counter, a.now));
      } else {
        RefusalKeepsInv(w');
      }
    }
  }

  /** The step in which the sender, having checked the receiver's signature, enters Transferring. */
  lemma EnterKeepsInv(w: World, r: Record, ready: Ready, counter: string)
    requires Inv(w) && w.snd.Some? && w.snd.value.state == Offered
    requires w.rcv.Some? && w.rcv.value.challenge == w.snd.value.challenge
    requires r.challenge == w.snd.value.challenge && r.state == Transferring
    requires ready == Ready(Signature(SENDER, counter))
    ensures Inv(w.(snd := Some(r), spc := ReadyPending(ready), entered := Some(counter)))
  {
  }

  lemma RefusalFits(w: World, accept: Accept, key: Option<Key>, now: int)
    requires w.snd.Some?
    ensures var (r, answer) := OnAccept(w.snd.value, accept, Some(RECEIVER), SENDER, key, now);
            answer.None? ==> SenderFits(w, r)
  {
  }

  lemma AcceptKeepsInv(w: World, a: Action)
    requires Inv(w) && a.DeliverAccept?
    ensures Inv(StepAccept(w, a)) && Onward(w, StepAccept(w, a))
  {
    if MAccept(a.accept) in w.toSnd {
      LossKeepsInv(w, MAccept(a.accept));
      var w' := w.(toSnd := w.toSnd - multiset{MAccept(a.accept)});
      if w.snd.Some? {
        var (r, answer) := OnAccept(w.snd.value, a.accept, Some(RECEIVER), SENDER, a.key, a.now);
        if answer.None? {
          RefusalFits(w', a.accept, a.key, a.now);
          SenderUpdate(w', r);
        } else {
          EnterKeepsInv(w', r, answer.value, a.accept.counterChallenge);
        }
      }
    }
  }

  lemma SendReadyKeepsInv(w: World, a: Action)
    requires Inv(w) && a.SendReady?
    ensures Inv(StepSendReady(w, a)) && Onward(w, StepSendReady(w, a))
  {
  }

  lemma OpenChannelKeepsInv(w: World, a: Action)
    requires Inv(w) && a.OpenChannel?
    ensures Inv(StepOpenChannel(w, a)) && Onward(w, StepOpenChannel(w, a))
  {
    if w.spc.ChannelPending? && w.snd.Some? && !a.channel.Opened? {
      StopKeepsInv(w);
      SenderUpdate(w.(spc := Exited), OnStart(w.snd.value, a.channel, a.now));
    }
  }

  lemma RejectKeepsInv(w: World, a: Action)
    requires Inv(w) && a.DeliverReject?
    ensures Inv(StepReject(w, a)) && Onward(w, StepReject(w, a))
  {
    LossKeepsInv(w, MReject);
    if MReject in w.toSnd && w.snd.Some? {
      SenderUpdate(w.(toSnd := w.toSnd - multiset{MReject}), OnReject(w.snd.value, "not trusted", a.now));
    }
  }

  /** A ready message in the sender's name carries the counter-challenge the sender entered under. */
  predicate Genuine(w: World, ready: Ready) {
    ready.counterSig.signer == SENDER ==> w.entered == Some(ready.counterSig.message)
  }

  lemma ReadyIsGenuine(w: World, ready: Ready)
    requires Authenticated(w) && MReady(ready) in w.toRcv
    ensures Genuine(w, ready)
  {
    if ready.counterSig.signer == SENDER {
      assert Signature(SENDER, ready.counterSig.message) in w.issued;
    }
  }

  lemma ReadyFits(w: World, ready: Ready, key: Option<Key>, now: int)
    requires w.rcv.Some? && Genuine(w, ready)
    ensures ReceiverFits(w, OnReady(w.rcv.value, ready, Some(SENDER), key, now))
  {
  }

  lemma ReadyKeepsInv(w: World, a: Action)
    requires Inv(w) && a.DeliverReady?
    ensures Inv(StepReady(w, a)) && Onward(w, StepReady(w, a))
  {
    if MReady(a.ready) in w.toRcv {
      LossKeepsInv(w, MReady(a.ready));
      var w' := w.(toRcv := w.toRcv - multiset{MReady(a.ready)});
      if w.rcv.Some? {
        ReadyIsGenuine(w, a.ready);
        ReadyFits(w', a.ready, a.key, a.now);
        ReceiverUpdate(w', OnReady(w.rcv.value, a.ready, Some(SENDER), a.key, a.now));
      }
    }
  }

  lemma CompletionFits(w: World, verified: bool, now: int)
    requires Inv(w) && w.snd.Some? && MComplete(verified) in w.toSnd
    ensures SenderFits(w, OnComplete(w.snd.value, verified, now))
  {
  }

  lemma CompleteKeepsInv(w: World, a: Action)
    requires Inv(w) && a.DeliverComplete?
    ensures Inv(StepComplete(w, a)) && Onward(w, StepComplete(w, a))
  {
    LossKeepsInv(w, MComplete(a.verified));
    if MComplete(a.verified) in w.toSnd && w.snd.Some? {
      CompletionFits(w, a.verified, a.now);
      SenderUpdate(w.(toSnd := w.toSnd - multiset{MComplete(a.verified)}), OnComplete(w.snd.value, a.verified, a.now));
    }
  }

  lemma AckKeepsInv(w: World, a: Action)
    requires Inv(w) && a.DeliverAck?
    ensures Inv(StepAck(w, a)) && Onward(w, StepAck(w, a))
  {
    LossKeepsInv(w, MAck(a.lastSeq));
    if MAck(a.lastSeq) in w.toSnd && w.snd.Some? {
      SenderUpdate(w.(toSnd := w.toSnd - multiset{MAck(a.lastSeq)}), OnChunkAck(w.snd.value, a.lastSeq, a.now));
    }
  }

  lemma ArrivesKeepsInv(w: World, a: Action)
    requires Inv(w) && a.ChannelArrives?
    ensures Inv(StepArrives(w, a)) && Onward(w, StepArrives(w, a))
  {
    if w.incoming && w.rcv.Some? && w.rcv.value.state == Transferring && !a.createOk {
      ReceiverUpdate(w, Moved(w.rcv.value.(error := "create file"), Failed, a.now));
    }
  }

  lemma OpensKeepsInv(w: World)
    requires Inv(w)
    ensures Inv(Step(w, ChannelOpens)) && Onward(w, Step(w, ChannelOpens))
  {
    assert Step(w, ChannelOpens) == StepOpens(w);
  }

  lemma SendChunkKeepsInv(w: World, a: Action)
    requires Inv(w) && a.SendChunk?
    ensures Inv(StepSendChunk(w, a)) && Onward(w, StepSendChunk(w, a))
  {
    if w.spc.Sending? && w.snd.Some? {
      StopKeepsInv(w);
      SenderUpdate(w.(spc := Exited), Moved(w.snd.value.(error := "send chunk"), Failed, a.now));
    }
  }

  lemma SendFinKeepsInv(w: World, a: Action)
    requires Inv(w) && a.SendFin?
    ensures Inv(StepSendFin(w, a)) && Onward(w, StepSendFin(w, a))
  {
    if w.spc.Sending? && w.snd.Some? {
      StopKeepsInv(w);
      SenderUpdate(w.(spc := Exited), Moved(w.snd.value.(error := "send FIN"), Failed, a.now));
    }
  }

  lemma FinishSendingKeepsInv(w: World, a: Action)
    requires Inv(w) && a.FinishSending?
    ensures Inv(StepFinishSending(w, a)) && Onward(w, StepFinishSending(w, a))
  {
    if w.spc.FinSent? && w.snd.Some? {
      StopKeepsInv(w);
      SenderUpdate(w.(spc := Exited), Moved(w.snd.value, Completing, a.now));
    }
  }

  lemma AbortKeepsInv(w: World, a: Action)
    requires Inv(w) && a.AbortSending?
    ensures Inv(StepAbort(w, a)) && Onward(w, StepAbort(w, a))
  {
    StopKeepsInv(w);
    if w.spc.Sending? && w.snd.Some? {
      SenderUpdate(w.(spc := Exited), Moved(w.snd.value.(error := "context cancelled"), Failed, a.now));
    }
  }

  lemma AnnounceKeepsInv(w: World, v: bool)
    requires Inv(w) && w.rpc.Live? && w.channel != [] && (v ==> w.written == w.src.file)
    ensures Inv(w.(channel := w.channel[1..], rpc := Announced(v), toSnd := w.toSnd + multiset{MComplete(v)}))
  {
  }

  /** A data frame changes the record only by failing it or by noting progress, and
      acknowledges at most once. */
  lemma OnChunkShape(fileId: string, i: Intake, fr: DataFrame, w: WriteResult, now: int)
    ensures var j := OnChunk(fileId, i, fr, w, now);
            && j.record.challenge == i.record.challenge && j.record.counterChallenge == i.record.counterChallenge
            && j.record.digest == i.record.digest && j.record.sessionKey == i.record.sessionKey
            && (j.record.state == i.record.state || j.record.state == Failed)
            && (Terminal(i.record.state) ==> j.record.state == i.record.state)
            && |j.acks| <= |i.acks| + 1 && j.completes == i.completes
  {
  }

  lemma WriteKeepsInv(w: World, i: Intake)
    requires Inv(w) && w.rpc.Live? && w.channel != []
    ensures Inv(w.(channel := w.channel[1..], written := i.written, bytesRecv := i.bytesRecv, chunkCount := i.chunkCount))
    ensures i.acks != [] ==>
              Inv(w.(channel := w.channel[1..], written := i.written, bytesRecv := i.bytesRecv, chunkCount := i.chunkCount,
                     toSnd := w.toSnd + multiset{MAck(i.acks[0])}))
  {
  }

  lemma ReceiveKeepsInv(w: World, a: Action)
    requires Inv(w) && a.ReceiveFrame?
    ensures Inv(StepReceive(w, a)) && Onward(w, StepReceive(w, a))
  {
    if w.rpc.Live? && w.rcv.Some? && w.channel != [] {
      var fr := w.channel[0];
      if HasFlag(fr.flags, FLAG_FIN) {
        AnnounceKeepsInv(w, Verified(IntakeOf(w), a.hashOk));
      } else {
        var i := OnChunk(w.src.fileId, IntakeOf(w), fr, a.w, a.now);
        OnChunkShape(w.src.fileId, IntakeOf(w), fr, a.w, a.now);
        ReceiverUpdate(w, i.record);
        WriteKeepsInv(w.(rcv := Some(i.record)), i);
      }
    }
  }

  lemma RpcKeepsInv(w: World, rpc: ReceiverPc)
    requires Inv(w) && (w.rpc.Live? || OutputFinal(w)) && (rpc == Closed || rpc == Marked)
    requires rpc == Marked ==> w.rpc == Announced(true)
    ensures Inv(w.(rpc := rpc))
  {
  }

  lemma DropKeepsInv(w: World)
    requires Inv(w)
    ensures Inv(Step(w, DropChannel)) && Onward(w, Step(w, DropChannel))
  {
    if w.rpc.Live? {
      RpcKeepsInv(w, Closed);
      assert Step(w, DropChannel) == w.(rpc := Closed);
    } else {
      assert Step(w, DropChannel) == w;
    }
  }

  lemma OutcomeFits(w: World, now: int)
    requires Inv(w) && w.rcv.Some?
    ensures w.rpc == Announced(true) ==> ReceiverFits(w, Moved(w.rcv.value, Completing, now))
    ensures w.rpc == Announced(false) ==> ReceiverFits(w, Moved(w.rcv.value.(error := "SHA-256 mismatch"), Failed, now))
    ensures w.rpc == Marked ==> ReceiverFits(w, Moved(w.rcv.value, Done, now))
  {
  }

  lemma RecordKeepsInv(w: World, a: Action)
    requires Inv(w) && a.RecordOutcome?
    ensures Inv(StepRecord(w, a)) && Onward(w, StepRecord(w, a))
  {
    if w.rcv.Some? && (w.rpc.Announced? || w.rpc.Marked?) {
      OutcomeFits(w, a.now);
      var r := StepRecord(w, a).rcv.value;
      ReceiverUpdate(w, r);
      RpcKeepsInv(w.(rcv := Some(r)), StepRecord(w, a).rpc);
    }
  }

  lemma ForgedAcceptKeepsInv(w: World, accept: Accept)
    requires Inv(w) && Forgeable(w, accept.challengeSig)
    ensures Inv(w.(toSnd := w.toSnd + multiset{MAccept(accept)}))
  {
  }

  lemma ForgedReadyKeepsInv(w: World, ready: Ready)
    requires Inv(w) && Forgeable(w, ready.counterSig)
    ensures Inv(w.(toRcv := w.toRcv + multiset{MReady(ready)}))
  {
  }

  lemma ForgeryKeepsInv(w: World, a: Action)
    requires Inv(w) && (a.ForgeAccept? || a.ForgeReady?)
    ensures Inv(Step(w, a)) && Onward(w, Step(w, a))
  {
    if a.ForgeAccept? && Forgeable(w, a.accept.challengeSig) {
      ForgedAcceptKeepsInv(w, a.accept);
    } else if a.ForgeReady? && Forgeable(w, a.ready.counterSig) {
      ForgedReadyKeepsInv(w, a.ready);
    }
  }

  lemma InterruptionFits(w: World, now: int)
    ensures w.snd.Some? ==> SenderFits(w, OnCancel(w.snd.value, now))
    ensures w.rcv.Some? ==> ReceiverFits(w, OnCancel(w.rcv.value, now))
  {
  }

  lemma TickFits(w: World, now: int)
    ensures w.snd.Some? ==> SenderFits(w, OnTick(w.snd.value, now))
    ensures w.rcv.Some? ==> ReceiverFits(w, OnTick(w.rcv.value, now))
  {
  }

  lemma CancelKeepsInv(w: World, a: Action)
    requires Inv(w) && (a.CancelSender? || a.CancelReceiver?)
    ensures Inv(Step(w, a)) && Onward(w, Step(w, a))
  {
    InterruptionFits(w, a.now);
    if a.CancelSender? && w.snd.Some? { SenderUpdate(w, OnCancel(w.snd.value, a.now)); }
    if a.CancelReceiver? && w.rcv.Some? { ReceiverUpdate(w, OnCancel(w.rcv.value, a.now)); }
  }

  lemma TickKeepsInv(w: World, a: Action)
    requires Inv(w) && (a.TickSender? || a.TickReceiver?)
    ensures Inv(Step(w, a)) && Onward(w, Step(w, a))
  {
    TickFits(w, a.now);
    if a.TickSender? && w.snd.Some? { SenderUpdate(w, OnTick(w.snd.value, a.now)); }
    if a.TickReceiver? && w.rcv.Some? { ReceiverUpdate(w, OnTick(w.rcv.value, a.now)); }
  }

  lemma HandshakeKeepsInv(w: World, a: Action)
    requires Inv(w) && (a.Initiate? || a.DeliverOffer? || a.DeliverAccept? || a.SendReady? || a.OpenChannel?
                        || a.DeliverReject? || a.DeliverReady? || a.DeliverComplete? || a.DeliverAck?)
    ensures Inv(Step(w, a)) && Onward(w, Step(w, a))
  {
    match a
    case Initiate(_, _, _) => InitiateKeepsInv(w, a);
    case DeliverOffer(_, _, _, _) => OfferKeepsInv(w, a);
    case DeliverAccept(_, _, _) => AcceptKeepsInv(w, a);
    case SendReady(_) => SendReadyKeepsInv(w, a);
    case OpenChannel(_, _) => OpenChannelKeepsInv(w, a);
    case DeliverReject(_) => RejectKeepsInv(w, a);
    case DeliverReady(_, _, _) => ReadyKeepsInv(w, a);
    case DeliverComplete(_, _) => CompleteKeepsInv(w, a);
    case DeliverAck(_, _) => AckKeepsInv(w, a);
  }

  lemma SendingKeepsInv(w: World, a: Action)
    requires Inv(w) && (a.ChannelOpens? || a.SendChunk? || a.SendFin?)
    ensures Inv(Step(w, a)) && Onward(w, Step(w, a))
  {
    match a
    case ChannelOpens => OpensKeepsInv(w);
    case SendChunk(_, _, _) => SendChunkKeepsInv(w, a);
    case SendFin(_, _) => SendFinKeepsInv(w, a);
  }

  lemma EndingKeepsInv(w: World, a: Action)
    requires Inv(w) && (a.FinishSending? || a.AbortSending?)
    ensures Inv(Step(w, a)) && Onward(w, Step(w, a))
  {
    match a
    case FinishSending(_) => FinishSendingKeepsInv(w, a);
    case AbortSending(_) => AbortKeepsInv(w, a);
  }

  lemma ReceivingKeepsInv(w: World, a: Action)
    requires Inv(w) && (a.ChannelArrives? || a.ReceiveFrame? || a.RecordOutcome? || a.DropChannel?)
    ensures Inv(Step(w, a)) && Onward(w, Step(w, a))
  {
    match a
    case ChannelArrives(_, _) => ArrivesKeepsInv(w, a);
    case ReceiveFrame(_, _, _) => ReceiveKeepsInv(w, a);
    case RecordOutcome(_) => RecordKeepsInv(w, a);
    case DropChannel => DropKeepsInv(w);
  }

  lemma StepKeepsInv(w: World, a: Action)
    requires Inv(w)
    ensures Inv(Step(w, a)) && Onward(w, Step(w, a))
  {
    if a.LoseToSender? || a.LoseToReceiver? {
      LossKeepsInv(w, a.m);
    } else if a.ForgeAccept? || a.ForgeReady? {
      ForgeryKeepsInv(w, a);
    } else if a.CancelSender? || a.CancelReceiver? {
      CancelKeepsInv(w, a);
    } else if a.TickSender? || a.TickReceiver? {
      TickKeepsInv(w, a);
    } else if a.ChannelOpens? || a.SendChunk? || a.SendFin? {
      SendingKeepsInv(w, a);
    } else if a.FinishSending? || a.AbortSending? {
      EndingKeepsInv(w, a);
    } else if a.ChannelArrives? || a.ReceiveFrame? || a.RecordOutcome? || a.DropChannel? {
      ReceivingKeepsInv(w, a);
    } else {
      HandshakeKeepsInv(w, a);
    }
  }

  lemma {:induction false} RunKeepsInv(w: World, acts: seq<Action>)
    requires Inv(w)
    ensures Inv(Run(w, acts)) && Onward(w, Run(w, acts))
    decreases |acts|
  {
    if acts != [] {
      StepKeepsInv(w, acts[0]);
      RunKeepsInv(Step(w, acts[0]), acts[1..]);
    }
  }

  // ---- Agreement -------------------------------------------------------------------------

  /** Every reachable state of the two parties by themselves, whatever was lost, reordered, forged in
      their name, cancelled or timed out (the theorem among other agents is
      ThirdPartyChannels.Agreement):
      - a receiver that got as far as Transferring shares its counter-challenge with a sender
        that has verified the receiver's signature and entered Transferring;
      - a sender that got that far has its challenge answered by this receiver;
      - whichever side reports Done, the receiver's output is the sender's file. */
  lemma PartiesAgree(src: Source, acts: seq<Action>)
    ensures var w := Run(Init(src), acts);
            && (w.rcv.Some? && Past(w.rcv.value.state) ==>
                  w.snd.Some? && w.entered == Some(w.rcv.value.counterChallenge) && Rank(w.snd.value.state) >= Rank(Transferring))
            && (w.snd.Some? && Past(w.snd.value.state) ==>
                  w.entered.Some? && w.rcv.Some? && w.rcv.value.challenge == w.snd.value.challenge)
            && (w.snd.Some? && w.snd.value.state == Done ==> w.written == src.file)
            && (w.rcv.Some? && w.rcv.value.state == Done ==> w.written == src.file)
  {
    InitInv(src);
    RunKeepsInv(Init(src), acts);
    SourceIsFixed(Init(src), acts);
  }

  /** The mark left on entering is set by one step only. */
  lemma OnlyAcceptEnters(w: World, a: Action)
    requires !a.DeliverAccept?
    ensures Step(w, a).entered == w.entered
  {
  }

  lemma {:induction false} SourceIsFixed(w: World, acts: seq<Action>)
    ensures Run(w, acts).src == w.src
    decreases |acts|
  {
    if acts != [] {
      SourceIsFixed(Step(w, acts[0]), acts[1..]);
    }
  }

  /** Outcomes are final: from any reachable state, a finished side stays as it is and an
      unfinished one only moves forward, in every continuation; and once the sender is Done the
      receiver's output never changes again. */
  lemma {:induction false} PartiesStayFinished(src: Source, before: seq<Action>, after: seq<Action>)
    ensures var w := Run(Init(src), before);
            var w' := Run(w, after);
            && Onward(w, w')
            && (w.snd.Some? && w.snd.value.state == Done ==> w'.snd.value.state == Done && w'.written == w.written == src.file)
  {
    InitInv(src);
    RunKeepsInv(Init(src), before);
    SourceIsFixed(Init(src), before);
    RunKeepsInv(Run(Init(src), before), after);
    SourceIsFixed(Run(Init(src), before), after);
  }

  /** When the FIN is out and a verified completion is waiting, the sender ends Done whichever
      of its own Completing step and the message comes first. */
  lemma EitherOrderEndsDone(w: World, t1: int, t2: int)
    requires w.spc.FinSent? && MComplete(true) in w.toSnd
    requires w.snd.Some? && w.snd.value.state == Transferring
    ensures var r := Run(w, [FinishSending(t1), DeliverComplete(true, t2)]).snd; r.Some? && r.value.state == Done
    ensures var r := Run(w, [DeliverComplete(true, t1), FinishSending(t2)]).snd; r.Some? && r.value.state == Done
  {
    CompletionOrderIrrelevant(w.snd.value, t1, t2);
    RunTwo(w, FinishSending(t1), DeliverComplete(true, t2));
    assert Step(w, FinishSending(t1)) == StepFinishSending(w, FinishSending(t1));
    RunTwo(w, DeliverComplete(true, t1), FinishSending(t2));
    assert Step(w, DeliverComplete(true, t1)) == StepComplete(w, DeliverComplete(true, t1));
  }

  lemma RunOne(w: World, a: Action)
    ensures Run(w, [a]) == Step(w, a)
  {
    assert [a][1..] == [];
  }

  lemma RunOn(w: World, a: Action, rest: seq<Action>)
    ensures Run(w, [a] + rest) == Run(Step(w, a), rest)
  {
    assert ([a] + rest)[1..] == rest;
  }

  lemma RunTwo(w: World, a: Action, b: Action)
    ensures Run(w, [a, b]) == Step(Step(w, a), b)
  {
    assert [a, b][1..] == [b];
    RunOne(Step(w, a), b);
  }
}
