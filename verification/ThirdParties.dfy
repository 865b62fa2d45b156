/** The messages of a file transfer among other agents (filetransfer/manager.go). The handlers find
    the transfer by its file ID and verify under the key of whatever source a message has; none
    compares the source with the peer of the record. So any trusted agent that knows the file ID
    takes part. Here the protocol of the two parties runs with every message carrying its source,
    and third parties post any messages of their own. When each message that is delivered comes
    from the peer of the record it is about, which a caller can check before it dispatches, every
    run is for the two parties a run of their own; the failing runs show what happens otherwise.
    Module ThirdPartyChannels adds the data channels that third parties open. */
module ThirdParties {
  import opened Basics
  import opened ChunkCipher
  import opened TransferState
  import opened TransferManager
  import opened ChunkStream
  import opened TransferProtocol
  import D = TransferDelivery

  /** base holds the records filed under the ID, the goroutines, the channel and the mail between
      the two parties. An offer replaces the filed record; a goroutine goes on with the one it
      has, which is then kept as its job. */
  datatype Net = Net(
    base: World,
    sndJob: Option<Record>,
    rcvJob: Option<Record>,
    othersToSnd: multiset<Mail>,
    othersToRcv: multiset<Mail>,
    readyTo: string,                         // whom the accept came from that the sender answers
    learned: set<Signature>)                 // signatures made for third parties

  function Start(src: Source): Net {
    Net(Init(src), None, None, multiset{}, multiset{}, RECEIVER, {})
  }

  /** Internal stands for the steps that take no message. Forged messages of the two parties,
      which their envelopes' signatures exclude, are among them. */
  datatype Act =
    | Internal(step: Action)
    | Deliver(toSender: bool, mail: Mail, trusted: bool, counter: string, key: Option<Key>, now: int)
    | Post(toSender: bool, mail: Mail)
    | Lose(toSender: bool, mail: Mail)

  // ---- The steps -------------------------------------------------------------------------

  predicate Outside(source: string) {
    source != SENDER && source != RECEIVER
  }

  function Self(toSender: bool): string {
    if toSender then SENDER else RECEIVER
  }

  function Counterpart(toSender: bool): string {
    Self(!toSender)
  }

  /** The public-key resolver: agents have the keys that bear their names. */
  function PublicKey(source: string): Option<string> {
    Some(source)
  }

  predicate InTransit(w: Net, toSender: bool, mail: Mail) {
    if mail.source == Counterpart(toSender) then mail.body in (if toSender then w.base.toSnd else w.base.toRcv)
    else mail in (if toSender then w.othersToSnd else w.othersToRcv)
  }

  function Taken(w: Net, toSender: bool, mail: Mail): Net {
    if mail.source == Counterpart(toSender) then
      if toSender then w.(base := w.base.(toSnd := w.base.toSnd - multiset{mail.body}))
      else w.(base := w.base.(toRcv := w.base.toRcv - multiset{mail.body}))
    else if toSender then w.(othersToSnd := w.othersToSnd - multiset{mail})
    else w.(othersToRcv := w.othersToRcv - multiset{mail})
  }

  function RecordAt(w: Net, toSender: bool): Option<Record> {
    if toSender then w.base.snd else w.base.rcv
  }

  predicate SenderBusy(w: World) {
    w.spc != Waiting && w.spc != Exited
  }

  predicate ReceiverBusy(w: World) {
    w.rpc != NoChannel && w.rpc != Closed
  }

  /** Files a record in place of whatever is filed. */
  function Filed(w: Net, toSender: bool, r: Record): Net {
    if toSender then
      w.(base := w.base.(snd := Some(r)),
         sndJob := if w.sndJob.None? && SenderBusy(w.base) then w.base.snd else w.sndJob)
    else
      w.(base := w.base.(rcv := Some(r)),
         rcvJob := if w.rcvJob.None? && ReceiverBusy(w.base) then w.base.rcv else w.rcvJob)
  }

  /** An answer goes to the other party or to the third party that asked. */
  function Answered(w: Net, toSender: bool, source: string, body: Control, sigs: set<Signature>): Net {
    if source != Counterpart(toSender) then w.(learned := w.learned + sigs)
    else if toSender then w.(base := w.base.(toRcv := w.base.toRcv + multiset{body}, issued := w.base.issued + sigs))
    else w.(base := w.base.(toSnd := w.base.toSnd + multiset{body}, issued := w.base.issued + sigs))
  }

  function OfferHandled(w: Net, act: Act, offer: Offer): Net
    requires act.Deliver?
  {
    if !act.trusted then Answered(w, act.toSender, act.mail.source, MReject, {})
    else
      var sig := Signature(Self(act.toSender), offer.challenge);
      Answered(Filed(w, act.toSender, AcceptedRecord(act.mail.source, offer, act.counter, act.now)),
               act.toSender, act.mail.source, MAccept(Accept(sig, act.counter)), {sig})
  }

  /** A record filed by an offer is Accepted from the start, so that only the sender answers an
      accept (ReceiverNeverAnswers). */
  function MessageHandled(w: Net, act: Act, r: Record): Net
    requires act.Deliver?
  {
    var (r', answer) := Handled(r, act.mail, PublicKey(act.mail.source), Self(act.toSender), act.key, act.now);
    if !act.toSender then w.(base := w.base.(rcv := Some(r')))
    else if answer.None? then w.(base := w.base.(snd := Some(r')))
    else w.(base := w.base.(snd := Some(r'), spc := ReadyPending(answer.value), entered := Some(answer.value.counterSig.message)),
            readyTo := act.mail.source)
  }

  function StepDeliver(w: Net, act: Act): Net
    requires act.Deliver?
  {
    if !InTransit(w, act.toSender, act.mail) then w
    else
      var w' := Taken(w, act.toSender, act.mail);
      if act.mail.body.MOffer? then OfferHandled(w', act, act.mail.body.offer)
      else if RecordAt(w, act.toSender).None? then w'
      else MessageHandled(w', act, RecordAt(w, act.toSender).value)
  }

  predicate SenderWorks(a: Action) {
    a.SendReady? || a.OpenChannel? || a.ChannelOpens? || a.SendChunk? || a.SendFin? || a.FinishSending? || a.AbortSending?
  }

  predicate ReceiverWorks(a: Action) {
    a.ReceiveFrame? || a.RecordOutcome? || a.DropChannel?
  }

  /** The sending goroutine works on its job; the ready message goes where the accept came from. */
  function StepSender(w: Net, a: Action): Net {
    var b := Step(if w.sndJob.Some? then w.base.(snd := w.sndJob) else w.base, a);
    var w' := if w.sndJob.Some? then w.(base := b.(snd := w.base.snd), sndJob := b.snd) else w.(base := b);
    if a.SendReady? && w.readyTo != RECEIVER then
      w'.(base := w'.base.(toRcv := w.base.toRcv, issued := w.base.issued), learned := w.learned + (b.issued - w.base.issued))
    else w'
  }

  /** The receiving goroutine works on its job, and reports to the peer of that record. */
  function StepReceiver(w: Net, a: Action): Net {
    var b := Step(if w.rcvJob.Some? then w.base.(rcv := w.rcvJob) else w.base, a);
    var w' := if w.rcvJob.Some? then w.(base := b.(rcv := w.base.rcv), rcvJob := b.rcv) else w.(base := b);
    var job := if w.rcvJob.Some? then w.rcvJob else w.base.rcv;
    if job.Some? && job.value.peer != SENDER then w'.(base := w'.base.(toSnd := w.base.toSnd)) else w'
  }

  function StepForge(w: Net, a: Action): Net {
    if a.ForgeAccept? && a.accept.challengeSig in w.learned then
      w.(base := w.base.(toSnd := w.base.toSnd + multiset{MAccept(a.accept)}))
    else if a.ForgeReady? && a.ready.counterSig in w.learned then
      w.(base := w.base.(toRcv := w.base.toRcv + multiset{MReady(a.ready)}))
    else w.(base := Step(w.base, a))
  }

  function StepInternal(w: Net, a: Action): Net {
    if TakesMessage(a) then w
    else if SenderWorks(a) then StepSender(w, a)
    else if ReceiverWorks(a) then StepReceiver(w, a)
    else if a.ForgeAccept? || a.ForgeReady? then StepForge(w, a)
    else w.(base := Step(w.base, a))
  }

  function StepNet(w: Net, act: Act): Net {
    match act
    case Internal(a) => StepInternal(w, a)
    case Deliver(_, _, _, _, _, _) => StepDeliver(w, act)
    case Post(toSender, mail) =>
      if !Outside(mail.source) then w
      else if toSender then w.(othersToSnd := w.othersToSnd + multiset{mail})
      else w.(othersToRcv := w.othersToRcv + multiset{mail})
    case Lose(toSender, mail) =>
      if toSender then w.(othersToSnd := w.othersToSnd - multiset{mail})
      else w.(othersToRcv := w.othersToRcv - multiset{mail})
  }

  function RunNet(w: Net, acts: seq<Act>): Net
    decreases |acts|
  {
    if acts == [] then w else RunNet(StepNet(w, acts[0]), acts[1..])
  }

  // ---- The check -------------------------------------------------------------------------

  /** The message comes from the peer of the record it is about, if there is one; and forgers
      reuse no signature that they had made for an offer of their own. */
  predicate Heeded(w: Net, act: Act) {
    match act
    case Deliver(toSender, mail, _, _, _, _) =>
      RecordAt(w, toSender).Some? ==> RecordAt(w, toSender).value.peer == mail.source
    case Internal(ForgeAccept(accept)) => accept.challengeSig !in w.learned
    case Internal(ForgeReady(ready)) => ready.counterSig !in w.learned
    case _ => true
  }

  predicate HeededRun(w: Net, acts: seq<Act>)
    decreases |acts|
  {
    acts == [] || (Heeded(w, acts[0]) && HeededRun(StepNet(w, acts[0]), acts[1..]))
  }

  // ---- What the two parties see ----------------------------------------------------------

  function OfPeer(r: Option<Record>, peer: string): Option<Record> {
    if r.Some? && r.value.peer == peer then r else None
  }

  /** The world of the two parties: records of transfers with anyone else are hidden. */
  function PairOf(w: Net): World {
    w.base.(snd := OfPeer(w.base.snd, RECEIVER), rcv := OfPeer(w.base.rcv, SENDER))
  }

  /** The step that the two parties see. */
  function Shadow(w: Net, act: Act): Option<Action> {
    match act
    case Internal(a) => if TakesMessage(a) || (a.Initiate? && w.base.snd.Some?) then None else Some(a)
    case Deliver(toSender, mail, _, _, _, _) =>
      if mail.source != Counterpart(toSender) || !InTransit(w, toSender, mail) then None
      else if toSender then Some(ToSender(act)) else Some(ToReceiver(act))
    case _ => None
  }

  function ToSender(act: Act): Action
    requires act.Deliver?
  {
    match act.mail.body
    case MAccept(accept) => DeliverAccept(accept, act.key, act.now)
    case MReject => DeliverReject(act.now)
    case MComplete(verified) => DeliverComplete(verified, act.now)
    case MAck(lastSeq) => DeliverAck(lastSeq, act.now)
    case _ => LoseToSender(act.mail.body)
  }

  function ToReceiver(act: Act): Action
    requires act.Deliver?
  {
    match act.mail.body
    case MOffer(offer) => DeliverOffer(offer, act.trusted, act.counter, act.now)
    case MReady(ready) => DeliverReady(ready, act.key, act.now)
    case _ => LoseToReceiver(act.mail.body)
  }

  function Seen(w: World, a: Option<Action>): World {
    if a.None? then w else Step(w, a.value)
  }

  predicate FromReceiver(m: Control) {
    m.MReject? || m.MAccept? || m.MComplete? || m.MAck?
  }

  predicate FromSender(m: Control) {
    m.MOffer? || m.MReady?
  }

  /** Each party sends the other only the messages of its role. */
  ghost predicate Kinds(w: World) {
    (forall m :: m in w.toSnd ==> FromReceiver(m)) && (forall m :: m in w.toRcv ==> FromSender(m))
  }

  ghost predicate NetInv(w: Net) {
    && Inv(PairOf(w)) && Kinds(w.base)
    && Undisturbed(w) && Strangers(w)
  }

  /** No record was replaced under a goroutine, and records that the sender filed for an offer
      are past Offered. */
  predicate Undisturbed(w: Net) {
    && w.sndJob == None && w.rcvJob == None && w.readyTo == RECEIVER
    && (w.base.snd.Some? && w.base.snd.value.peer != RECEIVER ==> Rank(w.base.snd.value.state) >= Rank(Accepted))
  }

  ghost predicate Strangers(w: Net) {
    && (forall m :: m in w.othersToSnd ==> Outside(m.source))
    && (forall m :: m in w.othersToRcv ==> Outside(m.source))
  }

  lemma StartInv(src: Source)
    ensures NetInv(Start(src)) && PairOf(Start(src)) == Init(src)
  {
    InitInv(src);
  }

  // ---- Heeded steps are steps of the two parties -----------------------------------------

  predicate Alike(r: Option<Record>, r': Option<Record>) {
    if r.None? then r'.None? else r'.Some? && r'.value.peer == r.value.peer && Rank(r.value.state) <= Rank(r'.value.state)
  }

  /** What a record function may do. */
  predicate Kept(r: Record, r': Record) {
    r'.peer == r.peer && Rank(r.state) <= Rank(r'.state)
  }

  lemma MovedKeeps(r: Record, to: State, now: int)
    ensures Kept(r, Moved(r, to, now))
  {
  }

  lemma OnChunkKeeps(fileId: string, i: Intake, fr: DataFrame, w: WriteResult, now: int)
    ensures Kept(i.record, OnChunk(fileId, i, fr, w, now).record)
  {
    MovedKeeps(i.record.(error := "decrypt chunk"), Failed, now);
    MovedKeeps(i.record.(error := "write"), Failed, now);
  }

  lemma OnAcceptKeeps(r: Record, accept: Accept, pubKey: Option<string>, self: string, key: Option<Key>, now: int)
    ensures var (r', answer) := OnAccept(r, accept, pubKey, self, key, now);
            Kept(r, r') && (answer.Some? ==> r.state == Offered && answer.value.counterSig.message == accept.counterChallenge)
  {
  }

  lemma OnReadyKeeps(r: Record, ready: Ready, pubKey: Option<string>, key: Option<Key>, now: int)
    ensures Kept(r, OnReady(r, ready, pubKey, key, now))
  {
  }

  lemma OnCompleteKeeps(r: Record, verified: bool, now: int)
    ensures Kept(r, OnComplete(r, verified, now))
  {
    MovedKeeps(r, Completing, now);
  }

  lemma HandledKeeps(r: Record, mail: Mail, pubKey: Option<string>, self: string, key: Option<Key>, now: int)
    ensures var (r', answer) := Handled(r, mail, pubKey, self, key, now);
            Kept(r, r') && (answer.Some? ==> mail.body.MAccept? && r.state == Offered)
  {
    match mail.body
    case MAccept(accept) => OnAcceptKeeps(r, accept, pubKey, self, key, now);
    case MReady(ready) => OnReadyKeeps(r, ready, pubKey, key, now);
    case MComplete(verified) => OnCompleteKeeps(r, verified, now);
    case MAck(_) =>
    case MReject => MovedKeeps(r.(error := "rejected: not trusted"), Failed, now);
    case MOffer(_) =>
  }

  lemma StartPeers(w: World, a: Action)
    ensures a.SendReady? ==> StepSendReady(w, a).snd == w.snd && StepSendReady(w, a).rcv == w.rcv
    ensures a.OpenChannel? ==> Alike(w.snd, StepOpenChannel(w, a).snd) && StepOpenChannel(w, a).rcv == w.rcv
    ensures StepOpens(w).snd == w.snd && StepOpens(w).rcv == w.rcv
  {
  }

  lemma SendPeers(w: World, a: Action)
    ensures a.SendChunk? ==> Alike(w.snd, StepSendChunk(w, a).snd) && StepSendChunk(w, a).rcv == w.rcv
    ensures a.SendFin? ==> Alike(w.snd, StepSendFin(w, a).snd) && StepSendFin(w, a).rcv == w.rcv
  {
  }

  lemma EndPeers(w: World, a: Action)
    ensures a.FinishSending? ==> Alike(w.snd, StepFinishSending(w, a).snd) && StepFinishSending(w, a).rcv == w.rcv
    ensures a.AbortSending? ==> Alike(w.snd, StepAbort(w, a).snd) && StepAbort(w, a).rcv == w.rcv
  {
  }

  lemma ReceiptPeers(w: World, a: Action)
    requires a.ReceiveFrame?
    ensures Alike(w.rcv, StepReceive(w, a).rcv) && StepReceive(w, a).snd == w.snd
  {
    if w.rcv.Some? && w.rpc.Live? && w.channel != [] {
      OnChunkKeeps(w.src.fileId, IntakeOf(w), w.channel[0], a.w, a.now);
    }
  }

  lemma OutcomePeers(w: World, a: Action)
    requires a.RecordOutcome?
    ensures Alike(w.rcv, StepRecord(w, a).rcv) && StepRecord(w, a).snd == w.snd
  {
  }

  lemma ArrivalPeers(w: World, a: Action)
    requires a.ChannelArrives?
    ensures Alike(w.rcv, StepArrives(w, a).rcv) && StepArrives(w, a).snd == w.snd
  {
  }

  lemma SenderKeepsPeers(w: World, a: Action)
    requires SenderWorks(a)
    ensures Alike(w.snd, Step(w, a).snd) && Step(w, a).rcv == w.rcv
  {
    match a
    case SendReady(_) => StartPeers(w, a);
    case OpenChannel(_, _) => StartPeers(w, a);
    case ChannelOpens => StartPeers(w, a);
    case SendChunk(_, _, _) => SendPeers(w, a);
    case SendFin(_, _) => SendPeers(w, a);
    case FinishSending(_) => EndPeers(w, a);
    case AbortSending(_) => EndPeers(w, a);
  }

  lemma ReceiverKeepsPeers(w: World, a: Action)
    requires ReceiverWorks(a) || a.ChannelArrives?
    ensures Alike(w.rcv, Step(w, a).rcv) && Step(w, a).snd == w.snd
  {
    match a
    case ReceiveFrame(_, _, _) => ReceiptPeers(w, a);
    case RecordOutcome(_) => OutcomePeers(w, a);
    case ChannelArrives(_, _) => ArrivalPeers(w, a);
    case DropChannel =>
  }

  /** Nothing has been started. */
  predicate NothingStarted(w: World) {
    w.spc == Waiting && w.rpc == NoChannel && !w.incoming
  }

  lemma IdleSender(w: World, a: Action)
    requires NothingStarted(w) && SenderWorks(a)
    ensures Step(w, a) == w
  {
    match a
    case SendReady(_) => assert StepSendReady(w, a) == w;
    case OpenChannel(_, _) => assert StepOpenChannel(w, a) == w;
    case ChannelOpens => assert StepOpens(w) == w;
    case SendChunk(_, _, _) => assert StepSendChunk(w, a) == w;
    case SendFin(_, _) => assert StepSendFin(w, a) == w;
    case FinishSending(_) => assert StepFinishSending(w, a) == w;
    case AbortSending(_) => assert StepAbort(w, a) == w;
  }

  lemma IdleReceiver(w: World, a: Action)
    requires NothingStarted(w) && (ReceiverWorks(a) || a.ChannelArrives?)
    ensures Step(w, a) == w
  {
    match a
    case ReceiveFrame(_, _, _) => assert StepReceive(w, a) == w;
    case RecordOutcome(_) => assert StepRecord(w, a) == w;
    case ChannelArrives(_, _) => assert StepArrives(w, a) == w;
    case DropChannel =>
  }

  /** A record filed for a third party means that the two parties have started nothing. */
  lemma StrangersMeanIdle(w: Net)
    requires NetInv(w)
    ensures PairOf(w) == w.base || NothingStarted(w.base)
    ensures w.base.snd != PairOf(w).snd ==> NothingStarted(w.base)
    ensures w.base.rcv != PairOf(w).rcv ==> NothingStarted(w.base)
  {
  }

  lemma OwnWorld(w: Net, b: World)
    requires PairOf(w) == w.base && Alike(w.base.snd, b.snd) && Alike(w.base.rcv, b.rcv)
    ensures PairOf(w.(base := b)) == b
  {
  }

  lemma SenderWorkIsSeen(w: Net, a: Action)
    requires NetInv(w) && SenderWorks(a)
    ensures StepSender(w, a) == w.(base := Step(w.base, a))
    ensures PairOf(StepSender(w, a)) == Step(PairOf(w), a) && Alike(w.base.snd, Step(w.base, a).snd)
  {
    StrangersMeanIdle(w);
    if NothingStarted(w.base) {
      IdleSender(w.base, a);
      IdleSender(PairOf(w), a);
    } else {
      SenderKeepsPeers(w.base, a);
      OwnWorld(w, Step(w.base, a));
    }
  }

  lemma ReceiverWorkIsSeen(w: Net, a: Action)
    requires NetInv(w) && (ReceiverWorks(a) || a.ChannelArrives?)
    ensures PairOf(w.(base := Step(w.base, a))) == Step(PairOf(w), a) && Step(w.base, a).snd == w.base.snd
  {
    StrangersMeanIdle(w);
    if NothingStarted(w.base) {
      IdleReceiver(w.base, a);
      IdleReceiver(PairOf(w), a);
    } else {
      ReceiverKeepsPeers(w.base, a);
      OwnWorld(w, Step(w.base, a));
    }
  }

  lemma ReceiverReports(w: Net, a: Action)
    requires NetInv(w) && ReceiverWorks(a)
    ensures StepReceiver(w, a) == w.(base := Step(w.base, a))
  {
    StrangersMeanIdle(w);
    if NothingStarted(w.base) {
      IdleReceiver(w.base, a);
    }
  }

  lemma ForgeryIsSeen(w: Net, a: Action)
    requires NetInv(w) && (a.ForgeAccept? || a.ForgeReady?) && Heeded(w, Internal(a))
    ensures StepForge(w, a) == w.(base := Step(w.base, a)) && PairOf(StepForge(w, a)) == Step(PairOf(w), a)
    ensures Step(w.base, a).snd == w.base.snd
  {
  }

  lemma InterruptionsKeep(r: Record, now: int)
    ensures Kept(r, OnCancel(r, now)) && Kept(r, OnTick(r, now))
  {
  }

  lemma SenderUpdated(w: Net, r: Record, mail: multiset<Control>)
    requires w.base.snd.Some? && r.peer == w.base.snd.value.peer
    ensures var b := w.base.(snd := Some(r), toSnd := mail);
            PairOf(w.(base := b)) == if r.peer == RECEIVER then PairOf(w).(snd := Some(r), toSnd := mail)
                                     else PairOf(w).(toSnd := mail)
  {
  }

  lemma ReceiverUpdated(w: Net, r: Record, mail: multiset<Control>)
    requires w.base.rcv.Some? && r.peer == w.base.rcv.value.peer
    ensures var b := w.base.(rcv := Some(r), toRcv := mail);
            PairOf(w.(base := b)) == if r.peer == SENDER then PairOf(w).(rcv := Some(r), toRcv := mail)
                                     else PairOf(w).(toRcv := mail)
  {
  }

  lemma SenderInterruptionIsSeen(w: Net, a: Action)
    requires a.CancelSender? || a.TickSender?
    ensures PairOf(w.(base := Step(w.base, a))) == Step(PairOf(w), a) && Alike(w.base.snd, Step(w.base, a).snd)
  {
    if w.base.snd.Some? {
      InterruptionsKeep(w.base.snd.value, a.now);
      SenderUpdated(w, if a.CancelSender? then OnCancel(w.base.snd.value, a.now) else OnTick(w.base.snd.value, a.now), w.base.toSnd);
    }
  }

  lemma ReceiverInterruptionIsSeen(w: Net, a: Action)
    requires a.CancelReceiver? || a.TickReceiver?
    ensures PairOf(w.(base := Step(w.base, a))) == Step(PairOf(w), a) && Step(w.base, a).snd == w.base.snd
  {
    if w.base.rcv.Some? {
      InterruptionsKeep(w.base.rcv.value, a.now);
      ReceiverUpdated(w, if a.CancelReceiver? then OnCancel(w.base.rcv.value, a.now) else OnTick(w.base.rcv.value, a.now),
                      w.base.toRcv);
    }
  }

  lemma InitiateIsSeen(w: Net, a: Action)
    requires NetInv(w) && a.Initiate?
    ensures var b := Step(w.base, a);
            if w.base.snd.Some? then b == w.base
            else PairOf(w.(base := b)) == Step(PairOf(w), a) && (b.snd.Some? ==> b.snd.value.peer == RECEIVER)
  {
    assert Step(w.base, a) == StepInitiate(w.base, a);
    assert Step(PairOf(w), a) == StepInitiate(PairOf(w), a);
  }

  /** An internal step is the same step of the two parties. */
  lemma InternalIsSeen(w: Net, a: Action)
    requires NetInv(w) && Heeded(w, Internal(a))
    ensures var w' := StepInternal(w, a);
            && w' == (if TakesMessage(a) then w else w.(base := Step(w.base, a)))
            && PairOf(w') == Seen(PairOf(w), Shadow(w, Internal(a)))
            && (w'.base.snd.Some? ==> w'.base.snd.value.peer == RECEIVER || Alike(w.base.snd, w'.base.snd))
  {
    if SenderWorks(a) {
      SenderWorkIsSeen(w, a);
    } else if ReceiverWorks(a) {
      ReceiverWorkIsSeen(w, a);
      ReceiverReports(w, a);
    } else if a.ForgeAccept? || a.ForgeReady? {
      ForgeryIsSeen(w, a);
    } else if a.ChannelArrives? {
      ReceiverWorkIsSeen(w, a);
    } else if a.Initiate? {
      InitiateIsSeen(w, a);
    } else if !TakesMessage(a) && !a.LoseToSender? && !a.LoseToReceiver? {
      if a.CancelSender? || a.TickSender? {
        SenderInterruptionIsSeen(w, a);
      } else {
        ReceiverInterruptionIsSeen(w, a);
      }
    }
  }

  // Messages of the other party

  lemma AcceptIsSeen(w: Net, act: Act)
    requires NetInv(w) && act.Deliver? && act.toSender && act.mail.source == RECEIVER && InTransit(w, true, act.mail)
    requires act.mail.body.MAccept? && w.base.snd.Some? && w.base.snd.value.peer == RECEIVER
    ensures StepDeliver(w, act).base == StepAccept(w.base, ToSender(act))
    ensures StepDeliver(w, act) == w.(base := StepDeliver(w, act).base)
    ensures PairOf(StepDeliver(w, act)) == StepAccept(PairOf(w), ToSender(act))
    ensures var b := StepDeliver(w, act).base; b.rcv == w.base.rcv && b.snd.Some? && b.snd.value.peer == RECEIVER
  {
    OnAcceptKeeps(w.base.snd.value, act.mail.body.accept, PublicKey(RECEIVER), SENDER, act.key, act.now);
  }

  lemma DeliveredToSender(w: Net, act: Act)
    requires NetInv(w) && act.Deliver? && act.toSender && act.mail.source == RECEIVER && InTransit(w, true, act.mail)
    requires !act.mail.body.MAccept? && !act.mail.body.MOffer? && w.base.snd.Some? && w.base.snd.value.peer == RECEIVER
    ensures var r := Handled(w.base.snd.value, act.mail, PublicKey(RECEIVER), SENDER, act.key, act.now).0;
            && StepDeliver(w, act) == w.(base := w.base.(snd := Some(r), toSnd := w.base.toSnd - multiset{act.mail.body}))
            && PairOf(StepDeliver(w, act)) == PairOf(w).(snd := Some(r), toSnd := w.base.toSnd - multiset{act.mail.body})
            && r.peer == RECEIVER
  {
    HandledKeeps(w.base.snd.value, act.mail, PublicKey(RECEIVER), SENDER, act.key, act.now);
    SenderUpdated(w, Handled(w.base.snd.value, act.mail, PublicKey(RECEIVER), SENDER, act.key, act.now).0,
                  w.base.toSnd - multiset{act.mail.body});
  }

  lemma OtherToSenderIsSeen(w: Net, act: Act)
    requires NetInv(w) && act.Deliver? && act.toSender && act.mail.source == RECEIVER && InTransit(w, true, act.mail)
    requires !act.mail.body.MAccept? && FromReceiver(act.mail.body) && w.base.snd.Some? && w.base.snd.value.peer == RECEIVER
    ensures PairOf(StepDeliver(w, act)) == Step(PairOf(w), ToSender(act))
    ensures StepDeliver(w, act) == w.(base := StepDeliver(w, act).base)
    ensures var b := StepDeliver(w, act).base; b.rcv == w.base.rcv && b.snd.Some? && b.snd.value.peer == RECEIVER
  {
    DeliveredToSender(w, act);
    var v := PairOf(w);
    match act.mail.body
    case MReject => RejectStep(v, act.now);
    case MComplete(verified) => CompleteStep(v, verified, act.now);
    case MAck(n) => AckStep(v, n, act.now);
  }

  lemma RejectStep(v: World, now: int)
    requires MReject in v.toSnd && v.snd.Some?
    ensures Step(v, DeliverReject(now))
         == v.(toSnd := v.toSnd - multiset{MReject}, snd := Some(OnReject(v.snd.value, "not trusted", now)))
  {
  }

  lemma CompleteStep(v: World, verified: bool, now: int)
    requires MComplete(verified) in v.toSnd && v.snd.Some?
    ensures Step(v, DeliverComplete(verified, now))
         == v.(toSnd := v.toSnd - multiset{MComplete(verified)}, snd := Some(OnComplete(v.snd.value, verified, now)))
  {
  }

  lemma AckStep(v: World, n: UInt32, now: int)
    requires MAck(n) in v.toSnd && v.snd.Some?
    ensures Step(v, DeliverAck(n, now))
         == v.(toSnd := v.toSnd - multiset{MAck(n)}, snd := Some(OnChunkAck(v.snd.value, n, now)))
  {
  }

  lemma LostToSender(w: Net, act: Act)
    requires NetInv(w) && act.Deliver? && act.toSender && act.mail.source == RECEIVER && InTransit(w, true, act.mail)
    requires w.base.snd.None?
    ensures StepDeliver(w, act) == w.(base := w.base.(toSnd := w.base.toSnd - multiset{act.mail.body}))
    ensures PairOf(StepDeliver(w, act)) == Step(PairOf(w), ToSender(act))
  {
    assert FromReceiver(act.mail.body);
    NobodyAtSender(PairOf(w), act);
  }

  lemma NobodyAtSender(v: World, act: Act)
    requires act.Deliver? && FromReceiver(act.mail.body) && act.mail.body in v.toSnd && v.snd.None?
    ensures Step(v, ToSender(act)) == v.(toSnd := v.toSnd - multiset{act.mail.body})
  {
  }

  lemma ToSenderIsSeen(w: Net, act: Act)
    requires NetInv(w) && act.Deliver? && act.toSender && act.mail.source == RECEIVER && InTransit(w, true, act.mail)
    requires Heeded(w, act)
    ensures PairOf(StepDeliver(w, act)) == Step(PairOf(w), ToSender(act))
    ensures var w' := StepDeliver(w, act);
            && w' == w.(base := w'.base) && w'.base.rcv == w.base.rcv
            && (w'.base.snd.Some? ==> w'.base.snd.value.peer == RECEIVER)
  {
    assert FromReceiver(act.mail.body);
    if w.base.snd.None? {
      LostToSender(w, act);
    } else if act.mail.body.MAccept? {
      AcceptIsSeen(w, act);
    } else {
      OtherToSenderIsSeen(w, act);
    }
  }

  lemma ReadyTaken(w: Net, act: Act)
    requires act.Deliver? && !act.toSender && act.mail.source == SENDER && InTransit(w, false, act.mail)
    requires act.mail.body.MReady? && w.base.rcv.Some?
    ensures var r' := OnReady(w.base.rcv.value, act.mail.body.ready, Some(SENDER), act.key, act.now);
            StepDeliver(w, act) == w.(base := w.base.(rcv := Some(r'), toRcv := w.base.toRcv - multiset{act.mail.body}))
  {
  }

  lemma ReadyIsSeen(w: Net, act: Act)
    requires act.Deliver? && !act.toSender && act.mail.source == SENDER && InTransit(w, false, act.mail)
    requires act.mail.body.MReady? && w.base.rcv.Some? && w.base.rcv.value.peer == SENDER
    ensures PairOf(StepDeliver(w, act)) == Step(PairOf(w), ToReceiver(act))
    ensures var w' := StepDeliver(w, act);
            && w' == w.(base := w'.base) && w'.base.snd == w.base.snd
            && (w'.base.rcv.Some? ==> w'.base.rcv.value.peer == SENDER)
  {
    var r' := OnReady(w.base.rcv.value, act.mail.body.ready, Some(SENDER), act.key, act.now);
    OnReadyKeeps(w.base.rcv.value, act.mail.body.ready, Some(SENDER), act.key, act.now);
    ReceiverUpdated(w, r', w.base.toRcv - multiset{act.mail.body});
    ReadyTaken(w, act);
    assert Step(PairOf(w), ToReceiver(act)) == StepReady(PairOf(w), ToReceiver(act));
  }

  lemma LostToReceiver(w: Net, act: Act)
    requires NetInv(w) && act.Deliver? && !act.toSender && act.mail.source == SENDER && InTransit(w, false, act.mail)
    requires w.base.rcv.None? && act.mail.body.MReady?
    ensures var w' := StepDeliver(w, act);
            && w' == w.(base := w'.base) && w'.base.snd == w.base.snd
            && (w'.base.rcv.Some? ==> w'.base.rcv.value.peer == SENDER)
    ensures PairOf(StepDeliver(w, act)) == Step(PairOf(w), ToReceiver(act))
  {
  }

  lemma ToReceiverIsSeen(w: Net, act: Act)
    requires NetInv(w) && act.Deliver? && !act.toSender && act.mail.source == SENDER && InTransit(w, false, act.mail)
    requires Heeded(w, act)
    ensures PairOf(StepDeliver(w, act)) == Step(PairOf(w), ToReceiver(act))
    ensures var w' := StepDeliver(w, act);
            && w' == w.(base := w'.base) && w'.base.snd == w.base.snd
            && (w'.base.rcv.Some? ==> w'.base.rcv.value.peer == SENDER)
  {
    assert FromSender(act.mail.body);
    if act.mail.body.MOffer? {
      OfferIsSeen(w, act);
    } else if w.base.rcv.Some? {
      ReadyIsSeen(w, act);
    } else {
      LostToReceiver(w, act);
    }
  }

  lemma OfferFiled(w: Net, r: Record)
    requires w.base.rcv.None? && w.rcvJob.None?
    ensures Filed(w, false, r) == w.(base := w.base.(rcv := Some(r)))
  {
  }

  lemma OfferIsSeen(w: Net, act: Act)
    requires NetInv(w) && act.Deliver? && !act.toSender && act.mail.source == SENDER && InTransit(w, false, act.mail)
    requires Heeded(w, act) && act.mail.body.MOffer?
    ensures PairOf(StepDeliver(w, act)) == Step(PairOf(w), ToReceiver(act))
    ensures var w' := StepDeliver(w, act);
            && w' == w.(base := w'.base) && w'.base.snd == w.base.snd
            && (w'.base.rcv.Some? ==> w'.base.rcv.value.peer == SENDER)
  {
    var offer := act.mail.body.offer;
    assert MOffer(offer) in PairOf(w).toRcv;
    assert w.base.rcv.None?;
    var w1 := Taken(w, false, act.mail);
    assert w1 == w.(base := w.base.(toRcv := w.base.toRcv - multiset{MOffer(offer)}));
    assert StepDeliver(w, act) == OfferHandled(w1, act, offer);
    assert Step(PairOf(w), ToReceiver(act)) == StepOffer(PairOf(w), ToReceiver(act));
    if act.trusted {
      OfferFiled(w1, AcceptedRecord(SENDER, offer, act.counter, act.now));
    }
  }

  /** The parts of the world that a third party's message leaves alone, and what it may file. */
  ghost predicate Aside(w: Net, w': Net) {
    PairOf(w') == PairOf(w) && Undisturbed(w')
  }

  lemma OfferIsAside(w: Net, act: Act)
    requires NetInv(w) && act.Deliver? && Outside(act.mail.source) && Heeded(w, act) && act.mail.body.MOffer?
    ensures Aside(w, OfferHandled(Taken(w, act.toSender, act.mail), act, act.mail.body.offer))
  {
    var w1 := Taken(w, act.toSender, act.mail);
    if act.trusted {
      FiledAside(w, w1, act.toSender, AcceptedRecord(act.mail.source, act.mail.body.offer, act.counter, act.now));
    }
  }

  lemma FiledAside(w: Net, w1: Net, toSender: bool, r: Record)
    requires NetInv(w) && w1 == w.(othersToSnd := w1.othersToSnd, othersToRcv := w1.othersToRcv)
    requires Outside(r.peer) && r.state == Accepted
    requires RecordAt(w, toSender).Some? ==> RecordAt(w, toSender).value.peer == r.peer
    ensures Aside(w, Filed(w1, toSender, r))
  {
    StrangersMeanIdle(w);
    if toSender {
      assert w.base.snd.Some? ==> !SenderBusy(w.base);
    } else {
      assert w.base.rcv.Some? ==> !ReceiverBusy(w.base);
    }
  }

  lemma OtherIsAside(w: Net, act: Act)
    requires NetInv(w) && act.Deliver? && Outside(act.mail.source) && Heeded(w, act) && !act.mail.body.MOffer?
    requires InTransit(w, act.toSender, act.mail)
    ensures Aside(w, StepDeliver(w, act))
  {
    if RecordAt(w, act.toSender).Some? {
      var r := RecordAt(w, act.toSender).value;
      HandledKeeps(r, act.mail, PublicKey(act.mail.source), Self(act.toSender), act.key, act.now);
      var (r', _) := Handled(r, act.mail, PublicKey(act.mail.source), Self(act.toSender), act.key, act.now);
      if act.toSender {
        SenderUpdated(w, r', w.base.toSnd);
      } else {
        ReceiverUpdated(w, r', w.base.toRcv);
      }
    }
  }

  /** What a third party has delivered, with the check, touches only a record of its own. */
  lemma OthersAreNotSeen(w: Net, act: Act)
    requires NetInv(w) && act.Deliver? && Outside(act.mail.source) && Heeded(w, act)
    ensures Aside(w, StepDeliver(w, act))
  {
    if InTransit(w, act.toSender, act.mail) {
      if act.mail.body.MOffer? {
        OfferIsAside(w, act);
      } else {
        OtherIsAside(w, act);
      }
    }
  }

  // ---- Every heeded run is a run of the two parties --------------------------------------

  lemma KindsOfHandshake(w: World, a: Action)
    requires Kinds(w)
    ensures a.Initiate? ==> Kinds(StepInitiate(w, a))
    ensures a.DeliverOffer? ==> Kinds(StepOffer(w, a))
  {
  }

  lemma KindsOfAnswers(w: World, a: Action)
    requires Kinds(w)
    ensures a.DeliverAccept? ==> Kinds(StepAccept(w, a))
    ensures a.SendReady? ==> Kinds(StepSendReady(w, a))
  {
  }

  lemma KindsOfMessages(w: World, a: Action)
    requires Kinds(w)
    ensures a.DeliverReject? ==> Kinds(StepReject(w, a))
    ensures a.DeliverReady? ==> Kinds(StepReady(w, a))
  {
  }

  lemma KindsOfReports(w: World, a: Action)
    requires Kinds(w)
    ensures a.DeliverComplete? ==> Kinds(StepComplete(w, a))
    ensures a.DeliverAck? ==> Kinds(StepAck(w, a))
  {
  }

  lemma KindsOfReceipt(w: World, a: Action)
    requires Kinds(w) && a.ReceiveFrame?
    ensures Kinds(StepReceive(w, a))
  {
  }

  lemma KindsOfSenderWork(w: World, a: Action)
    requires Kinds(w) && SenderWorks(a) && !a.SendReady?
    ensures Step(w, a).toSnd == w.toSnd && Step(w, a).toRcv == w.toRcv
  {
  }

  lemma KindsInTransit(w: World, a: Action)
    requires Kinds(w) && (a.ForgeAccept? || a.ForgeReady? || a.LoseToSender? || a.LoseToReceiver?)
    ensures Kinds(Step(w, a))
  {
  }

  predicate AddsNoMail(a: Action) {
    || a.ChannelArrives? || a.RecordOutcome? || a.DropChannel? || a.CancelSender? || a.CancelReceiver?
    || a.TickSender? || a.TickReceiver?
  }

  lemma KindsOfOthers(w: World, a: Action)
    requires Kinds(w) && AddsNoMail(a)
    ensures Kinds(Step(w, a))
  {
  }

  lemma StepKeepsKinds(w: World, a: Action)
    requires Kinds(w)
    ensures Kinds(Step(w, a))
  {
    if a.Initiate? || a.DeliverOffer? {
      KindsOfHandshake(w, a);
    } else if a.DeliverAccept? || a.SendReady? {
      KindsOfAnswers(w, a);
    } else if a.DeliverReject? || a.DeliverReady? {
      KindsOfMessages(w, a);
    } else if TakesMessage(a) {
      KindsOfReports(w, a);
    } else if a.ReceiveFrame? {
      KindsOfReceipt(w, a);
    } else if SenderWorks(a) {
      KindsOfSenderWork(w, a);
    } else if !AddsNoMail(a) {
      KindsInTransit(w, a);
    } else {
      KindsOfOthers(w, a);
    }
  }

  lemma InternalStaysUndisturbed(w: Net, a: Action)
    requires NetInv(w) && Heeded(w, Internal(a))
    ensures Undisturbed(StepInternal(w, a))
  {
    InternalIsSeen(w, a);
  }

  lemma DeliveryIsSeen(w: Net, act: Act)
    requires NetInv(w) && Heeded(w, act) && act.Deliver? && InTransit(w, act.toSender, act.mail)
    ensures PairOf(StepDeliver(w, act)) == Seen(PairOf(w), Shadow(w, act)) && Undisturbed(StepDeliver(w, act))
  {
    if act.mail.source != Counterpart(act.toSender) {
      OthersAreNotSeen(w, act);
    } else if act.toSender {
      ToSenderIsSeen(w, act);
    } else {
      ToReceiverIsSeen(w, act);
    }
  }

  lemma StepIsSeen(w: Net, act: Act)
    requires NetInv(w) && Heeded(w, act)
    ensures PairOf(StepNet(w, act)) == Seen(PairOf(w), Shadow(w, act)) && Undisturbed(StepNet(w, act))
  {
    if act.Internal? {
      InternalIsSeen(w, act.step);
      InternalStaysUndisturbed(w, act.step);
    } else if act.Deliver? && InTransit(w, act.toSender, act.mail) {
      DeliveryIsSeen(w, act);
    }
  }

  lemma InternalKeepsOthers(w: Net, a: Action)
    ensures StepInternal(w, a).othersToSnd == w.othersToSnd && StepInternal(w, a).othersToRcv == w.othersToRcv
  {
  }

  lemma OfferKeepsOthers(w: Net, act: Act, offer: Offer)
    requires act.Deliver?
    ensures OfferHandled(w, act, offer).othersToSnd == w.othersToSnd
    ensures OfferHandled(w, act, offer).othersToRcv == w.othersToRcv
  {
    if act.trusted {
      var r := AcceptedRecord(act.mail.source, offer, act.counter, act.now);
      assert Filed(w, act.toSender, r).othersToSnd == w.othersToSnd && Filed(w, act.toSender, r).othersToRcv == w.othersToRcv;
    }
  }

  lemma TakenKeepsOthers(w: Net, toSender: bool, mail: Mail)
    ensures Taken(w, toSender, mail).othersToSnd <= w.othersToSnd && Taken(w, toSender, mail).othersToRcv <= w.othersToRcv
  {
  }

  lemma MessageKeepsOthers(w: Net, act: Act, r: Record)
    requires act.Deliver?
    ensures MessageHandled(w, act, r).othersToSnd == w.othersToSnd && MessageHandled(w, act, r).othersToRcv == w.othersToRcv
  {
  }

  lemma DeliveryKeepsOthers(w: Net, act: Act)
    requires act.Deliver? && InTransit(w, act.toSender, act.mail)
    ensures StepDeliver(w, act).othersToSnd == Taken(w, act.toSender, act.mail).othersToSnd
    ensures StepDeliver(w, act).othersToRcv == Taken(w, act.toSender, act.mail).othersToRcv
  {
    var w1 := Taken(w, act.toSender, act.mail);
    if act.mail.body.MOffer? {
      OfferKeepsOthers(w1, act, act.mail.body.offer);
    } else if RecordAt(w, act.toSender).Some? {
      MessageKeepsOthers(w1, act, RecordAt(w, act.toSender).value);
    }
  }

  lemma StepKeepsStrangers(w: Net, act: Act)
    requires Strangers(w)
    ensures Strangers(StepNet(w, act))
  {
    match act
    case Internal(a) => InternalKeepsOthers(w, a);
    case Deliver(toSender, mail, _, _, _, _) =>
      if InTransit(w, toSender, mail) {
        TakenKeepsOthers(w, toSender, mail);
        DeliveryKeepsOthers(w, act);
      }
    case _ =>
  }

  /** With the check, every step keeps the invariant, and is for the two parties one of their own
      steps or none. */
  lemma StepKeepsNetInv(w: Net, act: Act)
    requires NetInv(w) && Heeded(w, act)
    ensures NetInv(StepNet(w, act)) && PairOf(StepNet(w, act)) == Seen(PairOf(w), Shadow(w, act))
  {
    StepIsSeen(w, act);
    StepKeepsStrangers(w, act);
    if Shadow(w, act).Some? {
      StepKeepsInv(PairOf(w), Shadow(w, act).value);
      StepKeepsKinds(PairOf(w), Shadow(w, act).value);
    }
  }

  /** The run of the two parties behind a run of the net. */
  function Shadows(w: Net, acts: seq<Act>): seq<Action>
    decreases |acts|
  {
    if acts == [] then []
    else (if Shadow(w, acts[0]).Some? then [Shadow(w, acts[0]).value] else []) + Shadows(StepNet(w, acts[0]), acts[1..])
  }

  lemma {:induction false} RunIsSeen(w: Net, acts: seq<Act>)
    requires NetInv(w) && HeededRun(w, acts)
    ensures NetInv(RunNet(w, acts)) && PairOf(RunNet(w, acts)) == Run(PairOf(w), Shadows(w, acts))
    decreases |acts|
  {
    if acts != [] {
      var w' := StepNet(w, acts[0]);
      StepKeepsNetInv(w, acts[0]);
      RunIsSeen(w', acts[1..]);
      if Shadow(w, acts[0]).Some? {
        RunOn(PairOf(w), Shadow(w, acts[0]).value, Shadows(w', acts[1..]));
      } else {
        assert Shadows(w, acts) == Shadows(w', acts[1..]);
      }
    }
  }

  // ---- Runs ------------------------------------------------------------------------------

  lemma {:induction false} RunNetAppend(w: Net, a: seq<Act>, b: seq<Act>)
    ensures RunNet(w, a + b) == RunNet(RunNet(w, a), b)
    ensures HeededRun(w, a + b) <==> HeededRun(w, a) && HeededRun(RunNet(w, a), b)
    decreases |a|
  {
    if a == [] {
      assert a + b == b;
    } else {
      assert (a + b)[1..] == a[1..] + b;
      RunNetAppend(StepNet(w, a[0]), a[1..], b);
    }
  }

  /** The parties look up the session key k for each other where a message makes them do so, and
      the receiver's file can be written and read back. */
  predicate Fair(act: Act, k: Option<Key>) {
    match act
    case Internal(a) => D.SameKeyNoFault(a, k)
    case Deliver(toSender, mail, _, _, key, _) =>
      mail.source == Counterpart(toSender) && (mail.body.MAccept? || mail.body.MReady?) ==> key == k
    case _ => true
  }

  // ---- Message by message, whatever the source -------------------------------------------

  /** An offered transfer enters Transferring on an accept if and only if the accept is signed, over
      the sender's challenge, by the source it came from; the answer goes to that source. With the
      check the source is the peer that the file was offered to. */
  lemma AcceptEnters(w: Net, act: Act)
    requires act.Deliver? && act.toSender && act.mail.body.MAccept? && InTransit(w, true, act.mail)
    requires w.base.snd.Some? && w.base.snd.value.state == Offered
    ensures var w' := StepNet(w, act);
            var entered := act.mail.body.accept.challengeSig == Signature(act.mail.source, w.base.snd.value.challenge);
            && w'.base.snd.Some? && w'.base.snd.value.state == (if entered then Transferring else Failed)
            && (entered ==> w'.base.entered == Some(act.mail.body.accept.counterChallenge) && w'.readyTo == act.mail.source)
    ensures Heeded(w, act) ==> act.mail.source == w.base.snd.value.peer
  {
    var r, accept := w.base.snd.value, act.mail.body.accept;
    OnAcceptKeeps(r, accept, PublicKey(act.mail.source), SENDER, act.key, act.now);
  }

  /** No other step enters: the mark is set on an accept only, in state Offered. */
  lemma EnteringMeansVerified(w: Net, act: Act)
    requires StepNet(w, act).base.entered != w.base.entered
    ensures act.Deliver? && act.toSender && act.mail.body.MAccept?
    ensures w.base.snd.Some? && w.base.snd.value.state == Offered
    ensures act.mail.body.accept.challengeSig == Signature(act.mail.source, w.base.snd.value.challenge)
    ensures Heeded(w, act) ==> act.mail.body.accept.challengeSig.signer == w.base.snd.value.peer
  {
    if act.Internal? {
      InternalDoesNotEnter(w, act.step);
    } else if act.Deliver? && act.mail.body.MOffer? {
      OfferDoesNotEnter(Taken(w, act.toSender, act.mail), act, act.mail.body.offer);
    } else if act.Deliver? && RecordAt(w, act.toSender).Some? {
      HandledKeeps(RecordAt(w, act.toSender).value, act.mail, PublicKey(act.mail.source), Self(act.toSender), act.key, act.now);
      DeliveryEnters(w, act);
    }
  }

  lemma OfferDoesNotEnter(w: Net, act: Act, offer: Offer)
    requires act.Deliver?
    ensures OfferHandled(w, act, offer).base.entered == w.base.entered
  {
    if act.trusted {
      var r := AcceptedRecord(act.mail.source, offer, act.counter, act.now);
      assert Filed(w, act.toSender, r).base.entered == w.base.entered;
    }
  }

  lemma DeliveryEnters(w: Net, act: Act)
    requires act.Deliver? && !act.mail.body.MOffer? && RecordAt(w, act.toSender).Some?
    requires StepDeliver(w, act).base.entered != w.base.entered
    ensures act.toSender && InTransit(w, true, act.mail)
    ensures Handled(RecordAt(w, true).value, act.mail, PublicKey(act.mail.source), SENDER, act.key, act.now).1.Some?
  {
  }

  lemma SenderDoesNotEnter(w: Net, a: Action)
    requires SenderWorks(a)
    ensures StepSender(w, a).base.entered == w.base.entered
  {
    OnlyAcceptEnters(if w.sndJob.Some? then w.base.(snd := w.sndJob) else w.base, a);
  }

  lemma ReceiverDoesNotEnter(w: Net, a: Action)
    requires ReceiverWorks(a)
    ensures StepReceiver(w, a).base.entered == w.base.entered
  {
    OnlyAcceptEnters(if w.rcvJob.Some? then w.base.(rcv := w.rcvJob) else w.base, a);
  }

  lemma ForgeryDoesNotEnter(w: Net, a: Action)
    requires a.ForgeAccept? || a.ForgeReady?
    ensures StepForge(w, a).base.entered == w.base.entered
  {
    OnlyAcceptEnters(w.base, a);
  }

  lemma InternalDoesNotEnter(w: Net, a: Action)
    ensures StepInternal(w, a).base.entered == w.base.entered
  {
    if SenderWorks(a) {
      SenderDoesNotEnter(w, a);
    } else if ReceiverWorks(a) {
      ReceiverDoesNotEnter(w, a);
    } else if a.ForgeAccept? || a.ForgeReady? {
      ForgeryDoesNotEnter(w, a);
    } else if !TakesMessage(a) {
      OnlyAcceptEnters(w.base, a);
    }
  }

  /** An accepted transfer enters Transferring on a ready message if and only if it is signed, over the
      receiver's counter-challenge, by the source it came from. */
  lemma ReadyEnters(w: Net, act: Act)
    requires act.Deliver? && !act.toSender && act.mail.body.MReady? && InTransit(w, false, act.mail)
    requires w.base.rcv.Some? && w.base.rcv.value.state == Accepted
    ensures var w' := StepNet(w, act);
            var entered := act.mail.body.ready.counterSig == Signature(act.mail.source, w.base.rcv.value.counterChallenge);
            w'.base.rcv.Some? && w'.base.rcv.value.state == (if entered then Transferring else Failed)
  {
  }

  lemma CompletionOutcome(r: Record, verified: bool, now: int)
    ensures var s := OnComplete(r, verified, now).state;
            && (s == Done <==> r.state == Done || (verified && r.state in {Transferring, Completing}))
            && (s == Failed <==> r.state == Failed || (!verified && Rank(r.state) in {1, 2, 3, 4}))
  {
  }

  /** A completion from any source finishes the sender as Done if and only if it is positive and
      the transfer is in one of two states (or was Done); a negative one fails every transfer
      that is under way. The output has no say in it. */
  lemma CompletionFinishes(w: Net, act: Act)
    requires act.Deliver? && act.toSender && act.mail.body.MComplete? && InTransit(w, true, act.mail) && w.base.snd.Some?
    ensures var s, w' := w.base.snd.value.state, StepNet(w, act);
            && w'.base == w.base.(snd := w'.base.snd, toSnd := w'.base.toSnd) && w'.base.snd.Some?
            && (w'.base.snd.value.state == Done <==> s == Done || (act.mail.body.verified && s in {Transferring, Completing}))
            && (w'.base.snd.value.state == Failed <==> s == Failed || (!act.mail.body.verified && Rank(s) in {1, 2, 3, 4}))
  {
    CompletionOutcome(w.base.snd.value, act.mail.body.verified, act.now);
    assert StepNet(w, act).base.snd == Some(OnComplete(w.base.snd.value, act.mail.body.verified, act.now));
  }

  /** The receiver's records are past Offered in every run, so that an accept never gets an answer
      from it. */
  predicate PastOffered(r: Option<Record>) {
    r.Some? ==> Rank(r.value.state) >= Rank(Accepted)
  }

  lemma InterruptedReceiver(w: World, a: Action)
    requires PastOffered(w.rcv) && !SenderWorks(a) && !ReceiverWorks(a) && !a.ChannelArrives? && !TakesMessage(a)
    ensures PastOffered(Step(w, a).rcv)
  {
    if w.rcv.Some? && (a.CancelReceiver? || a.TickReceiver?) {
      InterruptionsKeep(w.rcv.value, a.now);
    }
  }

  lemma SenderStaysPast(w: Net, a: Action)
    requires SenderWorks(a) && PastOffered(w.base.rcv)
    ensures PastOffered(StepSender(w, a).base.rcv) && StepSender(w, a).rcvJob == w.rcvJob
  {
    SenderKeepsPeers(if w.sndJob.Some? then w.base.(snd := w.sndJob) else w.base, a);
  }

  lemma ReceiverStaysPast(w: Net, a: Action)
    requires ReceiverWorks(a) && PastOffered(w.base.rcv) && PastOffered(w.rcvJob)
    ensures PastOffered(StepReceiver(w, a).base.rcv) && PastOffered(StepReceiver(w, a).rcvJob)
  {
    ReceiverKeepsPeers(if w.rcvJob.Some? then w.base.(rcv := w.rcvJob) else w.base, a);
  }

  lemma OtherStaysPast(w: Net, a: Action)
    requires !SenderWorks(a) && !ReceiverWorks(a) && PastOffered(w.base.rcv)
    ensures PastOffered(StepInternal(w, a).base.rcv) && StepInternal(w, a).rcvJob == w.rcvJob
  {
    if a.ForgeAccept? || a.ForgeReady? {
      ForgeryStaysPast(w, a);
    } else if a.ChannelArrives? {
      ReceiverKeepsPeers(w.base, a);
    } else if !TakesMessage(a) {
      InterruptedReceiver(w.base, a);
    }
  }

  lemma ForgeryStaysPast(w: Net, a: Action)
    requires a.ForgeAccept? || a.ForgeReady?
    ensures StepForge(w, a).base.rcv == w.base.rcv && StepForge(w, a).rcvJob == w.rcvJob
  {
  }

  lemma InternalStaysPast(w: Net, a: Action)
    requires PastOffered(w.base.rcv) && PastOffered(w.rcvJob)
    ensures PastOffered(StepInternal(w, a).base.rcv) && PastOffered(StepInternal(w, a).rcvJob)
  {
    if SenderWorks(a) {
      SenderStaysPast(w, a);
    } else if ReceiverWorks(a) {
      ReceiverStaysPast(w, a);
    } else {
      OtherStaysPast(w, a);
    }
  }

  lemma OfferStaysPast(w: Net, act: Act, offer: Offer)
    requires act.Deliver? && PastOffered(w.base.rcv) && PastOffered(w.rcvJob)
    ensures PastOffered(OfferHandled(w, act, offer).base.rcv) && PastOffered(OfferHandled(w, act, offer).rcvJob)
  {
    if act.trusted {
      var filed := Filed(w, act.toSender, AcceptedRecord(act.mail.source, offer, act.counter, act.now));
      assert PastOffered(filed.base.rcv) && PastOffered(filed.rcvJob);
    }
  }

  lemma MessageStaysPast(w: Net, act: Act, r: Record)
    requires act.Deliver? && PastOffered(w.base.rcv) && (!act.toSender ==> PastOffered(Some(r)))
    ensures PastOffered(MessageHandled(w, act, r).base.rcv) && MessageHandled(w, act, r).rcvJob == w.rcvJob
  {
    HandledKeeps(r, act.mail, PublicKey(act.mail.source), Self(act.toSender), act.key, act.now);
  }

  lemma DeliveryStaysPast(w: Net, act: Act)
    requires act.Deliver? && PastOffered(w.base.rcv) && PastOffered(w.rcvJob)
    ensures PastOffered(StepDeliver(w, act).base.rcv) && PastOffered(StepDeliver(w, act).rcvJob)
  {
    var w1 := Taken(w, act.toSender, act.mail);
    assert w1.base.rcv == w.base.rcv && w1.rcvJob == w.rcvJob;
    if act.mail.body.MOffer? {
      OfferStaysPast(w1, act, act.mail.body.offer);
    } else if RecordAt(w, act.toSender).Some? {
      MessageStaysPast(w1, act, RecordAt(w, act.toSender).value);
    }
  }

  lemma {:induction false} ReceiverNeverAnswers(w: Net, acts: seq<Act>)
    requires PastOffered(w.base.rcv) && PastOffered(w.rcvJob)
    ensures PastOffered(RunNet(w, acts).base.rcv) && PastOffered(RunNet(w, acts).rcvJob)
    decreases |acts|
  {
    if acts != [] {
      match acts[0] {
        case Internal(a) => InternalStaysPast(w, a);
        case Deliver(_, _, _, _, _, _) => DeliveryStaysPast(w, acts[0]);
        case _ =>
      }
      ReceiverNeverAnswers(StepNet(w, acts[0]), acts[1..]);
    }
  }

  // ---- What happens without the check ----------------------------------------------------

  lemma RunNetOn(w: Net, act: Act, rest: seq<Act>)
    ensures RunNet(w, [act] + rest) == RunNet(StepNet(w, act), rest)
  {
    assert ([act] + rest)[1..] == rest;
  }

  /** A third party posts a message to the sender, which is delivered. */
  function Intrusion(mail: Mail): seq<Act> {
    [Post(true, mail), Deliver(true, mail, false, "", None, 0)]
  }

  lemma RunIntrusion(w: Net, mail: Mail)
    requires Outside(mail.source)
    ensures var w1 := w.(othersToSnd := w.othersToSnd + multiset{mail});
            && InTransit(w1, true, mail)
            && RunNet(w, Intrusion(mail)) == StepNet(w1, Deliver(true, mail, false, "", None, 0))
  {
    var deliver := Deliver(true, mail, false, "", None, 0);
    assert Intrusion(mail) == [Post(true, mail)] + [deliver] && [deliver] == [deliver] + [];
    RunNetOn(w, Post(true, mail), [deliver]);
    RunNetOn(w.(othersToSnd := w.othersToSnd + multiset{mail}), deliver, []);
  }

  lemma RunInitiate(src: Source)
    ensures var w := RunNet(Start(src), [Internal(Initiate(CHALLENGE, true, 0))]).base;
            && w.snd == Some(OfferedRecord(RECEIVER, Offer(Some(Digest(src.file)), CHALLENGE), 0))
            && w.rcv == None && w.written == [] && w.spc == Waiting
  {
    var a := Initiate(CHALLENGE, true, 0);
    assert [Internal(a)] == [Internal(a)] + [];
    RunNetOn(Start(src), Internal(a), []);
    assert Step(Init(src), a) == StepInitiate(Init(src), a);
  }

  /** Any other agent can answer the offer in the receiver's place, with its own signature, and
      then complete the transfer: the sender ends Done, and the receiver has never heard of it. */
  function TakeOver(other: string): seq<Act> {
    [Internal(Initiate(CHALLENGE, true, 0))]
    + (Intrusion(Mail(other, MAccept(Accept(Signature(other, CHALLENGE), "")))) + Intrusion(Mail(other, MComplete(true))))
  }

  lemma ThirdPartyFinishes(src: Source, other: string)
    requires Outside(other)
    ensures var w := RunNet(Start(src), TakeOver(other)).base;
            w.snd.Some? && w.snd.value.peer == RECEIVER && w.snd.value.state == Done && w.rcv == None && w.written == []
  {
    var a, b := Mail(other, MAccept(Accept(Signature(other, CHALLENGE), ""))), Mail(other, MComplete(true));
    var first := [Internal(Initiate(CHALLENGE, true, 0))];
    RunInitiate(src);
    var w := RunNet(Start(src), first);
    RunNetAppend(Start(src), first, Intrusion(a) + Intrusion(b));
    RunNetAppend(w, Intrusion(a), Intrusion(b));
    RunIntrusion(w, a);
    IntrudingAccept(w.(othersToSnd := w.othersToSnd + multiset{a}), Deliver(true, a, false, "", None, 0));
    var v := RunNet(w, Intrusion(a));
    RunIntrusion(v, b);
    var v1 := v.(othersToSnd := v.othersToSnd + multiset{b});
    CompletionFinishes(v1, Deliver(true, b, false, "", None, 0));
    CompletionKeepsPeer(v1, Deliver(true, b, false, "", None, 0));
  }

  lemma IntrudingAccept(w: Net, act: Act)
    requires act.Deliver? && act.toSender && act.mail.body.MAccept? && InTransit(w, true, act.mail) && Outside(act.mail.source)
    requires w.base.snd.Some? && w.base.snd.value.state == Offered
    requires act.mail.body.accept.challengeSig == Signature(act.mail.source, w.base.snd.value.challenge)
    ensures var b := StepNet(w, act).base;
            && b.snd.Some? && b.snd.value.state == Transferring && b.snd.value.peer == w.base.snd.value.peer
            && b.rcv == w.base.rcv && b.written == w.base.written
  {
    OnAcceptKeeps(w.base.snd.value, act.mail.body.accept, PublicKey(act.mail.source), SENDER, act.key, act.now);
  }

  lemma CompletionKeepsPeer(w: Net, act: Act)
    requires act.Deliver? && act.toSender && act.mail.body.MComplete? && InTransit(w, true, act.mail) && w.base.snd.Some?
    ensures StepNet(w, act).base.snd.Some? && StepNet(w, act).base.snd.value.peer == w.base.snd.value.peer
  {
    HandledKeeps(w.base.snd.value, act.mail, PublicKey(act.mail.source), SENDER, act.key, act.now);
  }

  /** And any other agent can fail the transfer with a negative completion, with a shared key and a
      working disk. */
  lemma ThirdPartyFails(src: Source, other: string, k: Option<Key>)
    requires Outside(other)
    ensures var acts := [Internal(Initiate(CHALLENGE, true, 0))] + Intrusion(Mail(other, MComplete(false)));
            var w := RunNet(Start(src), acts).base;
            && (forall i :: 0 <= i < |acts| ==> Fair(acts[i], k))
            && w.snd.Some? && w.snd.value.state == Failed
  {
    var m := Mail(other, MComplete(false));
    var first := [Internal(Initiate(CHALLENGE, true, 0))];
    RunInitiate(src);
    var w := RunNet(Start(src), first);
    RunNetAppend(Start(src), first, Intrusion(m));
    RunIntrusion(w, m);
    CompletionFinishes(w.(othersToSnd := w.othersToSnd + multiset{m}), Deliver(true, m, false, "", None, 0));
  }

  /** Why forgers must not borrow: had they got past the envelope's signature, an answer to their own
      offer, signed by the receiver over the sender's challenge, would do for an accept. */
  lemma BorrowedSignatureEnters(src: Source, other: string)
    requires Outside(other)
    ensures var offer, sig := Mail(other, MOffer(Offer(None, CHALLENGE))), Signature(RECEIVER, CHALLENGE);
            var w := RunNet(Start(src), [Internal(Initiate(CHALLENGE, true, 0))]
                                        + (Borrowing(offer) + Posing(Accept(sig, ""))));
            && w.base.snd.Some? && w.base.snd.value.state == Transferring
            && w.base.rcv.Some? && w.base.rcv.value.peer == other
  {
    var offer, accept := Mail(other, MOffer(Offer(None, CHALLENGE))), Accept(Signature(RECEIVER, CHALLENGE), "");
    var first := [Internal(Initiate(CHALLENGE, true, 0))];
    RunInitiate(src);
    var w := RunNet(Start(src), first);
    RunNetAppend(Start(src), first, Borrowing(offer) + Posing(accept));
    RunNetAppend(w, Borrowing(offer), Posing(accept));
    RunBorrowing(w, offer);
    RunPosing(RunNet(w, Borrowing(offer)), accept);
  }

  function Borrowing(offer: Mail): seq<Act> {
    [Post(false, offer), Deliver(false, offer, true, "", None, 0)]
  }

  function Posing(accept: Accept): seq<Act> {
    [Internal(ForgeAccept(accept)), Deliver(true, Mail(RECEIVER, MAccept(accept)), false, "", None, 0)]
  }

  lemma RunBorrowing(w: Net, offer: Mail)
    requires Outside(offer.source) && offer.body.MOffer?
    ensures var w' := RunNet(w, Borrowing(offer));
            && w'.base.snd == w.base.snd && w'.base.rcv.Some? && w'.base.rcv.value.peer == offer.source
            && Signature(RECEIVER, offer.body.offer.challenge) in w'.learned
  {
    var w1 := w.(othersToRcv := w.othersToRcv + multiset{offer});
    var deliver := Deliver(false, offer, true, "", None, 0);
    assert Borrowing(offer) == [Post(false, offer)] + [deliver] && [deliver] == [deliver] + [];
    RunNetOn(w, Post(false, offer), [deliver]);
    RunNetOn(w1, deliver, []);
    assert StepNet(w1, deliver) == OfferHandled(Taken(w1, false, offer), deliver, offer.body.offer);
  }

  lemma PosedAccept(w: Net, accept: Accept)
    requires accept.challengeSig in w.learned
    ensures StepNet(w, Internal(ForgeAccept(accept))) == w.(base := w.base.(toSnd := w.base.toSnd + multiset{MAccept(accept)}))
  {
  }

  lemma RunPosing(w: Net, accept: Accept)
    requires accept.challengeSig in w.learned
    requires w.base.snd.Some? && w.base.snd.value.state == Offered
    requires accept.challengeSig == Signature(RECEIVER, w.base.snd.value.challenge)
    ensures var w' := RunNet(w, Posing(accept));
            w'.base.snd.Some? && w'.base.snd.value.state == Transferring && w'.base.rcv == w.base.rcv
  {
    var deliver := Deliver(true, Mail(RECEIVER, MAccept(accept)), false, "", None, 0);
    var w1 := w.(base := w.base.(toSnd := w.base.toSnd + multiset{MAccept(accept)}));
    PosedAccept(w, accept);
    assert Posing(accept) == [Internal(ForgeAccept(accept))] + [deliver] && [deliver] == [deliver] + [];
    RunNetOn(w, Internal(ForgeAccept(accept)), [deliver]);
    RunNetOn(w1, deliver, []);
    AcceptEnters(w1, deliver);
    DeliveryToSenderKeepsReceiver(w1, deliver);
  }

  lemma DeliveryToSenderKeepsReceiver(w: Net, act: Act)
    requires act.Deliver? && act.toSender
    ensures StepDeliver(w, act).base.rcv == w.base.rcv
  {
  }

  // ---- The runs with the check include those of the two parties ---------------------------

  /** A step of the two parties in the net. */
  function Lifted(a: Action): Act {
    match a
    case DeliverOffer(offer, trusted, counter, now) => Deliver(false, Mail(SENDER, MOffer(offer)), trusted, counter, None, now)
    case DeliverAccept(accept, key, now) => Deliver(true, Mail(RECEIVER, MAccept(accept)), false, "", key, now)
    case DeliverReject(now) => Deliver(true, Mail(RECEIVER, MReject), false, "", None, now)
    case DeliverReady(ready, key, now) => Deliver(false, Mail(SENDER, MReady(ready)), false, "", key, now)
    case DeliverComplete(verified, now) => Deliver(true, Mail(RECEIVER, MComplete(verified)), false, "", None, now)
    case DeliverAck(n, now) => Deliver(true, Mail(RECEIVER, MAck(n)), false, "", None, now)
    case _ => Internal(a)
  }

  /** Only the two parties have acted so far. */
  ghost predicate Private(w: Net) {
    NetInv(w) && PairOf(w) == w.base && w.learned == {}
  }

  lemma LiftedIsSeen(w: Net, a: Action)
    requires Private(w)
    ensures Heeded(w, Lifted(a)) && Seen(w.base, Shadow(w, Lifted(a))) == Step(w.base, a)
  {
    if TakesMessage(a) {
      var act := Lifted(a);
      if InTransit(w, act.toSender, act.mail) {
        assert (if act.toSender then ToSender(act) else ToReceiver(act)) == a;
      } else {
        NothingDelivered(w.base, a);
      }
    } else if a.Initiate? && w.base.snd.Some? {
      assert StepInitiate(w.base, a) == w.base;
    }
  }

  lemma NothingDelivered(w: World, a: Action)
    requires TakesMessage(a)
    requires match a
             case DeliverOffer(offer, _, _, _) => MOffer(offer) !in w.toRcv
             case DeliverAccept(accept, _, _) => MAccept(accept) !in w.toSnd
             case DeliverReject(_) => MReject !in w.toSnd
             case DeliverReady(ready, _, _) => MReady(ready) !in w.toRcv
             case DeliverComplete(verified, _) => MComplete(verified) !in w.toSnd
             case DeliverAck(n, _) => MAck(n) !in w.toSnd
             case _ => false
    ensures Step(w, a) == w
  {
  }

  lemma LiftedMessageStays(w: Net, act: Act)
    requires Private(w) && act.Deliver? && act.mail.source == Counterpart(act.toSender) && Heeded(w, act)
    ensures var w' := StepNet(w, act); w'.learned == {} && PairOf(w') == w'.base
  {
    if InTransit(w, act.toSender, act.mail) {
      if act.toSender {
        ToSenderIsSeen(w, act);
      } else {
        ToReceiverIsSeen(w, act);
      }
    }
  }

  lemma LiftedStays(w: Net, a: Action)
    requires Private(w)
    ensures Private(StepNet(w, Lifted(a))) && StepNet(w, Lifted(a)).base == Step(w.base, a)
  {
    LiftedIsSeen(w, a);
    StepKeepsNetInv(w, Lifted(a));
    if TakesMessage(a) {
      LiftedMessageStays(w, Lifted(a));
    } else {
      InternalIsSeen(w, a);
    }
  }

  function LiftedAll(acts: seq<Action>): seq<Act> {
    seq(|acts|, i requires 0 <= i < |acts| => Lifted(acts[i]))
  }

  lemma LiftedOn(w: Net, acts: seq<Action>)
    requires acts != []
    ensures var w' := StepNet(w, Lifted(acts[0]));
            && RunNet(w, LiftedAll(acts)) == RunNet(w', LiftedAll(acts[1..]))
            && (HeededRun(w, LiftedAll(acts)) <==> Heeded(w, Lifted(acts[0])) && HeededRun(w', LiftedAll(acts[1..])))
  {
    assert LiftedAll(acts)[1..] == LiftedAll(acts[1..]);
  }

  /** Every run of the two parties alone is a run of the net with the check. */
  lemma {:induction false} RunIsLifted(w: Net, acts: seq<Action>)
    requires Private(w)
    ensures HeededRun(w, LiftedAll(acts)) && RunNet(w, LiftedAll(acts)).base == Run(w.base, acts)
    ensures Private(RunNet(w, LiftedAll(acts)))
    decreases |acts|
  {
    if acts != [] {
      LiftedIsSeen(w, acts[0]);
      LiftedStays(w, acts[0]);
      RunIsLifted(StepNet(w, Lifted(acts[0])), acts[1..]);
      LiftedOn(w, acts);
    }
  }
}
