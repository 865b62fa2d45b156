/** How transfers end. Which events take either side of a transfer from one state to the next, read
    off the handlers of filetransfer/manager.go and the goroutines of sender.go and receiver.go, in
    terms of what arrives, what fails and how much time has passed. */
module TransferOutcomes {
  import opened Basics
  import opened ChunkCipher
  import opened TransferState
  import opened TransferManager
  import opened ChunkStream
  import opened TransferProtocol

  predicate UnderWay(s: State) {
    s == Offered || s == Accepted || s == Transferring || s == Completing
  }

  predicate Is(r: Option<Record>, s: State) {
    r.Some? && r.value.state == s
  }

  /** A minute for an offer, half a minute for an accepted one, half an hour for the transfer itself,
      and a minute for its completion. */
  predicate IdleTooLong(r: Record, now: int) {
    var idle := now - r.lastActive;
    || (r.state == Offered && idle > 60 * SECOND)
    || (r.state == Accepted && idle > 30 * SECOND)
    || (r.state == Transferring && idle > 30 * MINUTE)
    || (r.state == Completing && idle > 60 * SECOND)
  }

  // ---- The sender's side -----------------------------------------------------------------

  /** The next read, if it is one that the file allows. */
  predicate Reads(w: World, n: nat) {
    w.spc.Sending? && 0 < n <= DEFAULT_CHUNK_SIZE && w.spc.offset + n <= |w.src.file|
  }

  predicate Signed(accept: Accept, r: Record) {
    accept.challengeSig == Signature(RECEIVER, r.challenge)
  }

  predicate SenderFails(w: World, a: Action) {
    && w.snd.Some? && UnderWay(w.snd.value.state)
    && match a
       case DeliverReject(_) => MReject in w.toSnd
       case DeliverAccept(accept, _, _) => MAccept(accept) in w.toSnd && !Signed(accept, w.snd.value)
       case DeliverComplete(verified, _) => MComplete(verified) in w.toSnd && !verified
       case OpenChannel(channel, _) => w.spc.ChannelPending? && !channel.Opened?
       case SendChunk(n, ok, _) => Reads(w, n) && !ok
       case SendFin(ok, _) => w.spc.Sending? && w.spc.offset >= |w.src.file| && !ok
       case AbortSending(_) => w.spc.Sending?
       case TickSender(now) => IdleTooLong(w.snd.value, now)
       case _ => false
  }

  predicate SenderCancelled(w: World, a: Action) {
    a.CancelSender? && (Is(w.snd, Offered) || Is(w.snd, Accepted) || Is(w.snd, Transferring))
  }

  predicate SenderEnters(w: World, a: Action) {
    a.DeliverAccept? && MAccept(a.accept) in w.toSnd && Is(w.snd, Offered) && Signed(a.accept, w.snd.value)
  }

  predicate SenderCompletes(w: World, a: Action) {
    a.FinishSending? && w.spc.FinSent? && Is(w.snd, Transferring)
  }

  predicate SenderDone(w: World, a: Action) {
    a.DeliverComplete? && a.verified && MComplete(true) in w.toSnd && (Is(w.snd, Transferring) || Is(w.snd, Completing))
  }

  predicate SenderOffers(w: World, a: Action) {
    a.Initiate? && a.sendOk && w.snd.None?
  }

  /** The sender's state after one step. */
  function SenderNext(w: World, a: Action): Option<State> {
    if SenderOffers(w, a) then Some(Offered)
    else if w.snd.None? then None
    else if SenderFails(w, a) then Some(Failed)
    else if SenderCancelled(w, a) then Some(Cancelled)
    else if SenderEnters(w, a) then Some(Transferring)
    else if SenderCompletes(w, a) then Some(Completing)
    else if SenderDone(w, a) then Some(Done)
    else Some(w.snd.value.state)
  }

  function StateOf(r: Option<Record>): Option<State> {
    if r.Some? then Some(r.value.state) else None
  }

  function TimeOf(a: Action): int {
    if a.SendReady? || a.LoseToSender? || a.LoseToReceiver? || a.ForgeAccept? || a.ForgeReady? || a.ChannelOpens? || a.DropChannel?
    then 0 else a.now
  }

  /** What a record says about its transfer. */
  predicate SameTransfer(r: Record, r': Record) {
    r'.direction == r.direction && r'.peer == r.peer && r'.challenge == r.challenge && r'.digest == r.digest
  }

  /** A side that ends notes the time; one that moves, or hears of progress, counts as active then. */
  predicate Stamped(r: Option<Record>, r': Option<Record>, a: Action, progress: bool) {
    r'.Some? ==>
      && (Terminal(r'.value.state) && StateOf(r) != StateOf(r') ==> r'.value.completedAt == Some(TimeOf(a)))
      && (if StateOf(r) != StateOf(r') || progress then r'.value.lastActive == TimeOf(a)
          else r.Some? && r'.value.lastActive == r.value.lastActive)
  }

  predicate SenderHears(w: World, a: Action) {
    a.DeliverAck? && MAck(a.lastSeq) in w.toSnd
  }

  predicate SenderMoved(w: World, a: Action, w': World) {
    && StateOf(w'.snd) == SenderNext(w, a) && Stamped(w.snd, w'.snd, a, SenderHears(w, a))
    && (w.snd.Some? ==> w'.snd.Some? && SameTransfer(w.snd.value, w'.snd.value))
  }

  lemma SenderOffer(w: World, a: Action)
    requires a.Initiate?
    ensures SenderMoved(w, a, Step(w, a))
  {
    assert Step(w, a) == StepInitiate(w, a);
  }

  lemma AcceptResult(r: Record, accept: Accept, key: Option<Key>, now: int)
    ensures var r' := OnAccept(r, accept, Some(RECEIVER), SENDER, key, now).0;
            && r'.state == (if !Signed(accept, r) then (if UnderWay(r.state) then Failed else r.state)
                            else if r.state == Offered then Transferring else r.state)
            && (r'.state == Failed && r.state != Failed ==> r'.completedAt == Some(now))
            && SameTransfer(r, r') && r'.lastActive == if r'.state != r.state then now else r.lastActive
  {
  }

  lemma SenderAccept(w: World, a: Action)
    requires a.DeliverAccept?
    ensures SenderMoved(w, a, Step(w, a))
  {
    var w' := Step(w, a);
    assert w' == StepAccept(w, a);
    if w.snd.Some? && MAccept(a.accept) in w.toSnd {
      AcceptResult(w.snd.value, a.accept, a.key, a.now);
      assert w'.snd == Some(OnAccept(w.snd.value, a.accept, Some(RECEIVER), SENDER, a.key, a.now).0);
    } else {
      assert w'.snd == w.snd;
    }
  }

  lemma SenderReject(w: World, a: Action)
    requires a.DeliverReject?
    ensures SenderMoved(w, a, Step(w, a))
  {
    var w' := Step(w, a);
    assert w' == StepReject(w, a);
    if w.snd.Some? && MReject in w.toSnd {
      RejectResult(w.snd.value, a.now);
      assert w'.snd == Some(OnReject(w.snd.value, "not trusted", a.now));
    } else {
      assert w'.snd == w.snd;
    }
  }

  lemma CompletionResult(r: Record, verified: bool, now: int)
    ensures var r', finishes := OnComplete(r, verified, now), verified && (r.state == Transferring || r.state == Completing);
            && r'.state == (if finishes then Done else if !verified && UnderWay(r.state) then Failed else r.state)
            && (r'.state != r.state ==> r'.completedAt == Some(now) && r'.lastActive == now)
            && (r'.state == r.state ==> r'.lastActive == r.lastActive) && SameTransfer(r, r')
  {
  }

  lemma SenderComplete(w: World, a: Action)
    requires a.DeliverComplete?
    ensures SenderMoved(w, a, Step(w, a))
  {
    var w' := Step(w, a);
    assert w' == StepComplete(w, a);
    if w.snd.Some? && MComplete(a.verified) in w.toSnd {
      CompletionResult(w.snd.value, a.verified, a.now);
      assert w'.snd == Some(OnComplete(w.snd.value, a.verified, a.now));
    } else {
      assert w'.snd == w.snd;
    }
  }

  lemma SenderAck(w: World, a: Action)
    requires a.DeliverAck?
    ensures SenderMoved(w, a, Step(w, a))
  {
    assert Step(w, a) == StepAck(w, a);
  }

  lemma StartResult(r: Record, channel: Channel, now: int)
    ensures var r' := OnStart(r, channel, now);
            && r'.state == (if !channel.Opened? && UnderWay(r.state) then Failed else r.state)
            && (r'.state != r.state ==> r'.completedAt == Some(now))
            && SameTransfer(r, r') && r'.lastActive == if r'.state != r.state then now else r.lastActive
  {
  }

  lemma SenderOpen(w: World, a: Action)
    requires a.OpenChannel?
    ensures SenderMoved(w, a, Step(w, a))
  {
    var w' := Step(w, a);
    assert w' == StepOpenChannel(w, a);
    if w.spc.ChannelPending? && w.snd.Some? && !a.channel.Opened? {
      StartResult(w.snd.value, a.channel, a.now);
      assert w'.snd == Some(OnStart(w.snd.value, a.channel, a.now));
    } else {
      assert w'.snd == w.snd;
    }
  }

  lemma RejectResult(r: Record, now: int)
    ensures var r' := OnReject(r, "not trusted", now);
            && r'.state == (if UnderWay(r.state) then Failed else r.state)
            && (r'.state != r.state ==> r'.completedAt == Some(now))
            && SameTransfer(r, r') && r'.lastActive == if r'.state != r.state then now else r.lastActive
  {
  }

  lemma SenderChunk(w: World, a: Action)
    requires a.SendChunk?
    ensures SenderMoved(w, a, Step(w, a))
  {
    assert Step(w, a) == StepSendChunk(w, a);
  }

  lemma SenderFin(w: World, a: Action)
    requires a.SendFin?
    ensures SenderMoved(w, a, Step(w, a))
  {
    assert Step(w, a) == StepSendFin(w, a);
  }

  lemma SenderFinish(w: World, a: Action)
    requires a.FinishSending?
    ensures SenderMoved(w, a, Step(w, a))
  {
    assert Step(w, a) == StepFinishSending(w, a);
  }

  lemma SenderAbort(w: World, a: Action)
    requires a.AbortSending?
    ensures SenderMoved(w, a, Step(w, a))
  {
    assert Step(w, a) == StepAbort(w, a);
  }

  lemma SenderCancel(w: World, a: Action)
    requires a.CancelSender?
    ensures SenderMoved(w, a, Step(w, a))
  {
    assert Step(w, a) == if w.snd.Some? then w.(snd := Some(OnCancel(w.snd.value, a.now))) else w;
  }

  lemma SenderTick(w: World, a: Action)
    requires a.TickSender?
    ensures SenderMoved(w, a, Step(w, a))
  {
    assert Step(w, a) == if w.snd.Some? then w.(snd := Some(OnTick(w.snd.value, a.now))) else w;
  }

  lemma SenderIdle(w: World, a: Action)
    requires !a.Initiate? && !a.DeliverAccept? && !a.DeliverReject? && !a.DeliverComplete? && !a.DeliverAck?
    requires !a.OpenChannel? && !a.SendChunk? && !a.SendFin? && !a.FinishSending? && !a.AbortSending?
    requires !a.CancelSender? && !a.TickSender?
    ensures Step(w, a).snd == w.snd
  {
  }

  /** The events above, and no others, move the sender, for every state and step. */
  lemma SenderMovesExactly(w: World, a: Action)
    ensures SenderMoved(w, a, Step(w, a))
  {
    match a
    case Initiate(_, _, _) => SenderOffer(w, a);
    case DeliverAccept(_, _, _) => SenderAccept(w, a);
    case DeliverReject(_) => SenderReject(w, a);
    case DeliverComplete(_, _) => SenderComplete(w, a);
    case DeliverAck(_, _) => SenderAck(w, a);
    case OpenChannel(_, _) => SenderOpen(w, a);
    case SendChunk(_, _, _) => SenderChunk(w, a);
    case SendFin(_, _) => SenderFin(w, a);
    case FinishSending(_) => SenderFinish(w, a);
    case AbortSending(_) => SenderAbort(w, a);
    case CancelSender(_) => SenderCancel(w, a);
    case TickSender(_) => SenderTick(w, a);
    case _ => SenderIdle(w, a);
  }

  // ---- The receiver's side ---------------------------------------------------------------

  predicate ReceiverOffered(w: World, a: Action) {
    a.DeliverOffer? && MOffer(a.offer) in w.toRcv && a.trusted
  }

  predicate Countersigned(ready: Ready, r: Record) {
    ready.counterSig == Signature(SENDER, r.counterChallenge)
  }

  /** The next frame is a chunk that cannot be opened, or cannot be written whole. */
  predicate ChunkFails(w: World, result: WriteResult) {
    && w.rpc.Live? && w.rcv.Some? && w.channel != [] && !HasFlag(w.channel[0].flags, FLAG_FIN)
    && (result.Short? || Plaintext(w.src.fileId, w.rcv.value.sessionKey, w.channel[0]).None?)
  }

  predicate ReceiverFails(w: World, a: Action) {
    && w.rcv.Some? && UnderWay(w.rcv.value.state)
    && match a
       case DeliverReady(ready, _, _) => MReady(ready) in w.toRcv && !Countersigned(ready, w.rcv.value)
       case ChannelArrives(createOk, _) => w.incoming && Is(w.rcv, Transferring) && !createOk
       case ReceiveFrame(result, _, _) => ChunkFails(w, result)
       case RecordOutcome(_) => w.rpc == Announced(false)
       case TickReceiver(now) => IdleTooLong(w.rcv.value, now)
       case _ => false
  }

  predicate ReceiverCancelled(w: World, a: Action) {
    a.CancelReceiver? && (Is(w.rcv, Offered) || Is(w.rcv, Accepted) || Is(w.rcv, Transferring))
  }

  predicate ReceiverEnters(w: World, a: Action) {
    a.DeliverReady? && MReady(a.ready) in w.toRcv && Is(w.rcv, Accepted) && Countersigned(a.ready, w.rcv.value)
  }

  predicate ReceiverCompletes(w: World, a: Action) {
    a.RecordOutcome? && w.rpc == Announced(true) && Is(w.rcv, Transferring)
  }

  predicate ReceiverDone(w: World, a: Action) {
    a.RecordOutcome? && w.rpc.Marked? && Is(w.rcv, Completing)
  }

  /** The receiver's state after one step. */
  function ReceiverNext(w: World, a: Action): Option<State> {
    if ReceiverOffered(w, a) then Some(Accepted)
    else if w.rcv.None? then None
    else if ReceiverFails(w, a) then Some(Failed)
    else if ReceiverCancelled(w, a) then Some(Cancelled)
    else if ReceiverEnters(w, a) then Some(Transferring)
    else if ReceiverCompletes(w, a) then Some(Completing)
    else if ReceiverDone(w, a) then Some(Done)
    else Some(w.rcv.value.state)
  }

  /** A chunk is opened and written whole, or the offer is taken. */
  predicate ReceiverHears(w: World, a: Action) {
    || ReceiverOffered(w, a)
    || (a.ReceiveFrame? && w.rpc.Live? && w.rcv.Some? && w.channel != [] && !HasFlag(w.channel[0].flags, FLAG_FIN)
        && !ChunkFails(w, a.w))
  }

  predicate ReceiverMoved(w: World, a: Action, w': World) {
    && StateOf(w'.rcv) == ReceiverNext(w, a) && Stamped(w.rcv, w'.rcv, a, ReceiverHears(w, a))
    && (w.rcv.Some? && !ReceiverOffered(w, a) ==> w'.rcv.Some? && SameTransfer(w.rcv.value, w'.rcv.value))
  }

  lemma ReceiverOffer(w: World, a: Action)
    requires a.DeliverOffer?
    ensures ReceiverMoved(w, a, Step(w, a))
  {
    var w' := Step(w, a);
    assert w' == StepOffer(w, a);
    assert w'.rcv == if ReceiverOffered(w, a) then Some(AcceptedRecord(SENDER, a.offer, a.counter, a.now)) else w.rcv;
  }

  lemma ReadyResult(r: Record, ready: Ready, key: Option<Key>, now: int)
    ensures var r' := OnReady(r, ready, Some(SENDER), key, now);
            && r'.state == (if !Countersigned(ready, r) then (if UnderWay(r.state) then Failed else r.state)
                            else if r.state == Accepted then Transferring else r.state)
            && (r'.state == Failed && r.state != Failed ==> r'.completedAt == Some(now))
            && SameTransfer(r, r') && r'.lastActive == if r'.state != r.state then now else r.lastActive
  {
  }

  lemma ReceiverReady(w: World, a: Action)
    requires a.DeliverReady?
    ensures ReceiverMoved(w, a, Step(w, a))
  {
    var w' := Step(w, a);
    assert w' == StepReady(w, a);
    if w.rcv.Some? && MReady(a.ready) in w.toRcv {
      ReadyResult(w.rcv.value, a.ready, a.key, a.now);
      assert w'.rcv == Some(OnReady(w.rcv.value, a.ready, Some(SENDER), a.key, a.now));
    } else {
      assert w'.rcv == w.rcv;
    }
  }

  lemma ReceiverArrival(w: World, a: Action)
    requires a.ChannelArrives?
    ensures ReceiverMoved(w, a, Step(w, a))
  {
    assert Step(w, a) == StepArrives(w, a);
  }

  lemma ChunkResult(fileId: string, i: Intake, fr: DataFrame, result: WriteResult, now: int)
    ensures var r, r' := i.record, OnChunk(fileId, i, fr, result, now).record;
            var fails := result.Short? || Plaintext(fileId, r.sessionKey, fr).None?;
            && r'.state == (if fails && UnderWay(r.state) then Failed else r.state)
            && (fails && UnderWay(r.state) ==> r'.completedAt == Some(now))
            && r'.lastActive == if fails && !UnderWay(r.state) then r.lastActive else now
  {
  }

  lemma ReceiverFrame(w: World, a: Action)
    requires a.ReceiveFrame?
    ensures ReceiverMoved(w, a, Step(w, a))
  {
    var w' := Step(w, a);
    assert w' == StepReceive(w, a);
    if w.rpc.Live? && w.rcv.Some? && w.channel != [] && !HasFlag(w.channel[0].flags, FLAG_FIN) {
      ChunkResult(w.src.fileId, IntakeOf(w), w.channel[0], a.w, a.now);
      assert w'.rcv == Some(OnChunk(w.src.fileId, IntakeOf(w), w.channel[0], a.w, a.now).record);
    } else {
      assert w'.rcv == w.rcv;
    }
  }

  lemma RecordedResult(r: Record, now: int)
    ensures var r' := Moved(r.(error := "SHA-256 mismatch"), Failed, now);
            && r'.state == (if UnderWay(r.state) then Failed else r.state)
            && (UnderWay(r.state) ==> r'.completedAt == Some(now))
            && r'.lastActive == if UnderWay(r.state) then now else r.lastActive
    ensures var r' := Moved(r, Completing, now);
            && r'.state == (if r.state == Transferring then Completing else r.state)
            && r'.lastActive == if r.state == Transferring then now else r.lastActive
    ensures var r' := Moved(r, Done, now);
            && r'.state == (if r.state == Completing then Done else r.state)
            && (r.state == Completing ==> r'.completedAt == Some(now))
            && r'.lastActive == if r.state == Completing then now else r.lastActive
  {
  }

  lemma ReceiverOutcome(w: World, a: Action)
    requires a.RecordOutcome?
    ensures ReceiverMoved(w, a, Step(w, a))
  {
    var w' := Step(w, a);
    assert w' == StepRecord(w, a);
    if w.rcv.Some? && (w.rpc.Announced? || w.rpc.Marked?) {
      var r := w.rcv.value;
      RecordedResult(r, a.now);
      assert w'.rcv == Some(if w.rpc.Marked? then Moved(r, Done, a.now)
                            else if w.rpc.verified then Moved(r, Completing, a.now)
                            else Moved(r.(error := "SHA-256 mismatch"), Failed, a.now));
    } else {
      assert w'.rcv == w.rcv;
    }
  }

  lemma ReceiverCancel(w: World, a: Action)
    requires a.CancelReceiver?
    ensures ReceiverMoved(w, a, Step(w, a))
  {
    assert Step(w, a) == if w.rcv.Some? then w.(rcv := Some(OnCancel(w.rcv.value, a.now))) else w;
  }

  lemma ReceiverTick(w: World, a: Action)
    requires a.TickReceiver?
    ensures ReceiverMoved(w, a, Step(w, a))
  {
    assert Step(w, a) == if w.rcv.Some? then w.(rcv := Some(OnTick(w.rcv.value, a.now))) else w;
  }

  lemma ReceiverIdle(w: World, a: Action)
    requires !a.DeliverOffer? && !a.DeliverReady? && !a.ChannelArrives? && !a.ReceiveFrame? && !a.RecordOutcome?
    requires !a.CancelReceiver? && !a.TickReceiver?
    ensures Step(w, a).rcv == w.rcv
  {
  }

  lemma ReceiverMovesExactly(w: World, a: Action)
    ensures ReceiverMoved(w, a, Step(w, a))
  {
    match a
    case DeliverOffer(_, _, _, _) => ReceiverOffer(w, a);
    case DeliverReady(_, _, _) => ReceiverReady(w, a);
    case ChannelArrives(_, _) => ReceiverArrival(w, a);
    case ReceiveFrame(_, _, _) => ReceiverFrame(w, a);
    case RecordOutcome(_) => ReceiverOutcome(w, a);
    case CancelReceiver(_) => ReceiverCancel(w, a);
    case TickReceiver(_) => ReceiverTick(w, a);
    case _ => ReceiverIdle(w, a);
  }

  // ---- What else the steps do ------------------------------------------------------------

  /** The output after one step: it is emptied when the receiver takes the channel, and grows by the
      chunks that open, as far as they can be written. */
  function OutputNext(w: World, a: Action): Bytes {
    if a.ChannelArrives? && w.incoming && Is(w.rcv, Transferring) && a.createOk then []
    else if a.ReceiveFrame? && w.rpc.Live? && w.rcv.Some? && w.channel != [] && !HasFlag(w.channel[0].flags, FLAG_FIN) then
      match Plaintext(w.src.fileId, w.rcv.value.sessionKey, w.channel[0])
      case None => w.written
      case Some(p) => w.written + if a.w.Whole? || a.w.accepted > |p| then p else p[..a.w.accepted]
    else w.written
  }

  lemma OutputByArrival(w: World, a: Action)
    requires a.ChannelArrives?
    ensures Step(w, a).written == OutputNext(w, a)
  {
    assert Step(w, a) == StepArrives(w, a);
  }

  lemma OutputByFrame(w: World, a: Action)
    requires a.ReceiveFrame?
    ensures Step(w, a).written == OutputNext(w, a)
  {
    assert Step(w, a) == StepReceive(w, a);
    if w.rpc.Live? && w.rcv.Some? && w.channel != [] {
      var p := Plaintext(w.src.fileId, w.rcv.value.sessionKey, w.channel[0]);
      assert p.Some? && a.w.Short? && a.w.accepted == |p.value| ==> p.value[..a.w.accepted] == p.value;
      assert w.written + [] == w.written;
    }
  }

  lemma OutputElsewhere(w: World, a: Action)
    requires !a.ChannelArrives? && !a.ReceiveFrame?
    ensures Step(w, a).written == w.written
  {
  }

  lemma OutputMovesExactly(w: World, a: Action)
    ensures Step(w, a).written == OutputNext(w, a)
  {
    if a.ChannelArrives? {
      OutputByArrival(w, a);
    } else if a.ReceiveFrame? {
      OutputByFrame(w, a);
    } else {
      OutputElsewhere(w, a);
    }
  }

  /** What an accept teaches the sender: the counter-challenge, whenever it is signed rightly, and the
      session key on entering only. */
  lemma AcceptTeaches(w: World, a: Action)
    requires a.DeliverAccept? && MAccept(a.accept) in w.toSnd && w.snd.Some?
    ensures var r, r' := w.snd.value, Step(w, a).snd;
            && r'.Some?
            && r'.value.counterChallenge == (if Signed(a.accept, r) then a.accept.counterChallenge else r.counterChallenge)
            && r'.value.sessionKey == (if SenderEnters(w, a) then a.key else r.sessionKey)
  {
    assert Step(w, a) == StepAccept(w, a);
  }

  /** The sender's record is that of the offer, and the receiver's that of the offer it took: of the file
      with the digest that was offered, and with each other. */
  predicate Identified(w: World) {
    OfSender(w.snd, w.src) && OfReceiver(w.rcv)
  }

  predicate OfSender(r: Option<Record>, src: Source) {
    r.Some? ==> r.value.direction == Direction.Send && r.value.peer == RECEIVER && r.value.digest == Some(Digest(src.file))
  }

  predicate OfReceiver(r: Option<Record>) {
    r.Some? ==> r.value.direction == Recv && r.value.peer == SENDER
  }

  lemma RecordsBegin(w: World, a: Action)
    ensures SenderOffers(w, a) ==> OfSender(Step(w, a).snd, w.src)
    ensures ReceiverOffered(w, a) ==> OfReceiver(Step(w, a).rcv)
  {
    assert a.Initiate? ==> Step(w, a) == StepInitiate(w, a);
    assert a.DeliverOffer? ==> Step(w, a) == StepOffer(w, a);
  }

  lemma MovedIdentified(w: World, a: Action, w': World)
    requires Identified(w) && SenderMoved(w, a, w') && ReceiverMoved(w, a, w') && w'.src == w.src
    requires SenderOffers(w, a) ==> OfSender(w'.snd, w.src)
    requires ReceiverOffered(w, a) ==> OfReceiver(w'.rcv)
    ensures Identified(w')
  {
  }

  lemma StepIdentified(w: World, a: Action)
    requires Identified(w)
    ensures Identified(Step(w, a))
  {
    SenderMovesExactly(w, a);
    ReceiverMovesExactly(w, a);
    RecordsBegin(w, a);
    SourceIsFixed(w, [a]);
    RunOne(w, a);
    MovedIdentified(w, a, Step(w, a));
  }

  lemma {:induction false} RunIdentified(w: World, acts: seq<Action>)
    requires Identified(w)
    ensures Identified(Run(w, acts))
    decreases |acts|
  {
    if acts != [] {
      StepIdentified(w, acts[0]);
      RunIdentified(Step(w, acts[0]), acts[1..]);
    }
  }

  // ---- Whole runs ------------------------------------------------------------------------

  predicate SenderEnds(w: World, a: Action, s: State) {
    match s
    case Done => SenderDone(w, a)
    case Failed => SenderFails(w, a)
    case Cancelled => SenderCancelled(w, a)
    case _ => false
  }

  predicate ReceiverEnds(w: World, a: Action, s: State) {
    match s
    case Done => ReceiverDone(w, a)
    case Failed => ReceiverFails(w, a)
    case Cancelled => ReceiverCancelled(w, a)
    case _ => false
  }

  /** Some step of the run ends the sender in this state. */
  predicate SenderEverEnds(w: World, acts: seq<Action>, s: State)
    decreases |acts|
  {
    acts != [] && (SenderEnds(w, acts[0], s) || SenderEverEnds(Step(w, acts[0]), acts[1..], s))
  }

  predicate ReceiverEverEnds(w: World, acts: seq<Action>, s: State)
    decreases |acts|
  {
    acts != [] && (ReceiverEnds(w, acts[0], s) || ReceiverEverEnds(Step(w, acts[0]), acts[1..], s))
  }

  lemma SenderEndsExactly(w: World, a: Action, w': World, s: State)
    requires Terminal(s) && StateOf(w'.snd) == SenderNext(w, a)
    ensures Is(w'.snd, s) <==> Is(w.snd, s) || SenderEnds(w, a, s)
  {
  }

  lemma ReceiverEndsExactly(w: World, a: Action, w': World, s: State)
    requires Terminal(s) && StateOf(w'.rcv) == ReceiverNext(w, a) && (ReceiverOffered(w, a) ==> w.rcv.None?)
    ensures Is(w'.rcv, s) <==> Is(w.rcv, s) || ReceiverEnds(w, a, s)
  {
  }

  /** After any run the sender is Done, Failed or Cancelled if and only if it was at the start, or some
      event of the run made it so. */
  lemma {:induction false} HowSendersEnd(w: World, acts: seq<Action>, s: State)
    requires Terminal(s)
    ensures Is(Run(w, acts).snd, s) <==> Is(w.snd, s) || SenderEverEnds(w, acts, s)
    decreases |acts|
  {
    if acts != [] {
      SenderMovesExactly(w, acts[0]);
      SenderEndsExactly(w, acts[0], Step(w, acts[0]), s);
      HowSendersEnd(Step(w, acts[0]), acts[1..], s);
    }
  }

  lemma OneOfferOnly(w: World, a: Action)
    requires Inv(w) && ReceiverOffered(w, a)
    ensures w.rcv.None?
  {
  }

  /** And likewise the receiver. */
  lemma {:induction false} HowReceiversEnd(w: World, acts: seq<Action>, s: State)
    requires Inv(w) && Terminal(s)
    ensures Is(Run(w, acts).rcv, s) <==> Is(w.rcv, s) || ReceiverEverEnds(w, acts, s)
    decreases |acts|
  {
    if acts != [] {
      if ReceiverOffered(w, acts[0]) {
        OneOfferOnly(w, acts[0]);
      }
      ReceiverMovesExactly(w, acts[0]);
      ReceiverEndsExactly(w, acts[0], Step(w, acts[0]), s);
      StepKeepsInv(w, acts[0]);
      HowReceiversEnd(Step(w, acts[0]), acts[1..], s);
    }
  }
}
