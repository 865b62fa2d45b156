/** When a file can still be delivered. From any state that the two parties have reached with one
    key and a working disk, whatever was lost, forged, cancelled or aborted before, they can complete
    the transfer by themselves if and only if none of nine things has happened. */
module DeliveryPossible {
  import opened Basics
  import opened ChunkCipher
  import opened TransferState
  import opened TransferManager
  import opened ChunkStream
  import opened TransferProtocol
  import opened TransferDelivery

  /** Steps of the two parties: nobody forges a message in their name. */
  predicate Honest(a: Action, k: Option<Key>) {
    SameKeyNoFault(a, k) && !a.ForgeAccept? && !a.ForgeReady?
  }

  predicate Starts(a: Action) {
    a.Initiate? || a.SendReady? || a.OpenChannel?
  }

  predicate Sends(a: Action) {
    a.SendChunk? || a.SendFin? || a.FinishSending? || a.AbortSending?
  }

  predicate OnTheChannel(a: Action) {
    a.ChannelOpens? || a.ChannelArrives? || a.ReceiveFrame? || a.RecordOutcome? || a.DropChannel?
  }

  predicate Interrupts(a: Action) {
    a.CancelSender? || a.CancelReceiver? || a.TickSender? || a.TickReceiver?
  }

  predicate Complete(w: World) {
    && w.snd.Some? && w.snd.value.state == Done && w.rcv.Some? && w.rcv.value.state == Done
    && w.written == w.src.file
  }

  ghost predicate Delivers(w: World, acts: seq<Action>, k: Option<Key>) {
    (forall a :: a in acts ==> Honest(a, k)) && Complete(Run(w, acts))
  }

  // ---- What can go wrong -----------------------------------------------------------------

  function TheOffer(w: World): Offer
    requires w.snd.Some?
  {
    Offer(Some(Digest(w.src.file)), w.snd.value.challenge)
  }

  function TheAccept(w: World): Accept
    requires w.snd.Some? && w.rcv.Some?
  {
    Accept(Signature(RECEIVER, w.snd.value.challenge), w.rcv.value.counterChallenge)
  }

  function TheReady(w: World): Ready
    requires w.rcv.Some?
  {
    Ready(Signature(SENDER, w.rcv.value.counterChallenge))
  }

  predicate FinLast(channel: seq<DataFrame>) {
    channel != [] && IsFin(channel[|channel| - 1])
  }

  /** A side has ended otherwise than Done. */
  predicate Ended(r: Option<Record>) {
    r.Some? && (r.value.state == Failed || r.value.state == Cancelled)
  }

  predicate OfferLost(w: World) {
    w.snd.Some? && w.rcv.None? && MOffer(TheOffer(w)) !in w.toRcv
  }

  predicate AcceptLost(w: World) {
    w.snd.Some? && w.snd.value.state == Offered && w.rcv.Some? && MAccept(TheAccept(w)) !in w.toSnd
  }

  /** The sender has entered under a counter-challenge that is not the receiver's. */
  predicate Mismatched(w: World) {
    w.entered.Some? && w.rcv.Some? && !Past(w.rcv.value.state) && w.entered != Some(w.rcv.value.counterChallenge)
  }

  predicate ReadyLost(w: World) {
    && w.entered.Some? && !w.spc.ReadyPending? && w.rcv.Some? && w.rcv.value.state == Accepted
    && MReady(TheReady(w)) !in w.toRcv
  }

  /** The sending goroutine has ended without a FIN. */
  predicate StreamCut(w: World) {
    w.spc.Exited? && !OutputFinal(w) && !FinLast(w.channel)
  }

  /** The channel was closed before the outcome was recorded, as it is when it arrives before the
      ready message. */
  predicate ClosedEarly(w: World) {
    w.rpc.Closed? && !(w.rcv.Some? && w.rcv.value.state == Done)
  }

  predicate CompletionLost(w: World) {
    OutputFinal(w) && w.snd.Some? && w.snd.value.state != Done && MComplete(true) !in w.toSnd
  }

  predicate Doomed(w: World) {
    || Ended(w.snd) || Ended(w.rcv) || OfferLost(w) || AcceptLost(w) || Mismatched(w) || ReadyLost(w)
    || StreamCut(w) || ClosedEarly(w) || CompletionLost(w)
  }

  // ---- Where the records stand -----------------------------------------------------------

  predicate Placed(w: World) {
    && (w.snd.Some? ==> w.snd.value.state != Idle && w.snd.value.state != Accepted)
    && (w.rcv.Some? ==> Rank(w.rcv.value.state) >= Rank(Accepted))
    && (w.entered.Some? ==> w.spc != Waiting)
    && (w.spc.Opening? || w.spc.Sending? || w.spc.FinSent? || w.channel != [] ==> w.incoming || !w.rpc.NoChannel?)
    && (w.spc.FinSent? ==> FinLast(w.channel) || OutputFinal(w))
    && (w.rpc.Live? || w.rpc.Announced? || w.rpc.Marked? ==> w.rcv.Some? && Rank(w.rcv.value.state) >= Rank(Transferring))
    && (w.rcv.Some? && w.rcv.value.state == Transferring ==> !w.rpc.Marked?)
    && (w.rcv.Some? && w.rcv.value.state == Completing ==> w.rpc.Marked?)
  }

  lemma PlacedSender(w: World, r: Record)
    requires Placed(w) && w.snd.Some? && (r.state == w.snd.value.state || Rank(r.state) > Rank(w.snd.value.state))
    requires Past(r.state) || r.state == w.snd.value.state || Terminal(r.state)
    ensures Placed(w.(snd := Some(r)))
  {
  }

  lemma PlacedReceiver(w: World, r: Record)
    requires Placed(w) && w.rcv.Some? && (r.state == w.rcv.value.state || Terminal(r.state))
    ensures Placed(w.(rcv := Some(r)))
  {
  }

  lemma OfferPlaced(w: World, a: Action)
    requires Inv(w) && Placed(w)
    ensures a.Initiate? ==> Placed(StepInitiate(w, a))
    ensures a.DeliverOffer? ==> Placed(StepOffer(w, a))
  {
  }

  lemma AcceptPlaced(w: World, a: Action)
    requires Placed(w) && a.DeliverAccept?
    ensures Placed(StepAccept(w, a))
  {
  }

  lemma ReadyPlaced(w: World, a: Action)
    requires Placed(w) && a.DeliverReady?
    ensures Placed(StepReady(w, a))
  {
  }

  lemma ReportPlaced(w: World, a: Action)
    requires Placed(w)
    ensures a.DeliverReject? ==> Placed(StepReject(w, a))
    ensures a.DeliverComplete? ==> Placed(StepComplete(w, a))
    ensures a.DeliverAck? ==> Placed(StepAck(w, a))
  {
  }

  lemma ChannelPlaced(w: World, a: Action)
    requires Inv(w) && Placed(w)
    ensures a.SendReady? ==> Placed(StepSendReady(w, a))
    ensures a.OpenChannel? ==> Placed(StepOpenChannel(w, a))
    ensures a.ChannelArrives? ==> Placed(StepArrives(w, a))
  {
  }

  lemma StreamPlaced(w: World, a: Action)
    requires Placed(w)
    ensures a.SendChunk? ==> Placed(StepSendChunk(w, a))
    ensures a.SendFin? ==> Placed(StepSendFin(w, a))
  {
  }

  lemma EndPlaced(w: World, a: Action)
    requires Placed(w)
    ensures a.FinishSending? ==> Placed(StepFinishSending(w, a))
    ensures a.AbortSending? ==> Placed(StepAbort(w, a))
  {
  }

  lemma FinPlaced(w: World)
    requires Placed(w) && w.rpc.Live? && w.channel != []
    ensures forall v :: Placed(w.(channel := w.channel[1..], rpc := Announced(v)))
  {
  }

  lemma FramePlaced(w: World)
    requires Placed(w) && w.rpc.Live? && w.channel != [] && !IsFin(w.channel[0])
    ensures Placed(w.(channel := w.channel[1..]))
  {
    assert FinLast(w.channel) ==> FinLast(w.channel[1..]);
  }

  lemma ReceivePlaced(w: World, a: Action)
    requires Placed(w) && a.ReceiveFrame? && (w.rpc.Live? && w.rcv.Some? ==> w.rcv.value.state != Completing)
    ensures Placed(StepReceive(w, a))
  {
    if w.rpc.Live? && w.rcv.Some? && w.channel != [] {
      if IsFin(w.channel[0]) {
        FinPlaced(w);
      } else {
        var i := OnChunk(w.src.fileId, IntakeOf(w), w.channel[0], a.w, a.now);
        OnChunkShape(w.src.fileId, IntakeOf(w), w.channel[0], a.w, a.now);
        PlacedReceiver(w, i.record);
        FramePlaced(w.(rcv := Some(i.record)));
      }
    }
  }

  lemma RecordPlaced(w: World, a: Action)
    requires Inv(w) && Placed(w) && a.RecordOutcome?
    ensures Placed(StepRecord(w, a))
  {
  }

  lemma InterruptionPlaced(w: World, now: int)
    requires Placed(w)
    ensures w.snd.Some? ==> Placed(w.(snd := Some(OnCancel(w.snd.value, now))))
    ensures w.snd.Some? ==> Placed(w.(snd := Some(OnTick(w.snd.value, now))))
    ensures w.rcv.Some? ==> Placed(w.(rcv := Some(OnCancel(w.rcv.value, now))))
    ensures w.rcv.Some? ==> Placed(w.(rcv := Some(OnTick(w.rcv.value, now))))
  {
    if w.snd.Some? {
      PlacedSender(w, OnCancel(w.snd.value, now));
      PlacedSender(w, OnTick(w.snd.value, now));
    }
    if w.rcv.Some? {
      PlacedReceiver(w, OnCancel(w.rcv.value, now));
      PlacedReceiver(w, OnTick(w.rcv.value, now));
    }
  }

  lemma DropPlaced(w: World)
    requires Inv(w) && Placed(w)
    ensures Placed(Step(w, DropChannel))
  {
    assert Step(w, DropChannel) == w || Step(w, DropChannel) == w.(rpc := Closed);
  }

  lemma OpensPlaced(w: World)
    requires Placed(w)
    ensures Placed(Step(w, ChannelOpens))
  {
    assert Step(w, ChannelOpens) == StepOpens(w);
  }

  lemma MessagePlaced(w: World, a: Action)
    requires Inv(w) && Placed(w) && TakesMessage(a)
    ensures Placed(Step(w, a))
  {
    match a
    case DeliverOffer(_, _, _, _) => OfferPlaced(w, a);
    case DeliverAccept(_, _, _) => AcceptPlaced(w, a);
    case DeliverReady(_, _, _) => ReadyPlaced(w, a);
    case DeliverReject(_) => ReportPlaced(w, a);
    case DeliverComplete(_, _) => ReportPlaced(w, a);
    case DeliverAck(_, _) => ReportPlaced(w, a);
  }

  lemma StartPlaced(w: World, a: Action)
    requires Inv(w) && Placed(w) && Starts(a)
    ensures Placed(Step(w, a))
  {
    match a
    case Initiate(_, _, _) => OfferPlaced(w, a);
    case SendReady(_) => ChannelPlaced(w, a);
    case OpenChannel(_, _) => ChannelPlaced(w, a);
  }

  lemma SendingPlaced(w: World, a: Action)
    requires Placed(w) && Sends(a)
    ensures Placed(Step(w, a))
  {
    match a
    case SendChunk(_, _, _) => StreamPlaced(w, a);
    case SendFin(_, _) => StreamPlaced(w, a);
    case FinishSending(_) => EndPlaced(w, a);
    case AbortSending(_) => EndPlaced(w, a);
  }

  lemma WorkPlaced(w: World, a: Action)
    requires Inv(w) && Placed(w) && OnTheChannel(a)
    ensures Placed(Step(w, a))
  {
    match a
    case ChannelOpens => OpensPlaced(w);
    case ChannelArrives(_, _) => ChannelPlaced(w, a);
    case ReceiveFrame(_, _, _) => ReceivePlaced(w, a);
    case RecordOutcome(_) => RecordPlaced(w, a);
    case DropChannel => DropPlaced(w);
  }

  lemma CutPlaced(w: World, a: Action)
    requires Placed(w) && Interrupts(a)
    ensures Placed(Step(w, a))
  {
    InterruptionPlaced(w, a.now);
  }

  lemma StepKeepsPlaced(w: World, a: Action)
    requires Inv(w) && Placed(w)
    ensures Placed(Step(w, a))
  {
    if TakesMessage(a) {
      MessagePlaced(w, a);
    } else if Starts(a) {
      StartPlaced(w, a);
    } else if Sends(a) {
      SendingPlaced(w, a);
    } else if OnTheChannel(a) {
      WorkPlaced(w, a);
    } else if Interrupts(a) {
      CutPlaced(w, a);
    }
  }

  // ---- What has gone wrong stays wrong ---------------------------------------------------

  lemma DoomedSender(w: World, r: Record)
    requires Doomed(w) && w.snd.Some? && r.challenge == w.snd.value.challenge
    requires (r.state == w.snd.value.state) || r.state == Failed || r.state == Cancelled
             || (Past(w.snd.value.state) && Later(w.snd.value.state, r.state))
    requires r.state == Done && w.snd.value.state != Done ==> MComplete(true) in w.toSnd
    requires Terminal(w.snd.value.state) ==> r.state == w.snd.value.state
    ensures Doomed(w.(snd := Some(r)))
  {
  }

  lemma DoomedReceiver(w: World, r: Record)
    requires Doomed(w) && w.rcv.Some?
    requires r.challenge == w.rcv.value.challenge && r.counterChallenge == w.rcv.value.counterChallenge
    requires r.state == w.rcv.value.state || r.state == Failed || r.state == Cancelled
    requires Terminal(w.rcv.value.state) ==> r.state == w.rcv.value.state
    ensures Doomed(w.(rcv := Some(r)))
  {
  }

  lemma DoomedLoss(w: World, m: Control)
    requires Doomed(w)
    ensures Doomed(w.(toSnd := w.toSnd - multiset{m})) && Doomed(w.(toRcv := w.toRcv - multiset{m}))
  {
  }

  /** The step goes on from a state in which something has gone wrong, with everything the invariants
      say about it. */
  ghost predicate Bad(w: World, k: Option<Key>) {
    DataInv(w, k) && Placed(w) && Doomed(w)
  }

  lemma InitiateDoomed(w: World, a: Action, k: Option<Key>)
    requires Bad(w, k) && a.Initiate?
    ensures Doomed(StepInitiate(w, a))
  {
  }

  lemma OfferDoomed(w: World, a: Action, k: Option<Key>)
    requires Bad(w, k) && a.DeliverOffer?
    ensures Doomed(StepOffer(w, a))
  {
  }

  predicate AcceptFits(w: World, accept: Accept) {
    && w.entered.None? && w.spc == Waiting && !OutputFinal(w)
    && w.rcv.Some? && !Past(w.rcv.value.state)
    && (w.snd.Some? && AcceptLost(w) ==> accept.counterChallenge != w.rcv.value.counterChallenge)
  }

  lemma AnsweredAccept(w: World, accept: Accept)
    requires Inv(w) && w.snd.Some? && w.snd.value.state == Offered && MAccept(accept) in w.toSnd
    requires accept.challengeSig == Signature(RECEIVER, w.snd.value.challenge)
    ensures AcceptFits(w, accept)
  {
  }

  lemma EnterDoomed(w: World, r: Record, ready: Ready, accept: Accept, mail: multiset<Control>)
    requires Doomed(w) && w.snd.Some? && w.snd.value.state == Offered && AcceptFits(w, accept)
    requires r.challenge == w.snd.value.challenge && r.state == Transferring
    ensures Doomed(w.(snd := Some(r), spc := ReadyPending(ready), entered := Some(accept.counterChallenge), toSnd := mail))
  {
  }

  lemma AcceptDoomed(w: World, a: Action, k: Option<Key>)
    requires Bad(w, k) && a.DeliverAccept?
    ensures Doomed(StepAccept(w, a))
  {
    if MAccept(a.accept) in w.toSnd {
      DoomedLoss(w, MAccept(a.accept));
      var mail := w.toSnd - multiset{MAccept(a.accept)};
      if w.snd.Some? {
        var (r, answer) := OnAccept(w.snd.value, a.accept, Some(RECEIVER), SENDER, a.key, a.now);
        if answer.None? {
          DoomedSender(w.(toSnd := mail), r);
        } else {
          AnsweredAccept(w, a.accept);
          EnterDoomed(w, r, answer.value, a.accept, mail);
        }
      }
    }
  }

  /** A ready message is good for one thing only, if it is the right one. */
  lemma ReadyShape(r: Record, ready: Ready, key: Option<Key>, now: int)
    ensures var r' := OnReady(r, ready, Some(SENDER), key, now);
            && r'.challenge == r.challenge && r'.counterChallenge == r.counterChallenge
            && (Terminal(r.state) ==> r'.state == r.state)
            && (r'.state == r.state || r'.state == Failed
                || (r.state == Accepted && r'.state == Transferring && ready == Ready(Signature(SENDER, r.counterChallenge))))
  {
  }

  lemma TakenDoomed(w: World, r: Record, mail: multiset<Control>)
    requires Doomed(w) && w.rcv.Some? && w.rcv.value.state == Accepted && r.state == Transferring
    requires w.entered == Some(w.rcv.value.counterChallenge) && MReady(TheReady(w)) in w.toRcv
    requires w.snd.Some? && w.snd.value.state != Offered
    ensures Doomed(w.(rcv := Some(r), toRcv := mail))
  {
  }

  lemma ReadyDoomed(w: World, a: Action, k: Option<Key>)
    requires Bad(w, k) && a.DeliverReady?
    ensures Doomed(StepReady(w, a))
  {
    if MReady(a.ready) in w.toRcv {
      DoomedLoss(w, MReady(a.ready));
      var mail := w.toRcv - multiset{MReady(a.ready)};
      if w.rcv.Some? {
        var r := OnReady(w.rcv.value, a.ready, Some(SENDER), a.key, a.now);
        ReadyShape(w.rcv.value, a.ready, a.key, a.now);
        if w.rcv.value.state == Accepted && r.state == Transferring {
          ReadyIsGenuine(w, a.ready);
          TakenDoomed(w, r, mail);
        } else {
          DoomedReceiver(w.(toRcv := mail), r);
        }
      }
    }
  }

  lemma CompletionShape(r: Record, verified: bool, now: int)
    ensures var r' := OnComplete(r, verified, now);
            && r'.challenge == r.challenge && (Terminal(r.state) ==> r'.state == r.state)
            && (r'.state == r.state || r'.state == Failed || (verified && r'.state == Done && Past(r.state)))
  {
  }

  lemma CompletionDoomed(w: World, r: Record, mail: multiset<Control>)
    requires Doomed(w) && w.snd.Some? && r.challenge == w.snd.value.challenge && r.state == Done && Past(w.snd.value.state)
    requires MComplete(true) in w.toSnd
    ensures Doomed(w.(snd := Some(r), toSnd := mail))
  {
  }

  lemma CompleteDoomed(w: World, a: Action, k: Option<Key>)
    requires Bad(w, k) && a.DeliverComplete?
    ensures Doomed(StepComplete(w, a))
  {
    if MComplete(a.verified) in w.toSnd {
      DoomedLoss(w, MComplete(a.verified));
      var mail := w.toSnd - multiset{MComplete(a.verified)};
      if w.snd.Some? {
        var r := OnComplete(w.snd.value, a.verified, a.now);
        CompletionShape(w.snd.value, a.verified, a.now);
        if r.state == Done && a.verified && Past(w.snd.value.state) {
          CompletionDoomed(w, r, mail);
        } else {
          DoomedSender(w.(toSnd := mail), r);
        }
      }
    }
  }

  lemma ReportDoomed(w: World, a: Action)
    requires Doomed(w)
    ensures a.DeliverReject? ==> Doomed(StepReject(w, a))
    ensures a.DeliverAck? ==> Doomed(StepAck(w, a))
  {
    DoomedLoss(w, if a.DeliverAck? then MAck(a.lastSeq) else MReject);
    if a.DeliverReject? && w.snd.Some? {
      DoomedSender(w.(toSnd := w.toSnd - multiset{MReject}), OnReject(w.snd.value, "not trusted", a.now));
    } else if a.DeliverAck? && w.snd.Some? {
      DoomedSender(w.(toSnd := w.toSnd - multiset{MAck(a.lastSeq)}), OnChunkAck(w.snd.value, a.lastSeq, a.now));
    }
  }

  lemma ChannelDoomed(w: World, a: Action, k: Option<Key>)
    requires Bad(w, k)
    ensures a.SendReady? ==> Doomed(StepSendReady(w, a))
    ensures a.OpenChannel? ==> Doomed(StepOpenChannel(w, a))
  {
  }

  lemma ArrivalDoomed(w: World, a: Action, k: Option<Key>)
    requires Bad(w, k) && a.ChannelArrives?
    ensures Doomed(StepArrives(w, a))
  {
  }

  /** What the sending goroutine does to its position and to the channel, if anything has gone wrong. */
  lemma StreamDoomed(w: World, spc: SenderPc, channel: seq<DataFrame>)
    requires Doomed(w) && !w.spc.Exited? && !w.spc.ReadyPending? && !spc.ReadyPending?
    ensures Doomed(w.(spc := spc, channel := channel))
  {
  }

  lemma SendingDoomed(w: World, a: Action, k: Option<Key>)
    requires Bad(w, k) && (a.SendChunk? || a.SendFin?)
    ensures a.SendChunk? ==> Doomed(StepSendChunk(w, a))
    ensures a.SendFin? ==> Doomed(StepSendFin(w, a))
  {
    if w.spc.Sending? && w.snd.Some? {
      StreamDoomed(w, Exited, w.channel);
      if a.SendChunk? {
        DoomedSender(w.(spc := Exited), Moved(w.snd.value.(error := "send chunk"), Failed, a.now));
        if StepSendChunk(w, a).spc.Sending? {
          StreamDoomed(w, StepSendChunk(w, a).spc, StepSendChunk(w, a).channel);
        }
      } else {
        DoomedSender(w.(spc := Exited), Moved(w.snd.value.(error := "send FIN"), Failed, a.now));
        StreamDoomed(w, FinSent, w.channel + [FinFrame(w.spc.number)]);
      }
    }
  }

  lemma EndDoomed(w: World, a: Action, k: Option<Key>)
    requires Bad(w, k)
    ensures a.FinishSending? ==> Doomed(StepFinishSending(w, a))
    ensures a.AbortSending? ==> Doomed(StepAbort(w, a))
  {
    if w.spc.FinSent? || w.spc.Opening? || w.spc.Sending? {
      StreamDoomed(w, Exited, w.channel);
      if w.snd.Some? && a.FinishSending? {
        DoomedSender(w.(spc := Exited), Moved(w.snd.value, Completing, a.now));
      } else if w.snd.Some? && a.AbortSending? {
        DoomedSender(w.(spc := Exited), Moved(w.snd.value.(error := "context cancelled"), Failed, a.now));
      }
    }
  }

  lemma ReceiptDoomed(w: World, a: Action, k: Option<Key>)
    requires Bad(w, k) && a.ReceiveFrame?
    ensures Doomed(StepReceive(w, a))
  {
  }

  lemma OutcomeDoomed(w: World, a: Action, k: Option<Key>)
    requires Bad(w, k) && a.RecordOutcome?
    ensures Doomed(StepRecord(w, a))
  {
  }

  lemma InterruptionDoomed(w: World, now: int)
    requires Doomed(w)
    ensures w.snd.Some? ==> Doomed(w.(snd := Some(OnCancel(w.snd.value, now))))
    ensures w.snd.Some? ==> Doomed(w.(snd := Some(OnTick(w.snd.value, now))))
    ensures w.rcv.Some? ==> Doomed(w.(rcv := Some(OnCancel(w.rcv.value, now))))
    ensures w.rcv.Some? ==> Doomed(w.(rcv := Some(OnTick(w.rcv.value, now))))
  {
    if w.snd.Some? {
      DoomedSender(w, OnCancel(w.snd.value, now));
      DoomedSender(w, OnTick(w.snd.value, now));
    }
    if w.rcv.Some? {
      DoomedReceiver(w, OnCancel(w.rcv.value, now));
      DoomedReceiver(w, OnTick(w.rcv.value, now));
    }
  }

  lemma DropDoomed(w: World, k: Option<Key>)
    requires Bad(w, k)
    ensures Doomed(Step(w, DropChannel))
  {
    assert Step(w, DropChannel) == w || Step(w, DropChannel) == w.(rpc := Closed);
  }

  lemma OpensDoomed(w: World, k: Option<Key>)
    requires Bad(w, k)
    ensures Doomed(Step(w, ChannelOpens))
  {
    assert Step(w, ChannelOpens) == StepOpens(w);
  }

  lemma MessageDoomed(w: World, a: Action, k: Option<Key>)
    requires Bad(w, k) && TakesMessage(a)
    ensures Doomed(Step(w, a))
  {
    match a
    case DeliverOffer(_, _, _, _) => OfferDoomed(w, a, k);
    case DeliverAccept(_, _, _) => AcceptDoomed(w, a, k);
    case DeliverReady(_, _, _) => ReadyDoomed(w, a, k);
    case DeliverReject(_) => ReportDoomed(w, a);
    case DeliverComplete(_, _) => CompleteDoomed(w, a, k);
    case DeliverAck(_, _) => ReportDoomed(w, a);
  }

  lemma SenderDoomed(w: World, a: Action, k: Option<Key>)
    requires Bad(w, k) && (Starts(a) || Sends(a))
    ensures Doomed(Step(w, a))
  {
    match a
    case Initiate(_, _, _) => InitiateDoomed(w, a, k);
    case SendReady(_) => ChannelDoomed(w, a, k);
    case OpenChannel(_, _) => ChannelDoomed(w, a, k);
    case SendChunk(_, _, _) => SendingDoomed(w, a, k);
    case SendFin(_, _) => SendingDoomed(w, a, k);
    case FinishSending(_) => EndDoomed(w, a, k);
    case AbortSending(_) => EndDoomed(w, a, k);
  }

  lemma WorkDoomed(w: World, a: Action, k: Option<Key>)
    requires Bad(w, k)
    requires OnTheChannel(a)
    ensures Doomed(Step(w, a))
  {
    match a
    case ChannelOpens => OpensDoomed(w, k);
    case ChannelArrives(_, _) => ArrivalDoomed(w, a, k);
    case ReceiveFrame(_, _, _) => ReceiptDoomed(w, a, k);
    case RecordOutcome(_) => OutcomeDoomed(w, a, k);
    case DropChannel => DropDoomed(w, k);
  }

  lemma CutDoomed(w: World, a: Action)
    requires Doomed(w)
    requires a.LoseToSender? || a.LoseToReceiver? || Interrupts(a)
    ensures Doomed(Step(w, a))
  {
    if a.LoseToSender? || a.LoseToReceiver? {
      DoomedLoss(w, a.m);
    } else {
      InterruptionDoomed(w, a.now);
    }
  }

  lemma StepStaysDoomed(w: World, a: Action, k: Option<Key>)
    requires Bad(w, k) && Honest(a, k)
    ensures Bad(Step(w, a), k)
  {
    StepKeepsData(w, a, k);
    StepKeepsPlaced(w, a);
    if TakesMessage(a) {
      MessageDoomed(w, a, k);
    } else if Starts(a) || Sends(a) {
      SenderDoomed(w, a, k);
    } else if OnTheChannel(a) {
      WorkDoomed(w, a, k);
    } else {
      CutDoomed(w, a);
    }
  }

  lemma {:induction false} DoomedForGood(w: World, acts: seq<Action>, k: Option<Key>)
    requires Bad(w, k) && forall a :: a in acts ==> Honest(a, k)
    ensures !Complete(Run(w, acts))
    decreases |acts|
  {
    if acts == [] {
      DoomedIsIncomplete(w, k);
    } else {
      StepStaysDoomed(w, acts[0], k);
      DoomedForGood(Step(w, acts[0]), acts[1..], k);
    }
  }

  lemma DoomedIsIncomplete(w: World, k: Option<Key>)
    requires Bad(w, k)
    ensures !Complete(w)
  {
  }

  // ---- What has not gone wrong can be brought to an end ----------------------------------

  ghost predicate Hopeful(w: World, k: Option<Key>) {
    DataInv(w, k) && Placed(w) && !Doomed(w)
  }

  function NextRead(w: World): nat
    requires w.spc.Sending? && w.spc.offset < |w.src.file|
  {
    if |w.src.file| - w.spc.offset <= DEFAULT_CHUNK_SIZE then |w.src.file| - w.spc.offset else DEFAULT_CHUNK_SIZE
  }

  function OnChannel(w: World): Action {
    if w.channel != [] then ReceiveFrame(Whole, true, 0)
    else if w.spc.Sending? && w.spc.offset < |w.src.file| then SendChunk(NextRead(w), true, 0)
    else if w.spc.Sending? then SendFin(true, 0)
    else ChannelOpens
  }

  /** A step that brings the transfer nearer to its end. */
  function StepAhead(w: World, k: Option<Key>): Action {
    if w.snd.None? then Initiate(CHALLENGE, true, 0)
    else if w.rcv.None? then DeliverOffer(TheOffer(w), true, COUNTER, 0)
    else if w.snd.value.state == Offered then DeliverAccept(TheAccept(w), k, 0)
    else if w.spc.ReadyPending? then SendReady(true)
    else if w.rcv.value.state == Accepted then DeliverReady(TheReady(w), k, 0)
    else if w.rpc.NoChannel? then if w.spc.ChannelPending? then OpenChannel(Opened, 0) else ChannelArrives(true, 0)
    else if w.rpc.Live? then OnChannel(w)
    else if w.rcv.value.state != Done then RecordOutcome(0)
    else DeliverComplete(true, 0)
  }

  /** The steps ahead at most. */
  function Ahead(w: World): nat {
    (if w.snd.None? then 2 else if w.snd.value.state == Offered then 1 else 0)
    + SenderAhead(w) + ReceiverAhead(w.rcv) + (if w.incoming then 1 else 0) + |w.channel|
    + if w.snd.Some? && w.snd.value.state == Done then 0 else 1
  }

  function SenderAhead(w: World): nat {
    match w.spc
    case Waiting => 3 * |w.src.file| + 8
    case ReadyPending(_) => 3 * |w.src.file| + 7
    case ChannelPending => 3 * |w.src.file| + 6
    case Opening => 3 * |w.src.file| + 4
    case Sending(offset, _) => if offset <= |w.src.file| then 3 * (|w.src.file| - offset) + 3 else 3
    case _ => 0
  }

  function ReceiverAhead(r: Option<Record>): nat {
    if r.None? then 6 else 5 - Rank(r.value.state)
  }

  /** A step leads on if it spoils nothing and comes nearer. */
  predicate LeadsOn(w: World, w': World) {
    !Doomed(w') && Ahead(w') < Ahead(w)
  }

  lemma InitiateAhead(w: World, k: Option<Key>)
    requires Hopeful(w, k) && w.snd.None?
    ensures LeadsOn(w, Step(w, Initiate(CHALLENGE, true, 0)))
  {
    var a := Initiate(CHALLENGE, true, 0);
    assert Step(w, a) == StepInitiate(w, a);
  }

  lemma OfferAhead(w: World, k: Option<Key>)
    requires Hopeful(w, k) && w.snd.Some? && w.rcv.None?
    ensures LeadsOn(w, Step(w, DeliverOffer(TheOffer(w), true, COUNTER, 0)))
  {
    var a := DeliverOffer(TheOffer(w), true, COUNTER, 0);
    assert Step(w, a) == StepOffer(w, a);
  }

  lemma AcceptAhead(w: World, k: Option<Key>)
    requires Hopeful(w, k) && w.snd.Some? && w.rcv.Some? && w.snd.value.state == Offered
    ensures LeadsOn(w, Step(w, DeliverAccept(TheAccept(w), k, 0)))
  {
    var a := DeliverAccept(TheAccept(w), k, 0);
    assert Step(w, a) == StepAccept(w, a);
  }

  lemma AnswerAhead(w: World, k: Option<Key>)
    requires Hopeful(w, k) && w.snd.Some? && w.rcv.Some? && w.spc.ReadyPending?
    ensures LeadsOn(w, Step(w, SendReady(true)))
  {
    var a := SendReady(true);
    assert Step(w, a) == StepSendReady(w, a);
  }

  lemma ReadyAhead(w: World, k: Option<Key>)
    requires Hopeful(w, k) && w.snd.Some? && w.rcv.Some? && w.snd.value.state != Offered && !w.spc.ReadyPending?
    requires w.rcv.value.state == Accepted
    ensures LeadsOn(w, Step(w, DeliverReady(TheReady(w), k, 0)))
  {
    var a := DeliverReady(TheReady(w), k, 0);
    assert Step(w, a) == StepReady(w, a);
  }

  lemma CreationAhead(w: World, k: Option<Key>)
    requires Hopeful(w, k) && w.snd.Some? && w.snd.value.state != Offered && w.spc.ChannelPending?
    ensures LeadsOn(w, Step(w, OpenChannel(Opened, 0)))
  {
    var a := OpenChannel(Opened, 0);
    assert Step(w, a) == StepOpenChannel(w, a);
  }

  lemma ArrivalAhead(w: World, k: Option<Key>)
    requires Hopeful(w, k) && w.snd.Some? && w.rcv.Some? && w.snd.value.state != Offered && !w.spc.ReadyPending?
    requires w.rcv.value.state != Accepted && w.rpc.NoChannel? && !w.spc.ChannelPending?
    ensures LeadsOn(w, Step(w, ChannelArrives(true, 0)))
  {
    var a := ChannelArrives(true, 0);
    assert Step(w, a) == StepArrives(w, a);
  }

  /** What the conservation of bytes says about the next frame. */
  lemma NextFrame(w: World, k: Option<Key>)
    requires DataInv(w, k) && w.rpc.Live? && w.channel != []
    ensures w.rcv.Some?
    ensures IsFin(w.channel[0]) ==> w.channel[1..] == [] && w.rcv.value.digest == Some(Digest(w.written))
    ensures !IsFin(w.channel[0]) ==> Plaintext(w.src.fileId, w.rcv.value.sessionKey, w.channel[0]).Some?
  {
    if IsFin(w.channel[0]) {
      assert w.channel[1..] == [];
      assert Carried(w.src.fileId, k, w.channel) == Some([]);
      assert w.written + [] == w.written;
    }
  }

  lemma FinAhead(w: World)
    requires !Doomed(w) && w.rpc.Live? && w.rcv.Some? && w.channel != [] && IsFin(w.channel[0]) && w.channel[1..] == []
    requires w.rcv.value.digest == Some(Digest(w.written))
    ensures LeadsOn(w, StepReceive(w, ReceiveFrame(Whole, true, 0)))
  {
    var w' := StepReceive(w, ReceiveFrame(Whole, true, 0));
    assert w' == w.(channel := [], rpc := Announced(true), toSnd := w.toSnd + multiset{MComplete(true)});
  }

  lemma FrameAhead(w: World)
    requires !Doomed(w) && w.rpc.Live? && w.rcv.Some? && w.channel != [] && !IsFin(w.channel[0])
    requires Rank(w.rcv.value.state) >= Rank(Transferring)
    requires Plaintext(w.src.fileId, w.rcv.value.sessionKey, w.channel[0]).Some?
    ensures LeadsOn(w, StepReceive(w, ReceiveFrame(Whole, true, 0)))
  {
    OnChunkShape(w.src.fileId, IntakeOf(w), w.channel[0], Whole, 0);
    var w' := StepReceive(w, ReceiveFrame(Whole, true, 0));
    assert w'.rcv.Some? && w'.rcv.value.state == w.rcv.value.state;
    assert w' == w.(channel := w.channel[1..], rcv := w'.rcv, written := w'.written, bytesRecv := w'.bytesRecv,
                    chunkCount := w'.chunkCount, toSnd := w'.toSnd);
    assert FinLast(w.channel) ==> FinLast(w'.channel);
  }

  lemma ReceiptAhead(w: World, k: Option<Key>)
    requires Hopeful(w, k) && w.rpc.Live? && w.channel != []
    ensures LeadsOn(w, Step(w, ReceiveFrame(Whole, true, 0)))
  {
    var a := ReceiveFrame(Whole, true, 0);
    NextFrame(w, k);
    if IsFin(w.channel[0]) {
      FinAhead(w);
    } else {
      FrameAhead(w);
    }
    assert Step(w, a) == StepReceive(w, a);
  }

  lemma ChunkAhead(w: World, k: Option<Key>)
    requires Hopeful(w, k) && w.rpc.Live? && w.spc.Sending? && w.spc.offset < |w.src.file|
    ensures LeadsOn(w, Step(w, SendChunk(NextRead(w), true, 0)))
  {
    var a := SendChunk(NextRead(w), true, 0);
    assert Step(w, a) == StepSendChunk(w, a);
  }

  lemma EndAhead(w: World, k: Option<Key>)
    requires Hopeful(w, k) && w.rpc.Live? && w.spc.Sending? && w.spc.offset >= |w.src.file|
    ensures LeadsOn(w, Step(w, SendFin(true, 0)))
  {
    var a := SendFin(true, 0);
    assert Step(w, a) == StepSendFin(w, a);
  }

  lemma OpensAhead(w: World, k: Option<Key>)
    requires Hopeful(w, k) && w.rpc.Live? && w.channel == [] && !w.spc.Sending?
    ensures LeadsOn(w, Step(w, ChannelOpens))
  {
    var a := ChannelOpens;
    assert Step(w, a) == StepOpens(w);
  }

  lemma OutcomeAhead(w: World, k: Option<Key>)
    requires Hopeful(w, k) && OutputFinal(w) && w.rcv.Some? && w.rcv.value.state != Accepted && w.rcv.value.state != Done
    ensures LeadsOn(w, Step(w, RecordOutcome(0)))
  {
    var a := RecordOutcome(0);
    assert Step(w, a) == StepRecord(w, a);
  }

  lemma CompletionAhead(w: World, k: Option<Key>)
    requires Hopeful(w, k) && !Complete(w) && w.snd.Some? && w.rcv.Some? && w.rcv.value.state == Done
    ensures LeadsOn(w, Step(w, DeliverComplete(true, 0)))
  {
    var a := DeliverComplete(true, 0);
    assert Step(w, a) == StepComplete(w, a);
  }

  lemma HandshakeAhead(w: World, k: Option<Key>)
    requires Hopeful(w, k)
    requires w.snd.None? || w.rcv.None? || w.snd.value.state == Offered || w.spc.ReadyPending? || w.rcv.value.state == Accepted
    ensures LeadsOn(w, Step(w, StepAhead(w, k)))
  {
    if w.snd.None? {
      InitiateAhead(w, k);
    } else if w.rcv.None? {
      OfferAhead(w, k);
    } else if w.snd.value.state == Offered {
      AcceptAhead(w, k);
    } else if w.spc.ReadyPending? {
      AnswerAhead(w, k);
    } else {
      ReadyAhead(w, k);
    }
  }

  lemma StreamAhead(w: World, k: Option<Key>)
    requires Hopeful(w, k) && w.rpc.Live?
    ensures LeadsOn(w, Step(w, OnChannel(w)))
  {
    if w.channel != [] {
      ReceiptAhead(w, k);
    } else if w.spc.Sending? && w.spc.offset < |w.src.file| {
      ChunkAhead(w, k);
    } else if w.spc.Sending? {
      EndAhead(w, k);
    } else {
      OpensAhead(w, k);
    }
  }

  lemma ChannelAhead(w: World, k: Option<Key>)
    requires Hopeful(w, k) && !Complete(w) && w.snd.Some? && w.rcv.Some? && w.snd.value.state != Offered
    requires !w.spc.ReadyPending? && w.rcv.value.state != Accepted
    ensures LeadsOn(w, Step(w, StepAhead(w, k)))
  {
    if w.rpc.NoChannel? && w.spc.ChannelPending? {
      CreationAhead(w, k);
    } else if w.rpc.NoChannel? {
      ArrivalAhead(w, k);
    } else if w.rpc.Live? {
      StreamAhead(w, k);
    } else if w.rcv.value.state != Done {
      OutcomeAhead(w, k);
    } else {
      CompletionAhead(w, k);
    }
  }

  lemma StepsAhead(w: World, k: Option<Key>)
    requires Hopeful(w, k) && !Complete(w)
    ensures Hopeful(Step(w, StepAhead(w, k)), k) && Honest(StepAhead(w, k), k) && Ahead(Step(w, StepAhead(w, k))) < Ahead(w)
    ensures w.rcv.Some? ==> Step(w, StepAhead(w, k)).rcv.Some?
  {
    StepKeepsInv(w, StepAhead(w, k));
    StepKeepsData(w, StepAhead(w, k), k);
    StepKeepsPlaced(w, StepAhead(w, k));
    if w.snd.None? || w.rcv.None? || w.snd.value.state == Offered || w.spc.ReadyPending? || w.rcv.value.state == Accepted {
      HandshakeAhead(w, k);
    } else {
      ChannelAhead(w, k);
    }
  }

  lemma CompleteIsKeyed(w: World, k: Option<Key>)
    requires DataInv(w, k) && Complete(w)
    ensures w.rcv.value.sessionKey == k
  {
  }

  lemma {:induction false} RunToTheEnd(w: World, k: Option<Key>) returns (acts: seq<Action>)
    requires Hopeful(w, k)
    ensures Delivers(w, acts, k) && Run(w, acts).src == w.src && Run(w, acts).rcv.value.sessionKey == k
    ensures w.rcv.Some? ==> forall a :: a in acts ==> !a.DeliverOffer?
    decreases Ahead(w)
  {
    if Complete(w) {
      CompleteIsKeyed(w, k);
      acts := [];
    } else {
      var a := StepAhead(w, k);
      StepsAhead(w, k);
      var w' := Step(w, a);
      var rest := RunToTheEnd(w', k);
      RunOn(w, a, rest);
      acts := [a] + rest;
      SourceIsFixed(w, acts);
    }
  }

  /** The receiver takes the channel, and nothing has been written. */
  predicate Starting(w: World) {
    w.rpc.Live? && w.written == [] && w.rcv.Some? && w.rcv.value.state == Transferring
  }

  lemma UpToArrival(w: World, k: Option<Key>)
    requires Hopeful(w, k) && w.rpc.NoChannel?
    ensures var w' := Step(w, StepAhead(w, k)); w'.rpc.NoChannel? || Starting(w')
  {
  }

  lemma {:induction false} RunToTheStart(w: World, k: Option<Key>) returns (acts: seq<Action>)
    requires Hopeful(w, k) && w.rpc.NoChannel?
    ensures Hopeful(Run(w, acts), k) && Starting(Run(w, acts)) && forall a :: a in acts ==> Honest(a, k)
    decreases Ahead(w)
  {
    var a := StepAhead(w, k);
    StepsAhead(w, k);
    UpToArrival(w, k);
    var w' := Step(w, a);
    if w'.rpc.NoChannel? {
      var rest := RunToTheStart(w', k);
      RunOn(w, a, rest);
      acts := [a] + rest;
    } else {
      RunOne(w, a);
      acts := [a];
    }
  }

  // ---- Theorems --------------------------------------------------------------------------

  lemma {:induction false} RunKeepsPlaced(w: World, acts: seq<Action>)
    requires Inv(w) && Placed(w)
    ensures Placed(Run(w, acts))
    decreases |acts|
  {
    if acts != [] {
      StepKeepsInv(w, acts[0]);
      StepKeepsPlaced(w, acts[0]);
      RunKeepsPlaced(Step(w, acts[0]), acts[1..]);
    }
  }

  /** When delivery is still possible. Take any run with one key on both sides and a working disk,
      with whatever losses, reorderings, forgeries, cancellations, timeouts and send failures. From
      where it leads the two parties can take each other to Done, with the file delivered, if and
      only if nothing of this has happened: a side has failed or been cancelled; the offer, the
      receiver's answer, the ready message or the completion has been lost; the sender has entered
      under a counter-challenge that is not the receiver's; the sending goroutine has ended without
      a FIN; the channel was closed before the receiver was Done. */
  lemma PossibleExactly(src: Source, before: seq<Action>, k: Option<Key>)
    requires forall i :: 0 <= i < |before| ==> SameKeyNoFault(before[i], k)
    ensures var w := Run(Init(src), before);
            (exists acts :: Delivers(w, acts, k)) <==> !Doomed(w)
  {
    var w := Run(Init(src), before);
    InitDataInv(src, k);
    RunKeepsData(Init(src), before, k);
    RunKeepsPlaced(Init(src), before);
    if Doomed(w) {
      forall acts ensures !Delivers(w, acts, k) {
        if forall a :: a in acts ==> Honest(a, k) {
          DoomedForGood(w, acts, k);
        }
      }
    } else {
      var acts := RunToTheEnd(w, k);
    }
  }

  /** A channel that arrives before the receiver has taken the ready message ends all hope; one that
      arrives after it does no harm. */
  lemma ArrivalDecides(w: World, now: int, k: Option<Key>)
    requires Hopeful(w, k) && w.incoming
    ensures Doomed(Step(w, ChannelArrives(true, now))) <==> w.rcv.Some? && w.rcv.value.state == Accepted
  {
    var a := ChannelArrives(true, now);
    assert Step(w, a) == StepArrives(w, a);
  }

  /** For every file, with or without a session key, some run takes both sides to Done. */
  lemma PartiesCanDeliver(src: Source, k: Option<Key>)
    ensures exists acts :: Delivers(Init(src), acts, k)
  {
    PossibleExactly(src, [], k);
  }
}
