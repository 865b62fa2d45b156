/** The control-message handlers of one agent (filetransfer/manager.go). The first half gives
    the effect of each handler on the record of the transfer it concerns; the second half is the
    manager object, whose methods are proved to have exactly those effects and no others. */
module TransferManager {
  import opened Basics
  import opened ChunkCipher
  import opened TransferState

  // ---- Messages and ideal signatures -----------------------------------------------------

  /** A signature is the pair of what was signed and by whom; nobody else can produce it. */
  datatype Signature = Signature(signer: string, message: string)

  predicate VerifyChallenge(challenge: string, sig: Signature, pubKey: string) {
    sig == Signature(pubKey, challenge)
  }

  datatype Offer = Offer(digest: Option<Digest>, challenge: string)
  datatype Accept = Accept(challengeSig: Signature, counterChallenge: string)
  datatype Ready = Ready(counterSig: Signature)

  /** What a control message says about one transfer. */
  datatype Control =
    | MOffer(offer: Offer)
    | MReject
    | MAccept(accept: Accept)
    | MReady(ready: Ready)
    | MComplete(verified: bool)
    | MAck(lastSeq: UInt32)

  /** A control message with its source, which the envelope's signature vouches for. */
  datatype Mail = Mail(source: string, body: Control)

  /** How the attempt to create the sending data channel went. */
  datatype Channel = Opened | NoTransport | NotCreated

  // ---- Effects on the record -------------------------------------------------------------

  function OfferedRecord(peer: string, offer: Offer, now: int): Record {
    Moved(NewRecord(Direction.Send, peer, now).(digest := offer.digest, challenge := offer.challenge), Offered, now)
  }

  function AcceptedRecord(peer: string, offer: Offer, counter: string, now: int): Record {
    var offered := Moved(NewRecord(Recv, peer, now).(digest := offer.digest, challenge := offer.challenge), Offered, now);
    Moved(offered.(counterChallenge := counter), Accepted, now)
  }

  /** The record after a FileAccept, and the signature to answer with, if any. */
  function OnAccept(r: Record, accept: Accept, pubKey: Option<string>, self: string, key: Option<Key>, now: int)
    : (Record, Option<Ready>)
  {
    if pubKey.None? then
      (r, None)
    else if !VerifyChallenge(r.challenge, accept.challengeSig, pubKey.value) then
      (Moved(r.(error := "challenge verification failed"), Failed, now), None)
    else
      var countered := r.(counterChallenge := accept.counterChallenge);
      if !ValidTransition(countered.state, Accepted) then
        (countered, None)
      else
        (Moved(Moved(countered, Accepted, now).(sessionKey := key), Transferring, now),
         Some(Ready(Signature(self, accept.counterChallenge))))
  }

  function OnReject(r: Record, reason: string, now: int): Record {
    Moved(r.(error := "rejected: " + reason), Failed, now)
  }

  function OnReady(r: Record, ready: Ready, pubKey: Option<string>, key: Option<Key>, now: int): Record {
    if pubKey.None? then r
    else if !VerifyChallenge(r.counterChallenge, ready.counterSig, pubKey.value) then
      Moved(r.(error := "counter-challenge verification failed"), Failed, now)
    else
      Moved(r.(sessionKey := key), Transferring, now)
  }

  function OnComplete(r: Record, verified: bool, now: int): Record {
    if verified then Moved(Moved(r, Completing, now), Done, now)
    else Moved(r.(error := "SHA-256 mismatch at receiver"), Failed, now)
  }

  function OnChunkAck(r: Record, lastSeq: UInt32, now: int): Record {
    r.(lastConfirmed := lastSeq, lastActive := now)
  }

  /** A resume request assigns the state directly, past the transition table. */
  function OnResume(r: Record, lastSeq: UInt32, now: int): Record {
    r.(lastConfirmed := lastSeq, state := Transferring, lastActive := now)
  }

  /** Cancelling a finished transfer changes nothing; in state Completing the request is
      refused by the table, and only the error text is left behind. */
  function OnCancel(r: Record, now: int): Record {
    if Terminal(r.state) then r else Moved(r.(error := "cancelled by user"), Cancelled, now)
  }

  predicate Overdue(r: Record, now: int) {
    !Terminal(r.state) && TimedOut(r, now)
  }

  function OnTick(r: Record, now: int): Record {
    if Overdue(r, now) then Moved(r.(error := "timed out"), Failed, now) else r
  }

  /** The effect of a tick on one transfer, and whether it was found overdue. */
  predicate Ticked(before: Record, after: Record, late: bool, now: int) {
    after == OnTick(before, now) && (late <==> Overdue(before, now))
  }

  /** The sender finishes as Done whichever comes first: its own Completing step after the FIN
      frame, or the receiver's verified TransferComplete. */
  lemma CompletionOrderIrrelevant(r: Record, t1: int, t2: int)
    requires r.state == Transferring
    ensures OnComplete(Moved(r, Completing, t1), true, t2).state == Done
    ensures Moved(OnComplete(r, true, t1), Completing, t2).state == Done
    ensures Moved(OnComplete(r, true, t1), Completing, t2) == OnComplete(r, true, t1)
  {
  }

  /** The record once the sender has been started, or could not be. */
  function OnStart(r: Record, channel: Channel, now: int): Record {
    match channel
    case Opened => r
    case NoTransport => Moved(r.(error := "no transport"), Failed, now)
    case NotCreated => Moved(r.(error := "create data channel"), Failed, now)
  }

  /** Every message but an offer, by one rule: the key to verify with is that of the message's
      source, and nothing compares the source with the peer of the record. */
  function Handled(r: Record, mail: Mail, pubKey: Option<string>, self: string, key: Option<Key>, now: int)
    : (Record, Option<Ready>)
  {
    match mail.body
    case MOffer(_) => (r, None)
    case MReject => (OnReject(r, "not trusted", now), None)
    case MAccept(accept) => OnAccept(r, accept, pubKey, self, key, now)
    case MReady(ready) => (OnReady(r, ready, pubKey, key, now), None)
    case MComplete(verified) => (OnComplete(r, verified, now), None)
    case MAck(lastSeq) => (OnChunkAck(r, lastSeq, now), None)
  }

  /** The one handler that bypasses the table: it agrees with a granted or idle request to enter
      Transferring from exactly two states, and from every other state, finished ones included,
      it moves the transfer where no transition leads. */
  lemma ResumeBypassesTable(r: Record, lastSeq: UInt32, now: int)
    ensures OnResume(r, lastSeq, now).state == Moved(r, Transferring, now).state <==> r.state in {Accepted, Transferring}
    ensures Terminal(r.state) ==> !Terminal(OnResume(r, lastSeq, now).state)
  {
  }

  // ---- The manager object ----------------------------------------------------------------

  class Manager {
    const selfKey: string
    const peerKeys: map<string, string>      // the public-key resolver
    var transfers: map<string, Transfer>
    var senders: set<string>
    var receivers: set<string>

    /** Every transfer is filed under its own ID, so different entries are different objects. */
    ghost predicate Valid()
      reads this
    {
      forall f :: f in transfers ==> transfers[f].fileId == f
    }

    /** The object of a transfer, as a frame: a handler that modifies no more than this leaves
        every other transfer as it was. */
    ghost function ObjectOf(fileId: string): set<Transfer>
      reads this
    {
      if fileId in transfers then {transfers[fileId]} else {}
    }

    function PeerKey(peer: string): Option<string> {
      if peer in peerKeys then Some(peerKeys[peer]) else None
    }

    constructor (selfKey: string, peerKeys: map<string, string>)
      ensures Valid() && transfers == map[] && senders == {} && receivers == {}
      ensures this.selfKey == selfKey && this.peerKeys == peerKeys
    {
      this.selfKey := selfKey;
      this.peerKeys := peerKeys;
      transfers, senders, receivers := map[], {}, {};
    }

    /** The record is dropped again when the offer cannot be sent. */
    method InitiateSend(fileId: string, peer: string, digest: Digest, challenge: string, sendOk: bool, now: int)
      returns (offer: Option<Offer>)
      requires Valid() && fileId !in transfers
      modifies this`transfers
      ensures Valid() && fresh(ObjectOf(fileId))
      ensures offer == if sendOk then Some(Offer(Some(digest), challenge)) else None
      ensures transfers - {fileId} == old(transfers) && (fileId in transfers <==> sendOk)
      ensures sendOk ==> transfers[fileId].Snapshot() == OfferedRecord(peer, offer.value, now)
    {
      var t := new Transfer(fileId, Direction.Send, peer, now);
      t.digest := Some(digest);
      t.challenge := challenge;
      var _ := t.Transition(Offered, now);
      transfers := transfers[fileId := t];
      if !sendOk {
        transfers := transfers - {fileId};
        return None;
      }
      return Some(Offer(Some(digest), challenge));
    }

    /** An untrusted peer is answered with a rejection and leaves no record. */
    method HandleFileOffer(fileId: string, source: string, offer: Offer, trusted: bool, counter: string, now: int)
      returns (accept: Option<Accept>)
      requires Valid()
      modifies this`transfers
      ensures Valid()
      ensures accept == if trusted then Some(Accept(Signature(selfKey, offer.challenge), counter)) else None
      ensures !trusted ==> transfers == old(transfers)
      ensures trusted ==> fileId in transfers && transfers - {fileId} == old(transfers) - {fileId}
      ensures trusted ==> fresh(transfers[fileId])
      ensures trusted ==> transfers[fileId].Snapshot() == AcceptedRecord(source, offer, counter, now)
    {
      if !trusted {
        return None;
      }
      var t := new Transfer(fileId, Recv, source, now);
      t.digest := offer.digest;
      t.challenge := offer.challenge;
      var _ := t.Transition(Offered, now);
      t.counterChallenge := counter;
      var _ := t.Transition(Accepted, now);
      transfers := transfers[fileId := t];
      return Some(Accept(Signature(selfKey, offer.challenge), counter));
    }

    /** sendOk and channel say whether the TransferReady and the data channel could be made. The
        signature is verified under the key of the source, which may differ from the peer. */
    method HandleFileAccept(fileId: string, source: string, accept: Accept, key: Option<Key>,
                            sendOk: bool, channel: Channel, now: int)
      returns (ready: Option<Ready>)
      requires Valid()
      modifies this`senders, ObjectOf(fileId)
      ensures fileId !in transfers ==> ready == None && senders == old(senders)
      ensures fileId in transfers ==>
                var (r, answer) := OnAccept(old(transfers[fileId].Snapshot()), accept, PeerKey(source), selfKey, key, now);
                && ready == (if sendOk then answer else None)
                && transfers[fileId].Snapshot() == (if ready.Some? then OnStart(r, channel, now) else r)
                && senders == old(senders) + if ready.Some? && channel.Opened? then {fileId} else {}
    {
      ready := None;
      if fileId !in transfers {
        return;
      }
      var t := transfers[fileId];
      var pub := PeerKey(source);
      if pub == None {
        return;
      }
      if !VerifyChallenge(t.challenge, accept.challengeSig, pub.value) {
        t.error := "challenge verification failed";
        var _ := t.Transition(Failed, now);
        return;
      }
      t.counterChallenge := accept.counterChallenge;
      var ok := t.Transition(Accepted, now);
      if !ok {
        return;
      }
      t.sessionKey := key;
      ok := t.Transition(Transferring, now);
      if !sendOk {
        return;
      }
      ready := Some(Ready(Signature(selfKey, accept.counterChallenge)));
      StartSender(fileId, channel, now);
    }

    /** Without a data channel the transfer fails at once. */
    method StartSender(fileId: string, channel: Channel, now: int)
      requires Valid() && fileId in transfers
      modifies this`senders, ObjectOf(fileId)
      ensures transfers[fileId].Snapshot() == OnStart(old(transfers[fileId].Snapshot()), channel, now)
      ensures senders == old(senders) + if channel.Opened? then {fileId} else {}
    {
      match channel
      case NoTransport =>
        transfers[fileId].error := "no transport";
        var _ := transfers[fileId].Transition(Failed, now);
      case NotCreated =>
        transfers[fileId].error := "create data channel";
        var _ := transfers[fileId].Transition(Failed, now);
      case Opened =>
        senders := senders + {fileId};
    }

    /** Here and in the handlers below the source of the message has no influence. */
    method HandleFileReject(fileId: string, source: string, reason: string, now: int)
      requires Valid()
      modifies ObjectOf(fileId)
      ensures fileId in transfers ==>
                transfers[fileId].Snapshot() == OnReject(old(transfers[fileId].Snapshot()), reason, now)
    {
      if fileId in transfers {
        var t := transfers[fileId];
        t.error := "rejected: " + reason;
        var _ := t.Transition(Failed, now);
      }
    }

    method HandleTransferReady(fileId: string, source: string, ready: Ready, key: Option<Key>, now: int)
      requires Valid()
      modifies ObjectOf(fileId)
      ensures fileId in transfers ==>
                transfers[fileId].Snapshot() == OnReady(old(transfers[fileId].Snapshot()), ready, PeerKey(source), key, now)
    {
      if fileId !in transfers {
        return;
      }
      var t := transfers[fileId];
      var pub := PeerKey(source);
      if pub == None {
        return;
      }
      if !VerifyChallenge(t.counterChallenge, ready.counterSig, pub.value) {
        t.error := "counter-challenge verification failed";
        var _ := t.Transition(Failed, now);
        return;
      }
      t.sessionKey := key;
      var _ := t.Transition(Transferring, now);
    }

    method HandleTransferComplete(fileId: string, source: string, verified: bool, now: int)
      requires Valid()
      modifies this`senders, ObjectOf(fileId)
      ensures fileId in transfers ==>
                transfers[fileId].Snapshot() == OnComplete(old(transfers[fileId].Snapshot()), verified, now)
      ensures senders == old(senders) - if fileId in transfers then {fileId} else {}
    {
      if fileId !in transfers {
        return;
      }
      var t := transfers[fileId];
      if verified {
        var _ := t.Transition(Completing, now);
        var _ := t.Transition(Done, now);
      } else {
        t.error := "SHA-256 mismatch at receiver";
        var _ := t.Transition(Failed, now);
      }
      senders := senders - {fileId};
    }

    method HandleChunkAck(fileId: string, source: string, lastSeq: UInt32, now: int)
      requires Valid()
      modifies ObjectOf(fileId)
      ensures fileId in transfers ==>
                transfers[fileId].Snapshot() == OnChunkAck(old(transfers[fileId].Snapshot()), lastSeq, now)
    {
      if fileId in transfers {
        transfers[fileId].lastConfirmed := lastSeq;
        transfers[fileId].lastActive := now;
      }
    }

    method HandleResumeRequest(fileId: string, source: string, lastSeq: UInt32, channel: Channel, now: int)
      requires Valid()
      modifies this`senders, ObjectOf(fileId)
      ensures fileId in transfers ==>
                transfers[fileId].Snapshot() == OnStart(OnResume(old(transfers[fileId].Snapshot()), lastSeq, now), channel, now)
      ensures senders == old(senders) + if fileId in transfers && channel.Opened? then {fileId} else {}
    {
      if fileId !in transfers {
        return;
      }
      transfers[fileId].lastConfirmed := lastSeq;
      transfers[fileId].state := Transferring;
      transfers[fileId].lastActive := now;
      StartSender(fileId, channel, now);
    }

    /** A channel is taken for a known incoming transfer in state Transferring, whoever opened it. */
    method HandleIncomingDataChannel(peer: string, fileId: string) returns (taken: bool)
      modifies this`receivers
      ensures taken <==> fileId in transfers && transfers[fileId].direction == Recv && transfers[fileId].state == Transferring
      ensures receivers == old(receivers) + if taken then {fileId} else {}
    {
      taken := fileId in transfers && transfers[fileId].direction == Recv && transfers[fileId].state == Transferring;
      if taken {
        receivers := receivers + {fileId};
      }
    }

    method Cancel(fileId: string, now: int) returns (known: bool)
      requires Valid()
      modifies this`senders, this`receivers, ObjectOf(fileId)
      ensures known == (fileId in transfers)
      ensures known ==> transfers[fileId].Snapshot() == OnCancel(old(transfers[fileId].Snapshot()), now)
      ensures known && old(transfers[fileId].state) in {Offered, Accepted, Transferring} ==>
                transfers[fileId].state == Cancelled && transfers[fileId].completedAt == Some(now)
      ensures known && old(transfers[fileId].state) !in {Offered, Accepted, Transferring} ==>
                transfers[fileId].state == old(transfers[fileId].state)
      ensures var stopped := if known && !Terminal(old(transfers[fileId].state)) then {fileId} else {};
              senders == old(senders) - stopped && receivers == old(receivers) - stopped
    {
      if fileId !in transfers {
        return false;
      }
      var t := transfers[fileId];
      if Terminal(t.state) {
        return true;
      }
      t.error := "cancelled by user";
      var _ := t.Transition(Cancelled, now);
      senders := senders - {fileId};
      receivers := receivers - {fileId};
      return true;
    }

    /** One tick of the timeout loop: every overdue transfer fails, and no other changes. */
    method TimeoutTick(now: int) returns (timedOut: set<string>)
      requires Valid()
      modifies this`senders, this`receivers, transfers.Values
      ensures forall f :: f in transfers ==>
                Ticked(old(transfers[f].Snapshot()), transfers[f].Snapshot(), f in timedOut, now)
      ensures senders == old(senders) - timedOut && receivers == old(receivers) - timedOut
    {
      timedOut := TickAll(transfers.Values, now);
    }

    /** The effect of a tick on the object. */
    twostate predicate TickedOver(t: Transfer, late: bool, now: int)
      reads t
    {
      Ticked(old(t.Snapshot()), t.Snapshot(), late, now)
    }

    method TickAll(objs: set<Transfer>, now: int) returns (timedOut: set<string>)
      requires forall t, t' :: t in objs && t' in objs && t != t' ==> t.fileId != t'.fileId
      modifies this`senders, this`receivers, objs
      ensures forall t :: t in objs ==> TickedOver(t, t.fileId in timedOut, now)
      ensures senders == old(senders) - timedOut && receivers == old(receivers) - timedOut
    {
      timedOut := {};
      var todo := objs;
      while todo != {}
        invariant todo <= objs
        invariant forall t: Transfer :: t in todo ==> unchanged(t) && t.fileId !in timedOut
        invariant forall t: Transfer :: t in objs && t !in todo ==> TickedOver(t, t.fileId in timedOut, now)
        invariant senders == old(senders) - timedOut
        invariant receivers == old(receivers) - timedOut
        decreases |todo|
      {
        var t :| t in todo;
        todo := todo - {t};
        var late := TickTransfer(t, now);
        timedOut := timedOut + IdIf(late, t);
      }
    }

    /** What a tick does to one transfer. */
    method TickTransfer(t: Transfer, now: int) returns (late: bool)
      modifies this`senders, this`receivers, t
      ensures TickedOver(t, late, now)
      ensures senders == old(senders) - IdIf(late, t) && receivers == old(receivers) - IdIf(late, t)
    {
      if Terminal(t.state) {
        return false;
      }
      late := t.IsTimedOut(now);
      if late {
        t.error := "timed out";
        var _ := t.Transition(Failed, now);
        senders := senders - {t.fileId};
        receivers := receivers - {t.fileId};
      }
    }
  }

  function IdIf(late: bool, t: Transfer): set<string> {
    if late then {t.fileId} else {}
  }
}
