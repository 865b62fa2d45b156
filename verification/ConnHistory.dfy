/** Who is registered and who is pending after a run, told by its events (conn/manager.go). */
module ConnHistory {
  import opened Basics
  import opened ConnManager

  /** The agent before the i-th event. */
  function Before(id: string, evs: seq<Event>, i: nat): View
    requires i <= |evs|
  {
    After(id, evs[..i])
  }

  lemma BeforeLast(id: string, evs: seq<Event>, i: nat)
    requires i < |evs|
    ensures Before(id, evs[..|evs| - 1], i) == Before(id, evs, i)
  {
    assert evs[..|evs| - 1][..i] == evs[..i];
  }

  // ---- Registered peers ------------------------------------------------------------------

  /** The i-th event reports the connection to a pending peer. */
  predicate Registering(id: string, evs: seq<Event>, peer: string, i: nat) {
    i < |evs| && evs[i] == Ice(peer, Connected) && peer in Before(id, evs, i).pending
  }

  /** The i-th event is the end of the receive loop, or the loss of a connection that is not pending. */
  predicate Leaving(id: string, evs: seq<Event>, peer: string, i: nat) {
    && i < |evs|
    && (evs[i] == ReceiveEnded(peer) || (evs[i] == Ice(peer, Lost) && peer !in Before(id, evs, i).pending))
  }

  predicate RegisteredSince(id: string, evs: seq<Event>, peer: string, i: nat) {
    Registering(id, evs, peer, i) && forall j :: i < j < |evs| ==> !Leaving(id, evs, peer, j)
  }

  lemma RegisteredSinceLast(id: string, evs: seq<Event>, peer: string, i: nat)
    requires evs != [] && i < |evs| - 1
    ensures RegisteredSince(id, evs, peer, i)
       <==> RegisteredSince(id, evs[..|evs| - 1], peer, i) && !Leaving(id, evs, peer, |evs| - 1)
  {
    var n := |evs| - 1;
    BeforeLast(id, evs, i);
    forall j | i < j < n ensures Leaving(id, evs, peer, j) <==> Leaving(id, evs[..n], peer, j) {
      BeforeLast(id, evs, j);
    }
  }

  /** In every run a peer is registered if and only if some event reported its connection while it was
      pending, and since then its receive loop has not ended and no connection to it was lost while
      none was pending. */
  lemma {:induction false} RegisteredExactly(id: string, evs: seq<Event>, peer: string)
    ensures peer in After(id, evs).peers <==> exists i :: RegisteredSince(id, evs, peer, i)
    decreases |evs|
  {
    if evs != [] {
      var n := |evs| - 1;
      RegisteredExactly(id, evs[..n], peer);
      forall i | 0 <= i < n
        ensures RegisteredSince(id, evs, peer, i)
           <==> RegisteredSince(id, evs[..n], peer, i) && !Leaving(id, evs, peer, n)
      {
        RegisteredSinceLast(id, evs, peer, i);
      }
      if peer in After(id, evs).peers && !Registering(id, evs, peer, n) {
        var i :| RegisteredSince(id, evs[..n], peer, i);
        assert RegisteredSince(id, evs, peer, i);
      }
      if Registering(id, evs, peer, n) {
        assert RegisteredSince(id, evs, peer, n);
      }
    }
  }

  // ---- Pending connections ---------------------------------------------------------------

  /** The i-th event starts an offer to the peer, or an answer to its offer, that is sent. */
  predicate Starting(id: string, evs: seq<Event>, peer: string, role: Role, i: nat) {
    && i < |evs| && peer !in Before(id, evs, i).peers
    && match role
       case Offerer => evs[i] == Connect(peer, true, true, true) && peer !in Before(id, evs, i).pending
       case Answerer => evs[i] == OfferIn(peer, true, true, true, true) && !Standing(id, Before(id, evs, i), peer)
  }

  /** The agent has offered itself and wins the tie. */
  predicate Standing(id: string, v: View, peer: string) {
    peer in v.pending && v.pending[peer] == Offerer && Less(id, peer)
  }

  /** The i-th event ends what is pending with the peer: a report on the connection, a timeout, an offer
      of the peer that is taken up; and for an offer of ours also a signalling error or an answer that
      cannot be applied. */
  predicate Ending(id: string, evs: seq<Event>, peer: string, role: Role, i: nat) {
    && i < |evs|
    && match evs[i]
       case Ice(p, _) => p == peer
       case GiveUp(p) => p == peer
       case OfferIn(p, gate, transport, _, _) =>
         p == peer && gate && transport && peer !in Before(id, evs, i).peers && !Standing(id, Before(id, evs, i), peer)
       case SignalingError => role == Offerer
       case AnswerIn(p, accepted) => p == peer && role == Offerer && !accepted
       case _ => false
  }

  predicate PendingSince(id: string, evs: seq<Event>, peer: string, role: Role, i: nat) {
    Starting(id, evs, peer, role, i) && forall j :: i < j < |evs| ==> !Ending(id, evs, peer, role, j)
  }

  lemma PendingSinceLast(id: string, evs: seq<Event>, peer: string, role: Role, i: nat)
    requires evs != [] && i < |evs| - 1
    ensures PendingSince(id, evs, peer, role, i)
       <==> PendingSince(id, evs[..|evs| - 1], peer, role, i) && !Ending(id, evs, peer, role, |evs| - 1)
  {
    var n := |evs| - 1;
    BeforeLast(id, evs, i);
    forall j | i < j < n ensures Ending(id, evs, peer, role, j) <==> Ending(id, evs[..n], peer, role, j) {
      BeforeLast(id, evs, j);
    }
  }

  /** One event: what is pending afterwards was started by it, or was pending and has not been ended. */
  lemma PendingStep(id: string, evs: seq<Event>, peer: string, role: Role)
    requires evs != []
    ensures var n := |evs| - 1;
            RoleOf(After(id, evs), peer) == Some(role)
            <==> Starting(id, evs, peer, role, n)
                 || (RoleOf(Before(id, evs, n), peer) == Some(role) && !Ending(id, evs, peer, role, n))
  {
  }

  /** In every run a connection is pending, in a role, if and only if some event started it in that role
      and none has ended it since. */
  lemma {:induction false} PendingExactly(id: string, evs: seq<Event>, peer: string, role: Role)
    ensures RoleOf(After(id, evs), peer) == Some(role) <==> exists i :: PendingSince(id, evs, peer, role, i)
    decreases |evs|
  {
    if evs != [] {
      var n := |evs| - 1;
      PendingExactly(id, evs[..n], peer, role);
      PendingStep(id, evs, peer, role);
      forall i | 0 <= i < n
        ensures PendingSince(id, evs, peer, role, i)
           <==> PendingSince(id, evs[..n], peer, role, i) && !Ending(id, evs, peer, role, n)
      {
        PendingSinceLast(id, evs, peer, role, i);
      }
      if Starting(id, evs, peer, role, n) {
        assert PendingSince(id, evs, peer, role, n);
      } else if RoleOf(After(id, evs), peer) == Some(role) {
        var i :| PendingSince(id, evs[..n], peer, role, i);
        assert PendingSince(id, evs, peer, role, i);
      }
    }
  }
}
