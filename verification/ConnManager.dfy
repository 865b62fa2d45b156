/** Negotiating connections (conn/manager.go): offers, answers, the tie-break when both sides
    offer, the connection-state handler, and registration of peers. What the network, the WebRTC
    library, the gate and the session-key derivation decide enters as a flag of each operation;
    each operation is one step. */
module ConnManager {
  import opened Basics

  datatype Role = Offerer | Answerer

  /** Go's order of strings: lexicographic. */
  predicate Less(a: string, b: string) {
    if b == [] then false
    else if a == [] then true
    else a[0] < b[0] || (a[0] == b[0] && Less(a[1..], b[1..]))
  }

  /** Exactly one of two distinct IDs is the smaller, so that both sides break a tie alike. */
  lemma {:induction false} LessIsTotal(a: string, b: string)
    ensures Less(a, b) <==> !Less(b, a) && a != b
  {
    if a != [] && b != [] && a[0] == b[0] {
      LessIsTotal(a[1..], b[1..]);
      assert a == [a[0]] + a[1..] && b == [b[0]] + b[1..];
    }
  }

  // ---- One agent, as functions -----------------------------------------------------------

  /** The pending connections by peer, and the registered peers. */
  datatype View = View(pending: map<string, Role>, peers: set<string>)

  datatype IceState = Connected | Failed | Lost

  /** gate: the peer is admitted; transport: one could be created; sent: the offer or answer was
      made and sent; session: the key derivation, if any, succeeded; accepted: the answer could be
      applied. Lost stands for the disconnected and closed states. */
  datatype Event =
    | Connect(peer: string, gate: bool, transport: bool, sent: bool)
    | OfferIn(peer: string, gate: bool, transport: bool, sent: bool, session: bool)
    | AnswerIn(peer: string, accepted: bool)
    | SignalingError
    | Ice(peer: string, state: IceState)
    | GiveUp(peer: string)
    | ReceiveEnded(peer: string)

  function RoleOf(v: View, peer: string): Option<Role> {
    if peer in v.pending then Some(v.pending[peer]) else None
  }

  predicate StartsOffer(v: View, ev: Event) {
    ev.Connect? && ev.gate && ev.peer !in v.peers && ev.peer !in v.pending && ev.transport
  }

  predicate StartsAnswer(id: string, v: View, ev: Event) {
    ev.OfferIn? && ev.gate && ev.peer !in v.peers && ev.transport
    && !(RoleOf(v, ev.peer) == Some(Offerer) && Less(id, ev.peer))
  }

  function Next(id: string, v: View, ev: Event): View {
    match ev
    case Connect(peer, _, _, sent) =>
      if !StartsOffer(v, ev) then v
      else if sent then v.(pending := v.pending[peer := Offerer])
      else v
    case OfferIn(peer, _, _, sent, session) =>
      if !StartsAnswer(id, v, ev) then v
      else if sent && session then v.(pending := v.pending[peer := Answerer])
      else v.(pending := v.pending - {peer})
    case AnswerIn(peer, accepted) =>
      if RoleOf(v, peer) == Some(Offerer) && !accepted then v.(pending := v.pending - {peer}) else v
    case SignalingError => v.(pending := map p | p in v.pending && v.pending[p] != Offerer :: v.pending[p])
    case Ice(peer, state) =>
      if peer in v.pending then View(v.pending - {peer}, v.peers + if state == Connected then {peer} else {})
      else if state == Lost then v.(peers := v.peers - {peer})
      else v
    case GiveUp(peer) => v.(pending := v.pending - {peer})
    case ReceiveEnded(peer) => v.(peers := v.peers - {peer})
  }

  // ---- One agent, as an object -----------------------------------------------------------

  /** A negotiation in progress. ready is the channel Connect waits on, once closed; open is the
      transport's. */
  class PendingConn {
    const role: Role
    var err: Option<string>
    var ready: bool
    var open: bool

    constructor (role: Role)
      ensures this.role == role && err == None && !ready && open
    {
      this.role, err, ready, open := role, None, false, true;
    }

    predicate Rejected(message: string)
      reads this
    {
      err == Some(message) && ready && !open
    }

    method Reject(message: string)
      modifies this
      ensures Rejected(message)
    {
      err := Some(message);
      ready := true;
      open := false;
    }
  }

  function RolesOf(pending: map<string, PendingConn>): map<string, Role> {
    map p | p in pending :: pending[p].role
  }

  lemma RolesUpdate(pending: map<string, PendingConn>, peer: string, pc: PendingConn)
    ensures RolesOf(pending[peer := pc]) == RolesOf(pending)[peer := pc.role]
    ensures RolesOf(pending - {peer}) == RolesOf(pending) - {peer}
    ensures RolesOf(pending[peer := pc] - {peer}) == RolesOf(pending) - {peer}
  {
  }

  /** Fails every offer of the table and gives the rest. */
  method RejectOffers(pending: map<string, PendingConn>, message: string) returns (kept: map<string, PendingConn>)
    modifies set p | p in pending && pending[p].role == Offerer :: pending[p]
    ensures kept == map p | p in pending && pending[p].role != Offerer :: pending[p]
    ensures forall p :: p in pending && pending[p].role == Offerer ==> pending[p].Rejected(message)
  {
    kept := pending;
    var rest := pending.Keys;
    while rest != {}
      invariant rest <= pending.Keys
      invariant kept == map p | p in pending && (p in rest || pending[p].role != Offerer) :: pending[p]
      invariant forall p :: p in pending && p !in rest && pending[p].role == Offerer ==> pending[p].Rejected(message)
      decreases |rest|
    {
      var peer :| peer in rest;
      rest := rest - {peer};
      if pending[peer].role == Offerer {
        pending[peer].Reject(message);
        kept := kept - {peer};
      }
    }
  }

  class Manager {
    const agentID: string
    var pending: map<string, PendingConn>
    var peers: set<string>

    function Roles(): View
      reads this
    {
      View(RolesOf(pending), peers)
    }

    /** The pending connection to a peer, if any. */
    ghost function Conn(peer: string): set<PendingConn>
      reads this
    {
      if peer in pending then {pending[peer]} else {}
    }

    constructor (agentID: string)
      ensures this.agentID == agentID && Roles() == View(map[], {})
    {
      this.agentID, pending, peers := agentID, map[], {};
    }

    /** Up to where Connect waits: the result is the connection to wait for. */
    method StartConnect(peer: string, gate: bool, transport: bool, sent: bool)
      returns (offered: bool, wait: PendingConn?)
      modifies this
      ensures var ev := Connect(peer, gate, transport, sent);
              && Roles() == Next(agentID, old(Roles()), ev)
              && offered == (StartsOffer(old(Roles()), ev) && sent)
      ensures offered ==> wait != null && fresh(wait) && pending == old(pending)[peer := wait] && wait.open && !wait.ready
      ensures !offered ==> pending == old(pending)
      ensures gate && peer !in old(peers) && peer in old(pending) ==> wait == pending[peer]
    {
      if !gate {
        return false, null;
      }
      if peer in peers {
        return false, null;
      }
      if peer in pending {
        return false, pending[peer];
      }
      if !transport {
        return false, null;
      }
      var pc := new PendingConn(Offerer);
      pending := pending[peer := pc];
      if !sent {
        CleanupPending(peer);
        assert pending == old(pending);
        return false, null;
      }
      return true, pc;
    }

    method CleanupPending(peer: string)
      modifies `pending, Conn(peer)
      ensures pending == old(pending) - {peer}
      ensures peer in old(pending) ==> !old(pending)[peer].open
      ensures peer in old(pending) ==> old(pending)[peer].err == old(pending[peer].err)
      ensures peer in old(pending) ==> old(pending)[peer].ready == old(pending[peer].ready)
      ensures Roles() == Next(agentID, old(Roles()), GiveUp(peer))
    {
      if peer in pending {
        var pc := pending[peer];
        pending := pending - {peer};
        pc.open := false;
      } else {
        assert pending - {peer} == pending;
      }
    }

    /** The tie-break: null if our own offer stands, else the answering connection, which has
        replaced whatever was pending. */
    method BeginAnswer(peer: string) returns (pc: PendingConn?)
      modifies `pending, Conn(peer)
      ensures pc == null <==> RoleOf(old(Roles()), peer) == Some(Offerer) && Less(agentID, peer)
      ensures pc == null ==> pending == old(pending) && unchanged(Conn(peer))
      ensures pc != null ==> fresh(pc) && pc.role == Answerer && pc.open && pending == old(pending)[peer := pc]
      ensures pc != null && RoleOf(old(Roles()), peer) == Some(Offerer) ==> !old(pending)[peer].open
    {
      pc := new PendingConn(Answerer);
      if peer in pending && pending[peer].role == Offerer {
        if Less(agentID, peer) {
          pc.open := false;
          return null;
        }
        pending[peer].open := false;
        pending := pending - {peer};
      }
      pending := pending[peer := pc];
    }

    method HandleOffer(peer: string, gate: bool, transport: bool, sent: bool, session: bool) returns (answered: bool)
      modifies `pending, Conn(peer)
      ensures Roles() == Next(agentID, old(Roles()), OfferIn(peer, gate, transport, sent, session))
      ensures answered
          <==> StartsAnswer(agentID, old(Roles()), OfferIn(peer, gate, transport, sent, session)) && sent
      ensures pending - {peer} == old(pending) - {peer}
    {
      if !gate {
        return false;
      }
      if peer in peers {
        return false;
      }
      if !transport {
        return false;
      }
      var pc := BeginAnswer(peer);
      if pc == null {
        return false;
      }
      RolesUpdate(old(pending), peer, pc);
      if !sent {
        CleanupPending(peer);
        return false;
      }
      if !session {
        CleanupPending(peer);
      }
      return true;
    }

    method HandleAnswer(peer: string, problem: Option<string>) returns (matched: bool)
      modifies `pending, Conn(peer)
      ensures Roles() == Next(agentID, old(Roles()), AnswerIn(peer, problem.None?))
      ensures matched == (RoleOf(old(Roles()), peer) == Some(Offerer))
      ensures matched && problem.Some? ==> old(pending)[peer].err == problem && !old(pending)[peer].open
      ensures !(matched && problem.Some?) ==> pending == old(pending)
    {
      if peer !in pending || pending[peer].role != Offerer {
        return false;
      }
      if problem.Some? {
        pending[peer].err := problem;
        CleanupPending(peer);
      }
      return true;
    }

    /** Fails every pending offer; the negotiations that answer someone else's stay. */
    method HandleSignalingError(message: string)
      modifies this, set p | p in pending && pending[p].role == Offerer :: pending[p]
      ensures Roles() == Next(agentID, old(Roles()), SignalingError)
      ensures forall p :: p in old(pending) && old(pending)[p].role == Offerer ==> old(pending)[p].Rejected(message)
      ensures forall p :: p in pending ==> p in old(pending) && pending[p] == old(pending)[p]
    {
      pending := RejectOffers(pending, message);
    }

    /** The state handler of the connection pc, which need not be the one pending now. */
    method OnIceState(peer: string, pc: PendingConn, state: IceState)
      modifies this, pc
      ensures Roles() == Next(agentID, old(Roles()), Ice(peer, state))
      ensures pending == old(pending) - {peer}
      ensures peer in old(pending) ==> pc.ready && (state != Connected ==> pc.err.Some?)
      ensures peer !in old(pending) ==> pc.ready == old(pc.ready) && pc.err == old(pc.err)
      ensures pc.open == (old(pc.open) && state != Failed)
    {
      var stillPending := peer in pending;
      if stillPending {
        pending := pending - {peer};
      } else {
        assert pending - {peer} == pending;
      }
      match state
      case Connected =>
        if stillPending {
          peers := peers + {peer};
          pc.ready := true;
        }
      case Failed =>
        if stillPending {
          pc.err := Some("ICE connection failed");
          pc.ready := true;
        }
        pc.open := false;
      case Lost =>
        if stillPending {
          pc.err := Some("ICE connection lost");
          pc.ready := true;
        } else {
          peers := peers - {peer};
        }
    }
  }

  // ---- Every run of one agent: registration needs admission ------------------------------

  function After(id: string, evs: seq<Event>): View
    decreases |evs|
  {
    if evs == [] then View(map[], {}) else Next(id, After(id, evs[..|evs| - 1]), evs[|evs| - 1])
  }

  predicate Admission(ev: Event, peer: string) {
    (ev.Connect? || ev.OfferIn?) && ev.peer == peer && ev.gate
  }

  function Admissions(evs: seq<Event>, peer: string): nat
    decreases |evs|
  {
    if evs == [] then 0
    else Admissions(evs[..|evs| - 1], peer) + if Admission(evs[|evs| - 1], peer) then 1 else 0
  }

  predicate Registers(v: View, ev: Event, peer: string) {
    ev == Ice(peer, Connected) && peer in v.pending
  }

  function Registrations(id: string, evs: seq<Event>, peer: string): nat
    decreases |evs|
  {
    if evs == [] then 0
    else
      var n := |evs| - 1;
      Registrations(id, evs[..n], peer) + if Registers(After(id, evs[..n]), evs[n], peer) then 1 else 0
  }

  lemma StepSpendsAdmission(id: string, v: View, ev: Event, peer: string)
    ensures (if peer in Next(id, v, ev).pending then 1 else 0) + (if Registers(v, ev, peer) then 1 else 0)
         <= (if peer in v.pending then 1 else 0) + if Admission(ev, peer) then 1 else 0
    ensures peer in Next(id, v, ev).peers ==> peer in v.peers || Registers(v, ev, peer)
  {
  }

  lemma {:induction false} RegistrationsAreAdmitted(id: string, evs: seq<Event>, peer: string)
    ensures Registrations(id, evs, peer) + (if peer in After(id, evs).pending then 1 else 0) <= Admissions(evs, peer)
    ensures peer in After(id, evs).peers ==> Registrations(id, evs, peer) >= 1
    decreases |evs|
  {
    if evs != [] {
      var n := |evs| - 1;
      RegistrationsAreAdmitted(id, evs[..n], peer);
      StepSpendsAdmission(id, After(id, evs[..n]), evs[n], peer);
    }
  }

  lemma {:induction false} AdmissionExists(evs: seq<Event>, peer: string) returns (i: nat)
    requires Admissions(evs, peer) > 0
    ensures i < |evs| && Admission(evs[i], peer)
    decreases |evs|
  {
    var n := |evs| - 1;
    if Admission(evs[n], peer) {
      i := n;
    } else {
      i := AdmissionExists(evs[..n], peer);
    }
  }

  /** In every run, with any failures, callbacks of discarded transports, timeouts and errors, a
      registered peer was admitted by the gate before, and was registered no more often than it
      was admitted. */
  lemma RegisteredWasAdmitted(id: string, evs: seq<Event>, peer: string) returns (i: nat)
    requires peer in After(id, evs).peers
    ensures i < |evs| && Admission(evs[i], peer)
    ensures Registrations(id, evs, peer) <= Admissions(evs, peer)
  {
    RegistrationsAreAdmitted(id, evs, peer);
    i := AdmissionExists(evs, peer);
  }
}
