/** Any number of agents that connect to each other (conn/manager.go): every offer and answer is
    delivered at most once, in any order; gates admit, sends succeed, and no connection-state
    callback occurs. Two agents may offer to each other at once. The first theorems are about
    runs without timeouts; the last says exactly what a timeout can break. */
module Glare {
  import opened Basics
  import C = ConnManager

  datatype Kind = Offer | Answer

  datatype Message = Message(kind: Kind, source: string, target: string)

  /** sent keeps every message ever sent; net those not delivered. */
  datatype World = World(views: map<string, C.View>, net: multiset<Message>, sent: multiset<Message>)

  /** GiveUp: the wait of a Connect ends, and the pending connection is dropped. */
  datatype Action = Connect(at: string, peer: string) | Deliver(message: Message) | GiveUp(at: string, peer: string)

  const EMPTY := World(map[], multiset{}, multiset{})

  function At(w: World, id: string): C.View {
    if id in w.views then w.views[id] else C.View(map[], {})
  }

  function Posted(w: World, id: string, view: C.View, m: Message, send: bool): World {
    var more := if send then multiset{m} else multiset{};
    World(w.views[id := view], w.net + more, w.sent + more)
  }

  predicate Enabled(w: World, act: Action) {
    act.Deliver? ==> act.message in w.net
  }

  function Next(w: World, act: Action): World {
    match act
    case Connect(at, peer) =>
      var ev := C.Connect(peer, true, true, true);
      Posted(w, at, C.Next(at, At(w, at), ev), Message(Offer, at, peer), C.StartsOffer(At(w, at), ev))
    case Deliver(m) =>
      var rest := w.(net := w.net - multiset{m});
      var v := At(w, m.target);
      if m.kind == Offer then
        var ev := C.OfferIn(m.source, true, true, true, true);
        Posted(rest, m.target, C.Next(m.target, v, ev), Message(Answer, m.target, m.source),
               C.StartsAnswer(m.target, v, ev))
      else
        Posted(rest, m.target, C.Next(m.target, v, C.AnswerIn(m.source, true)), m, false)
    case GiveUp(at, peer) => w.(views := w.views[at := C.Next(at, At(w, at), C.GiveUp(peer))])
  }

  function Run(w: World, acts: seq<Action>): World
    decreases |acts|
  {
    if acts == [] then w else Run(Next(w, acts[0]), acts[1..])
  }

  predicate EnabledRun(w: World, acts: seq<Action>)
    decreases |acts|
  {
    acts == [] || (Enabled(w, acts[0]) && EnabledRun(Next(w, acts[0]), acts[1..]))
  }

  /** No peer is registered, as registration needs a connection-state callback. */
  ghost predicate Unregistered(w: World) {
    forall id :: At(w, id).peers == {}
  }

  lemma NobodyRegisters(id: string, v: C.View, ev: C.Event)
    requires v.peers == {} && !ev.Ice?
    ensures C.Next(id, v, ev).peers == {}
  {
  }

  function EventOf(act: Action): C.Event {
    match act
    case Connect(_, peer) => C.Connect(peer, true, true, true)
    case Deliver(m) => if m.kind == Offer then C.OfferIn(m.source, true, true, true, true) else C.AnswerIn(m.source, true)
    case GiveUp(_, peer) => C.GiveUp(peer)
  }

  lemma StepUnregistered(w: World, act: Action)
    requires Unregistered(w)
    ensures Unregistered(Next(w, act))
  {
    forall id
      ensures At(Next(w, act), id).peers == {}
    {
      assert At(w, id).peers == {};
      var actor := if act.Deliver? then act.message.target else act.at;
      assert At(w, actor).peers == {};
      NobodyRegisters(actor, At(w, actor), EventOf(act));
    }
  }

  // ---- What two agents see of each other -------------------------------------------------

  /** One side: its role for the other, and its offers and answers to the other in flight and
      ever sent. */
  datatype Side = Side(role: Option<C.Role>, offers: nat, offered: nat, answers: nat, answered: nat)

  function SideOf(w: World, x: string, y: string): Side {
    Side(C.RoleOf(At(w, x), y),
         w.net[Message(Offer, x, y)], w.sent[Message(Offer, x, y)],
         w.net[Message(Answer, x, y)], w.sent[Message(Answer, x, y)])
  }

  function Connecting(s: Side): Side {
    if s.role.None? then s.(role := Some(C.Offerer), offers := s.offers + 1, offered := s.offered + 1) else s
  }

  /** The side's part in taking an offer. */
  function Answering(s: Side, keep: bool): Side {
    if s.role == Some(C.Offerer) && keep then s
    else s.(role := Some(C.Answerer), answers := s.answers + 1, answered := s.answered + 1)
  }

  lemma ConnectSides(w: World, x: string, y: string)
    requires Unregistered(w) && x != y
    ensures SideOf(Next(w, Connect(x, y)), x, y) == Connecting(SideOf(w, x, y))
    ensures SideOf(Next(w, Connect(x, y)), y, x) == SideOf(w, y, x)
  {
    assert At(w, x).peers == {};
  }

  lemma PostedElsewhere(w: World, id: string, view: C.View, m: Message, send: bool, x: string, y: string)
    requires id == x ==> C.RoleOf(view, y) == C.RoleOf(At(w, x), y)
    requires send ==> !(m.source == x && m.target == y)
    ensures SideOf(Posted(w, id, view, m, send), x, y) == SideOf(w, x, y)
  {
  }

  lemma TakenElsewhere(w: World, m: Message, x: string, y: string)
    requires !(m.source == x && m.target == y)
    ensures SideOf(w.(net := w.net - multiset{m}), x, y) == SideOf(w, x, y)
  {
  }

  lemma PostedAnswer(w: World, x: string, view: C.View, y: string, send: bool)
    ensures var s, t := SideOf(w, x, y), SideOf(Posted(w, x, view, Message(Answer, x, y), send), x, y);
            && t.role == C.RoleOf(view, y) && t.offers == s.offers && t.offered == s.offered
            && t.answers == s.answers + (if send then 1 else 0) && t.answered == s.answered + if send then 1 else 0
  {
  }

  lemma OfferAtReceiver(w: World, x: string, y: string)
    requires Unregistered(w) && x != y && Message(Offer, y, x) in w.net
    ensures SideOf(Next(w, Deliver(Message(Offer, y, x))), x, y) == Answering(SideOf(w, x, y), C.Less(x, y))
  {
    var m := Message(Offer, y, x);
    var v, ev := At(w, x), C.OfferIn(y, true, true, true, true);
    assert v.peers == {};
    TakenElsewhere(w, m, x, y);
    PostedAnswer(w.(net := w.net - multiset{m}), x, C.Next(x, v, ev), y, C.StartsAnswer(x, v, ev));
  }

  lemma OfferAtSender(w: World, x: string, y: string)
    requires Unregistered(w) && x != y && Message(Offer, y, x) in w.net
    ensures SideOf(Next(w, Deliver(Message(Offer, y, x))), y, x)
         == SideOf(w, y, x).(offers := SideOf(w, y, x).offers - 1)
  {
    var m := Message(Offer, y, x);
    var rest := w.(net := w.net - multiset{m});
    var v, ev := At(w, x), C.OfferIn(y, true, true, true, true);
    PostedElsewhere(rest, x, C.Next(x, v, ev), Message(Answer, x, y), C.StartsAnswer(x, v, ev), y, x);
    assert SideOf(rest, y, x) == SideOf(w, y, x).(offers := SideOf(w, y, x).offers - 1);
  }

  lemma OfferSides(w: World, x: string, y: string)
    requires Unregistered(w) && x != y && Message(Offer, y, x) in w.net
    ensures SideOf(Next(w, Deliver(Message(Offer, y, x))), x, y) == Answering(SideOf(w, x, y), C.Less(x, y))
    ensures SideOf(Next(w, Deliver(Message(Offer, y, x))), y, x)
         == SideOf(w, y, x).(offers := SideOf(w, y, x).offers - 1)
  {
    OfferAtReceiver(w, x, y);
    OfferAtSender(w, x, y);
  }

  lemma AnswerSides(w: World, x: string, y: string)
    requires x != y && Message(Answer, y, x) in w.net
    ensures SideOf(Next(w, Deliver(Message(Answer, y, x))), x, y) == SideOf(w, x, y)
    ensures SideOf(Next(w, Deliver(Message(Answer, y, x))), y, x)
         == SideOf(w, y, x).(answers := SideOf(w, y, x).answers - 1)
  {
  }

  /** Whether an action is one of x towards y, or a message of y that reaches x. */
  predicate Between(act: Action, x: string, y: string) {
    match act
    case Connect(at, peer) => at == x && peer == y
    case Deliver(m) => m.target == x && m.source == y
    case GiveUp(at, peer) => at == x && peer == y
  }

  /** Handling one peer leaves the roles for the others. */
  lemma OtherPeers(id: string, v: C.View, ev: C.Event, y: string)
    requires (ev.Connect? || ev.OfferIn? || ev.AnswerIn? || ev.GiveUp?) && ev.peer != y
    ensures C.RoleOf(C.Next(id, v, ev), y) == C.RoleOf(v, y)
  {
  }

  lemma ElsewhereSides(w: World, act: Action, x: string, y: string)
    requires Enabled(w, act) && !Between(act, x, y) && !Between(act, y, x)
    ensures SideOf(Next(w, act), x, y) == SideOf(w, x, y)
  {
    match act
    case Connect(at, peer) =>
      var ev := C.Connect(peer, true, true, true);
      if at == x {
        OtherPeers(at, At(w, at), ev, y);
      }
      PostedElsewhere(w, at, C.Next(at, At(w, at), ev), Message(Offer, at, peer), C.StartsOffer(At(w, at), ev), x, y);
    case Deliver(m) =>
      var rest := w.(net := w.net - multiset{m});
      var v := At(w, m.target);
      TakenElsewhere(w, m, x, y);
      var ev := if m.kind == Offer then C.OfferIn(m.source, true, true, true, true) else C.AnswerIn(m.source, true);
      if m.target == x {
        OtherPeers(m.target, v, ev, y);
      }
      if m.kind == Offer {
        PostedElsewhere(rest, m.target, C.Next(m.target, v, ev), Message(Answer, m.target, m.source),
                        C.StartsAnswer(m.target, v, ev), x, y);
      } else {
        PostedElsewhere(rest, m.target, C.Next(m.target, v, ev), m, false, x, y);
      }
    case GiveUp(at, peer) =>
      if at == x {
        OtherPeers(at, At(w, at), C.GiveUp(peer), y);
      }
  }

  // ---- The invariant of a pair -----------------------------------------------------------

  lemma RoleCases(s: Side)
    ensures s.role == None || s.role == Some(C.Offerer) || s.role == Some(C.Answerer)
  {
    match s.role
    case None =>
    case Some(r) => assert r == C.Offerer || r == C.Answerer;
  }

  predicate Settled(s: Side, t: Side) {
    s.role == Some(C.Answerer) ==> t.role == Some(C.Offerer) && t.offers == 0 && t.offered == 1
  }

  predicate Counted(s: Side) {
    && s.offers <= s.offered <= 1
    && (s.role == Some(C.Offerer) ==> s.offered == 1)
    && (s.offered == 1 ==> s.role.Some?)
    && s.answers <= s.answered && s.answered == if s.role == Some(C.Answerer) then 1 else 0
  }

  /** small is the side of the agent with the smaller ID. */
  predicate PairInv(small: Side, large: Side) {
    && Counted(small) && Counted(large) && Settled(small, large) && Settled(large, small)
    && (small.offered == 1 ==> small.role == Some(C.Offerer))
    && (small.offered == 1 && small.offers == 0 ==> large.role == Some(C.Answerer))
    && (large.offered == 1 && large.offers == 0 ==> small.role.Some?)
  }

  ghost predicate Inv(w: World) {
    Unregistered(w) && forall x, y :: C.Less(x, y) ==> PairInv(SideOf(w, x, y), SideOf(w, y, x))
  }

  lemma ConnectKeepsPair(small: Side, large: Side)
    requires PairInv(small, large)
    ensures PairInv(Connecting(small), large) && PairInv(small, Connecting(large))
  {
  }

  lemma OfferKeepsPair(small: Side, large: Side)
    requires PairInv(small, large)
    ensures large.offers > 0 ==> PairInv(Answering(small, true), large.(offers := large.offers - 1))
    ensures small.offers > 0 ==> PairInv(small.(offers := small.offers - 1), Answering(large, false))
  {
    RoleCases(small);
    RoleCases(large);
  }

  lemma PairStep(w: World, act: Action, x: string, y: string)
    requires Inv(w) && Enabled(w, act) && !act.GiveUp? && C.Less(x, y)
    ensures PairInv(SideOf(Next(w, act), x, y), SideOf(Next(w, act), y, x))
  {
    C.LessIsTotal(x, y);
    var small, large := SideOf(w, x, y), SideOf(w, y, x);
    assert PairInv(small, large);
    if act == Connect(x, y) {
      ConnectSides(w, x, y);
      ConnectKeepsPair(small, large);
    } else if act == Connect(y, x) {
      ConnectSides(w, y, x);
      ConnectKeepsPair(small, large);
    } else if act == Deliver(Message(Offer, y, x)) {
      OfferSides(w, x, y);
      OfferKeepsPair(small, large);
    } else if act == Deliver(Message(Offer, x, y)) {
      OfferSides(w, y, x);
      OfferKeepsPair(small, large);
    } else if act == Deliver(Message(Answer, y, x)) {
      AnswerSides(w, x, y);
    } else if act == Deliver(Message(Answer, x, y)) {
      AnswerSides(w, y, x);
    } else {
      if Between(act, x, y) {
        BetweenCases(act, x, y);
      }
      if Between(act, y, x) {
        BetweenCases(act, y, x);
      }
      ElsewhereSides(w, act, x, y);
      ElsewhereSides(w, act, y, x);
    }
  }

  lemma BetweenCases(act: Action, x: string, y: string)
    requires Between(act, x, y)
    ensures act in {Connect(x, y), Deliver(Message(Offer, y, x)), Deliver(Message(Answer, y, x)), GiveUp(x, y)}
  {
    if act.Deliver? {
      var m := act.message;
      assert m == Message(m.kind, y, x) && (m.kind == Offer || m.kind == Answer);
    }
  }

  ghost predicate NoTimeouts(acts: seq<Action>) {
    forall i :: 0 <= i < |acts| ==> !acts[i].GiveUp?
  }

  lemma {:induction false} RunKeepsInv(w: World, acts: seq<Action>)
    requires Inv(w) && EnabledRun(w, acts) && NoTimeouts(acts)
    ensures Inv(Run(w, acts))
    decreases |acts|
  {
    if acts != [] {
      StepUnregistered(w, acts[0]);
      forall x, y | C.Less(x, y)
        ensures PairInv(SideOf(Next(w, acts[0]), x, y), SideOf(Next(w, acts[0]), y, x))
      {
        PairStep(w, acts[0], x, y);
      }
      RunKeepsInv(Next(w, acts[0]), acts[1..]);
    }
  }

  lemma PairOfRun(acts: seq<Action>, x: string, y: string)
    requires EnabledRun(EMPTY, acts) && NoTimeouts(acts) && C.Less(x, y)
    ensures PairInv(SideOf(Run(EMPTY, acts), x, y), SideOf(Run(EMPTY, acts), y, x))
  {
    RunKeepsInv(EMPTY, acts);
  }

  // ---- Theorems --------------------------------------------------------------------------

  function RoleAt(w: World, x: string, y: string): Option<C.Role> {
    C.RoleOf(At(w, x), y)
  }

  /** No message of the kind is under way between the two. */
  predicate Quiet(w: World, kind: Kind, x: string, y: string) {
    Message(kind, x, y) !in w.net && Message(kind, y, x) !in w.net
  }

  /** In every run without timeouts two agents are never both answerers; and once the offers between them are
      delivered they are not both offerers either: one offers and one answers, unless neither has
      offered. */
  lemma RolesAreComplementary(acts: seq<Action>, x: string, y: string)
    requires EnabledRun(EMPTY, acts) && NoTimeouts(acts) && x != y
    ensures var w := Run(EMPTY, acts);
            !(RoleAt(w, x, y) == Some(C.Answerer) && RoleAt(w, y, x) == Some(C.Answerer))
    ensures var w := Run(EMPTY, acts);
            Quiet(w, Offer, x, y) ==>
              || (RoleAt(w, x, y) == Some(C.Offerer) && RoleAt(w, y, x) == Some(C.Answerer))
              || (RoleAt(w, x, y) == Some(C.Answerer) && RoleAt(w, y, x) == Some(C.Offerer))
              || (RoleAt(w, x, y) == None && RoleAt(w, y, x) == None
                  && Message(Offer, x, y) !in w.sent && Message(Offer, y, x) !in w.sent)
  {
    C.LessIsTotal(x, y);
    RoleCases(SideOf(Run(EMPTY, acts), x, y));
    RoleCases(SideOf(Run(EMPTY, acts), y, x));
    if C.Less(x, y) {
      PairOfRun(acts, x, y);
    } else {
      PairOfRun(acts, y, x);
    }
  }

  /** If both offered, the agent with the smaller ID is the offerer from then on, and the other
      answers once the smaller one's offer has arrived. */
  lemma SmallerOffers(acts: seq<Action>, x: string, y: string)
    requires EnabledRun(EMPTY, acts) && NoTimeouts(acts) && C.Less(x, y)
    requires Message(Offer, x, y) in Run(EMPTY, acts).sent && Message(Offer, y, x) in Run(EMPTY, acts).sent
    ensures RoleAt(Run(EMPTY, acts), x, y) == Some(C.Offerer)
    ensures RoleAt(Run(EMPTY, acts), y, x) == Some(C.Answerer) <==> Message(Offer, x, y) !in Run(EMPTY, acts).net
  {
    PairOfRun(acts, x, y);
  }

  /** An agent offers at most once to another, and every answer under way will find its receiver
      offering. */
  lemma AnswersFindOfferers(acts: seq<Action>, x: string, y: string)
    requires EnabledRun(EMPTY, acts) && NoTimeouts(acts) && x != y
    ensures Run(EMPTY, acts).sent[Message(Offer, x, y)] <= 1
    ensures Message(Answer, x, y) in Run(EMPTY, acts).net ==> RoleAt(Run(EMPTY, acts), y, x) == Some(C.Offerer)
  {
    C.LessIsTotal(x, y);
    RoleCases(SideOf(Run(EMPTY, acts), x, y));
    RoleCases(SideOf(Run(EMPTY, acts), y, x));
    if C.Less(x, y) {
      PairOfRun(acts, x, y);
    } else {
      PairOfRun(acts, y, x);
    }
  }

  /** When nothing is under way between two agents of which one has offered, exactly one answer
      has passed between them, from the answerer to the offerer. */
  lemma HandshakeCompletes(acts: seq<Action>, x: string, y: string)
    requires EnabledRun(EMPTY, acts) && NoTimeouts(acts) && x != y
    requires Quiet(Run(EMPTY, acts), Offer, x, y) && Quiet(Run(EMPTY, acts), Answer, x, y)
    requires Message(Offer, x, y) in Run(EMPTY, acts).sent
    ensures var w := Run(EMPTY, acts);
            && w.sent[Message(Answer, x, y)] + w.sent[Message(Answer, y, x)] == 1
            && (Message(Answer, y, x) in w.sent <==> RoleAt(w, x, y) == Some(C.Offerer))
            && (Message(Answer, x, y) in w.sent <==> RoleAt(w, y, x) == Some(C.Offerer))
  {
    C.LessIsTotal(x, y);
    RoleCases(SideOf(Run(EMPTY, acts), x, y));
    RoleCases(SideOf(Run(EMPTY, acts), y, x));
    if C.Less(x, y) {
      PairOfRun(acts, x, y);
    } else {
      PairOfRun(acts, y, x);
    }
  }

  // ---- Timeouts ---------------------------------------------------------------------------

  /** The agents may give up on each other, but the one with the smaller ID only if allowed. */
  ghost predicate Gives(acts: seq<Action>, x: string, y: string, allowed: bool) {
    forall i :: 0 <= i < |acts| && acts[i] == GiveUp(x, y) ==> allowed
  }

  /** An offer of the smaller ID that is under way, or has been answered, means that it still
      offers. */
  predicate Firm(small: Side, large: Side) {
    small.offers > 0 || large.role == Some(C.Answerer) ==> small.role == Some(C.Offerer)
  }

  lemma GiveUpSides(w: World, x: string, y: string)
    requires x != y
    ensures SideOf(Next(w, GiveUp(x, y)), x, y) == SideOf(w, x, y).(role := None)
    ensures SideOf(Next(w, GiveUp(x, y)), y, x) == SideOf(w, y, x)
  {
  }

  lemma StepStaysFirm(w: World, act: Action, x: string, y: string)
    requires Unregistered(w) && Enabled(w, act) && C.Less(x, y) && act != GiveUp(x, y)
    requires Firm(SideOf(w, x, y), SideOf(w, y, x))
    ensures Firm(SideOf(Next(w, act), x, y), SideOf(Next(w, act), y, x))
  {
    C.LessIsTotal(x, y);
    if Between(act, x, y) {
      BetweenCases(act, x, y);
      match act {
        case Connect(_, _) => ConnectSides(w, x, y);
        case Deliver(m) =>
          if m.kind == Offer { OfferSides(w, x, y); } else { AnswerSides(w, x, y); }
        case GiveUp(_, _) =>
      }
    } else if Between(act, y, x) {
      BetweenCases(act, y, x);
      match act {
        case Connect(_, _) => ConnectSides(w, y, x);
        case Deliver(m) =>
          if m.kind == Offer { OfferSides(w, y, x); } else { AnswerSides(w, y, x); }
        case GiveUp(_, _) => GiveUpSides(w, y, x);
      }
    } else {
      ElsewhereSides(w, act, x, y);
      ElsewhereSides(w, act, y, x);
    }
  }

  lemma {:induction false} RunStaysFirm(w: World, acts: seq<Action>, x: string, y: string)
    requires Unregistered(w) && EnabledRun(w, acts) && C.Less(x, y) && Gives(acts, x, y, false)
    requires Firm(SideOf(w, x, y), SideOf(w, y, x))
    ensures Firm(SideOf(Run(w, acts), x, y), SideOf(Run(w, acts), y, x))
    decreases |acts|
  {
    if acts != [] {
      assert acts[0] != GiveUp(x, y);
      StepUnregistered(w, acts[0]);
      StepStaysFirm(w, acts[0], x, y);
      assert Gives(acts[1..], x, y, false);
      RunStaysFirm(Next(w, acts[0]), acts[1..], x, y);
    }
  }

  ghost predicate BothAnswer(acts: seq<Action>, x: string, y: string) {
    RoleAt(Run(EMPTY, acts), x, y) == Some(C.Answerer) && RoleAt(Run(EMPTY, acts), y, x) == Some(C.Answerer)
  }

  /** Both connect, the smaller ID gives up, and both offers arrive. */
  function Clash(x: string, y: string): seq<Action> {
    [Connect(x, y), Connect(y, x), GiveUp(x, y), Deliver(Message(Offer, x, y)), Deliver(Message(Offer, y, x))]
  }

  lemma RunOn(w: World, act: Action, rest: seq<Action>)
    ensures Run(w, [act] + rest) == Run(Next(w, act), rest)
    ensures EnabledRun(w, [act] + rest) <==> Enabled(w, act) && EnabledRun(Next(w, act), rest)
  {
    assert ([act] + rest)[1..] == rest;
  }

  /** The smaller ID has given up; both offers are under way. */
  predicate Crossed(small: Side, large: Side) {
    small.role == None && large.role == Some(C.Offerer) && small.offers > 0 && large.offers > 0
  }

  lemma ClashCrosses(x: string, y: string)
    requires C.Less(x, y)
    ensures var w := Next(Next(Next(EMPTY, Connect(x, y)), Connect(y, x)), GiveUp(x, y));
            Unregistered(w) && Crossed(SideOf(w, x, y), SideOf(w, y, x))
  {
    C.LessIsTotal(x, y);
    var w1 := Next(EMPTY, Connect(x, y));
    var w2 := Next(w1, Connect(y, x));
    ConnectSides(EMPTY, x, y);
    StepUnregistered(EMPTY, Connect(x, y));
    ConnectSides(w1, y, x);
    StepUnregistered(w1, Connect(y, x));
    GiveUpSides(w2, x, y);
    StepUnregistered(w2, GiveUp(x, y));
  }

  lemma CrossedBothAnswer(w: World, x: string, y: string)
    requires C.Less(x, y) && Unregistered(w) && Crossed(SideOf(w, x, y), SideOf(w, y, x))
    ensures var d, e := Deliver(Message(Offer, x, y)), Deliver(Message(Offer, y, x));
            var w' := Next(Next(w, d), e);
            && Enabled(w, d) && Enabled(Next(w, d), e)
            && RoleAt(w', x, y) == Some(C.Answerer) && RoleAt(w', y, x) == Some(C.Answerer)
  {
    C.LessIsTotal(x, y);
    var d := Deliver(Message(Offer, x, y));
    OfferSides(w, y, x);
    StepUnregistered(w, d);
    OfferSides(Next(w, d), x, y);
  }

  lemma ClashBothAnswer(x: string, y: string)
    requires C.Less(x, y)
    ensures EnabledRun(EMPTY, Clash(x, y)) && BothAnswer(Clash(x, y), x, y)
  {
    var a, b, c, d, e := Connect(x, y), Connect(y, x), GiveUp(x, y), Deliver(Message(Offer, x, y)), Deliver(Message(Offer, y, x));
    assert Clash(x, y) == [a] + ([b] + ([c] + ([d] + ([e] + []))));
    var w1 := Next(EMPTY, a);
    var w2 := Next(w1, b);
    var w3 := Next(w2, c);
    ClashCrosses(x, y);
    CrossedBothAnswer(w3, x, y);
    RunOn(EMPTY, a, [b] + ([c] + ([d] + ([e] + []))));
    RunOn(w1, b, [c] + ([d] + ([e] + [])));
    RunOn(w2, c, [d] + ([e] + []));
    RunOn(w3, d, [e] + []);
    RunOn(Next(w3, d), e, []);
  }

  /** With timeouts and repeated attempts, two agents can both end as answerers, in some run, if and
      only if the one with the smaller ID may give up on the other. */
  lemma BothAnswerExactly(x: string, y: string, allowed: bool)
    requires C.Less(x, y)
    ensures (exists acts: seq<Action> :: EnabledRun(EMPTY, acts) && Gives(acts, x, y, allowed) && BothAnswer(acts, x, y)) <==> allowed
  {
    if allowed {
      ClashBothAnswer(x, y);
      assert Gives(Clash(x, y), x, y, allowed);
    } else {
      forall acts: seq<Action> | EnabledRun(EMPTY, acts) && Gives(acts, x, y, false)
        ensures !BothAnswer(acts, x, y)
      {
        RunStaysFirm(EMPTY, acts, x, y);
      }
    }
  }
}
