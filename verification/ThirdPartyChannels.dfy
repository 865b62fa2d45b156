/** The data channels of a file transfer among other agents (filetransfer/manager.go and
    receiver.go). A receiver takes a channel for the transfer from whoever opens one, starts
    another callback for it, and creates the output file anew. Each callback has a position of
    its own in the file. The theorems hold for the runs in which each message and each channel
    comes from the peer of the record it is about, and no other transfer uses the output path:
    paths are made from file names, not from file IDs. */
module ThirdPartyChannels {
  import opened Basics
  import opened ChunkCipher
  import opened TransferState
  import opened TransferManager
  import opened ChunkStream
  import opened TransferProtocol
  import opened ThirdParties
  import D = TransferDelivery
  import P = DeliveryPossible
  import E = TransferOutcomes

  /** A channel that a third party opened, and its callback. job is the record it works on once
      that is no longer the one filed. */
  datatype Tap = Tap(opener: string, job: Option<Record>, cursor: nat, count: UInt32, pc: ReceiverPc)

  /** cursor is the position of the callback for the sender's channel. */
  datatype Hub = Hub(net: Net, cursor: nat, taps: seq<Tap>)

  function Begin(src: Source): Hub {
    Hub(Start(src), 0, [])
  }

  /** The frames of a third party may be anything. Clobber stands for another transfer, or another
      program, that writes to the output path. */
  datatype Move =
    | Plain(act: Act)
    | OpenTap(opener: string, createOk: bool, now: int)
    | TapFrame(k: nat, frame: DataFrame, write: WriteResult, hashOk: bool, now: int)
    | TapOutcome(k: nat, now: int)
    | CloseTap(k: nat)
    | Clobber(content: Bytes)

  // ---- The file --------------------------------------------------------------------------

  /** What lies before a position; a gap reads as zeros. */
  function Front(file: Bytes, at: nat): (front: Bytes)
    ensures |front| == at
  {
    if at <= |file| then file[..at] else file + seq(at - |file|, _ => 0)
  }

  function WriteAt(file: Bytes, at: nat, data: Bytes): Bytes {
    if data == [] then file
    else Front(file, at) + data + if at + |data| < |file| then file[at + |data|..] else []
  }

  lemma WriteAtEnd(file: Bytes, data: Bytes)
    ensures Front(file, |file|) == file && WriteAt(file, |file|, data) == file + data
  {
    assert file[..|file|] == file;
  }

  // ---- The steps -------------------------------------------------------------------------

  function WithFile(net: Net, file: Bytes): Net {
    net.(base := net.base.(written := file))
  }

  predicate FinNext(w: World) {
    w.channel != [] && HasFlag(w.channel[0].flags, FLAG_FIN)
  }

  /** A chunk goes where the callback stands; the digest is taken of the whole file, which leaves
      the callback at its end. */
  function StepReceipt(w: Hub, a: Action): Hub
    requires a.ReceiveFrame?
  {
    var file := w.net.base.written;
    if !w.net.base.rpc.Live? then w.(net := StepInternal(w.net, a))
    else if FinNext(w.net.base) then w.(net := StepInternal(w.net, a), cursor := |file|)
    else
      var front := Front(file, w.cursor);
      var net := StepInternal(WithFile(w.net, front), a);
      var data := if |net.base.written| >= |front| then net.base.written[|front|..] else [];
      w.(net := WithFile(net, WriteAt(file, w.cursor, data)), cursor := w.cursor + |data|)
  }

  function Rejobbed(taps: seq<Tap>, r: Option<Record>): seq<Tap> {
    seq(|taps|, i requires 0 <= i < |taps| => if taps[i].job.None? then taps[i].(job := r) else taps[i])
  }

  /** The receiver takes an offer, whose record replaces the one filed. */
  predicate Refiles(net: Net, act: Act) {
    act.Deliver? && !act.toSender && act.trusted && act.mail.body.MOffer? && InTransit(net, false, act.mail)
  }

  function StepPlain(w: Hub, act: Act): Hub {
    if act.Internal? && act.step.ReceiveFrame? then StepReceipt(w, act.step)
    else
      w.(net := StepNet(w.net, act),
         cursor := if act.Internal? && act.step.ChannelArrives? && w.net.base.incoming then 0 else w.cursor,
         taps := if Refiles(w.net, act) then Rejobbed(w.taps, w.net.base.rcv) else w.taps)
  }

  function RecordOf(w: Hub, tap: Tap): Option<Record> {
    if tap.job.Some? then tap.job else w.net.base.rcv
  }

  /** The callback goes on, with its record. */
  function Worked(w: Hub, k: nat, tap: Tap, r: Record): Hub
    requires k < |w.taps|
  {
    if tap.job.Some? then w.(taps := w.taps[k := tap.(job := Some(r))])
    else w.(taps := w.taps[k := tap], net := w.net.(base := w.net.base.(rcv := Some(r))))
  }

  /** A report goes to the peer of the record. */
  function Reported(w: Hub, peer: string, reports: multiset<Control>): Hub {
    if peer != SENDER then w else w.(net := w.net.(base := w.net.base.(toSnd := w.net.base.toSnd + reports)))
  }

  /** The record filed at this side came with an offer and so is an incoming one. */
  function StepOpenTap(w: Hub, opener: string, createOk: bool, now: int): Hub {
    var rcv := w.net.base.rcv;
    if !Outside(opener) || rcv.None? || rcv.value.state != Transferring then w
    else if createOk then w.(net := WithFile(w.net, []), taps := w.taps + [Tap(opener, None, 0, 0, Live)])
    else w.(net := w.net.(base := w.net.base.(rcv := Some(Moved(rcv.value.(error := "create file"), Failed, now)))))
  }

  function StepTapFrame(w: Hub, a: Move): Hub
    requires a.TapFrame?
  {
    if a.k >= |w.taps| || !w.taps[a.k].pc.Live? || RecordOf(w, w.taps[a.k]).None? then w
    else
      var tap, r, file := w.taps[a.k], RecordOf(w, w.taps[a.k]).value, w.net.base.written;
      if HasFlag(a.frame.flags, FLAG_FIN) then
        var verified := Verified(Intake(r, file, 0, tap.count, [], []), a.hashOk);
        Reported(Worked(w, a.k, tap.(cursor := |file|, pc := Announced(verified)), r), r.peer, multiset{MComplete(verified)})
      else if !HasFlag(a.frame.flags, FLAG_DATA) then w
      else
        var i := OnChunk(w.net.base.src.fileId, Intake(r, [], 0, tap.count, [], []), a.frame, a.write, a.now);
        Reported(Worked(w.(net := WithFile(w.net, WriteAt(file, tap.cursor, i.written))), a.k,
                        tap.(cursor := tap.cursor + |i.written|, count := i.chunkCount), i.record),
                 r.peer, if i.acks == [] then multiset{} else multiset{MAck(i.acks[0])})
  }

  function StepTapOutcome(w: Hub, k: nat, now: int): Hub {
    if k >= |w.taps| || RecordOf(w, w.taps[k]).None? then w
    else
      var tap, r := w.taps[k], RecordOf(w, w.taps[k]).value;
      match tap.pc
      case Announced(true) => Worked(w, k, tap.(pc := Marked), Moved(r, Completing, now))
      case Announced(false) => Worked(w, k, tap.(pc := Closed), Moved(r.(error := "SHA-256 mismatch"), Failed, now))
      case Marked => Worked(w, k, tap.(pc := Closed), Moved(r, Done, now))
      case _ => w
  }

  function StepHub(w: Hub, a: Move): Hub {
    match a
    case Plain(act) => StepPlain(w, act)
    case OpenTap(opener, createOk, now) => StepOpenTap(w, opener, createOk, now)
    case TapFrame(_, _, _, _, _) => StepTapFrame(w, a)
    case TapOutcome(k, now) => StepTapOutcome(w, k, now)
    case CloseTap(k) => if k < |w.taps| && w.taps[k].pc.Live? then w.(taps := w.taps[k := w.taps[k].(pc := Closed)]) else w
    case Clobber(content) => w.(net := WithFile(w.net, content))
  }

  function RunHub(w: Hub, moves: seq<Move>): Hub
    decreases |moves|
  {
    if moves == [] then w else RunHub(StepHub(w, moves[0]), moves[1..])
  }

  // ---- The check -------------------------------------------------------------------------

  /** Messages and channels come from the peer of the record they are about, if there is one; and
      nothing else writes to the output path. */
  predicate Proper(w: Hub, a: Move) {
    match a
    case Plain(act) => Heeded(w.net, act)
    case OpenTap(opener, _, _) => w.net.base.rcv.Some? ==> w.net.base.rcv.value.peer == opener
    case Clobber(_) => false
    case _ => true
  }

  predicate ProperRun(w: Hub, moves: seq<Move>)
    decreases |moves|
  {
    moves == [] || (Proper(w, moves[0]) && ProperRun(StepHub(w, moves[0]), moves[1..]))
  }

  // ---- What the two parties see ----------------------------------------------------------

  /** Third parties' channels are taken only for records of their own; their output is hidden. */
  function NetOf(w: Hub): Net {
    if w.taps == [] then w.net else WithFile(w.net, [])
  }

  function View(w: Hub): World {
    PairOf(NetOf(w))
  }

  function ShadowOf(w: Hub, a: Move): Option<Action> {
    if a.Plain? then Shadow(NetOf(w), a.act) else None
  }

  predicate Strange(r: Option<Record>) {
    r.Some? && r.value.peer != SENDER
  }

  /** Taps work on records of third parties. */
  predicate Tapped(w: Hub) {
    w.taps != [] ==>
      Strange(w.net.base.rcv) && forall i :: 0 <= i < |w.taps| ==> w.taps[i].job.None? || Strange(w.taps[i].job)
  }

  /** The callback for the sender's channel stands at the end of the file. */
  predicate InOrder(w: Hub) {
    && (w.net.base.rpc.Live? ==> w.cursor == |w.net.base.written|)
    && (w.net.base.rpc.NoChannel? && w.taps == [] ==> w.net.base.written == [])
  }

  ghost predicate HubInv(w: Hub) {
    NetInv(NetOf(w)) && Tapped(w) && InOrder(w)
  }

  lemma BeginInv(src: Source)
    ensures HubInv(Begin(src)) && View(Begin(src)) == Init(src)
  {
    StartInv(src);
  }

  // Steps without third parties' channels

  lemma ReceiptAppends(b: World, a: Action)
    requires a.ReceiveFrame?
    ensures b.written <= Step(b, a).written
    ensures b.rpc.Live? && !FinNext(b) ==> Step(b, a).rpc.Live?
    ensures !b.rpc.Live? ==> Step(b, a) == b
    ensures b.rpc.Live? && FinNext(b) ==> Step(b, a).written == b.written && !Step(b, a).rpc.NoChannel?
  {
    assert Step(b, a) == StepReceive(b, a);
  }

  lemma ReceiptIsStep(w: Hub, a: Action)
    requires a.ReceiveFrame? && w.net.base.rpc.Live? && !FinNext(w.net.base) && w.cursor == |w.net.base.written|
    requires Undisturbed(w.net) && w.net.base.rcv.Some? && w.net.base.rcv.value.peer == SENDER
    ensures var w' := StepReceipt(w, a);
            w' == w.(net := StepInternal(w.net, a), cursor := |w'.net.base.written|) && w'.net.base.rpc.Live?
  {
    var b := w.net.base;
    ReceiptAppends(b, a);
    WriteAtEnd(b.written, []);
    WriteAtEnd(b.written, Step(b, a).written[|b.written|..]);
    assert WithFile(w.net, b.written) == w.net;
    assert StepInternal(w.net, a) == w.net.(base := Step(b, a));
  }

  lemma ReceiptInOrder(w: Hub, a: Action)
    requires a.ReceiveFrame? && InOrder(w) && Undisturbed(w.net)
    requires w.net.base.rpc.Live? ==> w.net.base.rcv.Some? && w.net.base.rcv.value.peer == SENDER
    ensures StepReceipt(w, a).net == StepInternal(w.net, a) && StepReceipt(w, a).taps == w.taps
    ensures InOrder(StepReceipt(w, a))
  {
    var b := w.net.base;
    if b.rpc.Live? && !FinNext(b) {
      ReceiptIsStep(w, a);
    } else {
      ReceiptAppends(b, a);
    }
  }

  lemma FileOfSender(w: World, a: Action)
    requires SenderWorks(a)
    ensures Step(w, a).written == w.written && Step(w, a).rpc == w.rpc
  {
  }

  lemma FileOfMessages(w: World, a: Action)
    requires TakesMessage(a)
    ensures Step(w, a).written == w.written && Step(w, a).rpc == w.rpc
  {
  }

  lemma FileOfOthers(w: World, a: Action)
    requires !TakesMessage(a) && !SenderWorks(a) && !a.ReceiveFrame? && !a.ChannelArrives?
    ensures var w' := Step(w, a);
            w'.written == w.written && (w'.rpc.Live? ==> w.rpc.Live?) && (w'.rpc.NoChannel? ==> w.rpc.NoChannel?)
  {
  }

  /** Only frames and a new channel touch the file. */
  lemma FileUntouched(w: World, a: Action)
    requires !a.ReceiveFrame? && !a.ChannelArrives?
    ensures var w' := Step(w, a);
            w'.written == w.written && (w'.rpc.Live? ==> w.rpc.Live?) && (w'.rpc.NoChannel? ==> w.rpc.NoChannel?)
  {
    if SenderWorks(a) {
      FileOfSender(w, a);
    } else if TakesMessage(a) {
      FileOfMessages(w, a);
    } else {
      FileOfOthers(w, a);
    }
  }

  lemma ArrivalInOrder(w: World, a: Action)
    requires a.ChannelArrives?
    ensures var w' := Step(w, a);
            if w.incoming then (w'.rpc.Live? ==> w'.written == [] || w.rpc.Live?) && !w'.rpc.NoChannel? else w' == w
    ensures w.incoming && w.rpc.NoChannel? && Step(w, a).rpc.Live? ==> Step(w, a).written == []
  {
    assert Step(w, a) == StepArrives(w, a);
  }

  lemma PlainReceipt(w: Hub, act: Act)
    requires NetInv(w.net) && InOrder(w) && act.Internal? && act.step.ReceiveFrame?
    ensures StepPlain(w, act).net == StepNet(w.net, act) && InOrder(StepPlain(w, act)) && StepPlain(w, act).taps == w.taps
  {
    StrangersMeanIdle(w.net);
    ReceiptInOrder(w, act.step);
  }

  lemma PlainArrival(w: Hub, act: Act)
    requires NetInv(w.net) && InOrder(w) && act.Internal? && act.step.ChannelArrives?
    ensures InOrder(StepPlain(w, act))
  {
    StrangersMeanIdle(w.net);
    ArrivalInOrder(w.net.base, act.step);
  }

  /** The step is not for the file, as the two parties see it. */
  predicate OffFile(a: Option<Action>) {
    a.Some? ==> !a.value.ReceiveFrame? && !a.value.ChannelArrives?
  }

  lemma PlainOther(w: Hub, act: Act)
    requires NetInv(w.net) && Heeded(w.net, act) && InOrder(w) && OffFile(Shadow(w.net, act))
    requires !(act.Internal? && (act.step.ReceiveFrame? || act.step.ChannelArrives?))
    ensures InOrder(w.(net := StepNet(w.net, act)))
  {
    StepKeepsNetInv(w.net, act);
    if Shadow(w.net, act).Some? {
      FileUntouched(PairOf(w.net), Shadow(w.net, act).value);
    }
  }

  lemma ShadowOffFile(net: Net, act: Act)
    requires !(act.Internal? && (act.step.ReceiveFrame? || act.step.ChannelArrives?))
    ensures OffFile(Shadow(net, act))
  {
  }

  /** As long as the sender's callback is in order, third parties' channels or not, the net makes
      the steps that it makes without them. */
  lemma PlainStep(w: Hub, act: Act)
    requires NetInv(w.net) && Heeded(w.net, act) && InOrder(w)
    ensures StepPlain(w, act).net == StepNet(w.net, act)
    ensures w.taps == [] || !act.Deliver? ==> InOrder(StepPlain(w, act)) && StepPlain(w, act).taps == w.taps
    ensures act.Deliver? && !act.mail.body.MOffer? ==> InOrder(StepPlain(w, act)) && StepPlain(w, act).taps == w.taps
  {
    if act.Internal? && act.step.ReceiveFrame? {
      PlainReceipt(w, act);
    } else if act.Internal? && act.step.ChannelArrives? {
      PlainArrival(w, act);
    } else {
      ShadowOffFile(w.net, act);
      PlainOther(w, act);
      assert w.taps == [] ==> Rejobbed(w.taps, w.net.base.rcv) == [];
    }
  }

  // Steps while third parties have channels of their own: the file has no influence

  lemma StartIgnoresFile(w: World, a: Action, file: Bytes)
    requires a.SendReady? || a.OpenChannel? || a.ChannelOpens?
    ensures Step(w.(written := file), a) == Step(w, a).(written := file)
  {
  }

  lemma StreamIgnoresFile(w: World, a: Action, file: Bytes)
    requires a.SendChunk? || a.SendFin? || a.FinishSending? || a.AbortSending?
    ensures Step(w.(written := file), a) == Step(w, a).(written := file)
  {
  }

  lemma SenderIgnoresFile(w: World, a: Action, file: Bytes)
    requires SenderWorks(a)
    ensures Step(w.(written := file), a) == Step(w, a).(written := file)
  {
    if a.SendReady? || a.OpenChannel? || a.ChannelOpens? {
      StartIgnoresFile(w, a, file);
    } else {
      StreamIgnoresFile(w, a, file);
    }
  }

  lemma OthersIgnoreFile(w: World, a: Action, file: Bytes)
    requires !TakesMessage(a) && !SenderWorks(a) && !ReceiverWorks(a) && !a.ChannelArrives?
    ensures Step(w.(written := file), a) == Step(w, a).(written := file)
  {
  }

  lemma SenderStepIgnoresFile(net: Net, a: Action, file: Bytes)
    requires Undisturbed(net) && SenderWorks(a)
    ensures StepSender(WithFile(net, file), a) == WithFile(StepSender(net, a), file)
  {
    SenderIgnoresFile(net.base, a, file);
  }

  lemma ReceiverStepIgnoresFile(net: Net, a: Action, file: Bytes)
    requires Undisturbed(net) && ReceiverWorks(a) && NothingStarted(net.base)
    ensures StepReceiver(WithFile(net, file), a) == WithFile(StepReceiver(net, a), file)
  {
    IdleReceiver(net.base, a);
    IdleReceiver(net.base.(written := file), a);
  }

  lemma ForgeryIgnoresFile(net: Net, a: Action, file: Bytes)
    requires a.ForgeAccept? || a.ForgeReady?
    ensures StepForge(WithFile(net, file), a) == WithFile(StepForge(net, a), file)
  {
  }

  lemma InternalIgnoresFile(net: Net, a: Action, file: Bytes)
    requires Undisturbed(net) && NothingStarted(net.base)
    ensures StepInternal(WithFile(net, file), a) == WithFile(StepInternal(net, a), file)
  {
    if SenderWorks(a) {
      SenderStepIgnoresFile(net, a, file);
    } else if ReceiverWorks(a) {
      ReceiverStepIgnoresFile(net, a, file);
    } else if a.ForgeAccept? || a.ForgeReady? {
      ForgeryIgnoresFile(net, a, file);
    } else if a.ChannelArrives? {
      IdleReceiver(net.base, a);
      IdleReceiver(net.base.(written := file), a);
    } else if !TakesMessage(a) {
      OthersIgnoreFile(net.base, a, file);
    }
  }

  lemma OfferIgnoresFile(net: Net, act: Act, offer: Offer, file: Bytes)
    requires act.Deliver?
    ensures OfferHandled(WithFile(net, file), act, offer) == WithFile(OfferHandled(net, act, offer), file)
  {
  }

  lemma MessageIgnoresFile(net: Net, act: Act, r: Record, file: Bytes)
    requires act.Deliver?
    ensures MessageHandled(WithFile(net, file), act, r) == WithFile(MessageHandled(net, act, r), file)
  {
  }

  lemma TakingIgnoresFile(net: Net, toSender: bool, mail: Mail, file: Bytes)
    ensures Taken(WithFile(net, file), toSender, mail) == WithFile(Taken(net, toSender, mail), file)
    ensures InTransit(WithFile(net, file), toSender, mail) <==> InTransit(net, toSender, mail)
    ensures RecordAt(WithFile(net, file), toSender) == RecordAt(net, toSender)
  {
  }

  lemma DeliveryIgnoresFile(net: Net, act: Act, file: Bytes)
    requires act.Deliver?
    ensures StepDeliver(WithFile(net, file), act) == WithFile(StepDeliver(net, act), file)
  {
    var taken := Taken(net, act.toSender, act.mail);
    TakingIgnoresFile(net, act.toSender, act.mail, file);
    if act.mail.body.MOffer? {
      OfferIgnoresFile(taken, act, act.mail.body.offer, file);
    } else if RecordAt(net, act.toSender).Some? {
      MessageIgnoresFile(taken, act, RecordAt(net, act.toSender).value, file);
    }
  }

  lemma NetIgnoresFile(net: Net, act: Act, file: Bytes)
    requires Undisturbed(net) && NothingStarted(net.base)
    ensures StepNet(WithFile(net, file), act) == WithFile(StepNet(net, act), file)
  {
    match act
    case Internal(a) => InternalIgnoresFile(net, a, file);
    case Deliver(_, _, _, _, _, _) => DeliveryIgnoresFile(net, act, file);
    case _ =>
  }

  lemma InternalKeepsStranger(w: World, a: Action)
    requires w.rcv.Some? && NothingStarted(w) && !TakesMessage(a)
    ensures Step(w, a).rcv.Some? && Step(w, a).rcv.value.peer == w.rcv.value.peer
  {
    if SenderWorks(a) {
      IdleSender(w, a);
    } else if ReceiverWorks(a) || a.ChannelArrives? {
      IdleReceiver(w, a);
    } else if a.CancelReceiver? || a.TickReceiver? {
      InterruptionsKeep(w.rcv.value, a.now);
    }
  }

  /** A third party's record at the receiver stays one. */
  lemma StrangerStays(net: Net, act: Act)
    requires NetInv(net) && Heeded(net, act) && Strange(net.base.rcv) && NothingStarted(net.base)
    ensures Strange(StepNet(net, act).base.rcv)
  {
    if act.Internal? {
      InternalIsSeen(net, act.step);
      if !TakesMessage(act.step) {
        InternalKeepsStranger(net.base, act.step);
      }
    } else if act.Deliver? && InTransit(net, act.toSender, act.mail) {
      DeliveryKeepsStranger(net, act);
    }
  }

  lemma DeliveryKeepsStranger(net: Net, act: Act)
    requires NetInv(net) && act.Deliver? && Heeded(net, act) && Strange(net.base.rcv)
    requires InTransit(net, act.toSender, act.mail)
    ensures Strange(StepDeliver(net, act).base.rcv)
  {
    if act.toSender {
      DeliveryToSenderKeepsReceiver(net, act);
    } else if !act.mail.body.MOffer? {
      HandledKeeps(net.base.rcv.value, act.mail, PublicKey(act.mail.source), RECEIVER, act.key, act.now);
    }
  }

  lemma PlainStepWithTaps(w: Hub, act: Act)
    requires HubInv(w) && w.taps != [] && Heeded(w.net, act)
    ensures var w' := StepPlain(w, act);
            && w'.taps != [] && NetOf(w') == StepNet(NetOf(w), act) && Heeded(NetOf(w), act) && NothingStarted(w.net.base)
            && w'.net == StepNet(w.net, act)
  {
    StrangersMeanIdle(NetOf(w));
    assert NothingStarted(w.net.base);
    NetIgnoresFile(w.net, act, []);
  }

  lemma TapsStay(w: Hub, taps: seq<Tap>)
    requires Tapped(w) && w.taps != [] && (taps == w.taps || taps == Rejobbed(w.taps, w.net.base.rcv))
    ensures forall i :: 0 <= i < |taps| ==> taps[i].job.None? || Strange(taps[i].job)
  {
  }

  lemma PlainStepKeepsTaps(w: Hub, act: Act)
    requires HubInv(w) && w.taps != [] && Heeded(w.net, act)
    ensures Tapped(StepPlain(w, act))
  {
    PlainStepWithTaps(w, act);
    StrangerStays(NetOf(w), act);
    var w' := StepPlain(w, act);
    TapsStay(w, w'.taps);
    assert Strange(w'.net.base.rcv);
  }

  lemma PlainStepKeepsOrder(w: Hub, act: Act)
    requires HubInv(w) && w.taps != [] && Heeded(w.net, act) && Tapped(StepPlain(w, act))
    ensures InOrder(StepPlain(w, act))
  {
    PlainStepWithTaps(w, act);
    StepKeepsNetInv(NetOf(w), act);
    StrangersMeanIdle(NetOf(StepPlain(w, act)));
  }

  /** A plain step of a proper run is a step of the two parties, or none. */
  lemma PlainKeepsInv(w: Hub, act: Act)
    requires HubInv(w) && Heeded(w.net, act)
    ensures HubInv(StepPlain(w, act)) && View(StepPlain(w, act)) == Seen(View(w), Shadow(NetOf(w), act))
  {
    if w.taps == [] {
      PlainStep(w, act);
      StepKeepsNetInv(w.net, act);
      assert StepPlain(w, act).taps == [];
    } else {
      PlainStepWithTaps(w, act);
      PlainStepKeepsTaps(w, act);
      PlainStepKeepsOrder(w, act);
      StepKeepsNetInv(NetOf(w), act);
    }
  }

  // Steps of third parties' channels

  lemma StrangerUpdated(net: Net, r: Record)
    requires NetInv(net) && Strange(net.base.rcv) && r.peer == net.base.rcv.value.peer
    ensures var net' := net.(base := net.base.(rcv := Some(r)));
            NetInv(net') && PairOf(net') == PairOf(net) && Strange(net'.base.rcv)
  {
  }

  lemma OpenTapKeepsInv(w: Hub, opener: string, createOk: bool, now: int)
    requires HubInv(w) && Proper(w, OpenTap(opener, createOk, now))
    ensures var w' := StepOpenTap(w, opener, createOk, now); HubInv(w') && View(w') == View(w)
  {
    var w' := StepOpenTap(w, opener, createOk, now);
    if w' != w {
      StrangersMeanIdle(NetOf(w));
      assert Strange(w.net.base.rcv) && NothingStarted(w.net.base);
      if createOk {
        assert NetOf(w') == NetOf(w);
      } else {
        StrangerUpdated(NetOf(w), w'.net.base.rcv.value);
        assert NetOf(w') == NetOf(w).(base := NetOf(w).base.(rcv := w'.net.base.rcv));
      }
    }
  }

  /** Work of a tap, on a record of a third party, changes nothing that the two parties see. */
  lemma WorkedKeepsInv(w: Hub, k: nat, tap: Tap, r: Record, file: Bytes)
    requires HubInv(w) && k < |w.taps| && tap.job == w.taps[k].job
    requires RecordOf(w, tap).Some? && r.peer == RecordOf(w, tap).value.peer
    ensures var w' := Worked(w.(net := WithFile(w.net, file)), k, tap, r);
            HubInv(w') && View(w') == View(w) && r.peer != SENDER
  {
    StrangersMeanIdle(NetOf(w));
    assert NothingStarted(w.net.base);
    if tap.job.None? {
      StrangerUpdated(NetOf(w), r);
    }
  }

  predicate Working(w: Hub, k: nat) {
    k < |w.taps| && w.taps[k].pc.Live? && RecordOf(w, w.taps[k]).Some?
  }

  lemma TapFinKeepsInv(w: Hub, a: Move)
    requires HubInv(w) && a.TapFrame? && Working(w, a.k) && HasFlag(a.frame.flags, FLAG_FIN)
    ensures HubInv(StepTapFrame(w, a)) && View(StepTapFrame(w, a)) == View(w)
  {
    var tap, r, file := w.taps[a.k], RecordOf(w, w.taps[a.k]).value, w.net.base.written;
    var tap' := tap.(cursor := |file|, pc := Announced(Verified(Intake(r, file, 0, tap.count, [], []), a.hashOk)));
    WorkedKeepsInv(w, a.k, tap', r, file);
    assert w.(net := WithFile(w.net, file)) == w;
    assert StepTapFrame(w, a) == Worked(w, a.k, tap', r);
  }

  lemma TapDataWorks(w: Hub, a: Move)
    requires HubInv(w) && a.TapFrame? && Working(w, a.k)
    requires !HasFlag(a.frame.flags, FLAG_FIN) && HasFlag(a.frame.flags, FLAG_DATA)
    ensures var tap, r := w.taps[a.k], RecordOf(w, w.taps[a.k]).value;
            var i := OnChunk(w.net.base.src.fileId, Intake(r, [], 0, tap.count, [], []), a.frame, a.write, a.now);
            StepTapFrame(w, a) ==
              Worked(w.(net := WithFile(w.net, WriteAt(w.net.base.written, tap.cursor, i.written))), a.k,
                     tap.(cursor := tap.cursor + |i.written|, count := i.chunkCount), i.record)
  {
    assert RecordOf(w, w.taps[a.k]).value.peer != SENDER;
  }

  lemma TapDataKeepsInv(w: Hub, a: Move)
    requires HubInv(w) && a.TapFrame? && Working(w, a.k)
    requires !HasFlag(a.frame.flags, FLAG_FIN) && HasFlag(a.frame.flags, FLAG_DATA)
    ensures HubInv(StepTapFrame(w, a)) && View(StepTapFrame(w, a)) == View(w)
  {
    var tap, r := w.taps[a.k], RecordOf(w, w.taps[a.k]).value;
    var start := Intake(r, [], 0, tap.count, [], []);
    var i := OnChunk(w.net.base.src.fileId, start, a.frame, a.write, a.now);
    OnChunkKeeps(w.net.base.src.fileId, start, a.frame, a.write, a.now);
    TapDataWorks(w, a);
    WorkedKeepsInv(w, a.k, tap.(cursor := tap.cursor + |i.written|, count := i.chunkCount), i.record,
                   WriteAt(w.net.base.written, tap.cursor, i.written));
  }

  lemma TapFrameKeepsInv(w: Hub, a: Move)
    requires HubInv(w) && a.TapFrame?
    ensures HubInv(StepTapFrame(w, a)) && View(StepTapFrame(w, a)) == View(w)
  {
    if Working(w, a.k) && HasFlag(a.frame.flags, FLAG_FIN) {
      TapFinKeepsInv(w, a);
    } else if Working(w, a.k) && HasFlag(a.frame.flags, FLAG_DATA) {
      TapDataKeepsInv(w, a);
    } else {
      assert StepTapFrame(w, a) == w;
    }
  }

  lemma TapOutcomeKeepsInv(w: Hub, k: nat, now: int)
    requires HubInv(w)
    ensures HubInv(StepTapOutcome(w, k, now)) && View(StepTapOutcome(w, k, now)) == View(w)
  {
    if k < |w.taps| && RecordOf(w, w.taps[k]).Some? {
      var tap, r, file := w.taps[k], RecordOf(w, w.taps[k]).value, w.net.base.written;
      match tap.pc {
        case Announced(true) => WorkedKeepsInv(w, k, tap.(pc := Marked), Moved(r, Completing, now), file);
        case Announced(false) =>
          WorkedKeepsInv(w, k, tap.(pc := Closed), Moved(r.(error := "SHA-256 mismatch"), Failed, now), file);
        case Marked => WorkedKeepsInv(w, k, tap.(pc := Closed), Moved(r, Done, now), file);
        case _ =>
      }
    }
  }

  /** In a proper run every step keeps the invariant, and is for the two parties one of their own
      steps or none. */
  lemma StepKeepsHubInv(w: Hub, a: Move)
    requires HubInv(w) && Proper(w, a)
    ensures HubInv(StepHub(w, a)) && View(StepHub(w, a)) == Seen(View(w), ShadowOf(w, a))
  {
    match a
    case Plain(act) => PlainKeepsInv(w, act);
    case OpenTap(opener, createOk, now) => OpenTapKeepsInv(w, opener, createOk, now);
    case TapFrame(_, _, _, _, _) => TapFrameKeepsInv(w, a);
    case TapOutcome(k, now) => TapOutcomeKeepsInv(w, k, now);
    case CloseTap(_) =>
  }

  function ShadowsOf(w: Hub, moves: seq<Move>): seq<Action>
    decreases |moves|
  {
    if moves == [] then []
    else (if ShadowOf(w, moves[0]).Some? then [ShadowOf(w, moves[0]).value] else []) + ShadowsOf(StepHub(w, moves[0]), moves[1..])
  }

  /** Every proper run is for the two parties a run of their own protocol. */
  lemma {:induction false} RunIsTheirs(w: Hub, moves: seq<Move>)
    requires HubInv(w) && ProperRun(w, moves)
    ensures HubInv(RunHub(w, moves)) && View(RunHub(w, moves)) == Run(View(w), ShadowsOf(w, moves))
    decreases |moves|
  {
    if moves != [] {
      var w' := StepHub(w, moves[0]);
      StepKeepsHubInv(w, moves[0]);
      RunIsTheirs(w', moves[1..]);
      if ShadowOf(w, moves[0]).Some? {
        RunOn(View(w), ShadowOf(w, moves[0]).value, ShadowsOf(w', moves[1..]));
      } else {
        assert ShadowsOf(w, moves) == ShadowsOf(w', moves[1..]);
      }
    }
  }

  // ---- Theorems --------------------------------------------------------------------------

  /** The output is as the two parties see it once they have started. */
  lemma OutputIsSeen(w: Hub)
    requires HubInv(w)
    ensures w.taps == [] ==> View(w).written == w.net.base.written
    ensures w.taps != [] ==> NothingStarted(w.net.base) && View(w).rcv == None && View(w).entered == None
  {
    StrangersMeanIdle(NetOf(w));
  }

  /** In every proper run, whatever messages and channels third parties make, and whatever is lost,
      reordered, forged, cancelled or timed out:
      - a receiver that got as far as Transferring with the sender shares its counter-challenge
        with a sender that has verified the receiver's signature and entered Transferring;
      - a sender that got that far has its challenge answered by this receiver;
      - whichever side reports Done, the receiver's output is the sender's file. */
  lemma Agreement(src: Source, moves: seq<Move>)
    requires ProperRun(Begin(src), moves)
    ensures var w := RunHub(Begin(src), moves).net.base;
            var snd, rcv := OfPeer(w.snd, RECEIVER), OfPeer(w.rcv, SENDER);
            && (rcv.Some? && Past(rcv.value.state) ==>
                  snd.Some? && w.entered == Some(rcv.value.counterChallenge) && Rank(snd.value.state) >= Rank(Transferring))
            && (snd.Some? && Past(snd.value.state) ==>
                  w.entered.Some? && rcv.Some? && rcv.value.challenge == snd.value.challenge)
            && (snd.Some? && snd.value.state == Done ==> w.written == src.file)
            && (rcv.Some? && rcv.value.state == Done ==> w.written == src.file)
  {
    BeginInv(src);
    RunIsTheirs(Begin(src), moves);
    PartiesAgree(src, ShadowsOf(Begin(src), moves));
    OutputIsSeen(RunHub(Begin(src), moves));
  }

  lemma {:induction false} RunHubAppend(w: Hub, a: seq<Move>, b: seq<Move>)
    ensures RunHub(w, a + b) == RunHub(RunHub(w, a), b)
    ensures ProperRun(w, a + b) <==> ProperRun(w, a) && ProperRun(RunHub(w, a), b)
    decreases |a|
  {
    if a == [] {
      assert a + b == b;
    } else {
      assert (a + b)[1..] == a[1..] + b;
      RunHubAppend(StepHub(w, a[0]), a[1..], b);
    }
  }

  /** Outcomes are final: in every proper run a finished side stays as it is and an unfinished one
      only moves forward; and once the sender is Done the output never changes again. */
  lemma OutcomesAreFinal(src: Source, before: seq<Move>, after: seq<Move>)
    requires ProperRun(Begin(src), before + after)
    ensures var w, w' := RunHub(Begin(src), before).net.base, RunHub(Begin(src), before + after).net.base;
            var snd, rcv, snd', rcv' :=
              OfPeer(w.snd, RECEIVER), OfPeer(w.rcv, SENDER), OfPeer(w'.snd, RECEIVER), OfPeer(w'.rcv, SENDER);
            && (snd.Some? ==> snd'.Some? && Later(snd.value.state, snd'.value.state))
            && (rcv.Some? ==> rcv'.Some? && Later(rcv.value.state, rcv'.value.state))
            && (snd.Some? && snd.value.state == Done ==> w'.written == w.written == src.file)
  {
    RunHubAppend(Begin(src), before, after);
    BeginInv(src);
    RunIsTheirs(Begin(src), before);
    var w := RunHub(Begin(src), before);
    RunIsTheirs(w, after);
    PartiesStayFinished(src, ShadowsOf(Begin(src), before), ShadowsOf(w, after));
    Agreement(src, before);
    Agreement(src, before + after);
  }

  /** In every proper run each side is Done, Failed or Cancelled if and only if one of the events that
      end it so has happened, among the steps that the two parties see. */
  lemma OutcomesHaveCauses(src: Source, moves: seq<Move>, s: State)
    requires ProperRun(Begin(src), moves) && Terminal(s)
    ensures var b, acts := RunHub(Begin(src), moves).net.base, ShadowsOf(Begin(src), moves);
            && (E.Is(OfPeer(b.snd, RECEIVER), s) <==> E.SenderEverEnds(Init(src), acts, s))
            && (E.Is(OfPeer(b.rcv, SENDER), s) <==> E.ReceiverEverEnds(Init(src), acts, s))
  {
    BeginInv(src);
    InitInv(src);
    RunIsTheirs(Begin(src), moves);
    E.HowSendersEnd(Init(src), ShadowsOf(Begin(src), moves), s);
    E.HowReceiversEnd(Init(src), ShadowsOf(Begin(src), moves), s);
  }

  /** What a cancel does: in every proper run, a side that is cancelled while it is offered, accepted
      or transferring is Cancelled from then on, whatever arrives later, and so is never Done. */
  lemma CancelledForGood(src: Source, before: seq<Move>, ofSender: bool, now: int, after: seq<Move>)
    requires ProperRun(Begin(src), before + ([Plain(Internal(Cancellation(ofSender, now)))] + after))
    requires Cancellable(SideOf(RunHub(Begin(src), before), ofSender))
    ensures E.Is(SideOf(RunHub(Begin(src), before + ([Plain(Internal(Cancellation(ofSender, now)))] + after)), ofSender), Cancelled)
  {
    var cancel := Plain(Internal(Cancellation(ofSender, now)));
    var w := RunHub(Begin(src), before);
    BeginInv(src);
    RunHubAppend(Begin(src), before, [cancel] + after);
    RunHubAppend(w, [cancel], after);
    RunHubOn(w, cancel, []);
    assert [cancel] + [] == [cancel];
    RunIsTheirs(Begin(src), before);
    StepKeepsHubInv(w, cancel);
    CancelIsSeen(w, ofSender, now);
    var w' := StepHub(w, cancel);
    RunIsTheirs(w', after);
    RunKeepsInv(View(w'), ShadowsOf(w', after));
  }

  function Cancellation(ofSender: bool, now: int): Action {
    if ofSender then CancelSender(now) else CancelReceiver(now)
  }

  function SideOf(w: Hub, ofSender: bool): Option<Record> {
    if ofSender then OfPeer(w.net.base.snd, RECEIVER) else OfPeer(w.net.base.rcv, SENDER)
  }

  predicate Cancellable(r: Option<Record>) {
    E.Is(r, Offered) || E.Is(r, Accepted) || E.Is(r, Transferring)
  }

  lemma CancelIsSeen(w: Hub, ofSender: bool, now: int)
    requires HubInv(w) && Cancellable(SideOf(w, ofSender))
    requires View(StepHub(w, Plain(Internal(Cancellation(ofSender, now))))) ==
               Seen(View(w), ShadowOf(w, Plain(Internal(Cancellation(ofSender, now)))))
    ensures E.Is(SideOf(StepHub(w, Plain(Internal(Cancellation(ofSender, now)))), ofSender), Cancelled)
  {
    var a := Cancellation(ofSender, now);
    var v, v' := View(w), View(StepHub(w, Plain(Internal(a))));
    assert v' == Step(v, a);
    CancelEnds(v, ofSender, now);
  }

  lemma CancelEnds(v: World, ofSender: bool, now: int)
    requires Cancellable(if ofSender then v.snd else v.rcv)
    ensures var v' := Step(v, Cancellation(ofSender, now)); E.Is(if ofSender then v'.snd else v'.rcv, Cancelled)
  {
    if ofSender {
      E.SenderCancel(v, Cancellation(ofSender, now));
    } else {
      E.ReceiverCancel(v, Cancellation(ofSender, now));
    }
  }

  /** The two parties look up the session key k for each other, and the receiver's file can be
      written and read back, so it has not been closed. */
  predicate FairMove(a: Move, k: Option<Key>) {
    a.Plain? ==> Fair(a.act, k)
  }

  lemma ShadowOfFair(w: Hub, a: Move, k: Option<Key>)
    requires FairMove(a, k) && ShadowOf(w, a).Some?
    ensures D.SameKeyNoFault(ShadowOf(w, a).value, k)
  {
  }

  lemma {:induction false} ShadowsOfFair(w: Hub, moves: seq<Move>, k: Option<Key>)
    requires forall i :: 0 <= i < |moves| ==> FairMove(moves[i], k)
    ensures forall i :: 0 <= i < |ShadowsOf(w, moves)| ==> D.SameKeyNoFault(ShadowsOf(w, moves)[i], k)
    decreases |moves|
  {
    if moves != [] {
      assert FairMove(moves[0], k);
      if ShadowOf(w, moves[0]).Some? {
        ShadowOfFair(w, moves[0], k);
      }
      ShadowsOfFair(StepHub(w, moves[0]), moves[1..], k);
    }
  }

  /** In every proper and fair run no completion of the receiver is negative. Third parties' channels
      are taken only while the two parties have started nothing; else, until the outcome is
      announced, the output followed by the plaintext in flight is a prefix of the file, as long
      as what was sent. */
  lemma NoFalseAlarm(src: Source, moves: seq<Move>, k: Option<Key>)
    requires ProperRun(Begin(src), moves) && forall i :: 0 <= i < |moves| ==> FairMove(moves[i], k)
    ensures var w := RunHub(Begin(src), moves);
            var b := w.net.base;
            && MComplete(false) !in b.toSnd && (b.rpc.Announced? ==> b.rpc.verified)
            && (w.taps != [] ==> NothingStarted(b))
            && (w.taps == [] && !OutputFinal(b) ==>
                  var inFlight := D.Carried(src.fileId, k, b.channel);
                  && inFlight.Some? && b.written + inFlight.value <= src.file
                  && (b.spc.Sending? ==> |b.written| + |inFlight.value| == b.spc.offset))
  {
    BeginInv(src);
    RunIsTheirs(Begin(src), moves);
    ShadowsOfFair(Begin(src), moves, k);
    D.PartiesRaiseNoAlarm(src, ShadowsOf(Begin(src), moves), k);
    OutputIsSeen(RunHub(Begin(src), moves));
  }

  // ---- The runs of the two parties, and what happens without the check --------------------

  function Plains(acts: seq<Act>): seq<Move> {
    seq(|acts|, i requires 0 <= i < |acts| => Plain(acts[i]))
  }

  /** Taps that do nothing leave the others undisturbed, as long as no offer replaces a record. */
  lemma {:induction false} RunPlains(w: Hub, acts: seq<Act>)
    requires NetInv(w.net) && InOrder(w) && HeededRun(w.net, acts)
    requires w.taps == [] || forall act :: act in acts ==> !(act.Deliver? && act.mail.body.MOffer?)
    ensures var w' := RunHub(w, Plains(acts));
            w'.net == RunNet(w.net, acts) && w'.taps == w.taps && InOrder(w') && NetInv(w'.net)
    ensures ProperRun(w, Plains(acts))
    decreases |acts|
  {
    if acts != [] {
      PlainStep(w, acts[0]);
      StepKeepsNetInv(w.net, acts[0]);
      assert Plains(acts)[1..] == Plains(acts[1..]);
      RunPlains(StepPlain(w, acts[0]), acts[1..]);
    }
  }

  lemma FairLifted(a: Action, k: Option<Key>)
    requires D.SameKeyNoFault(a, k)
    ensures Fair(Lifted(a), k)
  {
  }

  lemma FairPlains(acts: seq<Action>, k: Option<Key>)
    requires forall a :: a in acts ==> D.SameKeyNoFault(a, k)
    ensures forall m :: m in Plains(LiftedAll(acts)) ==> FairMove(m, k)
  {
    forall m | m in Plains(LiftedAll(acts)) ensures FairMove(m, k) {
      var i :| 0 <= i < |acts| && m == Plain(Lifted(acts[i]));
      FairLifted(acts[i], k);
    }
  }

  lemma RunHubOn(w: Hub, a: Move, rest: seq<Move>)
    ensures RunHub(w, [a] + rest) == RunHub(StepHub(w, a), rest)
  {
    assert ([a] + rest)[1..] == rest;
  }

  /** The handshake of the two parties, among the others. */
  lemma HandshakeAmongOthers(src: Source, k: Option<Key>) returns (moves: seq<Move>)
    ensures var w := RunHub(Begin(src), moves);
            && Private(w.net) && InOrder(w) && w.taps == []
            && P.Hopeful(w.net.base, k) && P.Starting(w.net.base) && w.net.base.src == src
    ensures ProperRun(Begin(src), moves) && forall m :: m in moves ==> FairMove(m, k)
  {
    D.InitDataInv(src, k);
    var acts := P.RunToTheStart(Init(src), k);
    SourceIsFixed(Init(src), acts);
    moves := Plains(LiftedAll(acts));
    StartInv(src);
    RunIsLifted(Start(src), acts);
    RunPlains(Begin(src), LiftedAll(acts));
    FairPlains(acts, k);
  }

  ghost predicate Delivers(src: Source, moves: seq<Move>, k: Option<Key>) {
    && ProperRun(Begin(src), moves) && (forall m :: m in moves ==> FairMove(m, k))
    && var b := RunHub(Begin(src), moves).net.base; b.src == src && P.Complete(b)
  }

  /** For every file, with or without a session key, some proper and fair run takes both sides to
      Done. */
  lemma EveryFileCanBeDelivered(src: Source, k: Option<Key>)
    ensures exists moves :: Delivers(src, moves, k)
  {
    P.PartiesCanDeliver(src, k);
    var acts :| P.Delivers(Init(src), acts, k);
    SourceIsFixed(Init(src), acts);
    StartInv(src);
    RunIsLifted(Start(src), acts);
    RunPlains(Begin(src), LiftedAll(acts));
    FairPlains(acts, k);
    assert Delivers(src, Plains(LiftedAll(acts)), k);
  }

  /** A channel of the other, with one frame, the FIN. */
  function FalseEnd(other: string): seq<Move> {
    [OpenTap(other, true, 0), TapFrame(0, FinFrame(1), Whole, true, 0), TapOutcome(0, 0)]
  }

  /** A file of the sender is due, and nothing has been written. */
  predicate Due(b: World) {
    && b.rcv.Some? && b.rcv.value.peer == SENDER && b.rcv.value.state == Transferring
    && b.rcv.value.digest == Some(Digest(b.src.file)) && b.src.file != [] && b.written == []
  }

  lemma FalseEndAnnounced(w: Hub, other: string)
    requires Due(w.net.base) && w.taps == [Tap(other, None, 0, 0, Live)]
    ensures StepHub(w, TapFrame(0, FinFrame(1), Whole, true, 0)) ==
              w.(taps := [Tap(other, None, 0, 0, Announced(false))],
                 net := w.net.(base := w.net.base.(toSnd := w.net.base.toSnd + multiset{MComplete(false)})))
  {
  }

  lemma FalseEndRecorded(w: Hub, other: string)
    requires w.taps == [Tap(other, None, 0, 0, Announced(false))] && w.net.base.rcv.Some?
    requires w.net.base.rcv.value.state == Transferring
    ensures var b := StepTapOutcome(w, 0, 0).net.base;
            b.toSnd == w.net.base.toSnd && b.rcv.Some? && b.rcv.value.state == Failed
  {
  }

  lemma FalseEndOpened(w: Hub, other: string)
    requires Outside(other) && w.taps == [] && Due(w.net.base)
    ensures StepOpenTap(w, other, true, 0) == w.(taps := [Tap(other, None, 0, 0, Live)])
  {
  }

  lemma RunFalseEnd(w: Hub, other: string)
    requires Outside(other) && w.taps == [] && Due(w.net.base)
    ensures var b := RunHub(w, FalseEnd(other)).net.base;
            MComplete(false) in b.toSnd && b.rcv.Some? && b.rcv.value.state == Failed
  {
    var a, b, c := OpenTap(other, true, 0), TapFrame(0, FinFrame(1), Whole, true, 0), TapOutcome(0, 0);
    assert FalseEnd(other) == [a] + ([b] + ([c] + []));
    RunHubOn(w, a, [b] + ([c] + []));
    FalseEndOpened(w, other);
    var w1 := w.(taps := [Tap(other, None, 0, 0, Live)]);
    RunHubOn(w1, b, [c] + []);
    FalseEndAnnounced(w1, other);
    var w2 := StepHub(w1, b);
    RunHubOn(w2, c, []);
    FalseEndRecorded(w2, other);
  }

  /** Why channels must be checked: with any key, every file that is not empty, and every message in
      order, a channel of any other agent with nothing but the FIN frame makes the receiver announce
      a negative completion, and fails it. The channel is the only improper step. */
  lemma StrangeChannelFails(src: Source, other: string, k: Option<Key>) returns (moves: seq<Move>)
    requires Outside(other) && src.file != []
    ensures ProperRun(Begin(src), moves) && forall m :: m in moves + FalseEnd(other) ==> FairMove(m, k)
    ensures var b := RunHub(Begin(src), moves + FalseEnd(other)).net.base;
            MComplete(false) in b.toSnd && b.rcv.Some? && b.rcv.value.state == Failed
  {
    moves := HandshakeAmongOthers(src, k);
    RunHubAppend(Begin(src), moves, FalseEnd(other));
    RunFalseEnd(RunHub(Begin(src), moves), other);
  }

  /** A frame of plain bytes. */
  function PlainFrame(p: Bytes): DataFrame {
    DataFrame(0, FLAG_DATA, Clear(p))
  }

  lemma OverwrittenExactly(file: Bytes, p: Bytes)
    ensures WriteAt(file, 0, p) == file <==> p <= file
  {
    if p <= file {
      assert file == p + file[|p|..];
    } else if |p| <= |file| {
      assert WriteAt(file, 0, p)[..|p|] == p;
    }
  }

  lemma PlainFrameOpens(fileId: string, r: Record, count: UInt32, p: Bytes)
    requires r.sessionKey == None
    ensures var i := OnChunk(fileId, Intake(r, [], 0, count, [], []), PlainFrame(p), Whole, 0);
            i.written == p && i.record.state == r.state && i.completes == []
    ensures !HasFlag(PlainFrame(p).flags, FLAG_FIN) && HasFlag(PlainFrame(p).flags, FLAG_DATA)
  {
  }

  lemma TapWrites(w: Hub, p: Bytes)
    requires w.taps != [] && w.taps[0] == Tap(w.taps[0].opener, None, 0, 0, Live)
    requires w.net.base.rcv.Some? && w.net.base.rcv.value.sessionKey == None
    ensures var b, b' := w.net.base, StepHub(w, TapFrame(0, PlainFrame(p), Whole, true, 0)).net.base;
            && b'.written == WriteAt(b.written, 0, p) && b'.snd == b.snd
            && b'.rcv.Some? && b'.rcv.value.state == b.rcv.value.state
  {
    PlainFrameOpens(w.net.base.src.fileId, w.net.base.rcv.value, 0, p);
    var a := TapFrame(0, PlainFrame(p), Whole, true, 0);
    assert StepHub(w, a) == StepTapFrame(w, a);
  }

  lemma NoOffersLifted(acts: seq<Action>)
    requires forall a :: a in acts ==> !a.DeliverOffer?
    ensures forall act :: act in LiftedAll(acts) ==> !(act.Deliver? && act.mail.body.MOffer?)
  {
    forall act | act in LiftedAll(acts) ensures !(act.Deliver? && act.mail.body.MOffer?) {
      var i :| 0 <= i < |acts| && act == Lifted(acts[i]);
      assert acts[i] in acts;
    }
  }

  /** A transfer that goes through while a third party's channel is open. */
  lemma SilentChannel(w: Hub, other: string, k: Option<Key>) returns (moves: seq<Move>)
    requires Private(w.net) && InOrder(w) && w.taps == [Tap(other, None, 0, 0, Live)]
    requires P.Hopeful(w.net.base, k) && w.net.base.rcv.Some?
    ensures ProperRun(w, moves)
    ensures var w' := RunHub(w, moves);
            && P.Complete(w'.net.base) && w'.net.base.src == w.net.base.src && w'.taps == w.taps
            && w'.net.base.rcv.value.sessionKey == k
  {
    var acts := P.RunToTheEnd(w.net.base, k);
    moves := Plains(LiftedAll(acts));
    RunIsLifted(w.net, acts);
    NoOffersLifted(acts);
    RunPlains(w, LiftedAll(acts));
  }

  /** And without a session key such a channel, opened while nothing had been written, changes the
      output after both sides are Done, to anything at all: the output is still the file exactly if
      the bytes written are a prefix of it. Again opening the channel is the only improper step. */
  lemma StrangeChannelOverwrites(src: Source, other: string, p: Bytes) returns (before: seq<Move>, after: seq<Move>)
    requires Outside(other)
    ensures ProperRun(Begin(src), before)
    ensures ProperRun(RunHub(Begin(src), before + [OpenTap(other, true, 0)]),
                      after + [TapFrame(0, PlainFrame(p), Whole, true, 0)])
    ensures var w := RunHub(RunHub(Begin(src), before + [OpenTap(other, true, 0)]), after);
            var b, b' := w.net.base, StepHub(w, TapFrame(0, PlainFrame(p), Whole, true, 0)).net.base;
            && b.src == src && P.Complete(b)
            && b'.snd == b.snd && b'.rcv.Some? && b'.rcv.value.state == Done && b'.written == WriteAt(src.file, 0, p)
            && (b'.written == src.file <==> p <= src.file)
  {
    var open, frame := OpenTap(other, true, 0), TapFrame(0, PlainFrame(p), Whole, true, 0);
    before := HandshakeAmongOthers(src, None);
    var w := RunHub(Begin(src), before);
    RunHubAppend(Begin(src), before, [open]);
    RunHubOn(w, open, []);
    assert [open] + [] == [open];
    var w1 := w.(taps := [Tap(other, None, 0, 0, Live)]);
    assert StepHub(w, open) == w1;
    after := SilentChannel(w1, other, None);
    RunHubAppend(w1, after, [frame]);
    TapWrites(RunHub(w1, after), p);
    OverwrittenExactly(src.file, p);
  }
}
