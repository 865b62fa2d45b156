/** What the offline cache delivers, told by the history of the run (transport/message_cache.go). */
module CacheDelivery {
  import opened Basics
  import opened MessageCache

  /** A message that was accepted for some destination, and when. */
  datatype Sent = Sent(env: string, at: int)

  /** The messages accepted for a destination since it was last flushed, in the order they came. A
      message is accepted while fewer than ten thousand are queued. */
  ghost function Noted(h: seq<Sent>, t: Trace, op: Op, dest: string): seq<Sent> {
    match op
    case Enqueue(d, env, now) => if d == dest && Total(t.queues) < 10000 then h + [Sent(env, now)] else h
    case Flush(d, _) => if d == dest then [] else h
    case Clean(_) => h
  }

  ghost function AcceptedFor(t: Trace, ttl: int, ops: seq<Op>, dest: string, h: seq<Sent>): seq<Sent>
    decreases |ops|
  {
    if ops == [] then h else AcceptedFor(Step(t, ttl, ops[0]), ttl, ops[1..], dest, Noted(h, t, ops[0], dest))
  }

  function LastHundred(h: seq<Sent>): seq<Sent> {
    if |h| <= 100 then h else h[|h| - 100..]
  }

  /** The envelopes that have not outlived ttl, in order. */
  function Deliverable(h: seq<Sent>, ttl: int, now: int): seq<string> {
    if h == [] then []
    else (if now < h[0].at + ttl then [h[0].env] else []) + Deliverable(h[1..], ttl, now)
  }

  // ---- What every step keeps -------------------------------------------------------------

  function Messages(h: seq<Sent>, ttl: int): seq<Message> {
    seq(|h|, i requires 0 <= i < |h| => Message(h[i].env, h[i].at, h[i].at + ttl))
  }

  predicate InOrder(h: seq<Sent>, now: int) {
    && (forall i :: 0 <= i < |h| ==> h[i].at <= now)
    && forall i, j :: 0 <= i < j < |h| ==> h[i].at <= h[j].at
  }

  lemma MessagesPushed(h: seq<Sent>, s: Sent, ttl: int)
    ensures Messages(LastHundred(h + [s]), ttl) == Pushed(Messages(LastHundred(h), ttl), Message(s.env, s.at, s.at + ttl))
  {
  }

  lemma {:induction false} DeliverableIsLive(h: seq<Sent>, ttl: int, now: int)
    ensures Envelopes(Live(Messages(h, ttl), now)) == Deliverable(h, ttl, now)
  {
    if h != [] {
      DeliverableIsLive(h[1..], ttl, now);
      assert Messages(h, ttl)[1..] == Messages(h[1..], ttl);
      EnvelopesCons(Messages(h, ttl)[0], Live(Messages(h[1..], ttl), now));
    }
  }

  lemma EnvelopesCons(m: Message, rest: seq<Message>)
    ensures Envelopes([m] + rest) == [m.env] + Envelopes(rest)
  {
  }

  /** The queue is what the history says, but for expired messages that a sweep has removed from its
      head. */
  predicate Queued(queue: seq<Message>, h: seq<Sent>, ttl: int, now: int) {
    InOrder(h, now) && Trimmed(queue, Messages(LastHundred(h), ttl), now)
  }

  lemma TrimmedLater(short: seq<Message>, long: seq<Message>, now: int, later: int)
    requires Trimmed(short, long, now) && now <= later
    ensures Trimmed(short, long, later)
  {
  }

  lemma AcceptedQueued(queue: seq<Message>, h: seq<Sent>, s: Sent, ttl: int)
    requires Queued(queue, h, ttl, s.at)
    ensures Queued(Pushed(queue, Message(s.env, s.at, s.at + ttl)), h + [s], ttl, s.at)
  {
    MessagesPushed(h, s, ttl);
    PushTrimmed(queue, Messages(LastHundred(h), ttl), Message(s.env, s.at, s.at + ttl), s.at);
  }

  lemma EnqueueQueued(t: Trace, ttl: int, op: Op, dest: string, h: seq<Sent>)
    requires op.Enqueue? && Queued(QueueOf(t.queues, dest), h, ttl, op.now)
    ensures Queued(QueueOf(Step(t, ttl, op).queues, dest), Noted(h, t, op, dest), ttl, op.now)
  {
    if op.dest == dest && Total(t.queues) < 10000 {
      AcceptedQueued(QueueOf(t.queues, dest), h, Sent(op.env, op.now), ttl);
    } else {
      NotAccepted(t, ttl, op, dest);
    }
  }

  lemma NotAccepted(t: Trace, ttl: int, op: Op, dest: string)
    requires op.Enqueue? && (op.dest != dest || Total(t.queues) >= 10000)
    ensures QueueOf(Step(t, ttl, op).queues, dest) == QueueOf(t.queues, dest)
  {
  }

  lemma CleanQueued(t: Trace, ttl: int, now: int, dest: string, h: seq<Sent>)
    requires Queued(QueueOf(t.queues, dest), h, ttl, now)
    ensures Queued(QueueOf(Step(t, ttl, Clean(now)).queues, dest), h, ttl, now)
  {
    var queue, long := QueueOf(t.queues, dest), Messages(LastHundred(h), ttl);
    assert Sorted(long) && Sorted(queue);
    LiveOfSorted(queue, now);
    TrimmedTwice(Live(queue, now), queue, long, now);
    assert QueueOf(Step(t, ttl, Clean(now)).queues, dest) == Live(queue, now);
  }

  lemma StepQueued(t: Trace, ttl: int, op: Op, dest: string, h: seq<Sent>)
    requires Queued(QueueOf(t.queues, dest), h, ttl, op.now)
    ensures Queued(QueueOf(Step(t, ttl, op).queues, dest), Noted(h, t, op, dest), ttl, op.now)
  {
    match op
    case Enqueue(_, _, _) => EnqueueQueued(t, ttl, op, dest, h);
    case Clean(now) => CleanQueued(t, ttl, now, dest, h);
    case Flush(_, _) =>
  }

  lemma {:induction false} RunQueued(t: Trace, ttl: int, ops: seq<Op>, dest: string, h: seq<Sent>, since: int, now: int)
    requires Queued(QueueOf(t.queues, dest), h, ttl, since) && Clocked(ops + [Flush(dest, now)], since)
    ensures Queued(QueueOf(Run(t, ttl, ops).queues, dest), AcceptedFor(t, ttl, ops, dest, h), ttl, now)
    decreases |ops|
  {
    if ops == [] {
      TrimmedLater(QueueOf(t.queues, dest), Messages(LastHundred(h), ttl), since, now);
    } else {
      var at := ops[0].now;
      assert (ops + [Flush(dest, now)])[1..] == ops[1..] + [Flush(dest, now)];
      TrimmedLater(QueueOf(t.queues, dest), Messages(LastHundred(h), ttl), since, at);
      StepQueued(t, ttl, ops[0], dest, h);
      RunQueued(Step(t, ttl, ops[0]), ttl, ops[1..], dest, Noted(h, t, ops[0], dest), at, now);
    }
  }

  // ---- The law ---------------------------------------------------------------------------

  /** In every run with a monotone clock, sweeps or not, a flush returns the envelopes that were accepted
      for the destination since it was last flushed, in the order they came, except those that have
      outlived ttl and those with a hundred later ones. */
  lemma FlushReturns(ttl: int, ops: seq<Op>, dest: string, now: int, since: int)
    requires Clocked(ops + [Flush(dest, now)], since)
    ensures var t := Run(EMPTY, ttl, ops);
            Step(t, ttl, Flush(dest, now)).flushed ==
              t.flushed + [Deliverable(LastHundred(AcceptedFor(EMPTY, ttl, ops, dest, [])), ttl, now)]
  {
    var t, h := Run(EMPTY, ttl, ops), AcceptedFor(EMPTY, ttl, ops, dest, []);
    RunQueued(EMPTY, ttl, ops, dest, [], since, now);
    LiveOfTrimmed(QueueOf(t.queues, dest), Messages(LastHundred(h), ttl), now);
    DeliverableIsLive(LastHundred(h), ttl, now);
  }

  /** Without sweeps the clock may run as it likes. */
  lemma {:induction false} RunQueuedUnswept(t: Trace, ttl: int, ops: seq<Op>, dest: string, h: seq<Sent>)
    requires QueueOf(t.queues, dest) == Messages(LastHundred(h), ttl) && WithoutCleaning(ops) == ops
    ensures QueueOf(Run(t, ttl, ops).queues, dest) == Messages(LastHundred(AcceptedFor(t, ttl, ops, dest, h)), ttl)
    decreases |ops|
  {
    if ops != [] {
      UnsweptTail(ops);
      if ops[0].Enqueue? && ops[0].dest == dest {
        MessagesPushed(h, Sent(ops[0].env, ops[0].now), ttl);
      }
      RunQueuedUnswept(Step(t, ttl, ops[0]), ttl, ops[1..], dest, Noted(h, t, ops[0], dest));
    }
  }

  lemma {:induction false} UnsweptIsShorter(ops: seq<Op>)
    ensures |WithoutCleaning(ops)| <= |ops|
  {
    if ops != [] {
      UnsweptIsShorter(ops[1..]);
    }
  }

  lemma UnsweptTail(ops: seq<Op>)
    requires WithoutCleaning(ops) == ops && ops != []
    ensures !ops[0].Clean? && WithoutCleaning(ops[1..]) == ops[1..]
  {
    UnsweptIsShorter(ops[1..]);
    assert ops == [ops[0]] + ops[1..];
  }

  lemma FlushReturnsUnswept(ttl: int, ops: seq<Op>, dest: string, now: int)
    requires WithoutCleaning(ops) == ops
    ensures var t := Run(EMPTY, ttl, ops);
            Step(t, ttl, Flush(dest, now)).flushed ==
              t.flushed + [Deliverable(LastHundred(AcceptedFor(EMPTY, ttl, ops, dest, [])), ttl, now)]
  {
    RunQueuedUnswept(EMPTY, ttl, ops, dest, []);
    DeliverableIsLive(LastHundred(AcceptedFor(EMPTY, ttl, ops, dest, [])), ttl, now);
  }
}
