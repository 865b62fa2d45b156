/** What an outbox sweep keeps, drops and retries, told by the history of the run: when each entry was
    appended and expires, when sweeps began, when retries were recorded (transport/mailbox.go). */
module OutboxHistory {
  import opened Basics
  import opened Outbox

  /** Sweeps are numbered by their place in sweeps, which holds the times they began. appendedFrom and
      confirmedFrom say which sweep was the next one then; sweepOf, which one each attempt of the log
      belongs to. */
  datatype Past = Past(
    expiry: map<string, int>,
    appendedFrom: map<string, nat>,
    confirmedFrom: map<string, nat>,         // confirmations that found their entry
    sweeps: seq<int>,
    droppedBy: map<string, nat>,
    recordedAt: map<string, int>,            // when the latest retry was recorded
    sweepOf: seq<int>)

  const NOTHING := Past(map[], map[], map[], [], map[], map[], [])

  /** The history after a step from w. */
  function Noted(w: World, p: Past, a: Action): Past {
    match a
    case Append(id, ttl) =>
      if id in w.appendedAt then p
      else p.(expiry := p.expiry[id := w.now + ttl], appendedFrom := p.appendedFrom[id := |p.sweeps|])
    case Confirm(id) =>
      if Live(w.outbox, id) && id !in w.confirmed then p.(confirmedFrom := p.confirmedFrom[id := |p.sweeps|]) else p
    case BeginSweep =>
      if !w.sweep.Idle? then p
      else
        var before, after := Table(w.outbox), Table(Step(w, a).outbox);
        p.(sweeps := p.sweeps + [w.now],
           droppedBy := p.droppedBy + map id | id in before && id !in after :: |p.sweeps|)
    case TrySend =>
      if !w.sweep.Retrying? || w.sweep.sent || w.sweep.todo == [] then p
      else p.(sweepOf := p.sweepOf + [|p.sweeps| - 1])
    case RecordRetry =>
      if !w.sweep.Retrying? || !w.sweep.sent || w.sweep.todo == [] then p
      else p.(recordedAt := p.recordedAt[w.sweep.todo[0] := w.now])
    case Wait(_) => p
  }

  function History(w: World, p: Past, acts: seq<Action>): Past
    decreases |acts|
  {
    if acts == [] then p else History(Step(w, acts[0]), Noted(w, p, acts[0]), acts[1..])
  }

  /** The number of attempts for an entry. */
  function Attempts(log: seq<Attempt>, id: string): nat {
    if log == [] then 0
    else Attempts(log[..|log| - 1], id) + if log[|log| - 1].id == id then 1 else 0
  }

  // ---- What every step keeps -------------------------------------------------------------

  /** Every sweep since the entry was appended, up to the given one, began no later than it expires. */
  ghost predicate InTime(p: Past, id: string, upTo: int) {
    && id in p.expiry && id in p.appendedFrom && p.appendedFrom[id] <= upTo <= |p.sweeps|
    && forall i :: p.appendedFrom[id] <= i < upTo ==> p.sweeps[i] <= p.expiry[id]
  }

  ghost predicate Known(v: View, p: Past) {
    && p.expiry.Keys == v.appendedAt.Keys && p.appendedFrom.Keys == v.appendedAt.Keys
    && p.confirmedFrom.Keys == v.confirmed && p.droppedBy.Keys == v.dropped.Keys
    && |p.sweepOf| == |v.log| && (v.sweep.Retrying? ==> p.sweeps != [])
  }

  /** When the next retry of an entry is due. */
  predicate DueRightly(p: Past, e: Entry, appended: int) {
    if e.retries == 0 then e.nextRetryAt == appended + RETRY_BASE
    else e.id in p.recordedAt && e.nextRetryAt == p.recordedAt[e.id] + Delay(e.retries)
  }

  ghost predicate LiveRightly(v: View, p: Past, id: string)
    requires id in v.table && id in v.appendedAt
  {
    var e := v.table[id];
    && InTime(p, id, |p.sweeps|) && e.expiresAt == p.expiry[id]
    && (id in v.confirmed ==> id in p.confirmedFrom && p.confirmedFrom[id] == |p.sweeps|)
    && Attempts(v.log, id) == e.retries + (if InProgress(v.sweep, id) then 1 else 0)
    && DueRightly(p, e, v.appendedAt[id])
  }

  /** Why and when an entry was dropped. */
  ghost predicate GoneRightly(v: View, p: Past, id: string)
    requires id in v.dropped
  {
    && id in p.droppedBy && InTime(p, id, p.droppedBy[id]) && p.droppedBy[id] < |p.sweeps|
    && (id in v.confirmed ==> id in p.confirmedFrom && p.confirmedFrom[id] == p.droppedBy[id])
    && (v.dropped[id] == WasExpired <==> id !in v.confirmed && p.sweeps[p.droppedBy[id]] > p.expiry[id])
    && (v.dropped[id] == WasExhausted ==> Attempts(v.log, id) == MAX_RETRIES)
  }

  /** The sweep an attempt belongs to, or one in progress, began after the entry was appended and no
      later than the entry expires. */
  predicate SweptInTime(p: Past, id: string, n: int) {
    && id in p.expiry && id in p.appendedFrom
    && p.appendedFrom[id] <= n < |p.sweeps| && p.sweeps[n] <= p.expiry[id]
  }

  ghost predicate LiveOnes(v: View, p: Past) {
    forall id :: id in v.table && id in v.appendedAt ==> LiveRightly(v, p, id)
  }

  ghost predicate GoneOnes(v: View, p: Past) {
    forall id :: id in v.dropped ==> GoneRightly(v, p, id)
  }

  ghost predicate AttemptsInTime(v: View, p: Past) {
    && (forall j :: 0 <= j < |v.log| && j < |p.sweepOf| ==> SweptInTime(p, v.log[j].id, p.sweepOf[j]))
    && (v.sweep.Retrying? ==>
          forall k :: 0 <= k < |v.sweep.todo| ==> SweptInTime(p, v.sweep.todo[k], |p.sweeps| - 1))
  }

  ghost predicate PastInv(v: View, p: Past) {
    Known(v, p) && LiveOnes(v, p) && GoneOnes(v, p) && AttemptsInTime(v, p)
  }

  lemma {:induction false} NoAttempts(log: seq<Attempt>, id: string)
    requires forall j :: 0 <= j < |log| ==> log[j].id != id
    ensures Attempts(log, id) == 0
  {
    if log != [] {
      NoAttempts(log[..|log| - 1], id);
    }
  }

  lemma AttemptsNext(log: seq<Attempt>, a: Attempt, id: string)
    ensures Attempts(log + [a], id) == Attempts(log, id) + if a.id == id then 1 else 0
  {
    assert (log + [a])[..|log|] == log;
  }

  /** The entry is not the one a sweep or an attempt is about. */
  ghost predicate Unheard(v: View, id: string) {
    && id !in v.table && id !in v.dropped && id !in v.confirmed
    && (forall j :: 0 <= j < |v.log| ==> v.log[j].id != id)
    && (v.sweep.Retrying? ==> id !in v.sweep.todo)
  }

  lemma NewIsUnheard(v: View, id: string)
    requires Accounted(v) && Remembered(v) && Sweeping(v) && Timed(v) && id !in v.appendedAt
    ensures Unheard(v, id)
  {
  }

  function Appended(v: View, id: string, ttl: int): View {
    v.(table := v.table[id := NewEntry(id, ttl, v.now)], appendedAt := v.appendedAt[id := v.now])
  }

  function AppendedPast(v: View, p: Past, id: string, ttl: int): Past {
    p.(expiry := p.expiry[id := v.now + ttl], appendedFrom := p.appendedFrom[id := |p.sweeps|])
  }

  lemma AppendedLive(v: View, p: Past, id: string, ttl: int, e: string)
    requires PastInv(v, p) && Unheard(v, id) && e in Appended(v, id, ttl).table && (e == id || e in v.appendedAt)
    ensures LiveRightly(Appended(v, id, ttl), AppendedPast(v, p, id, ttl), e)
  {
    if e == id {
      NoAttempts(v.log, id);
    } else {
      assert LiveRightly(v, p, e);
    }
  }

  lemma AppendedGone(v: View, p: Past, id: string, ttl: int, e: string)
    requires e in v.dropped && e != id && GoneRightly(v, p, e)
    ensures GoneRightly(Appended(v, id, ttl), AppendedPast(v, p, id, ttl), e)
  {
  }

  lemma AppendedRest(v: View, p: Past, id: string, ttl: int)
    requires PastInv(v, p) && Unheard(v, id) && id !in v.appendedAt
    ensures var v', p' := Appended(v, id, ttl), AppendedPast(v, p, id, ttl);
            Known(v', p') && GoneOnes(v', p') && AttemptsInTime(v', p')
  {
    var v', p' := Appended(v, id, ttl), AppendedPast(v, p, id, ttl);
    forall e | e in v'.dropped ensures GoneRightly(v', p', e) {
      AppendedGone(v, p, id, ttl, e);
    }
  }

  lemma AppendNoted(v: View, p: Past, id: string, ttl: int, v': View, p': Past)
    requires Accounted(v) && Remembered(v) && Sweeping(v) && Timed(v) && PastInv(v, p) && id !in v.appendedAt
    requires v' == Appended(v, id, ttl) && p' == AppendedPast(v, p, id, ttl)
    ensures PastInv(v', p')
  {
    NewIsUnheard(v, id);
    AppendedRest(v, p, id, ttl);
    forall e | e in v'.table && e in v'.appendedAt ensures LiveRightly(v', p', e) {
      AppendedLive(v, p, id, ttl, e);
    }
  }

  function Confirmed(v: View, id: string): View
    requires id in v.table
  {
    v.(table := v.table[id := v.table[id].(confirmed := true)], confirmed := v.confirmed + {id})
  }

  function ConfirmedPast(v: View, p: Past, id: string): Past {
    if id in v.confirmed then p else p.(confirmedFrom := p.confirmedFrom[id := |p.sweeps|])
  }

  lemma ConfirmedLive(v: View, p: Past, id: string, e: string)
    requires id in v.table && e in v.table && e in v.appendedAt && v.table[e].id == e && LiveRightly(v, p, e)
    ensures LiveRightly(Confirmed(v, id), ConfirmedPast(v, p, id), e)
  {
  }

  lemma ConfirmedGone(v: View, p: Past, id: string, e: string)
    requires id in v.table && e != id && e in v.dropped && GoneRightly(v, p, e)
    ensures GoneRightly(Confirmed(v, id), ConfirmedPast(v, p, id), e)
  {
  }

  lemma ConfirmedRest(v: View, p: Past, id: string)
    requires PastInv(v, p) && id in v.table && id !in v.dropped
    ensures var v', p' := Confirmed(v, id), ConfirmedPast(v, p, id);
            Known(v', p') && GoneOnes(v', p') && AttemptsInTime(v', p')
  {
    forall e | e in v.dropped ensures GoneRightly(Confirmed(v, id), ConfirmedPast(v, p, id), e) {
      ConfirmedGone(v, p, id, e);
    }
  }

  lemma ConfirmNoted(v: View, p: Past, id: string)
    requires ViewInv(v) && PastInv(v, p) && id in v.table
    ensures PastInv(Confirmed(v, id), ConfirmedPast(v, p, id))
  {
    ConfirmedRest(v, p, id);
    forall e | e in v.table && e in v.appendedAt ensures LiveRightly(Confirmed(v, id), ConfirmedPast(v, p, id), e) {
      ConfirmedLive(v, p, id, e);
    }
  }

  function SweptPast(v: View, v': View, p: Past): Past {
    p.(sweeps := p.sweeps + [v.now], droppedBy := p.droppedBy + map id | id in v.table && id !in v'.table :: |p.sweeps|)
  }

  lemma SweptKnown(v: View, p: Past, due: seq<string>)
    requires Accounted(v) && Known(v, p)
    ensures Known(Swept(v, due), SweptPast(v, Swept(v, due), p))
  {
    assert SweptPast(v, Swept(v, due), p).droppedBy.Keys == Swept(v, due).dropped.Keys;
  }

  lemma SweptAttempts(v: View, p: Past, due: seq<string>)
    requires Accounted(v) && PastInv(v, p) && v.sweep.Idle? && DueIds(v, due)
    ensures AttemptsInTime(Swept(v, due), SweptPast(v, Swept(v, due), p))
  {
    var p' := SweptPast(v, Swept(v, due), p);
    forall id | id in due ensures SweptInTime(p', id, |p'.sweeps| - 1) {
      assert LiveRightly(v, p, id);
    }
  }

  lemma SweptLive(v: View, p: Past, due: seq<string>, id: string)
    requires v.sweep.Idle? && id in Swept(v, due).table && id in v.appendedAt && LiveRightly(v, p, id)
    requires v.table[id].confirmed <==> id in v.confirmed
    ensures LiveRightly(Swept(v, due), SweptPast(v, Swept(v, due), p), id)
  {
  }

  lemma SweptGone(v: View, p: Past, due: seq<string>, id: string)
    requires v.sweep.Idle? && id in v.table && id !in v.dropped && id in Swept(v, due).dropped
    requires id in v.appendedAt && LiveRightly(v, p, id) && v.table[id].retries <= MAX_RETRIES
    requires v.table[id].confirmed <==> id in v.confirmed
    ensures GoneRightly(Swept(v, due), SweptPast(v, Swept(v, due), p), id)
  {
  }

  lemma SweptStaysGone(v: View, p: Past, due: seq<string>, id: string)
    requires id in v.dropped && id !in v.table && GoneRightly(v, p, id)
    ensures GoneRightly(Swept(v, due), SweptPast(v, Swept(v, due), p), id)
  {
  }

  lemma SweepNoted(v: View, p: Past, due: seq<string>)
    requires ViewInv(v) && PastInv(v, p) && v.sweep.Idle? && DueIds(v, due)
    ensures PastInv(Swept(v, due), SweptPast(v, Swept(v, due), p))
  {
    var v', p' := Swept(v, due), SweptPast(v, Swept(v, due), p);
    SweptKnown(v, p, due);
    SweptAttempts(v, p, due);
    forall id | id in v'.table && id in v'.appendedAt ensures LiveRightly(v', p', id) {
      SweptLive(v, p, due, id);
    }
    forall id | id in v'.dropped ensures GoneRightly(v', p', id) {
      if id in v.dropped {
        SweptStaysGone(v, p, due, id);
      } else {
        SweptGone(v, p, due, id);
      }
    }
  }

  function TriedPast(p: Past): Past {
    p.(sweepOf := p.sweepOf + [|p.sweeps| - 1])
  }

  lemma TriedLive(v: View, p: Past, id: string)
    requires v.sweep.Retrying? && !v.sweep.sent && v.sweep.todo != [] && v.sweep.todo[0] in v.table
    requires id in v.table && id in v.appendedAt && LiveRightly(v, p, id)
    ensures LiveRightly(Tried(v), TriedPast(p), id)
  {
    AttemptsNext(v.log, Tried(v).log[|v.log|], id);
  }

  lemma TriedGone(v: View, p: Past, id: string)
    requires v.sweep.Retrying? && !v.sweep.sent && v.sweep.todo != [] && v.sweep.todo[0] in v.table
    requires id in v.dropped && id !in v.table && GoneRightly(v, p, id)
    ensures GoneRightly(Tried(v), TriedPast(p), id)
  {
    AttemptsNext(v.log, Tried(v).log[|v.log|], id);
  }

  lemma TriedRest(v: View, p: Past)
    requires v.sweep.Retrying? && !v.sweep.sent && v.sweep.todo != [] && v.sweep.todo[0] in v.table
    requires Known(v, p) && AttemptsInTime(v, p)
    ensures Known(Tried(v), TriedPast(p)) && AttemptsInTime(Tried(v), TriedPast(p))
  {
  }

  lemma TryNoted(v: View, p: Past)
    requires ViewInv(v) && PastInv(v, p) && v.sweep.Retrying? && !v.sweep.sent
    ensures PastInv(Tried(v), TriedPast(p))
  {
    TriedRest(v, p);
    forall id | id in v.table && id in v.appendedAt ensures LiveRightly(Tried(v), TriedPast(p), id) {
      TriedLive(v, p, id);
    }
    forall id | id in v.dropped ensures GoneRightly(Tried(v), TriedPast(p), id) {
      TriedGone(v, p, id);
    }
  }

  function RetriedView(v: View): View
    requires v.sweep.Retrying? && v.sweep.todo != [] && v.sweep.todo[0] in v.table
  {
    var id := v.sweep.todo[0];
    v.(table := v.table[id := Retried(v.table[id], v.now)], sweep := NextSweep(v.sweep.todo[1..]))
  }

  lemma RetriedLive(v: View, p: Past, id: string)
    requires v.sweep.Retrying? && v.sweep.sent && v.sweep.todo != [] && v.sweep.todo[0] in v.table
    requires id in v.table && id in v.appendedAt && v.table[id].id == id && LiveRightly(v, p, id)
    ensures LiveRightly(RetriedView(v), p.(recordedAt := p.recordedAt[v.sweep.todo[0] := v.now]), id)
  {
  }

  lemma RetriedRest(v: View, p: Past)
    requires v.sweep.Retrying? && v.sweep.sent && v.sweep.todo != [] && v.sweep.todo[0] in v.table
    requires PastInv(v, p)
    ensures var v', p' := RetriedView(v), p.(recordedAt := p.recordedAt[v.sweep.todo[0] := v.now]);
            Known(v', p') && GoneOnes(v', p') && AttemptsInTime(v', p')
  {
    var v', p' := RetriedView(v), p.(recordedAt := p.recordedAt[v.sweep.todo[0] := v.now]);
    forall e | e in v'.dropped ensures GoneRightly(v', p', e) {
      assert GoneRightly(v, p, e);
    }
  }

  lemma RetryNoted(v: View, p: Past)
    requires ViewInv(v) && PastInv(v, p) && v.sweep.Retrying? && v.sweep.sent
    ensures PastInv(RetriedView(v), p.(recordedAt := p.recordedAt[v.sweep.todo[0] := v.now]))
  {
    var v', p' := RetriedView(v), p.(recordedAt := p.recordedAt[v.sweep.todo[0] := v.now]);
    RetriedRest(v, p);
    forall id | id in v'.table && id in v'.appendedAt ensures LiveRightly(v', p', id) {
      RetriedLive(v, p, id);
    }
  }

  lemma AppendView(w: World, id: string, ttl: int)
    requires Distinct(w.outbox) && Accounted(ViewOf(w)) && id !in w.appendedAt
    ensures ViewOf(Step(w, Append(id, ttl))) == Appended(ViewOf(w), id, ttl)
  {
    TableOf(w.outbox);
    TableAppend(w.outbox, NewEntry(id, ttl, w.now));
  }

  lemma NotedAppend(w: World, p: Past, id: string, ttl: int)
    requires Inv(w) && PastInv(ViewOf(w), p)
    ensures PastInv(ViewOf(Step(w, Append(id, ttl))), Noted(w, p, Append(id, ttl)))
  {
    var w', p' := Step(w, Append(id, ttl)), Noted(w, p, Append(id, ttl));
    if id in w.appendedAt {
      assert w' == w && p' == p;
    } else {
      AppendView(w, id, ttl);
      AppendNoted(ViewOf(w), p, id, ttl, ViewOf(w'), p');
    }
  }

  lemma NotedConfirm(w: World, p: Past, id: string)
    requires Inv(w) && PastInv(ViewOf(w), p)
    ensures PastInv(ViewOf(Step(w, Confirm(id))), Noted(w, p, Confirm(id)))
  {
    TableOf(w.outbox);
    TableConfirm(w.outbox, id);
    if Live(w.outbox, id) {
      ConfirmNoted(ViewOf(w), p, id);
      assert w.confirmed + {id} == if id in w.confirmed then w.confirmed else w.confirmed + {id};
    }
  }

  lemma SweepView(w: World)
    requires Inv(w) && w.sweep.Idle?
    ensures ViewOf(Step(w, BeginSweep)) == Swept(ViewOf(w), Due(w.outbox, w.now)) && DueIds(ViewOf(w), Due(w.outbox, w.now))
  {
    TableRemaining(w.outbox, w.now);
    TableDue(w.outbox, w.now);
    TableDropping(w.dropped, w.outbox, w.now);
  }

  lemma NotedSweep(w: World, p: Past)
    requires Inv(w) && PastInv(ViewOf(w), p)
    ensures PastInv(ViewOf(Step(w, BeginSweep)), Noted(w, p, BeginSweep))
  {
    if w.sweep.Idle? {
      SweepView(w);
      SweepNoted(ViewOf(w), p, Due(w.outbox, w.now));
    }
  }

  lemma NotedTry(w: World, p: Past)
    requires Inv(w) && PastInv(ViewOf(w), p)
    ensures PastInv(ViewOf(Step(w, TrySend)), Noted(w, p, TrySend))
  {
    if w.sweep.Retrying? && !w.sweep.sent {
      TrySendView(w);
      TryNoted(ViewOf(w), p);
    }
  }

  lemma NotedRetry(w: World, p: Past)
    requires Inv(w) && PastInv(ViewOf(w), p)
    ensures PastInv(ViewOf(Step(w, RecordRetry)), Noted(w, p, RecordRetry))
  {
    if w.sweep.Retrying? && w.sweep.sent {
      TableRetry(w.outbox, w.sweep.todo[0], w.now);
      RetryNoted(ViewOf(w), p);
    }
  }

  lemma NotedWait(w: World, p: Past, d: nat)
    requires PastInv(ViewOf(w), p)
    ensures PastInv(ViewOf(Step(w, Wait(d))), p)
  {
    var v, v' := ViewOf(w), ViewOf(Step(w, Wait(d)));
    assert v' == v.(now := w.now + d);
    forall id | id in v'.table && id in v'.appendedAt ensures LiveRightly(v', p, id) {
      assert LiveRightly(v, p, id);
    }
    forall id | id in v'.dropped ensures GoneRightly(v', p, id) {
      assert GoneRightly(v, p, id);
    }
  }

  lemma EntryNoted(w: World, p: Past, a: Action)
    requires Inv(w) && PastInv(ViewOf(w), p) && (a.Append? || a.Confirm? || a.Wait?)
    ensures PastInv(ViewOf(Step(w, a)), Noted(w, p, a))
  {
    match a
    case Append(id, ttl) => NotedAppend(w, p, id, ttl);
    case Confirm(id) => NotedConfirm(w, p, id);
    case Wait(d) => NotedWait(w, p, d);
  }

  lemma StepNoted(w: World, p: Past, a: Action)
    requires Inv(w) && PastInv(ViewOf(w), p)
    ensures PastInv(ViewOf(Step(w, a)), Noted(w, p, a))
  {
    match a
    case BeginSweep => NotedSweep(w, p);
    case TrySend => NotedTry(w, p);
    case RecordRetry => NotedRetry(w, p);
    case _ => EntryNoted(w, p, a);
  }

  lemma {:induction false} RunNoted(w: World, p: Past, acts: seq<Action>)
    requires Inv(w) && PastInv(ViewOf(w), p)
    ensures Inv(Run(w, acts)) && PastInv(ViewOf(Run(w, acts)), History(w, p, acts))
    decreases |acts|
  {
    if acts != [] {
      StepKeepsInv(w, acts[0]);
      StepNoted(w, p, acts[0]);
      RunNoted(Step(w, acts[0]), Noted(w, p, acts[0]), acts[1..]);
    }
  }

  // ---- The laws --------------------------------------------------------------------------

  /** Over every run:
      - a live entry has seen no sweep past its expiry;
      - no attempt is made in a sweep that began past the expiry of its entry, or before the entry was
        appended;
      - an entry is dropped as expired if and only if it is unconfirmed and the sweep that drops it is
        the first that began past its expiry;
      - one dropped as exhausted is unconfirmed, has not expired, and has had ten attempts;
      - a confirmed entry is dropped by the first sweep after the confirmation. */
  lemma ExpiryDiscipline(start: int, acts: seq<Action>)
    ensures var w, p := Run(Init(start), acts), History(Init(start), NOTHING, acts);
            && (forall id :: Live(w.outbox, id) ==> InTime(p, id, |p.sweeps|))
            && |p.sweepOf| == |w.log|
            && (forall j :: 0 <= j < |w.log| ==> SweptInTime(p, w.log[j].id, p.sweepOf[j]))
            && (forall id :: id in w.dropped ==>
                  && id in p.droppedBy && InTime(p, id, p.droppedBy[id]) && p.droppedBy[id] < |p.sweeps|
                  && (w.dropped[id] == WasExpired <==> id !in w.confirmed && p.sweeps[p.droppedBy[id]] > p.expiry[id])
                  && (w.dropped[id] == WasExhausted ==> id !in w.confirmed && Attempts(w.log, id) == 10))
            && (forall id :: id in w.dropped && id in w.confirmed ==>
                  id in p.confirmedFrom && p.confirmedFrom[id] == p.droppedBy[id])
  {
    var w, p := Run(Init(start), acts), History(Init(start), NOTHING, acts);
    RunNoted(Init(start), NOTHING, acts);
    TableOf(w.outbox);
    forall id | Live(w.outbox, id) ensures InTime(p, id, |p.sweeps|) {
      assert LiveRightly(ViewOf(w), p, id);
    }
    forall id | id in w.dropped ensures GoneRightly(ViewOf(w), p, id) {
    }
  }

  predicate Listed(w: World, id: string) {
    w.sweep.Retrying? && id in w.sweep.todo
  }

  /** Seconds to wait after the n-th retry. */
  function Waiting(n: nat): nat {
    if n < 6 then [5, 10, 20, 40, 80, 160][n] else 300
  }

  lemma {:induction false} DelayIsWaiting(n: nat)
    ensures Delay(n) == Waiting(n) * SECOND
  {
    if n >= 6 {
      Pow2Monotone(6, n);
      assert Pow2(6) == 64;
    } else {
      assert Pow2(0) == 1 && Pow2(1) == 2 && Pow2(2) == 4 && Pow2(3) == 8 && Pow2(4) == 16 && Pow2(5) == 32;
    }
  }

  lemma SweepLists(w: World, id: string)
    requires Inv(w) && w.sweep.Idle?
    ensures var w', due := Step(w, BeginSweep), Due(w.outbox, w.now);
            && DueIds(ViewOf(w), due) && (Live(w'.outbox, id) <==> id in Swept(ViewOf(w), due).table)
            && (Listed(w', id) <==> id in due) && (id in Swept(ViewOf(w), due).table ==> Live(w.outbox, id))
  {
    SweepView(w);
    TableOf(w.outbox);
    TableOf(Step(w, BeginSweep).outbox);
  }

  lemma SweptEntry(v: View, p: Past, id: string, due: seq<string>)
    requires v.sweep.Idle? && DueIds(v, due) && id in v.table && id in v.appendedAt && LiveRightly(v, p, id)
    requires v.table[id].id == id && (v.table[id].confirmed <==> id in v.confirmed)
    ensures var n := Attempts(v.log, id);
            && (id in Swept(v, due).table <==> id !in v.confirmed && v.now <= p.expiry[id] && n < 10)
            && (id in due <==>
                  && id in Swept(v, due).table
                  && if n == 0 then v.now > v.appendedAt[id] + 5 * SECOND
                     else id in p.recordedAt && v.now > p.recordedAt[id] + Waiting(n) * SECOND)
  {
    DelayIsWaiting(Attempts(v.log, id));
  }

  /** What one sweep does, from every reachable state between sweeps: it keeps exactly the live entries
      that are unconfirmed, have not expired and have had fewer than ten attempts; and it lists exactly
      those of them whose waiting time is over, five seconds after they were appended or the time after
      their latest retry. */
  lemma SweepExactly(start: int, acts: seq<Action>, id: string)
    requires Run(Init(start), acts).sweep.Idle?
    ensures var w, p := Run(Init(start), acts), History(Init(start), NOTHING, acts);
            var w', n := Step(w, BeginSweep), Attempts(w.log, id);
            && (Live(w'.outbox, id) <==>
                  Live(w.outbox, id) && id !in w.confirmed && id in p.expiry && w.now <= p.expiry[id] && n < 10)
            && (Listed(w', id) <==>
                  && Live(w'.outbox, id)
                  && if n == 0 then id in w.appendedAt && w.now > w.appendedAt[id] + 5 * SECOND
                     else id in p.recordedAt && w.now > p.recordedAt[id] + Waiting(n) * SECOND)
  {
    var w, p := Run(Init(start), acts), History(Init(start), NOTHING, acts);
    RunNoted(Init(start), NOTHING, acts);
    SweepLists(w, id);
    TableOf(w.outbox);
    if Live(w.outbox, id) {
      SweptEntry(ViewOf(w), p, id, Due(w.outbox, w.now));
    }
  }

  // ---- The order -------------------------------------------------------------------------

  /** Each envelope's number, in the order they were appended. */
  function Numbered(w: World, numbers: map<string, nat>, a: Action): map<string, nat> {
    if a.Append? && a.id !in w.appendedAt then numbers[a.id := |w.appendedAt|] else numbers
  }

  function Numbers(w: World, numbers: map<string, nat>, acts: seq<Action>): map<string, nat>
    decreases |acts|
  {
    if acts == [] then numbers else Numbers(Step(w, acts[0]), Numbered(w, numbers, acts[0]), acts[1..])
  }

  predicate Ascending(outbox: seq<Entry>, numbers: map<string, nat>, from: nat) {
    outbox == []
    || (outbox[0].id in numbers && numbers[outbox[0].id] >= from && Ascending(outbox[1..], numbers, numbers[outbox[0].id] + 1))
  }

  predicate AscendingIds(ids: seq<string>, numbers: map<string, nat>, from: nat) {
    ids == [] || (ids[0] in numbers && numbers[ids[0]] >= from && AscendingIds(ids[1..], numbers, numbers[ids[0]] + 1))
  }

  lemma {:induction false} AscendingFrom(outbox: seq<Entry>, ids: seq<string>, numbers: map<string, nat>, from: nat, less: nat)
    requires less <= from
    ensures Ascending(outbox, numbers, from) ==> Ascending(outbox, numbers, less)
    ensures AscendingIds(ids, numbers, from) ==> AscendingIds(ids, numbers, less)
  {
  }

  lemma {:induction false} AscendingConfirm(outbox: seq<Entry>, id: string, now: int, numbers: map<string, nat>, from: nat)
    requires Ascending(outbox, numbers, from)
    ensures Ascending(ConfirmFirst(outbox, id), numbers, from) && Ascending(RetryFirst(outbox, id, now), numbers, from)
    decreases |outbox|
  {
    if outbox != [] && outbox[0].id != id {
      AscendingConfirm(outbox[1..], id, now, numbers, numbers[outbox[0].id] + 1);
    }
  }

  lemma {:induction false} AscendingRemaining(outbox: seq<Entry>, now: int, numbers: map<string, nat>, from: nat)
    requires Ascending(outbox, numbers, from)
    ensures Ascending(Remaining(outbox, now), numbers, from)
    decreases |outbox|
  {
    if outbox != [] {
      var next, rest := numbers[outbox[0].id] + 1, Remaining(outbox[1..], now);
      AscendingRemaining(outbox[1..], now, numbers, next);
      AscendingFrom(rest, [], numbers, next, from);
      assert [] + rest == rest && ([outbox[0]] + rest)[1..] == rest;
    }
  }

  lemma {:induction false} AscendingDue(outbox: seq<Entry>, now: int, numbers: map<string, nat>, from: nat)
    requires Ascending(outbox, numbers, from)
    ensures AscendingIds(Due(outbox, now), numbers, from)
    decreases |outbox|
  {
    if outbox != [] {
      var next, due := numbers[outbox[0].id] + 1, Due(outbox[1..], now);
      AscendingDue(outbox[1..], now, numbers, next);
      AscendingFrom([], due, numbers, next, from);
      assert [] + due == due && ([outbox[0].id] + due)[1..] == due;
    }
  }

  lemma {:induction false} AscendingAppend(outbox: seq<Entry>, e: Entry, numbers: map<string, nat>, n: nat, from: nat)
    requires Ascending(outbox, numbers, from) && from <= n && e.id !in numbers && forall id :: id in numbers ==> numbers[id] < n
    ensures Ascending(outbox + [e], numbers[e.id := n], from)
    decreases |outbox|
  {
    if outbox == [] {
      assert outbox + [e] == [e];
    } else {
      AscendingAppend(outbox[1..], e, numbers, n, numbers[outbox[0].id] + 1);
      assert (outbox + [e])[1..] == outbox[1..] + [e];
    }
  }

  lemma {:induction false} AscendingIdsExtend(ids: seq<string>, id: string, numbers: map<string, nat>, n: nat, from: nat)
    requires AscendingIds(ids, numbers, from) && id !in numbers
    ensures AscendingIds(ids, numbers[id := n], from)
    decreases |ids|
  {
    if ids != [] {
      AscendingIdsExtend(ids[1..], id, numbers, n, numbers[ids[0]] + 1);
    }
  }

  ghost predicate InOrder(w: World, numbers: map<string, nat>) {
    && numbers.Keys == w.appendedAt.Keys && (forall id :: id in numbers ==> numbers[id] < |w.appendedAt|)
    && Ascending(w.outbox, numbers, 0) && (w.sweep.Retrying? ==> AscendingIds(w.sweep.todo, numbers, 0))
  }

  lemma AppendInOrder(w: World, numbers: map<string, nat>, id: string, ttl: int)
    requires InOrder(w, numbers)
    ensures InOrder(Step(w, Append(id, ttl)), Numbered(w, numbers, Append(id, ttl)))
  {
    if id !in w.appendedAt {
      var n := |w.appendedAt|;
      AscendingAppend(w.outbox, NewEntry(id, ttl, w.now), numbers, n, 0);
      if w.sweep.Retrying? {
        AscendingIdsExtend(w.sweep.todo, id, numbers, n, 0);
      }
      assert |w.appendedAt[id := w.now]| == n + 1;
    }
  }

  lemma StepInOrder(w: World, numbers: map<string, nat>, a: Action)
    requires InOrder(w, numbers)
    ensures InOrder(Step(w, a), Numbered(w, numbers, a))
  {
    match a
    case Append(id, ttl) => AppendInOrder(w, numbers, id, ttl);
    case Confirm(id) => AscendingConfirm(w.outbox, id, 0, numbers, 0);
    case BeginSweep =>
      AscendingRemaining(w.outbox, w.now, numbers, 0);
      AscendingDue(w.outbox, w.now, numbers, 0);
    case RecordRetry =>
      if w.sweep.Retrying? && w.sweep.todo != [] {
        AscendingConfirm(w.outbox, w.sweep.todo[0], w.now, numbers, 0);
        AscendingFrom([], w.sweep.todo[1..], numbers, numbers[w.sweep.todo[0]] + 1, 0);
      }
    case _ =>
  }

  lemma {:induction false} RunInOrder(w: World, numbers: map<string, nat>, acts: seq<Action>)
    requires InOrder(w, numbers)
    ensures InOrder(Run(w, acts), Numbers(w, numbers, acts))
    decreases |acts|
  {
    if acts != [] {
      StepInOrder(w, numbers, acts[0]);
      RunInOrder(Step(w, acts[0]), Numbered(w, numbers, acts[0]), acts[1..]);
    }
  }

  /** In every run entries stay in the order they were appended in, and a sweep retries them in that
      order. */
  lemma KeptInOrder(start: int, acts: seq<Action>)
    ensures var w, numbers := Run(Init(start), acts), Numbers(Init(start), map[], acts);
            && Ascending(w.outbox, numbers, 0)
            && (w.sweep.Retrying? ==> AscendingIds(w.sweep.todo, numbers, 0))
  {
    RunInOrder(Init(start), map[], acts);
  }
}
