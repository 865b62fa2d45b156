/** The mailbox outbox with retries (transport/mailbox.go). A sweep rebuilds the outbox under
    the lock, then retries copies of the due entries without it, taking the lock again after
    each attempt; sends and confirmations run in between. */
module Outbox {
  import opened Basics

  const RETRY_BASE := 5 * SECOND
  const RETRY_MAX := 5 * MINUTE
  const MAX_RETRIES := 10

  datatype Entry = Entry(id: string, expiresAt: int, retries: nat, nextRetryAt: int, confirmed: bool)

  // ---- Operations on the outbox ----------------------------------------------------------

  function Pow2(r: nat): nat {
    if r == 0 then 1 else 2 * Pow2(r - 1)
  }

  /** The waiting time after the r-th retry. */
  function Delay(r: nat): nat {
    if RETRY_BASE * Pow2(r) <= RETRY_MAX then RETRY_BASE * Pow2(r) else RETRY_MAX
  }

  function NewEntry(id: string, ttl: int, now: int): Entry {
    Entry(id, now + ttl, 0, now + RETRY_BASE, false)
  }

  function Retried(e: Entry, now: int): Entry {
    e.(retries := e.retries + 1, nextRetryAt := now + Delay(e.retries + 1))
  }

  function ConfirmFirst(outbox: seq<Entry>, id: string): seq<Entry> {
    if outbox == [] then []
    else if outbox[0].id == id then [outbox[0].(confirmed := true)] + outbox[1..]
    else [outbox[0]] + ConfirmFirst(outbox[1..], id)
  }

  function RetryFirst(outbox: seq<Entry>, id: string, now: int): seq<Entry> {
    if outbox == [] then []
    else if outbox[0].id == id then [Retried(outbox[0], now)] + outbox[1..]
    else [outbox[0]] + RetryFirst(outbox[1..], id, now)
  }

  predicate Kept(e: Entry, now: int) {
    !e.confirmed && now <= e.expiresAt && e.retries < MAX_RETRIES
  }

  function Remaining(outbox: seq<Entry>, now: int): seq<Entry> {
    if outbox == [] then []
    else (if Kept(outbox[0], now) then [outbox[0]] else []) + Remaining(outbox[1..], now)
  }

  /** The IDs of the kept entries whose retry is due. */
  function Due(outbox: seq<Entry>, now: int): seq<string> {
    if outbox == [] then []
    else (if Kept(outbox[0], now) && now > outbox[0].nextRetryAt then [outbox[0].id] else []) + Due(outbox[1..], now)
  }

  // ---- The outbox object -----------------------------------------------------------------

  class Box {
    var outbox: seq<Entry>

    constructor ()
      ensures outbox == []
    {
      outbox := [];
    }

    method Append(id: string, ttl: int, now: int)
      modifies this
      ensures outbox == old(outbox) + [NewEntry(id, ttl, now)]
    {
      outbox := outbox + [Entry(id, now + ttl, 0, now + RETRY_BASE, false)];
    }

    method ConfirmDelivery(id: string)
      modifies this
      ensures outbox == ConfirmFirst(old(outbox), id)
    {
      var i := 0;
      while i < |outbox|
        invariant 0 <= i <= |outbox| && outbox == old(outbox)
        invariant ConfirmFirst(outbox, id) == ConfirmedFrom(outbox, i, id)
      {
        ConfirmedFromAt(outbox, i, id);
        if outbox[i].id == id {
          outbox := outbox[i := outbox[i].(confirmed := true)];
          return;
        }
        i := i + 1;
      }
      assert outbox[..i] == outbox && outbox[i..] == [];
    }

    /** The first phase of a sweep, under the lock. */
    method BeginSweep(now: int) returns (toRetry: seq<string>)
      modifies this
      ensures outbox == Remaining(old(outbox), now)
      ensures toRetry == Due(old(outbox), now)
    {
      var remaining: seq<Entry> := [];
      toRetry := [];
      var i := 0;
      while i < |outbox|
        invariant 0 <= i <= |outbox| && outbox == old(outbox)
        invariant remaining + Remaining(outbox[i..], now) == Remaining(outbox, now)
        invariant toRetry + Due(outbox[i..], now) == Due(outbox, now)
      {
        var e := outbox[i];
        SweptAt(remaining, toRetry, outbox, i, now);
        if !e.confirmed && now <= e.expiresAt && e.retries < MAX_RETRIES {
          remaining := remaining + [e];
          if now > e.nextRetryAt {
            toRetry := toRetry + [e.id];
          }
        }
        i := i + 1;
      }
      outbox := remaining;
    }

    /** The bookkeeping after one attempt, under the lock again. */
    method RecordRetry(id: string, now: int)
      modifies this
      ensures outbox == RetryFirst(old(outbox), id, now)
    {
      var i := 0;
      while i < |outbox|
        invariant 0 <= i <= |outbox| && outbox == old(outbox)
        invariant RetryFirst(outbox, id, now) == RetriedFrom(outbox, i, id, now)
      {
        RetriedFromAt(outbox, i, id, now);
        var e := outbox[i];
        if e.id == id {
          var delay := BackoffDelay(e.retries + 1);
          outbox := outbox[i := e.(retries := e.retries + 1, nextRetryAt := now + delay)];
          return;
        }
        i := i + 1;
      }
      assert outbox[..i] == outbox && outbox[i..] == [];
    }
  }

  // The loops, one entry at a time

  function ConfirmedFrom(outbox: seq<Entry>, i: nat, id: string): seq<Entry>
    requires i <= |outbox|
  {
    outbox[..i] + ConfirmFirst(outbox[i..], id)
  }

  lemma ConfirmedFromAt(outbox: seq<Entry>, i: nat, id: string)
    requires i < |outbox|
    ensures ConfirmedFrom(outbox, i, id) ==
              if outbox[i].id == id then outbox[i := outbox[i].(confirmed := true)] else ConfirmedFrom(outbox, i + 1, id)
  {
    assert outbox[i..] == [outbox[i]] + outbox[i + 1..];
    assert outbox[i..][1..] == outbox[i + 1..];
  }

  function RetriedFrom(outbox: seq<Entry>, i: nat, id: string, now: int): seq<Entry>
    requires i <= |outbox|
  {
    outbox[..i] + RetryFirst(outbox[i..], id, now)
  }

  lemma RetriedFromAt(outbox: seq<Entry>, i: nat, id: string, now: int)
    requires i < |outbox|
    ensures RetriedFrom(outbox, i, id, now) ==
              var e := outbox[i];
              if e.id == id then outbox[i := Retried(e, now)]
              else RetriedFrom(outbox, i + 1, id, now)
  {
    assert outbox[i..] == [outbox[i]] + outbox[i + 1..];
    assert outbox[i..][1..] == outbox[i + 1..];
  }

  lemma SweptAt(remaining: seq<Entry>, toRetry: seq<string>, outbox: seq<Entry>, i: nat, now: int)
    requires i < |outbox|
    ensures var e := outbox[i];
            && remaining + Remaining(outbox[i..], now) ==
                 (if Kept(e, now) then remaining + [e] else remaining) + Remaining(outbox[i + 1..], now)
            && toRetry + Due(outbox[i..], now) ==
                 (if Kept(e, now) && now > e.nextRetryAt then toRetry + [e.id] else toRetry) + Due(outbox[i + 1..], now)
  {
    assert outbox[i..][1..] == outbox[i + 1..];
  }

  /** The doubling loop computes the closed form, for every retry count. */
  method BackoffDelay(retries: nat) returns (delay: nat)
    ensures delay == Delay(retries)
  {
    delay := RETRY_BASE;
    var j := 0;
    while j < retries
      invariant 0 <= j <= retries
      invariant delay == RETRY_BASE * Pow2(j) <= RETRY_MAX
    {
      delay := delay * 2;
      j := j + 1;
      if delay > RETRY_MAX {
        delay := RETRY_MAX;
        Pow2Monotone(j, retries);
        break;
      }
    }
  }

  lemma {:induction false} Pow2Monotone(a: nat, b: nat)
    requires a <= b
    ensures Pow2(a) <= Pow2(b)
    decreases b
  {
    if a < b {
      Pow2Monotone(a, b - 1);
    }
  }

  // ---- Runs ------------------------------------------------------------------------------

  /** The sweep goroutine: between sweeps, or retrying the listed copies in order; sent says
      whether the attempt for the first of them has been made and not yet recorded. */
  datatype Sweep = Idle | Retrying(todo: seq<string>, sent: bool)

  datatype Reason = WasConfirmed | WasExpired | WasExhausted

  /** One retry: which entry, when, its ordinal, and whether the entry was confirmed by then. */
  datatype Attempt = Attempt(id: string, time: int, ordinal: nat, late: bool)

  datatype World = World(
    outbox: seq<Entry>,
    sweep: Sweep,
    now: int,
    appendedAt: map<string, int>,
    confirmed: set<string>,                  // confirmations that found their entry
    dropped: map<string, Reason>,
    log: seq<Attempt>)

  function Init(now: int): World {
    World([], Idle, now, map[], {}, map[], [])
  }

  datatype Action =
    | Append(id: string, ttl: int)
    | Confirm(id: string)
    | BeginSweep
    | TrySend
    | RecordRetry
    | Wait(duration: nat)

  predicate Live(outbox: seq<Entry>, id: string) {
    exists i :: 0 <= i < |outbox| && outbox[i].id == id
  }

  /** The retry count of a live entry. */
  function RetriesOf(outbox: seq<Entry>, id: string): nat {
    if outbox == [] then 0 else if outbox[0].id == id then outbox[0].retries else RetriesOf(outbox[1..], id)
  }

  function ReasonFor(e: Entry, now: int): Reason {
    if e.confirmed then WasConfirmed else if now > e.expiresAt then WasExpired else WasExhausted
  }

  function Dropping(dropped: map<string, Reason>, outbox: seq<Entry>, now: int): map<string, Reason>
    decreases |outbox|
  {
    if outbox == [] then dropped
    else Dropping(if Kept(outbox[0], now) then dropped else dropped[outbox[0].id := ReasonFor(outbox[0], now)],
                  outbox[1..], now)
  }

  function NextSweep(todo: seq<string>): Sweep {
    if todo == [] then Idle else Retrying(todo, false)
  }

  /** Appending needs a fresh envelope ID; every other step that is not possible changes nothing. */
  function Step(w: World, a: Action): World {
    match a
    case Append(id, ttl) =>
      if id in w.appendedAt then w
      else w.(outbox := w.outbox + [NewEntry(id, ttl, w.now)], appendedAt := w.appendedAt[id := w.now])
    case Confirm(id) =>
      w.(outbox := ConfirmFirst(w.outbox, id), confirmed := if Live(w.outbox, id) then w.confirmed + {id} else w.confirmed)
    case BeginSweep =>
      if !w.sweep.Idle? then w
      else w.(outbox := Remaining(w.outbox, w.now), sweep := NextSweep(Due(w.outbox, w.now)),
              dropped := Dropping(w.dropped, w.outbox, w.now))
    case TrySend =>
      if !w.sweep.Retrying? || w.sweep.sent || w.sweep.todo == [] then w
      else
        var id := w.sweep.todo[0];
        w.(sweep := Retrying(w.sweep.todo, true),
           log := w.log + [Attempt(id, w.now, RetriesOf(w.outbox, id) + 1, id in w.confirmed)])
    case RecordRetry =>
      if !w.sweep.Retrying? || !w.sweep.sent || w.sweep.todo == [] then w
      else w.(outbox := RetryFirst(w.outbox, w.sweep.todo[0], w.now), sweep := NextSweep(w.sweep.todo[1..]))
    case Wait(d) => w.(now := w.now + d)
  }

  function Run(w: World, acts: seq<Action>): World
    decreases |acts|
  {
    if acts == [] then w else Run(Step(w, acts[0]), acts[1..])
  }

  // ---- The outbox as a table -------------------------------------------------------------

  predicate Distinct(outbox: seq<Entry>) {
    forall i, j :: 0 <= i < j < |outbox| ==> outbox[i].id != outbox[j].id
  }

  predicate DistinctIds(ids: seq<string>) {
    forall i, j :: 0 <= i < j < |ids| ==> ids[i] != ids[j]
  }

  /** The entries by ID; without duplicate IDs nothing is lost. */
  function Table(outbox: seq<Entry>): map<string, Entry> {
    if outbox == [] then map[] else Table(outbox[1..])[outbox[0].id := outbox[0]]
  }

  lemma {:induction false} TableOf(outbox: seq<Entry>)
    ensures forall id :: id in Table(outbox) <==> Live(outbox, id)
    ensures forall id :: id in Table(outbox) ==> Table(outbox)[id] in outbox && Table(outbox)[id].id == id
  {
    if outbox != [] {
      var rest := outbox[1..];
      TableOf(rest);
      assert forall i :: 0 < i < |outbox| ==> outbox[i] == rest[i - 1];
      forall id | id in Table(outbox) ensures Live(outbox, id) {
        if id == outbox[0].id {
          assert outbox[0].id == id;
        } else {
          assert id in Table(rest) && Live(rest, id);
          var i :| 0 <= i < |rest| && rest[i].id == id;
          assert outbox[i + 1].id == id;
        }
      }
      forall id | Live(outbox, id) ensures id in Table(outbox) {
        var i :| 0 <= i < |outbox| && outbox[i].id == id;
        if i > 0 {
          assert rest[i - 1].id == id;
        }
      }
    }
  }

  lemma HeadNotInTail(outbox: seq<Entry>)
    requires Distinct(outbox) && outbox != []
    ensures Distinct(outbox[1..]) && outbox[0].id !in Table(outbox[1..])
  {
    TableOf(outbox[1..]);
  }

  lemma {:induction false} TableAppend(outbox: seq<Entry>, e: Entry)
    requires !Live(outbox, e.id) && Distinct(outbox)
    ensures Table(outbox + [e]) == Table(outbox)[e.id := e] && Distinct(outbox + [e])
  {
    if outbox == [] {
      assert [e][1..] == [] && outbox + [e] == [e];
    } else {
      assert (outbox + [e])[1..] == outbox[1..] + [e];
      assert outbox[0].id != e.id;
      forall i | 0 <= i < |outbox[1..]| ensures outbox[1..][i].id != e.id {
        assert outbox[i + 1].id != e.id;
      }
      TableAppend(outbox[1..], e);
    }
  }

  lemma {:induction false} TableConfirm(outbox: seq<Entry>, id: string)
    requires Distinct(outbox)
    ensures Distinct(ConfirmFirst(outbox, id))
    ensures Table(ConfirmFirst(outbox, id)) ==
              if id in Table(outbox) then Table(outbox)[id := Table(outbox)[id].(confirmed := true)] else Table(outbox)
    ensures forall other :: other in Table(ConfirmFirst(outbox, id)) <==> other in Table(outbox)
  {
    if outbox != [] {
      HeadNotInTail(outbox);
      if outbox[0].id != id {
        TableConfirm(outbox[1..], id);
        DistinctCons(outbox[0], ConfirmFirst(outbox[1..], id));
      }
    }
  }

  lemma {:induction false} TableRetry(outbox: seq<Entry>, id: string, now: int)
    requires Distinct(outbox)
    ensures Distinct(RetryFirst(outbox, id, now))
    ensures Table(RetryFirst(outbox, id, now)) ==
              if id in Table(outbox) then Table(outbox)[id := Retried(Table(outbox)[id], now)] else Table(outbox)
    ensures forall other :: other in Table(RetryFirst(outbox, id, now)) <==> other in Table(outbox)
  {
    if outbox != [] {
      HeadNotInTail(outbox);
      if outbox[0].id != id {
        TableRetry(outbox[1..], id, now);
        DistinctCons(outbox[0], RetryFirst(outbox[1..], id, now));
      }
    }
  }

  lemma DistinctCons(e: Entry, rest: seq<Entry>)
    requires Distinct(rest) && e.id !in Table(rest)
    ensures Distinct([e] + rest)
  {
    TableOf(rest);
  }

  lemma {:induction false} TableRemaining(outbox: seq<Entry>, now: int)
    requires Distinct(outbox)
    ensures Distinct(Remaining(outbox, now))
    ensures Table(Remaining(outbox, now)) == map id | id in Table(outbox) && Kept(Table(outbox)[id], now) :: Table(outbox)[id]
  {
    if outbox != [] {
      HeadNotInTail(outbox);
      TableRemaining(outbox[1..], now);
      var rest := Remaining(outbox[1..], now);
      assert outbox[0].id !in Table(rest);
      if !Kept(outbox[0], now) {
        assert Remaining(outbox, now) == rest;
      } else {
        DistinctCons(outbox[0], Remaining(outbox[1..], now));
        assert ([outbox[0]] + Remaining(outbox[1..], now))[1..] == Remaining(outbox[1..], now);
      }
    }
  }

  lemma {:induction false} TableDue(outbox: seq<Entry>, now: int)
    requires Distinct(outbox)
    ensures DistinctIds(Due(outbox, now))
    ensures forall id :: id in Due(outbox, now) <==>
                         id in Table(outbox) && Kept(Table(outbox)[id], now) && now > Table(outbox)[id].nextRetryAt
  {
    if outbox != [] {
      HeadNotInTail(outbox);
      TableDue(outbox[1..], now);
    }
  }

  /** One more entry in the table that a sweep drops from. */
  lemma DroppedTable(dropped: map<string, Reason>, e: Entry, rest: map<string, Entry>, now: int)
    requires e.id !in rest
    ensures var table := rest[e.id := e];
            (if Kept(e, now) then dropped else dropped[e.id := ReasonFor(e, now)])
            + (map id | id in rest && !Kept(rest[id], now) :: ReasonFor(rest[id], now))
            == dropped + map id | id in table && !Kept(table[id], now) :: ReasonFor(table[id], now)
  {
  }

  lemma {:induction false} TableDropping(dropped: map<string, Reason>, outbox: seq<Entry>, now: int)
    requires Distinct(outbox)
    ensures Dropping(dropped, outbox, now) ==
              dropped + map id | id in Table(outbox) && !Kept(Table(outbox)[id], now) :: ReasonFor(Table(outbox)[id], now)
    decreases |outbox|
  {
    if outbox != [] {
      HeadNotInTail(outbox);
      var e := outbox[0];
      TableDropping(if Kept(e, now) then dropped else dropped[e.id := ReasonFor(e, now)], outbox[1..], now);
      DroppedTable(dropped, e, Table(outbox[1..]), now);
    }
  }

  lemma {:induction false} TableRetries(outbox: seq<Entry>, id: string)
    requires Distinct(outbox) && id in Table(outbox)
    ensures RetriesOf(outbox, id) == Table(outbox)[id].retries
  {
    if outbox[0].id != id {
      HeadNotInTail(outbox);
      TableRetries(outbox[1..], id);
    }
  }

  lemma DelayMonotone(r: nat, r': nat)
    requires r <= r'
    ensures RETRY_BASE <= Delay(r) <= Delay(r')
  {
    Pow2Monotone(0, r);
    Pow2Monotone(r, r');
  }

  // ---- What every step keeps -------------------------------------------------------------

  /** The world with its outbox as a table. */
  datatype View = View(
    table: map<string, Entry>,
    sweep: Sweep,
    now: int,
    appendedAt: map<string, int>,
    confirmed: set<string>,
    dropped: map<string, Reason>,
    log: seq<Attempt>)

  function ViewOf(w: World): View {
    View(Table(w.outbox), w.sweep, w.now, w.appendedAt, w.confirmed, w.dropped, w.log)
  }

  /** Each appended envelope is live or dropped, and not both. */
  ghost predicate Accounted(v: View) {
    && (forall id :: id in v.table ==> v.table[id].id == id && id in v.appendedAt && id !in v.dropped)
    && (forall id :: id in v.appendedAt ==> id in v.dropped || id in v.table)
    && (forall id :: id in v.dropped ==> id in v.appendedAt)
  }

  /** A confirmation sits on the live entry, or is the reason the entry was dropped. */
  ghost predicate Remembered(v: View) {
    && (forall id :: id in v.table ==> (v.table[id].confirmed <==> id in v.confirmed))
    && (forall id :: id in v.dropped ==> (v.dropped[id] == WasConfirmed <==> id in v.confirmed))
    && (forall id :: id in v.confirmed ==> id in v.appendedAt)
  }

  /** The k-th copy still has its attempt before it. */
  predicate Unsent(s: Sweep, k: nat) {
    s.Retrying? && k < |s.todo| && (k > 0 || !s.sent)
  }

  predicate InProgress(s: Sweep, id: string) {
    s.Retrying? && s.sent && s.todo != [] && s.todo[0] == id
  }

  ghost predicate Sweeping(v: View) {
    v.sweep.Retrying? ==>
      && v.sweep.todo != [] && DistinctIds(v.sweep.todo)
      && forall k :: 0 <= k < |v.sweep.todo| ==>
           && v.sweep.todo[k] in v.table && v.table[v.sweep.todo[k]].retries < MAX_RETRIES
           && (Unsent(v.sweep, k) ==> v.now > v.table[v.sweep.todo[k]].nextRetryAt)
  }

  ghost predicate Timed(v: View) {
    && (forall id :: id in v.appendedAt ==> v.appendedAt[id] <= v.now)
    && (forall id :: id in v.table ==>
          && v.table[id].retries <= MAX_RETRIES
          && (id in v.appendedAt ==> v.appendedAt[id] + RETRY_BASE <= v.table[id].nextRetryAt))
    && (forall j :: 0 <= j < |v.log| ==>
          && v.log[j].id in v.appendedAt && 1 <= v.log[j].ordinal <= MAX_RETRIES
          && v.appendedAt[v.log[j].id] + RETRY_BASE < v.log[j].time <= v.now)
  }

  /** Live entries know about all their attempts. */
  ghost predicate Counted(v: View) {
    forall j :: 0 <= j < |v.log| && v.log[j].id in v.table ==> CountedOne(v.table[v.log[j].id], v.log[j], v.sweep)
  }

  predicate CountedOne(e: Entry, a: Attempt, s: Sweep) {
    && a.ordinal <= e.retries + (if InProgress(s, a.id) then 1 else 0)
    && (a.ordinal <= e.retries ==> a.time + Delay(a.ordinal) <= e.nextRetryAt)
  }

  /** Of two attempts for one entry, the later has the higher ordinal and comes after the
      waiting time of the earlier, and the earlier was made before any confirmation. */
  ghost predicate Spaced(log: seq<Attempt>) {
    forall i, j :: 0 <= i < j < |log| && log[i].id == log[j].id ==>
      log[i].ordinal < log[j].ordinal && log[i].time + Delay(log[i].ordinal) < log[j].time && !log[i].late
  }

  ghost predicate LateOnce(v: View) {
    forall j :: 0 <= j < |v.log| && v.log[j].late ==>
      v.log[j].id in v.confirmed && forall k :: 0 <= k && Unsent(v.sweep, k) ==> v.sweep.todo[k] != v.log[j].id
  }

  ghost predicate ViewInv(v: View) {
    Accounted(v) && Remembered(v) && Sweeping(v) && Timed(v) && Counted(v) && Spaced(v.log) && LateOnce(v)
  }

  lemma AppendKeeps(v: View, id: string, ttl: int)
    requires ViewInv(v) && id !in v.appendedAt
    ensures ViewInv(v.(table := v.table[id := NewEntry(id, ttl, v.now)], appendedAt := v.appendedAt[id := v.now]))
  {
  }

  lemma ConfirmKeeps(v: View, id: string)
    requires ViewInv(v) && id in v.table
    ensures ViewInv(v.(table := v.table[id := v.table[id].(confirmed := true)], confirmed := v.confirmed + {id}))
  {
  }

  /** The view after the first phase of a sweep. */
  function Swept(v: View, due: seq<string>): View {
    v.(table := map id | id in v.table && Kept(v.table[id], v.now) :: v.table[id],
       sweep := NextSweep(due),
       dropped := v.dropped + map id | id in v.table && !Kept(v.table[id], v.now) :: ReasonFor(v.table[id], v.now))
  }

  ghost predicate DueIds(v: View, due: seq<string>) {
    && DistinctIds(due)
    && forall id :: id in due <==> id in v.table && Kept(v.table[id], v.now) && v.now > v.table[id].nextRetryAt
  }

  lemma SweptEntries(v: View, due: seq<string>)
    requires ViewInv(v) && v.sweep.Idle? && DueIds(v, due)
    ensures Accounted(Swept(v, due)) && Remembered(Swept(v, due))
  {
  }

  lemma SweptTimes(v: View, due: seq<string>)
    requires ViewInv(v) && v.sweep.Idle? && DueIds(v, due)
    ensures Sweeping(Swept(v, due)) && Timed(Swept(v, due)) && Counted(Swept(v, due)) && LateOnce(Swept(v, due))
  {
  }

  lemma BeginSweepKeeps(v: View, due: seq<string>)
    requires ViewInv(v) && v.sweep.Idle? && DueIds(v, due)
    ensures ViewInv(Swept(v, due))
  {
    SweptEntries(v, due);
    SweptTimes(v, due);
  }

  /** The view after an attempt for the first copy. */
  function Tried(v: View): View
    requires v.sweep.Retrying? && v.sweep.todo != [] && v.sweep.todo[0] in v.table
  {
    var id := v.sweep.todo[0];
    v.(sweep := Retrying(v.sweep.todo, true),
       log := v.log + [Attempt(id, v.now, v.table[id].retries + 1, id in v.confirmed)])
  }

  lemma TriedEntries(v: View)
    requires ViewInv(v) && v.sweep.Retrying? && !v.sweep.sent
    ensures Accounted(Tried(v)) && Remembered(Tried(v)) && Sweeping(Tried(v)) && Timed(Tried(v))
  {
    assert Unsent(v.sweep, 0);
  }

  lemma TriedLog(v: View)
    requires ViewInv(v) && v.sweep.Retrying? && !v.sweep.sent
    ensures Counted(Tried(v)) && Spaced(Tried(v).log) && LateOnce(Tried(v))
  {
    assert Unsent(v.sweep, 0);
  }

  lemma TrySendKeeps(v: View)
    requires ViewInv(v) && v.sweep.Retrying? && !v.sweep.sent
    ensures ViewInv(Tried(v))
  {
    TriedEntries(v);
    TriedLog(v);
  }

  lemma RecordRetryKeeps(v: View)
    requires ViewInv(v) && v.sweep.Retrying? && v.sweep.sent
    ensures var id := v.sweep.todo[0];
            ViewInv(v.(table := v.table[id := Retried(v.table[id], v.now)], sweep := NextSweep(v.sweep.todo[1..])))
  {
    var id := v.sweep.todo[0];
    var next := NextSweep(v.sweep.todo[1..]);
    var e := Retried(v.table[id], v.now);
    forall j | 0 <= j < |v.log| && v.log[j].id == id ensures CountedOne(e, v.log[j], next) {
      DelayMonotone(v.log[j].ordinal, e.retries);
    }
    DelayMonotone(0, e.retries);
    forall k | 0 <= k && Unsent(next, k) ensures Unsent(v.sweep, k + 1) && next.todo[k] == v.sweep.todo[k + 1] {
    }
  }

  lemma WaitKeeps(v: View, d: nat)
    requires ViewInv(v)
    ensures ViewInv(v.(now := v.now + d))
  {
  }

  ghost predicate Inv(w: World) {
    Distinct(w.outbox) && ViewInv(ViewOf(w))
  }

  lemma AppendStep(w: World, id: string, ttl: int)
    requires Inv(w)
    ensures Inv(Step(w, Append(id, ttl)))
  {
    TableOf(w.outbox);
    if id !in w.appendedAt {
      TableAppend(w.outbox, NewEntry(id, ttl, w.now));
      AppendKeeps(ViewOf(w), id, ttl);
    }
  }

  lemma ConfirmStep(w: World, id: string)
    requires Inv(w)
    ensures Inv(Step(w, Confirm(id)))
  {
    TableOf(w.outbox);
    TableConfirm(w.outbox, id);
    if Live(w.outbox, id) {
      ConfirmKeeps(ViewOf(w), id);
    }
  }

  lemma BeginSweepStep(w: World)
    requires Inv(w)
    ensures Inv(Step(w, BeginSweep))
  {
    if w.sweep.Idle? {
      TableRemaining(w.outbox, w.now);
      TableDue(w.outbox, w.now);
      TableDropping(w.dropped, w.outbox, w.now);
      BeginSweepKeeps(ViewOf(w), Due(w.outbox, w.now));
    }
  }

  lemma TrySendView(w: World)
    requires Distinct(w.outbox) && w.sweep.Retrying? && !w.sweep.sent
    requires w.sweep.todo != [] && w.sweep.todo[0] in Table(w.outbox)
    ensures ViewOf(Step(w, TrySend)) == Tried(ViewOf(w)) && Step(w, TrySend).outbox == w.outbox
  {
    TableRetries(w.outbox, w.sweep.todo[0]);
  }

  lemma TrySendStep(w: World)
    requires Inv(w)
    ensures Inv(Step(w, TrySend))
  {
    if w.sweep.Retrying? && !w.sweep.sent {
      TrySendKeeps(ViewOf(w));
      TrySendView(w);
    }
  }

  lemma RecordRetryStep(w: World)
    requires Inv(w)
    ensures Inv(Step(w, RecordRetry))
  {
    if w.sweep.Retrying? && w.sweep.sent {
      TableRetry(w.outbox, w.sweep.todo[0], w.now);
      RecordRetryKeeps(ViewOf(w));
    }
  }

  lemma StepKeepsInv(w: World, a: Action)
    requires Inv(w)
    ensures Inv(Step(w, a))
  {
    match a
    case Append(id, ttl) => AppendStep(w, id, ttl);
    case Confirm(id) => ConfirmStep(w, id);
    case BeginSweep => BeginSweepStep(w);
    case TrySend => TrySendStep(w);
    case RecordRetry => RecordRetryStep(w);
    case Wait(d) => WaitKeeps(ViewOf(w), d);
  }

  lemma {:induction false} RunKeepsInv(w: World, acts: seq<Action>)
    requires Inv(w)
    ensures Inv(Run(w, acts))
    decreases |acts|
  {
    if acts != [] {
      StepKeepsInv(w, acts[0]);
      RunKeepsInv(Step(w, acts[0]), acts[1..]);
    }
  }

  // ---- The outbox laws -------------------------------------------------------------------

  /** In every reachable state each appended envelope is live or was dropped for one recorded
      reason, and nothing else is either. */
  lemma EveryEntryAccountedFor(start: int, acts: seq<Action>)
    ensures var w := Run(Init(start), acts);
            && Distinct(w.outbox)
            && (forall id :: id in w.appendedAt <==> Live(w.outbox, id) || id in w.dropped)
            && (forall id :: !(Live(w.outbox, id) && id in w.dropped))
  {
    RunKeepsInv(Init(start), acts);
    TableOf(Run(Init(start), acts).outbox);
  }

  /** A confirmation that found its entry is never lost to the copy a sweep works on: the entry
      carries the mark as long as it lives, and is then dropped as confirmed. Nothing else is
      dropped as confirmed. */
  lemma ConfirmationsAreKept(start: int, acts: seq<Action>)
    ensures var w := Run(Init(start), acts);
            && (forall i :: 0 <= i < |w.outbox| ==> (w.outbox[i].confirmed <==> w.outbox[i].id in w.confirmed))
            && (forall id :: id in w.dropped ==> (w.dropped[id] == WasConfirmed <==> id in w.confirmed))
            && (forall id :: id in w.confirmed ==> Live(w.outbox, id) || id in w.dropped)
  {
    RunKeepsInv(Init(start), acts);
    var w := Run(Init(start), acts);
    TableOf(w.outbox);
    forall i | 0 <= i < |w.outbox| ensures Table(w.outbox)[w.outbox[i].id] == w.outbox[i] {
      assert Live(w.outbox, w.outbox[i].id);
    }
  }

  /** Retries over a whole run: never more than ten for an entry, the first one more than five
      seconds after the entry was appended, each later one after the waiting time of every
      earlier one, and none after one that was made when the entry was already confirmed. */
  lemma RetryDiscipline(start: int, acts: seq<Action>)
    ensures var w := Run(Init(start), acts);
            && (forall j :: 0 <= j < |w.log| ==>
                  && 1 <= w.log[j].ordinal <= MAX_RETRIES && w.log[j].id in w.appendedAt
                  && w.appendedAt[w.log[j].id] + RETRY_BASE < w.log[j].time)
            && (forall i, j :: 0 <= i < j < |w.log| && w.log[i].id == w.log[j].id ==>
                  && w.log[i].ordinal < w.log[j].ordinal
                  && w.log[i].time + Delay(w.log[i].ordinal) < w.log[j].time
                  && !w.log[i].late)
  {
    RunKeepsInv(Init(start), acts);
  }
}
