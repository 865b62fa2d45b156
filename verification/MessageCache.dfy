/** The offline message cache (transport/message_cache.go): per-destination queues with expiry,
    a per-destination bound that drops the oldest message, and a global bound that refuses. */
module MessageCache {
  import opened Basics

  const MAX_PER_DEST := 100
  const MAX_GLOBAL := 10000

  datatype Message = Message(env: string, cachedAt: int, expiresAt: int)

  type Queues = map<string, seq<Message>>

  // ---- The operations as functions -------------------------------------------------------

  /** The number of queued messages over all destinations. */
  ghost function Total(q: Queues): nat
    decreases |q|
  {
    if q == map[] then 0 else var d :| d in q; |q[d]| + Total(q - {d})
  }

  function QueueOf(q: Queues, dest: string): seq<Message> {
    if dest in q then q[dest] else []
  }

  /** The messages that have not expired. */
  function Live(queue: seq<Message>, now: int): seq<Message> {
    if queue == [] then []
    else if now < queue[0].expiresAt then [queue[0]] + Live(queue[1..], now)
    else Live(queue[1..], now)
  }

  function Envelopes(queue: seq<Message>): seq<string> {
    seq(|queue|, i requires 0 <= i < |queue| => queue[i].env)
  }

  function Pushed(queue: seq<Message>, m: Message): seq<Message> {
    (if |queue| >= MAX_PER_DEST then queue[1..] else queue) + [m]
  }

  ghost predicate Full(q: Queues) {
    Total(q) >= MAX_GLOBAL
  }

  ghost function Enqueued(q: Queues, ttl: int, dest: string, env: string, now: int): Queues {
    if Full(q) then q else q[dest := Pushed(QueueOf(q, dest), Message(env, now, now + ttl))]
  }

  function FlushedEnvelopes(q: Queues, dest: string, now: int): seq<string> {
    Envelopes(Live(QueueOf(q, dest), now))
  }

  function Cleaned(q: Queues, now: int): Queues {
    map d | d in q && Live(q[d], now) != [] :: Live(q[d], now)
  }

  lemma {:induction false} TotalRemove(q: Queues, d: string)
    requires d in q
    ensures Total(q) == |q[d]| + Total(q - {d})
    decreases |q|
  {
    var e :| e in q && Total(q) == |q[e]| + Total(q - {e});
    if e != d {
      TotalRemove(q - {e}, d);
      TotalRemove(q - {d}, e);
      assert q - {e} - {d} == q - {d} - {e};
    }
  }

  lemma TotalUpdate(q: Queues, d: string, queue: seq<Message>)
    ensures Total(q[d := queue]) == Total(q) - |QueueOf(q, d)| + |queue|
  {
    TotalRemove(q[d := queue], d);
    assert q[d := queue] - {d} == q - {d};
    if d in q {
      TotalRemove(q, d);
    } else {
      assert q - {d} == q;
    }
  }

  lemma {:induction false} TotalMonotone(small: Queues, big: Queues)
    requires forall d :: d in small ==> d in big && |small[d]| <= |big[d]|
    ensures Total(small) <= Total(big)
    decreases |small|
  {
    if small != map[] {
      var d :| d in small;
      TotalRemove(small, d);
      TotalRemove(big, d);
      TotalMonotone(small - {d}, big - {d});
    }
  }

  // ---- The cache object ------------------------------------------------------------------

  class Cache {
    var queues: Queues
    var ttl: int

    constructor (ttl: int)
      ensures queues == map[] && this.ttl == ttl
    {
      queues := map[];
      this.ttl := ttl;
    }

    method TotalPending() returns (total: nat)
      ensures total == Total(queues)
    {
      total := 0;
      var rest := queues;
      while rest != map[]
        invariant total + Total(rest) == Total(queues)
        decreases |rest|
      {
        var d :| d in rest;
        TotalRemove(rest, d);
        total := total + |rest[d]|;
        rest := rest - {d};
      }
    }

    method PendingCount(dest: string) returns (n: nat)
      ensures n == |QueueOf(queues, dest)|
    {
      n := if dest in queues then |queues[dest]| else 0;
    }

    method Enqueue(dest: string, env: string, now: int) returns (ok: bool)
      modifies this`queues
      ensures ok == !Full(old(queues))
      ensures queues == Enqueued(old(queues), ttl, dest, env, now)
    {
      var total := TotalPending();
      if total >= MAX_GLOBAL {
        return false;
      }
      var queue := if dest in queues then queues[dest] else [];
      if |queue| >= MAX_PER_DEST {
        queue := queue[1..];
      }
      queues := queues[dest := queue + [Message(env, now, now + ttl)]];
      return true;
    }

    method Flush(dest: string, now: int) returns (result: seq<string>)
      modifies this`queues
      ensures queues == old(queues) - {dest}
      ensures result == FlushedEnvelopes(old(queues), dest, now)
    {
      result := [];
      if dest !in queues {
        return;
      }
      var queue := queues[dest];
      queues := queues - {dest};
      var i := 0;
      while i < |queue|
        invariant 0 <= i <= |queue|
        invariant result + Envelopes(Live(queue[i..], now)) == Envelopes(Live(queue, now))
      {
        assert queue[i..][1..] == queue[i + 1..];
        if now < queue[i].expiresAt {
          assert Envelopes(Live(queue[i..], now)) == [queue[i].env] + Envelopes(Live(queue[i + 1..], now));
          result := result + [queue[i].env];
        }
        i := i + 1;
      }
    }

    method KeepLive(queue: seq<Message>, now: int) returns (kept: seq<Message>, removed: nat)
      ensures kept == Live(queue, now) && removed == |queue| - |kept|
    {
      kept, removed := [], 0;
      var i := 0;
      while i < |queue|
        invariant 0 <= i <= |queue|
        invariant kept + Live(queue[i..], now) == Live(queue, now)
        invariant removed == i - |kept|
      {
        assert queue[i..][1..] == queue[i + 1..];
        if now < queue[i].expiresAt {
          kept := kept + [queue[i]];
        } else {
          removed := removed + 1;
        }
        i := i + 1;
      }
    }

    method CleanExpired(now: int) returns (removed: nat)
      modifies this`queues
      ensures queues == Cleaned(old(queues), now)
      ensures removed == Total(old(queues)) - Total(queues)
    {
      removed := 0;
      ghost var was := queues;
      var todo := queues.Keys;
      assert queues == PartlyCleaned(was, todo, now);
      while todo != {}
        invariant todo <= was.Keys
        invariant queues == PartlyCleaned(was, todo, now)
        invariant removed + Total(queues) == Total(was)
        decreases |todo|
      {
        var dest :| dest in todo;
        assert todo - {dest} + {dest} == todo;
        todo := todo - {dest};
        PartlyStep(was, todo, dest, now);
        var kept, n := KeepLive(queues[dest], now);
        removed := removed + n;
        if |kept| == 0 {
          TotalRemove(queues, dest);
          queues := queues - {dest};
        } else {
          TotalUpdate(queues, dest, kept);
          queues := queues[dest := kept];
        }
      }
    }
  }

  /** The queues when all but the given destinations have been swept. */
  ghost function PartlyCleaned(q: Queues, todo: set<string>, now: int): Queues {
    map d | d in q && (d in todo || Live(q[d], now) != []) :: if d in todo then q[d] else Live(q[d], now)
  }

  lemma PartlyStep(q: Queues, todo: set<string>, d: string, now: int)
    requires d in q && d !in todo
    ensures d in PartlyCleaned(q, todo + {d}, now) && PartlyCleaned(q, todo + {d}, now)[d] == q[d]
    ensures PartlyCleaned(q, todo, now) ==
              if Live(q[d], now) == [] then PartlyCleaned(q, todo + {d}, now) - {d}
              else PartlyCleaned(q, todo + {d}, now)[d := Live(q[d], now)]
  {
  }

  // ---- Runs ------------------------------------------------------------------------------

  datatype Op = Enqueue(dest: string, env: string, now: int) | Flush(dest: string, now: int) | Clean(now: int)

  /** What a run leaves behind: the queues, the result of every flush, and whether some message
      was refused at the global limit. */
  datatype Trace = Trace(queues: Queues, flushed: seq<seq<string>>, refused: bool)

  const EMPTY := Trace(map[], [], false)

  ghost function Step(t: Trace, ttl: int, op: Op): Trace {
    match op
    case Enqueue(dest, env, now) => t.(queues := Enqueued(t.queues, ttl, dest, env, now), refused := t.refused || Full(t.queues))
    case Flush(dest, now) => t.(queues := t.queues - {dest}, flushed := t.flushed + [FlushedEnvelopes(t.queues, dest, now)])
    case Clean(now) => t.(queues := Cleaned(t.queues, now))
  }

  ghost function Run(t: Trace, ttl: int, ops: seq<Op>): Trace
    decreases |ops|
  {
    if ops == [] then t else Run(Step(t, ttl, ops[0]), ttl, ops[1..])
  }

  function WithoutCleaning(ops: seq<Op>): seq<Op> {
    if ops == [] then []
    else if ops[0].Clean? then WithoutCleaning(ops[1..])
    else [ops[0]] + WithoutCleaning(ops[1..])
  }

  /** The clock never runs backwards. */
  predicate Clocked(ops: seq<Op>, since: int) {
    ops == [] || (since <= ops[0].now && Clocked(ops[1..], ops[0].now))
  }

  // ---- Bounds ----------------------------------------------------------------------------

  ghost predicate WithinLimits(q: Queues) {
    Total(q) <= MAX_GLOBAL && forall d :: d in q ==> |q[d]| <= MAX_PER_DEST
  }

  lemma {:induction false} LiveIsShorter(queue: seq<Message>, now: int)
    ensures |Live(queue, now)| <= |queue|
  {
    if queue != [] {
      LiveIsShorter(queue[1..], now);
    }
  }

  lemma StepWithinLimits(t: Trace, ttl: int, op: Op)
    requires WithinLimits(t.queues)
    ensures WithinLimits(Step(t, ttl, op).queues)
  {
    match op
    case Enqueue(dest, env, now) =>
      TotalUpdate(t.queues, dest, Pushed(QueueOf(t.queues, dest), Message(env, now, now + ttl)));
    case Flush(dest, _) =>
      TotalMonotone(t.queues - {dest}, t.queues);
    case Clean(now) =>
      forall d | d in t.queues ensures |Live(t.queues[d], now)| <= |t.queues[d]| {
        LiveIsShorter(t.queues[d], now);
      }
      TotalMonotone(Cleaned(t.queues, now), t.queues);
  }

  lemma {:induction false} RunWithinLimits(t: Trace, ttl: int, ops: seq<Op>)
    requires WithinLimits(t.queues)
    ensures WithinLimits(Run(t, ttl, ops).queues)
    decreases |ops|
  {
    if ops != [] {
      StepWithinLimits(t, ttl, ops[0]);
      RunWithinLimits(Step(t, ttl, ops[0]), ttl, ops[1..]);
    }
  }

  /** In every reachable state each destination has at most 100 messages, and all together at
      most 10000. */
  lemma CacheBounds(ttl: int, ops: seq<Op>)
    ensures WithinLimits(Run(EMPTY, ttl, ops).queues)
  {
    RunWithinLimits(EMPTY, ttl, ops);
  }

  // ---- Cleaning is invisible -------------------------------------------------------------

  predicate Sorted(queue: seq<Message>) {
    forall i, j :: 0 <= i < j < |queue| ==> queue[i].expiresAt <= queue[j].expiresAt
  }

  /** One queue is the other without some expired messages at its head. */
  predicate Trimmed(short: seq<Message>, long: seq<Message>, now: int) {
    && |short| <= |long| && short == long[|long| - |short|..]
    && forall i :: 0 <= i < |long| - |short| ==> long[i].expiresAt <= now
  }

  lemma {:induction false} AllLive(queue: seq<Message>, now: int)
    requires forall i :: 0 <= i < |queue| ==> now < queue[i].expiresAt
    ensures Live(queue, now) == queue
  {
    if queue != [] {
      AllLive(queue[1..], now);
    }
  }

  lemma {:induction false} LiveOfSorted(queue: seq<Message>, now: int)
    requires Sorted(queue)
    ensures Trimmed(Live(queue, now), queue, now)
  {
    if queue != [] {
      if now < queue[0].expiresAt {
        AllLive(queue, now);
      } else {
        var rest := queue[1..];
        var live := Live(rest, now);
        LiveOfSorted(rest, now);
        assert queue[|queue| - |live|..] == rest[|rest| - |live|..];
        assert forall i :: 0 < i < |queue| ==> queue[i] == rest[i - 1];
      }
    }
  }

  lemma {:induction false} LiveOfTrimmed(short: seq<Message>, long: seq<Message>, now: int)
    requires Trimmed(short, long, now)
    ensures Live(short, now) == Live(long, now)
    decreases |long|
  {
    if |short| == |long| {
      assert short == long;
    } else {
      assert short == long[1..][|long| - 1 - |short|..];
      LiveOfTrimmed(short, long[1..], now);
    }
  }

  lemma TrimmedTwice(a: seq<Message>, b: seq<Message>, c: seq<Message>, now: int)
    requires Trimmed(a, b, now) && Trimmed(b, c, now)
    ensures Trimmed(a, c, now)
  {
    assert a == c[|c| - |b|..][|b| - |a|..];
    forall i | 0 <= i < |c| - |a| ensures c[i].expiresAt <= now {
      if i >= |c| - |b| {
        assert c[i] == b[i - (|c| - |b|)];
      }
    }
  }

  lemma PushTrimmed(short: seq<Message>, long: seq<Message>, m: Message, now: int)
    requires Trimmed(short, long, now) && |long| <= MAX_PER_DEST
    ensures Trimmed(Pushed(short, m), Pushed(long, m), now)
  {
    var s := if |short| >= MAX_PER_DEST then short[1..] else short;
    var l := if |long| >= MAX_PER_DEST then long[1..] else long;
    if |short| == |long| {
      assert short == long;
    } else {
      assert s == short;
      assert s == l[|l| - |s|..];
    }
  }

  /** The simulation between a run with cleaning and the same run without. */
  ghost predicate Simulates(clean: Trace, plain: Trace, ttl: int, now: int) {
    && clean.flushed == plain.flushed && !clean.refused && !plain.refused
    && WithinLimits(plain.queues)
    && (forall d :: d in clean.queues ==> d in plain.queues)
    && (forall d :: d in plain.queues ==>
          && Trimmed(QueueOf(clean.queues, d), plain.queues[d], now)
          && Sorted(plain.queues[d])
          && forall i :: 0 <= i < |plain.queues[d]| ==> plain.queues[d][i].expiresAt <= now + ttl)
  }

  lemma LaterSimulates(clean: Trace, plain: Trace, ttl: int, now: int, later: int)
    requires Simulates(clean, plain, ttl, now) && now <= later
    ensures Simulates(clean, plain, ttl, later)
  {
  }

  lemma CleanSimulates(clean: Trace, plain: Trace, ttl: int, now: int)
    requires Simulates(clean, plain, ttl, now)
    ensures Simulates(Step(clean, ttl, Clean(now)), plain, ttl, now)
  {
    var clean' := Step(clean, ttl, Clean(now));
    forall d | d in plain.queues
      ensures Trimmed(QueueOf(clean'.queues, d), plain.queues[d], now)
    {
      var short := QueueOf(clean.queues, d);
      assert Sorted(short);
      LiveOfSorted(short, now);
      TrimmedTwice(Live(short, now), short, plain.queues[d], now);
      assert QueueOf(clean'.queues, d) == Live(short, now);
    }
  }

  lemma FlushSimulates(clean: Trace, plain: Trace, ttl: int, dest: string, now: int)
    requires Simulates(clean, plain, ttl, now)
    ensures Simulates(Step(clean, ttl, Flush(dest, now)), Step(plain, ttl, Flush(dest, now)), ttl, now)
  {
    StepWithinLimits(plain, ttl, Flush(dest, now));
    if dest in plain.queues {
      LiveOfTrimmed(QueueOf(clean.queues, dest), plain.queues[dest], now);
    }
  }

  lemma EnqueueSimulates(clean: Trace, plain: Trace, ttl: int, dest: string, env: string, now: int)
    requires Simulates(clean, plain, ttl, now) && !Full(plain.queues)
    ensures Simulates(Step(clean, ttl, Enqueue(dest, env, now)), Step(plain, ttl, Enqueue(dest, env, now)), ttl, now)
  {
    StepWithinLimits(plain, ttl, Enqueue(dest, env, now));
    TotalMonotone(clean.queues, plain.queues);
    var m := Message(env, now, now + ttl);
    var long := QueueOf(plain.queues, dest);
    PushTrimmed(QueueOf(clean.queues, dest), long, m, now);
    PushSorted(long, m);
    var clean', plain' := Step(clean, ttl, Enqueue(dest, env, now)), Step(plain, ttl, Enqueue(dest, env, now));
    forall d | d in plain'.queues
      ensures Trimmed(QueueOf(clean'.queues, d), plain'.queues[d], now) && Sorted(plain'.queues[d])
      ensures forall i :: 0 <= i < |plain'.queues[d]| ==> plain'.queues[d][i].expiresAt <= now + ttl
    {
      if d == dest {
        assert plain'.queues[d] == Pushed(long, m);
      } else {
        assert plain'.queues[d] == plain.queues[d];
      }
    }
  }

  lemma PushSorted(queue: seq<Message>, m: Message)
    requires Sorted(queue) && forall i :: 0 <= i < |queue| ==> queue[i].expiresAt <= m.expiresAt
    ensures Sorted(Pushed(queue, m))
    ensures forall i :: 0 <= i < |Pushed(queue, m)| ==> Pushed(queue, m)[i].expiresAt <= m.expiresAt
  {
  }

  lemma {:induction false} RunSimulates(clean: Trace, plain: Trace, ttl: int, ops: seq<Op>, since: int)
    requires Simulates(clean, plain, ttl, since) && Clocked(ops, since)
    requires !Run(plain, ttl, WithoutCleaning(ops)).refused
    ensures Run(clean, ttl, ops).flushed == Run(plain, ttl, WithoutCleaning(ops)).flushed
    ensures !Run(clean, ttl, ops).refused
    decreases |ops|
  {
    if ops != [] {
      var now := ops[0].now;
      LaterSimulates(clean, plain, ttl, since, now);
      if ops[0].Clean? {
        CleanSimulates(clean, plain, ttl, now);
        RunSimulates(Step(clean, ttl, ops[0]), plain, ttl, ops[1..], now);
      } else {
        assert WithoutCleaning(ops)[1..] == WithoutCleaning(ops[1..]);
        var plain' := Step(plain, ttl, ops[0]);
        match ops[0] {
          case Flush(dest, _) => FlushSimulates(clean, plain, ttl, dest, now);
          case Enqueue(dest, env, _) =>
            RefusalStays(plain', ttl, WithoutCleaning(ops[1..]));
            EnqueueSimulates(clean, plain, ttl, dest, env, now);
        }
        RunSimulates(Step(clean, ttl, ops[0]), plain', ttl, ops[1..], now);
      }
    }
  }

  lemma {:induction false} RefusalStays(t: Trace, ttl: int, ops: seq<Op>)
    ensures t.refused ==> Run(t, ttl, ops).refused
    decreases |ops|
  {
    if ops != [] {
      RefusalStays(Step(t, ttl, ops[0]), ttl, ops[1..]);
    }
  }

  /** Expiry sweeps can be run at any time without changing what is delivered: if the run
      without them never hits the global limit, every flush returns the same envelopes with
      them, and they cause no refusal either. */
  lemma CleaningIsInvisible(ttl: int, ops: seq<Op>, since: int)
    requires Clocked(ops, since)
    requires !Run(EMPTY, ttl, WithoutCleaning(ops)).refused
    ensures Run(EMPTY, ttl, ops).flushed == Run(EMPTY, ttl, WithoutCleaning(ops)).flushed
    ensures !Run(EMPTY, ttl, ops).refused
  {
    RunSimulates(EMPTY, EMPTY, ttl, ops, since);
  }

  // ---- At the limit it shows --------------------------------------------------------------

  lemma {:induction false} RunAppend(t: Trace, ttl: int, a: seq<Op>, b: seq<Op>)
    ensures Run(t, ttl, a + b) == Run(Run(t, ttl, a), ttl, b)
    decreases |a|
  {
    if a == [] {
      assert a + b == b;
    } else {
      assert (a + b)[1..] == a[1..] + b;
      RunAppend(Step(t, ttl, a[0]), ttl, a[1..], b);
    }
  }

  lemma {:induction false} ClockedAppend(a: seq<Op>, b: seq<Op>, since: int, now: int)
    requires Clocked(a, since) && Clocked(b, now) && since <= now && forall i :: 0 <= i < |a| ==> a[i].now <= now
    ensures Clocked(a + b, since)
    decreases |a|
  {
    if a == [] {
      assert a + b == b;
    } else {
      assert (a + b)[1..] == a[1..] + b;
      ClockedAppend(a[1..], b, a[0].now, now);
    }
  }

  lemma {:induction false} WithoutCleaningAppend(a: seq<Op>, b: seq<Op>)
    ensures WithoutCleaning(a + b) == WithoutCleaning(a) + WithoutCleaning(b)
  {
    if a == [] {
      assert a + b == b;
    } else {
      assert (a + b)[1..] == a[1..] + b;
      WithoutCleaningAppend(a[1..], b);
    }
  }

  lemma RunOn(t: Trace, ttl: int, op: Op, rest: seq<Op>)
    ensures Run(t, ttl, [op] + rest) == Run(Step(t, ttl, op), ttl, rest)
  {
    assert ([op] + rest)[1..] == rest;
  }

  /** A message for a destination of its own, and its flush. */
  function Probe(dest: string, now: int): seq<Op> {
    [Enqueue(dest, "probe", now), Flush(dest, now)]
  }

  lemma RunProbe(t: Trace, ttl: int, dest: string, now: int)
    requires ttl > 0 && dest !in t.queues
    ensures Run(t, ttl, Probe(dest, now)).flushed == t.flushed + [if Full(t.queues) then [] else ["probe"]]
  {
    var u := Step(t, ttl, Enqueue(dest, "probe", now));
    assert Probe(dest, now) == [Enqueue(dest, "probe", now)] + ([Flush(dest, now)] + []);
    RunOn(t, ttl, Enqueue(dest, "probe", now), [Flush(dest, now)] + []);
    RunOn(u, ttl, Flush(dest, now), []);
    if !Full(t.queues) {
      var m := Message("probe", now, now + ttl);
      assert QueueOf(u.queues, dest) == [m] && [m][1..] == [];
      assert Live([m], now) == [m];
      assert Envelopes([m]) == ["probe"];
    } else {
      assert QueueOf(u.queues, dest) == [] && Envelopes([]) == [];
    }
  }

  /** One message for each of count fresh destinations, the first named Name(n). */
  function Fill(n: nat, count: nat, now: int): seq<Op>
    decreases count
  {
    if count == 0 then [] else [Enqueue(Name(n), "", now)] + Fill(n + 1, count - 1, now)
  }

  ghost predicate Unused(q: Queues, n: nat) {
    forall d :: d in q ==> |d| < n
  }

  lemma FillStep(t: Trace, ttl: int, n: nat, now: int)
    requires Unused(t.queues, n) && Total(t.queues) < MAX_GLOBAL
    ensures var t' := Step(t, ttl, Enqueue(Name(n), "", now));
            Unused(t'.queues, n + 1) && Total(t'.queues) == Total(t.queues) + 1 && t'.flushed == t.flushed
  {
    NameLength(n);
    TotalUpdate(t.queues, Name(n), Pushed([], Message("", now, now + ttl)));
  }

  lemma {:induction false} RunFill(t: Trace, ttl: int, n: nat, count: nat, now: int)
    requires Unused(t.queues, n) && Total(t.queues) + count <= MAX_GLOBAL
    ensures var t' := Run(t, ttl, Fill(n, count, now));
            Unused(t'.queues, n + count) && Total(t'.queues) == Total(t.queues) + count && t'.flushed == t.flushed
    decreases count
  {
    if count > 0 {
      var op, rest := Enqueue(Name(n), "", now), Fill(n + 1, count - 1, now);
      assert Fill(n, count, now) == [op] + rest;
      RunOn(t, ttl, op, rest);
      FillStep(t, ttl, n, now);
      RunFill(Step(t, ttl, op), ttl, n + 1, count - 1, now);
    }
  }

  /** Fill the cache up, and see whether there is room for one more message. */
  function FillAndProbe(n: nat, room: nat, now: int): seq<Op> {
    Fill(n, room, now) + Probe(Name(n + room), now)
  }

  lemma RunFillAndProbe(t: Trace, ttl: int, n: nat, room: nat, now: int)
    requires ttl > 0 && Unused(t.queues, n) && Total(t.queues) + room <= MAX_GLOBAL
    ensures Run(t, ttl, FillAndProbe(n, room, now)).flushed ==
              t.flushed + [if Total(t.queues) + room == MAX_GLOBAL then [] else ["probe"]]
  {
    RunAppend(t, ttl, Fill(n, room, now), Probe(Name(n + room), now));
    RunFill(t, ttl, n, room, now);
    NameLength(n + room);
    RunProbe(Run(t, ttl, Fill(n, room, now)), ttl, Name(n + room), now);
  }

  lemma {:induction false} FillIsClocked(n: nat, count: nat, now: int)
    ensures Clocked(Fill(n, count, now), now) && forall i :: 0 <= i < |Fill(n, count, now)| ==> Fill(n, count, now)[i].now == now
    ensures WithoutCleaning(Fill(n, count, now)) == Fill(n, count, now)
    decreases count
  {
    if count > 0 {
      FillIsClocked(n + 1, count - 1, now);
      assert Fill(n, count, now)[1..] == Fill(n + 1, count - 1, now);
    }
  }

  lemma ProbeShape(dest: string, now: int)
    ensures Clocked(Probe(dest, now), now) && WithoutCleaning(Probe(dest, now)) == Probe(dest, now)
  {
    var send, flush := Enqueue(dest, "probe", now), Flush(dest, now);
    assert Probe(dest, now)[1..] == [flush] && [flush][1..] == [];
    assert WithoutCleaning([flush]) == [flush] && Clocked([flush], now);
    assert WithoutCleaning(Probe(dest, now)) == [send] + [flush];
  }

  lemma FillAndProbeShape(n: nat, room: nat, now: int)
    ensures Clocked(FillAndProbe(n, room, now), now) && WithoutCleaning(FillAndProbe(n, room, now)) == FillAndProbe(n, room, now)
  {
    FillIsClocked(n, room, now);
    ProbeShape(Name(n + room), now);
    ClockedAppend(Fill(n, room, now), Probe(Name(n + room), now), now, now);
    WithoutCleaningAppend(Fill(n, room, now), Probe(Name(n + room), now));
  }

  /** A bound on the lengths of the destinations in use. */
  lemma {:induction false} SomeUnused(q: Queues) returns (n: nat)
    ensures Unused(q, n)
    decreases |q|
  {
    if q == map[] {
      n := 0;
    } else {
      var d :| d in q;
      var m := SomeUnused(q - {d});
      n := if m > |d| then m else |d| + 1;
      forall e | e in q ensures |e| < n {
        assert e == d || e in q - {d};
      }
    }
  }

  ghost predicate NoneEmpty(q: Queues) {
    forall d :: d in q ==> q[d] != []
  }

  lemma {:induction false} RunLeavesNoneEmpty(t: Trace, ttl: int, ops: seq<Op>)
    requires NoneEmpty(t.queues)
    ensures NoneEmpty(Run(t, ttl, ops).queues)
    decreases |ops|
  {
    if ops != [] {
      RunLeavesNoneEmpty(Step(t, ttl, ops[0]), ttl, ops[1..]);
    }
  }

  predicate SomeExpired(q: Queues, now: int) {
    exists d :: d in q && HasExpired(q[d], now)
  }

  predicate HasExpired(queue: seq<Message>, now: int) {
    exists i :: 0 <= i < |queue| && queue[i].expiresAt <= now
  }

  lemma NothingToClean(q: Queues, now: int)
    requires NoneEmpty(q) && !SomeExpired(q, now)
    ensures Cleaned(q, now) == q
  {
    forall d | d in q ensures Live(q[d], now) == q[d] {
      assert !HasExpired(q[d], now);
      AllLive(q[d], now);
    }
  }

  lemma SweepMakesRoom(q: Queues, d: string, i: nat, now: int)
    requires d in q && i < |q[d]| && q[d][i].expiresAt <= now
    ensures Total(Cleaned(q, now)) < Total(q)
  {
    forall e | e in q ensures |Live(q[e], now)| <= |q[e]| {
      LiveIsShorter(q[e], now);
    }
    ExpiredIsDropped(q[d], i, now);
    var rest := Cleaned(q, now);
    TotalRemove(q, d);
    TotalMonotone(rest - {d}, q - {d});
    if d in rest {
      TotalRemove(rest, d);
    } else {
      assert rest - {d} == rest;
    }
  }

  ghost predicate Shows(t: Trace, ttl: int, more: seq<Op>, now: int) {
    Clocked(more, now) && Run(Step(t, ttl, Clean(now)), ttl, more).flushed != Run(t, ttl, more).flushed
  }

  lemma ExpiryShows(t: Trace, ttl: int, now: int) returns (more: seq<Op>)
    requires ttl > 0 && WithinLimits(t.queues) && SomeExpired(t.queues, now)
    ensures Shows(t, ttl, more, now) && WithoutCleaning(more) == more
  {
    var d :| d in t.queues && HasExpired(t.queues[d], now);
    var i :| 0 <= i < |t.queues[d]| && t.queues[d][i].expiresAt <= now;
    SweepMakesRoom(t.queues, d, i, now);
    var n := SomeUnused(t.queues);
    var room := MAX_GLOBAL - Total(t.queues);
    more := FillAndProbe(n, room, now);
    FillAndProbeShape(n, room, now);
    RunFillAndProbe(t, ttl, n, room, now);
    RunFillAndProbe(Step(t, ttl, Clean(now)), ttl, n, room, now);
    assert (t.flushed + [[]])[|t.flushed|] != (t.flushed + [["probe"]])[|t.flushed|];
  }

  /** When a sweep can be noticed: from every reachable cache, some continuation with a monotone clock
      has a flush that returns something else after a sweep than without it, if and only if some queued
      message has expired. (The cache is filled up, and has room for one more message only after the
      sweep.) */
  lemma SweepShowsExactly(ttl: int, ops: seq<Op>, now: int)
    requires ttl > 0
    ensures var t := Run(EMPTY, ttl, ops);
            (exists more :: Shows(t, ttl, more, now)) <==> SomeExpired(t.queues, now)
  {
    var t := Run(EMPTY, ttl, ops);
    RunLeavesNoneEmpty(EMPTY, ttl, ops);
    if SomeExpired(t.queues, now) {
      RunWithinLimits(EMPTY, ttl, ops);
      var more := ExpiryShows(t, ttl, now);
    } else {
      NothingToClean(t.queues, now);
      assert Step(t, ttl, Clean(now)) == t;
    }
  }

  /** So at the limit cleaning is visible: for every lifetime of messages there is a run, with a
      monotone clock, whose flushes return something else without its sweeps. */
  lemma CleaningShowsAtLimit(ttl: int)
    requires ttl > 0
    ensures exists ops: seq<Op> :: Clocked(ops, 0)
              && Run(EMPTY, ttl, ops).flushed != Run(EMPTY, ttl, WithoutCleaning(ops)).flushed
  {
    var first := [Enqueue("", "", 0)];
    var t := Run(EMPTY, ttl, first);
    RunWithinLimits(EMPTY, ttl, first);
    FirstExpires(ttl);
    var more := ExpiryShows(t, ttl, ttl);
    var ops := first + ([Clean(ttl)] + more);
    assert ([Clean(ttl)] + more)[1..] == more;
    assert first[1..] == [] && WithoutCleaning(first) == first;
    ClockedAppend(first, [Clean(ttl)] + more, 0, ttl);
    WithoutCleaningAppend(first, [Clean(ttl)] + more);
    RunAppend(EMPTY, ttl, first, [Clean(ttl)] + more);
    RunAppend(EMPTY, ttl, first, more);
  }

  lemma FirstExpires(ttl: int)
    ensures SomeExpired(Run(EMPTY, ttl, [Enqueue("", "", 0)]).queues, ttl)
  {
    var q := Run(EMPTY, ttl, [Enqueue("", "", 0)]).queues;
    assert [Enqueue("", "", 0)][1..] == [];
    assert "" in q && q[""] == [Message("", 0, ttl)];
    assert q[""][0].expiresAt <= ttl;
    assert HasExpired(q[""], ttl);
  }

  lemma {:induction false} ExpiredIsDropped(queue: seq<Message>, i: nat, now: int)
    requires i < |queue| && queue[i].expiresAt <= now
    ensures |Live(queue, now)| < |queue|
  {
    LiveIsShorter(queue[1..], now);
    if i > 0 {
      ExpiredIsDropped(queue[1..], i - 1, now);
    }
  }
}
