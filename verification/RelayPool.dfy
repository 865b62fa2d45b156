/** The pool of relay connections with least-recently-used eviction (transport/mailbox.go).
    Whether a cached relay is still connected, and whether a new connection can be made, are
    decided outside and enter as part of each request. */
module RelayPool {
  import opened Basics

  const MAX_POOL := 50

  datatype Pool = Pool(relays: map<string, nat>, order: seq<string>)

  /** connected: what the cached relay, if any, reports; dial: the new connection, if it succeeds. */
  datatype Request = Request(url: string, connected: bool, dial: Option<nat>)

  // ---- The operation as a function -------------------------------------------------------

  function WithoutFirst(order: seq<string>, url: string): seq<string> {
    if order == [] then [] else if order[0] == url then order[1..] else [order[0]] + WithoutFirst(order[1..], url)
  }

  function Touched(order: seq<string>, url: string): seq<string> {
    if url in order then WithoutFirst(order, url) + [url] else order
  }

  function Evicted(p: Pool): Pool {
    if |p.relays| >= MAX_POOL && |p.order| > 0 then Pool(p.relays - {p.order[0]}, p.order[1..]) else p
  }

  predicate Hit(p: Pool, r: Request) {
    r.url in p.relays && r.connected
  }

  function Requested(p: Pool, r: Request): Pool {
    if Hit(p, r) then p.(order := Touched(p.order, r.url))
    else if r.dial.None? then p
    else var q := Evicted(p); Pool(q.relays[r.url := r.dial.value], q.order + [r.url])
  }

  function Answer(p: Pool, r: Request): Option<nat> {
    if Hit(p, r) then Some(p.relays[r.url]) else r.dial
  }

  /** The connection that a request closes: the evicted one, if the oldest entry is not stale. A
      disconnected relay that is replaced is not closed. */
  function Closing(p: Pool, r: Request): seq<nat> {
    if !Hit(p, r) && r.dial.Some? && |p.relays| >= MAX_POOL && |p.order| > 0 && p.order[0] in p.relays
    then [p.relays[p.order[0]]] else []
  }

  // ---- The pool object -------------------------------------------------------------------

  class LivePool {
    var relays: map<string, nat>
    var order: seq<string>
    var closed: seq<nat>                     // the connections closed so far

    function State(): Pool
      reads this
    {
      Pool(relays, order)
    }

    constructor ()
      ensures State() == Pool(map[], []) && closed == []
    {
      relays, order, closed := map[], [], [];
    }

    method GetRelay(url: string, connected: bool, dial: Option<nat>) returns (relay: Option<nat>)
      modifies this
      ensures State() == Requested(old(State()), Request(url, connected, dial))
      ensures relay == Answer(old(State()), Request(url, connected, dial))
      ensures closed == old(closed) + Closing(old(State()), Request(url, connected, dial))
    {
      if url in relays && connected {
        MoveToEnd(url);
        return Some(relays[url]);
      }
      if dial == None {
        return None;
      }
      if |relays| >= MAX_POOL && |order| > 0 {
        var oldest := order[0];
        order := order[1..];
        if oldest in relays {
          closed := closed + [relays[oldest]];
          relays := relays - {oldest};
        } else {
          assert relays - {oldest} == relays;
        }
      }
      relays := relays[url := dial.value];
      order := order + [url];
      return dial;
    }

    method MoveToEnd(url: string)
      modifies this`order
      ensures order == Touched(old(order), url)
    {
      var i := 0;
      while i < |order|
        invariant 0 <= i <= |order| && order == old(order)
        invariant url !in order[..i]
      {
        if order[i] == url {
          WithoutFirstAt(order, url, i);
          order := order[..i] + order[i + 1..];
          order := order + [url];
          return;
        }
        i := i + 1;
      }
      assert order[..i] == order;
    }
  }

  lemma {:induction false} WithoutFirstAt(order: seq<string>, url: string, i: nat)
    requires i < |order| && order[i] == url && url !in order[..i]
    ensures WithoutFirst(order, url) == order[..i] + order[i + 1..]
  {
    if i > 0 {
      assert order[0] in order[..i];
      assert order[1..][..i - 1] == order[..i][1..];
      WithoutFirstAt(order[1..], url, i - 1);
    }
  }

  // ---- Runs ------------------------------------------------------------------------------

  const EMPTY := Pool(map[], [])

  function Run(p: Pool, reqs: seq<Request>): Pool
    decreases |reqs|
  {
    if reqs == [] then p else Run(Requested(p, reqs[0]), reqs[1..])
  }

  function Members(s: seq<string>): set<string> {
    if s == [] then {} else {s[0]} + Members(s[1..])
  }

  lemma {:induction false} MembersIn(s: seq<string>)
    ensures forall u :: u in Members(s) <==> u in s
  {
    if s != [] {
      MembersIn(s[1..]);
      assert s == [s[0]] + s[1..];
    }
  }

  lemma {:induction false} MembersAppend(s: seq<string>, u: string)
    ensures Members(s + [u]) == Members(s) + {u}
  {
    if s != [] {
      assert (s + [u])[1..] == s[1..] + [u];
      MembersAppend(s[1..], u);
    } else {
      assert [u][1..] == [];
    }
  }

  lemma {:induction false} MembersAtMost(s: seq<string>)
    ensures |Members(s)| <= |s|
  {
    if s != [] {
      MembersAtMost(s[1..]);
    }
  }

  lemma {:induction false} MembersWithoutFirst(order: seq<string>, url: string)
    requires url in Members(order)
    ensures |WithoutFirst(order, url)| == |order| - 1
    ensures Members(order) == Members(WithoutFirst(order, url)) + {url}
  {
    if order[0] != url {
      MembersWithoutFirst(order[1..], url);
      assert ([order[0]] + WithoutFirst(order[1..], url))[1..] == WithoutFirst(order[1..], url);
    }
  }

  /** Every cached URL occurs in the order. */
  predicate Ordered(p: Pool) {
    p.relays.Keys <= Members(p.order)
  }

  lemma StepKeepsOrdered(p: Pool, r: Request)
    requires Ordered(p)
    ensures Ordered(Requested(p, r))
  {
    MembersIn(p.order);
    if Hit(p, r) {
      MembersWithoutFirst(p.order, r.url);
      MembersAppend(WithoutFirst(p.order, r.url), r.url);
    } else if r.dial.Some? {
      MembersAppend(Evicted(p).order, r.url);
    }
  }

  lemma {:induction false} RunKeepsOrdered(p: Pool, reqs: seq<Request>)
    requires Ordered(p)
    ensures Ordered(Run(p, reqs))
    decreases |reqs|
  {
    if reqs != [] {
      StepKeepsOrdered(p, reqs[0]);
      RunKeepsOrdered(Requested(p, reqs[0]), reqs[1..]);
    }
  }

  /** In every reachable state, reconnections included, each cached URL occurs in the order, so
      that no relay escapes eviction. */
  lemma CachedUrlsAreOrdered(reqs: seq<Request>)
    ensures forall u :: u in Run(EMPTY, reqs).relays ==> u in Run(EMPTY, reqs).order
  {
    RunKeepsOrdered(EMPTY, reqs);
    MembersIn(Run(EMPTY, reqs).order);
  }

  // ---- Size ------------------------------------------------------------------------------

  predicate Reconnects(p: Pool, r: Request) {
    r.url in p.relays && !r.connected && r.dial.Some?
  }

  /** How many requests of a run found their relay cached but disconnected, and dialled again. */
  function ReconnectCount(p: Pool, reqs: seq<Request>): nat
    decreases |reqs|
  {
    if reqs == [] then 0
    else (if Reconnects(p, reqs[0]) then 1 else 0) + ReconnectCount(Requested(p, reqs[0]), reqs[1..])
  }

  function Larger(n: nat): nat {
    if n < MAX_POOL then MAX_POOL else n
  }

  lemma SubsetSize(a: set<string>, b: set<string>)
    requires a <= b
    ensures |a| <= |b|
  {
    assert b == a + (b - a);
  }

  lemma OrderedSize(p: Pool)
    requires Ordered(p)
    ensures |p.relays| <= |p.order|
  {
    SubsetSize(p.relays.Keys, Members(p.order));
    MembersAtMost(p.order);
    assert |p.relays| == |p.relays.Keys|;
  }

  /** The pool's overshoot plus the stale entries in the order. */
  predicate Slack(p: Pool, reconnects: nat) {
    Ordered(p) && Larger(|p.relays|) + |p.order| - |p.relays| <= MAX_POOL + reconnects
  }

  lemma RemoveSize(m: map<string, nat>, u: string)
    ensures |m - {u}| == |m| - if u in m then 1 else 0
  {
    if u in m {
      assert m == (m - {u})[u := m[u]];
    } else {
      assert m - {u} == m;
    }
  }

  lemma StepKeepsSlack(p: Pool, r: Request, n: nat)
    requires Slack(p, n)
    ensures Slack(Requested(p, r), n + if Reconnects(p, r) then 1 else 0)
  {
    StepKeepsOrdered(p, r);
    OrderedSize(p);
    if Hit(p, r) {
      MembersIn(p.order);
      MembersWithoutFirst(p.order, r.url);
    } else if r.dial.Some? {
      OrderedSize(Requested(p, r));
      if p.order != [] {
        RemoveSize(p.relays, p.order[0]);
      }
    }
  }

  lemma {:induction false} RunKeepsSlack(p: Pool, reqs: seq<Request>, n: nat)
    requires Slack(p, n)
    ensures Slack(Run(p, reqs), n + ReconnectCount(p, reqs))
    decreases |reqs|
  {
    if reqs != [] {
      StepKeepsSlack(p, reqs[0], n);
      RunKeepsSlack(Requested(p, reqs[0]), reqs[1..], n + if Reconnects(p, reqs[0]) then 1 else 0);
    }
  }

  /** The pool holds at most 50 relays, plus one for each reconnection: reconnecting leaves a
      stale entry in the order, and evicting a stale entry frees nothing. */
  lemma PoolBound(reqs: seq<Request>)
    ensures |Run(EMPTY, reqs).relays| <= MAX_POOL + ReconnectCount(EMPTY, reqs)
  {
    RunKeepsSlack(EMPTY, reqs, 0);
    OrderedSize(Run(EMPTY, reqs));
  }

  /** One request takes a full pool past its size exactly when it adds a new URL while the
      oldest entry of the order is stale. */
  lemma WhenThePoolOverflows(p: Pool, r: Request)
    requires |p.relays| >= MAX_POOL && p.order != []
    ensures |Requested(p, r).relays| > |p.relays| <==> r.dial.Some? && r.url !in p.relays && p.order[0] !in p.relays
  {
    RemoveSize(p.relays, p.order[0]);
  }

  // The bound is met: reconnect the only cached URL n times, fill the pool, then add n + 1 more.

  function Fresh(i: nat, count: nat): seq<Request>
    decreases count
  {
    if count == 0 then [] else [Request(Name(i), false, Some(i))] + Fresh(i + 1, count - 1)
  }

  function Again(n: nat): seq<Request> {
    if n == 0 then [] else [Request("", false, Some(0))] + Again(n - 1)
  }

  lemma RunCons(p: Pool, r: Request, rest: seq<Request>)
    ensures Run(p, [r] + rest) == Run(Requested(p, r), rest)
    ensures ReconnectCount(p, [r] + rest) == (if Reconnects(p, r) then 1 else 0) + ReconnectCount(Requested(p, r), rest)
  {
    assert ([r] + rest)[1..] == rest;
  }

  lemma {:induction false} RunAppend(p: Pool, a: seq<Request>, b: seq<Request>)
    ensures Run(p, a + b) == Run(Run(p, a), b)
    ensures ReconnectCount(p, a + b) == ReconnectCount(p, a) + ReconnectCount(Run(p, a), b)
    decreases |a|
  {
    if a == [] {
      assert a + b == b;
    } else {
      assert (a + b)[1..] == a[1..] + b;
      RunAppend(Requested(p, a[0]), a[1..], b);
    }
  }

  /** size relays with URLs shorter than i, after m leading entries for the empty URL. */
  predicate Shape(p: Pool, m: nat, i: nat, size: nat, first: bool) {
    && m <= |p.order| && (forall j :: 0 <= j < m ==> p.order[j] == "")
    && (forall u :: u in p.relays ==> |u| < i)
    && |p.relays| == size && ("" in p.relays <==> first)
  }

  lemma AgainStep(p: Pool, m: nat)
    requires Shape(p, m, 1, 1, true) && |p.order| == m
    ensures var r := Request("", false, Some(0));
            Shape(Requested(p, r), m + 1, 1, 1, true) && |Requested(p, r).order| == m + 1 && Reconnects(p, r)
  {
  }

  lemma {:induction false} RunAgain(p: Pool, m: nat, n: nat)
    requires Shape(p, m, 1, 1, true) && |p.order| == m
    ensures Shape(Run(p, Again(n)), m + n, 1, 1, true) && ReconnectCount(p, Again(n)) == n
    decreases n
  {
    if n > 0 {
      var r := Request("", false, Some(0));
      AgainStep(p, m);
      RunAgain(Requested(p, r), m + 1, n - 1);
      RunCons(p, r, Again(n - 1));
    }
  }

  lemma FillStep(p: Pool, m: nat, i: nat, size: nat)
    requires Shape(p, m, i, size, true) && i > 0 && size < MAX_POOL
    ensures var r := Request(Name(i), false, Some(i));
            Shape(Requested(p, r), m, i + 1, size + 1, true) && !Reconnects(p, r)
  {
    NameLength(i);
  }

  lemma {:induction false} RunFill(p: Pool, m: nat, i: nat, size: nat, count: nat)
    requires Shape(p, m, i, size, true) && i > 0 && size + count <= MAX_POOL
    ensures Shape(Run(p, Fresh(i, count)), m, i + count, size + count, true)
    ensures ReconnectCount(p, Fresh(i, count)) == 0
    decreases count
  {
    if count > 0 {
      var r := Request(Name(i), false, Some(i));
      FillStep(p, m, i, size);
      RunFill(Requested(p, r), m, i + 1, size + 1, count - 1);
      RunCons(p, r, Fresh(i + 1, count - 1));
    }
  }

  lemma OverflowStep(p: Pool, m: nat, i: nat, size: nat, first: bool)
    requires Shape(p, m, i, size, first) && i > 0 && m > 0 && size >= MAX_POOL
    ensures var r := Request(Name(i), false, Some(i));
            Shape(Requested(p, r), m - 1, i + 1, size + if first then 0 else 1, false) && !Reconnects(p, r)
  {
    NameLength(i);
    RemoveSize(p.relays, "");
  }

  lemma {:induction false} RunOverflow(p: Pool, m: nat, i: nat, size: nat, first: bool)
    requires Shape(p, m, i, size, first) && i > 0 && m > 0 && size >= MAX_POOL
    ensures |Run(p, Fresh(i, m)).relays| == size + m - if first then 1 else 0
    ensures ReconnectCount(p, Fresh(i, m)) == 0
    decreases m
  {
    var r := Request(Name(i), false, Some(i));
    OverflowStep(p, m, i, size, first);
    if m > 1 {
      RunOverflow(Requested(p, r), m - 1, i + 1, size + if first then 0 else 1, false);
    }
    RunCons(p, r, Fresh(i + 1, m - 1));
  }

  /** One URL connected and reconnected n times, then 49 + n + 1 others. */
  function Overfilling(n: nat): seq<Request> {
    [Request("", false, Some(0))] + (Again(n) + (Fresh(1, MAX_POOL - 1) + Fresh(MAX_POOL, n + 1)))
  }

  /** The bound cannot be lowered: for every n some run reconnects n times and ends with
      50 + n relays. */
  lemma PoolBoundAttained(n: nat)
    ensures ReconnectCount(EMPTY, Overfilling(n)) == n
    ensures |Run(EMPTY, Overfilling(n)).relays| == MAX_POOL + n
  {
    var r := Request("", false, Some(0));
    var one := Requested(EMPTY, r);
    var fill, over := Fresh(1, MAX_POOL - 1), Fresh(MAX_POOL, n + 1);
    assert one == Pool(map["" := 0], [""]);
    RunAgain(one, 1, n);
    var grown := Run(one, Again(n));
    RunFill(grown, n + 1, 1, 1, MAX_POOL - 1);
    var full := Run(grown, fill);
    RunOverflow(full, n + 1, MAX_POOL, MAX_POOL, true);
    RunCons(EMPTY, r, Again(n) + (fill + over));
    RunAppend(one, Again(n), fill + over);
    RunAppend(grown, fill, over);
  }

  // ---- Exactly the most recently used ----------------------------------------------------

  /** No request of the run finds its relay cached but disconnected. */
  predicate Steady(p: Pool, reqs: seq<Request>)
    decreases |reqs|
  {
    reqs == [] || ((reqs[0].url in p.relays ==> reqs[0].connected) && Steady(Requested(p, reqs[0]), reqs[1..]))
  }

  function Used(p: Pool, r: Request): seq<string> {
    if Answer(p, r).Some? then [r.url] else []
  }

  /** The URLs that were answered, in order. */
  function History(p: Pool, reqs: seq<Request>): seq<string>
    decreases |reqs|
  {
    if reqs == [] then [] else Used(p, reqs[0]) + History(Requested(p, reqs[0]), reqs[1..])
  }

  /** The distinct URLs used after the last use of u. */
  function UsedSince(h: seq<string>, u: string): set<string> {
    if h == [] then {}
    else if h[|h| - 1] == u then {}
    else {h[|h| - 1]} + UsedSince(h[..|h| - 1], u)
  }

  lemma UsedSinceNext(h: seq<string>, url: string, u: string)
    ensures UsedSince(h + [url], u) == if u == url then {} else {url} + UsedSince(h, u)
  {
    assert (h + [url])[..|h|] == h;
  }

  predicate NoDuplicates(s: seq<string>) {
    s == [] || (s[0] !in Members(s[1..]) && NoDuplicates(s[1..]))
  }

  lemma {:induction false} MembersSize(s: seq<string>)
    requires NoDuplicates(s)
    ensures |Members(s)| == |s|
  {
    if s != [] {
      MembersSize(s[1..]);
    }
  }

  lemma {:induction false} NoDuplicatesAppend(s: seq<string>, u: string)
    requires NoDuplicates(s) && u !in Members(s)
    ensures NoDuplicates(s + [u])
  {
    if s == [] {
      assert [u][1..] == [];
    } else {
      assert (s + [u])[1..] == s[1..] + [u];
      MembersAppend(s[1..], u);
      NoDuplicatesAppend(s[1..], u);
    }
  }

  lemma {:induction false} NoDuplicatesWithoutFirst(s: seq<string>, u: string)
    requires NoDuplicates(s) && u in Members(s)
    ensures NoDuplicates(WithoutFirst(s, u)) && u !in Members(WithoutFirst(s, u))
  {
    if s[0] != u {
      MembersWithoutFirst(s[1..], u);
      NoDuplicatesWithoutFirst(s[1..], u);
      assert ([s[0]] + WithoutFirst(s[1..], u))[1..] == WithoutFirst(s[1..], u);
    }
  }

  /** Each URL in the order is followed there by exactly those used since. */
  predicate Listed(order: seq<string>, h: seq<string>) {
    order == [] || (order[0] in h && UsedSince(h, order[0]) == Members(order[1..]) && Listed(order[1..], h))
  }

  lemma {:induction false} ListedAppend(order: seq<string>, h: seq<string>, url: string)
    requires Listed(order, h) && url !in Members(order)
    ensures Listed(order + [url], h + [url])
  {
    if order == [] {
      assert order + [url] == [url] && [url][1..] == [];
      UsedSinceNext(h, url, url);
    } else {
      assert (order + [url])[1..] == order[1..] + [url];
      UsedSinceNext(h, url, order[0]);
      MembersAppend(order[1..], url);
      ListedAppend(order[1..], h, url);
    }
  }

  lemma {:induction false} ListedMove(order: seq<string>, h: seq<string>, url: string)
    requires Listed(order, h) && NoDuplicates(order) && url in Members(order)
    ensures Listed(WithoutFirst(order, url) + [url], h + [url])
  {
    if order[0] == url {
      ListedAppend(order[1..], h, url);
    } else {
      var rest := WithoutFirst(order[1..], url);
      assert (WithoutFirst(order, url) + [url])[1..] == rest + [url];
      ListedMove(order[1..], h, url);
      UsedSinceNext(h, url, order[0]);
      MembersAppend(rest, url);
      MembersWithoutFirst(order[1..], url);
    }
  }

  /** Exactly full, and every used URL outside the cached ones was used before all of them. */
  ghost predicate Forgotten(cached: set<string>, room: nat, h: seq<string>) {
    forall u :: u in h && u !in cached ==> room == 0 && cached <= UsedSince(h, u)
  }

  /** The order has no duplicates, holds exactly the cached URLs and fits the pool. */
  predicate Tidy(order: seq<string>, cached: set<string>) {
    NoDuplicates(order) && Members(order) == cached && |order| <= MAX_POOL
  }

  /** The pool after history h: the order is tidy and lists the cached URLs from the least to
      the most recently used; uncached URLs were used earlier. */
  ghost predicate MostRecent(p: Pool, h: seq<string>) {
    && Tidy(p.order, p.relays.Keys)
    && Listed(p.order, h)
    && Forgotten(p.relays.Keys, MAX_POOL - |p.order|, h)
  }

  lemma TidyMove(order: seq<string>, cached: set<string>, url: string)
    requires Tidy(order, cached) && url in cached
    ensures Tidy(WithoutFirst(order, url) + [url], cached)
    ensures |WithoutFirst(order, url)| == |order| - 1
  {
    MembersWithoutFirst(order, url);
    NoDuplicatesWithoutFirst(order, url);
    NoDuplicatesAppend(WithoutFirst(order, url), url);
    MembersAppend(WithoutFirst(order, url), url);
  }

  lemma TidyAppend(order: seq<string>, cached: set<string>, url: string)
    requires Tidy(order, cached) && url !in cached && |order| < MAX_POOL
    ensures Tidy(order + [url], cached + {url})
  {
    NoDuplicatesAppend(order, url);
    MembersAppend(order, url);
  }

  lemma ForgottenNext(cached: set<string>, room: nat, h: seq<string>, url: string, after: nat)
    requires Forgotten(cached, room, h)
    requires room == 0 ==> after == 0
    ensures Forgotten(cached + {url}, after, h + [url])
  {
    forall u | u in h + [url] && u !in cached + {url}
      ensures after == 0 && cached + {url} <= UsedSince(h + [url], u)
    {
      UsedSinceNext(h, url, u);
    }
  }

  lemma HitKeepsMostRecent(p: Pool, url: string, h: seq<string>)
    requires MostRecent(p, h) && url in p.relays
    ensures MostRecent(p.(order := Touched(p.order, url)), h + [url])
  {
    MembersIn(p.order);
    TidyMove(p.order, p.relays.Keys, url);
    ListedMove(p.order, h, url);
    ForgottenNext(p.relays.Keys, MAX_POOL - |p.order|, h, url, MAX_POOL - |p.order|);
    assert p.relays.Keys + {url} == p.relays.Keys;
  }

  lemma MissKeepsMostRecent(p: Pool, url: string, dial: nat, h: seq<string>)
    requires MostRecent(p, h) && url !in p.relays
    ensures var q := Evicted(p); MostRecent(Pool(q.relays[url := dial], q.order + [url]), h + [url])
  {
    var q := Evicted(p);
    EvictedFacts(p, h);
    TidyAppend(q.order, q.relays.Keys, url);
    ListedAppend(q.order, h, url);
    ForgottenNext(q.relays.Keys, MAX_POOL - 1 - |q.order|, h, url, MAX_POOL - 1 - |q.order|);
    assert q.relays[url := dial].Keys == q.relays.Keys + {url};
  }

  /** Eviction removes the least recently used URL and leaves room. */
  lemma EvictedFacts(p: Pool, h: seq<string>)
    requires MostRecent(p, h)
    ensures var q := Evicted(p);
            && Tidy(q.order, q.relays.Keys) && |q.order| < MAX_POOL
            && Listed(q.order, h) && q.relays.Keys <= p.relays.Keys
            && Forgotten(q.relays.Keys, MAX_POOL - 1 - |q.order|, h)
  {
    MembersSize(p.order);
    assert |p.relays| == |p.relays.Keys|;
    if |p.order| == MAX_POOL {
      var q := Evicted(p);
      var oldest := p.order[0];
      assert q.relays.Keys == p.relays.Keys - {oldest} == Members(p.order[1..]);
      forall u | u in h && u !in q.relays.Keys
        ensures q.relays.Keys <= UsedSince(h, u)
      {
        if u != oldest {
          assert u !in p.relays.Keys;
        }
      }
    }
  }

  lemma StepKeepsMostRecent(p: Pool, r: Request, h: seq<string>)
    requires MostRecent(p, h) && (r.url in p.relays ==> r.connected)
    ensures MostRecent(Requested(p, r), h + Used(p, r))
  {
    if Hit(p, r) {
      HitKeepsMostRecent(p, r.url, h);
    } else if r.dial.Some? {
      MissKeepsMostRecent(p, r.url, r.dial.value, h);
    } else {
      assert h + [] == h;
    }
  }

  lemma Associative(a: seq<string>, b: seq<string>, c: seq<string>)
    ensures a + b + c == a + (b + c)
  {
  }

  lemma {:induction false} RunKeepsMostRecent(p: Pool, reqs: seq<Request>, h: seq<string>)
    requires MostRecent(p, h) && Steady(p, reqs)
    ensures MostRecent(Run(p, reqs), h + History(p, reqs))
    decreases |reqs|
  {
    if reqs == [] {
      assert h + [] == h;
    } else {
      StepKeepsMostRecent(p, reqs[0], h);
      RunKeepsMostRecent(Requested(p, reqs[0]), reqs[1..], h + Used(p, reqs[0]));
      Associative(h, Used(p, reqs[0]), History(Requested(p, reqs[0]), reqs[1..]));
    }
  }

  lemma {:induction false} ListedIsRecent(order: seq<string>, h: seq<string>, u: string)
    requires Listed(order, h) && u in Members(order)
    ensures u in h && |UsedSince(h, u)| < |order|
  {
    if order[0] == u {
      MembersAtMost(order[1..]);
    } else {
      ListedIsRecent(order[1..], h, u);
    }
  }

  /** As long as cached relays stay connected, the order is exactly the key set without
      duplicates, and a URL is cached if and only if it has been used and fewer than 50 distinct
      other URLs have been used since. */
  lemma CacheIsLeastRecentlyUsed(reqs: seq<Request>, u: string)
    requires Steady(EMPTY, reqs)
    ensures var p, h := Run(EMPTY, reqs), History(EMPTY, reqs);
            && NoDuplicates(p.order) && Members(p.order) == p.relays.Keys
            && (u in p.relays <==> u in h && |UsedSince(h, u)| < MAX_POOL)
  {
    RunKeepsMostRecent(EMPTY, reqs, []);
    var p, h := Run(EMPTY, reqs), History(EMPTY, reqs);
    assert [] + h == h;
    if u in p.relays {
      ListedIsRecent(p.order, h, u);
    } else if u in h {
      MembersSize(p.order);
      SubsetSize(p.relays.Keys, UsedSince(h, u));
    }
  }
}
