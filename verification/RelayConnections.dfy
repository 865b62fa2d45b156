/** The connections that the relay pool hands out and closes, over whole runs (transport/mailbox.go). */
module RelayConnections {
  import opened Basics
  import opened RelayPool

  /** The request makes a new connection: the URL is not cached, or its relay has been disconnected. */
  predicate Dials(p: Pool, r: Request) {
    r.dial.Some? && (r.url !in p.relays || !r.connected)
  }

  /** The latest connection made to each URL. */
  function Latest(p: Pool, reqs: seq<Request>, known: map<string, nat>): map<string, nat>
    decreases |reqs|
  {
    if reqs == [] then known
    else Latest(Requested(p, reqs[0]), reqs[1..], if Dials(p, reqs[0]) then known[reqs[0].url := reqs[0].dial.value] else known)
  }

  /** How often c was a connection made in a run. */
  function Made(p: Pool, reqs: seq<Request>, c: nat): nat
    decreases |reqs|
  {
    if reqs == [] then 0
    else (if Dials(p, reqs[0]) && reqs[0].dial == Some(c) then 1 else 0) + Made(Requested(p, reqs[0]), reqs[1..], c)
  }

  /** How often c was closed. */
  function Closed(p: Pool, reqs: seq<Request>, c: nat): nat
    decreases |reqs|
  {
    if reqs == [] then 0 else multiset(Closing(p, reqs[0]))[c] + Closed(Requested(p, reqs[0]), reqs[1..], c)
  }

  /** The URL is the oldest of a full pool. */
  predicate Oldest(p: Pool, url: string) {
    |p.relays| >= 50 && p.order != [] && p.order[0] == url
  }

  /** c is given up for a new connection to the same URL, having been disconnected. */
  predicate Superseded(p: Pool, r: Request, c: nat) {
    Dials(p, r) && r.url in p.relays && p.relays[r.url] == c && !Oldest(p, r.url)
  }

  function SupersededIn(p: Pool, reqs: seq<Request>, c: nat): nat
    decreases |reqs|
  {
    if reqs == [] then 0
    else (if Superseded(p, reqs[0], c) then 1 else 0) + SupersededIn(Requested(p, reqs[0]), reqs[1..], c)
  }

  /** How often c is cached. */
  ghost function Cached(relays: map<string, nat>, c: nat): nat
    decreases |relays|
  {
    if relays == map[] then 0 else var u :| u in relays; (if relays[u] == c then 1 else 0) + Cached(relays - {u}, c)
  }

  lemma {:induction false} CachedRemove(relays: map<string, nat>, u: string, c: nat)
    requires u in relays
    ensures Cached(relays, c) == (if relays[u] == c then 1 else 0) + Cached(relays - {u}, c)
    decreases |relays|
  {
    var e :| e in relays && Cached(relays, c) == (if relays[e] == c then 1 else 0) + Cached(relays - {e}, c);
    if e != u {
      CachedRemove(relays - {e}, u, c);
      CachedRemove(relays - {u}, e, c);
      assert relays - {e} - {u} == relays - {u} - {e};
    }
  }

  lemma CachedWithout(relays: map<string, nat>, u: string, c: nat)
    ensures Cached(relays - {u}, c) == Cached(relays, c) - if u in relays && relays[u] == c then 1 else 0
  {
    if u in relays {
      CachedRemove(relays, u, c);
    } else {
      assert relays - {u} == relays;
    }
  }

  lemma CachedUpdate(relays: map<string, nat>, u: string, d: nat, c: nat)
    ensures Cached(relays[u := d], c) ==
              Cached(relays, c) - (if u in relays && relays[u] == c then 1 else 0) + if d == c then 1 else 0
  {
    CachedRemove(relays[u := d], u, c);
    assert relays[u := d] - {u} == relays - {u};
    CachedWithout(relays, u, c);
  }

  // ---- What is returned ------------------------------------------------------------------

  predicate UpToDate(p: Pool, known: map<string, nat>) {
    forall u :: u in p.relays ==> u in known && known[u] == p.relays[u]
  }

  lemma LatestNext(p: Pool, r: Request, known: map<string, nat>)
    requires UpToDate(p, known)
    ensures var q, k := Requested(p, r), if Dials(p, r) then known[r.url := r.dial.value] else known;
            UpToDate(q, k)
  {
  }

  lemma {:induction false} RunIsLatest(p: Pool, reqs: seq<Request>, known: map<string, nat>)
    requires UpToDate(p, known)
    ensures UpToDate(Run(p, reqs), Latest(p, reqs, known))
    decreases |reqs|
  {
    if reqs != [] {
      var r := reqs[0];
      LatestNext(p, r, known);
      RunIsLatest(Requested(p, r), reqs[1..], if Dials(p, r) then known[r.url := r.dial.value] else known);
    }
  }

  lemma {:induction false} LatestAppend(p: Pool, reqs: seq<Request>, r: Request, known: map<string, nat>)
    ensures var q, k := Run(p, reqs), Latest(p, reqs, known);
            && Latest(p, reqs + [r], known) == (if Dials(q, r) then k[r.url := r.dial.value] else k)
            && Run(p, reqs + [r]) == Requested(q, r)
    decreases |reqs|
  {
    if reqs == [] {
      assert [] + [r] == [r] && [r][1..] == [];
    } else {
      assert (reqs + [r])[1..] == reqs[1..] + [r];
      LatestAppend(Requested(p, reqs[0]), reqs[1..], r,
                   if Dials(p, reqs[0]) then known[reqs[0].url := reqs[0].dial.value] else known);
    }
  }

  /** In every run, a request is answered if and only if its relay is cached and connected, or can be
      dialled; and the answer is the latest connection made to its own URL, by this request or an earlier
      one. */
  lemma AnswersItsUrl(reqs: seq<Request>, r: Request)
    ensures var p, answer := Run(EMPTY, reqs), Answer(Run(EMPTY, reqs), r);
            && (answer.Some? <==> (r.url in p.relays && r.connected) || r.dial.Some?)
            && (answer.Some? ==>
                  var latest := Latest(EMPTY, reqs + [r], map[]);
                  r.url in latest && answer.value == latest[r.url])
  {
    RunIsLatest(EMPTY, reqs, map[]);
    LatestAppend(EMPTY, reqs, r, map[]);
  }

  // ---- What is closed --------------------------------------------------------------------

  lemma EvictionConserves(p: Pool, r: Request, c: nat)
    requires Dials(p, r)
    ensures Cached(Evicted(p).relays, c) + multiset(Closing(p, r))[c] == Cached(p.relays, c)
  {
    if |p.relays| >= 50 && p.order != [] {
      CachedWithout(p.relays, p.order[0], c);
    }
  }

  lemma StepConserves(p: Pool, r: Request, c: nat)
    ensures Cached(p.relays, c) + (if Dials(p, r) && r.dial == Some(c) then 1 else 0)
         == Cached(Requested(p, r).relays, c) + multiset(Closing(p, r))[c] + if Superseded(p, r, c) then 1 else 0
  {
    if Dials(p, r) {
      EvictionConserves(p, r, c);
      CachedUpdate(Evicted(p).relays, r.url, r.dial.value, c);
    }
  }

  lemma {:induction false} RunConserves(p: Pool, reqs: seq<Request>, c: nat)
    ensures Cached(p.relays, c) + Made(p, reqs, c)
         == Cached(Run(p, reqs).relays, c) + Closed(p, reqs, c) + SupersededIn(p, reqs, c)
    decreases |reqs|
  {
    if reqs != [] {
      StepConserves(p, reqs[0], c);
      RunConserves(Requested(p, reqs[0]), reqs[1..], c);
    }
  }

  /** Every connection made in a run is cached, or was closed, or was given up disconnected for a new one
      to its URL: as often as it was made, and each time exactly one of these. */
  lemma EveryConnectionAccountedFor(reqs: seq<Request>, c: nat)
    ensures Made(EMPTY, reqs, c) == Cached(Run(EMPTY, reqs).relays, c) + Closed(EMPTY, reqs, c) + SupersededIn(EMPTY, reqs, c)
  {
    RunConserves(EMPTY, reqs, c);
  }

  /** What a request closes is the connection of the oldest URL of a full pool, if that is cached, and
      only when it dials. */
  lemma ClosesTheOldest(p: Pool, r: Request, c: nat)
    ensures c in Closing(p, r) <==> Dials(p, r) && exists u :: u in p.relays && Oldest(p, u) && p.relays[u] == c
    ensures |Closing(p, r)| <= 1
  {
    if Dials(p, r) && |p.relays| >= 50 && p.order != [] && p.order[0] in p.relays {
      assert Oldest(p, p.order[0]);
    }
  }

  /** As long as no two connections are the same, none is closed twice, and none that was closed is ever
      returned again. */
  lemma ClosedStaysAway(reqs: seq<Request>, r: Request, c: nat)
    requires Made(EMPTY, reqs + [r], c) <= 1
    ensures Closed(EMPTY, reqs + [r], c) <= 1
    ensures Closed(EMPTY, reqs + [r], c) == 1 ==> Answer(Run(EMPTY, reqs), r) != Some(c)
  {
    var p := Run(EMPTY, reqs);
    EveryConnectionAccountedFor(reqs + [r], c);
    LatestAppend(EMPTY, reqs, r, map[]);
    if Answer(p, r) == Some(c) {
      CachedRemove(Requested(p, r).relays, r.url, c);
    }
  }
}
