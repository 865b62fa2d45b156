/** Per-issuer rate limiting over a sliding minute (security/reputation_gossip.go). */
module SlidingWindow {
  import opened Basics

  const MAX_PER_MINUTE := 10

  // ---- One issuer ------------------------------------------------------------------------

  /** The timestamps after the cutoff, in order. */
  function Recent(stamps: seq<int>, cutoff: int): seq<int> {
    if stamps == [] then []
    else (if stamps[0] > cutoff then [stamps[0]] else []) + Recent(stamps[1..], cutoff)
  }

  predicate Allows(stamps: seq<int>, now: int) {
    |Recent(stamps, now - MINUTE)| < MAX_PER_MINUTE
  }

  function Noted(stamps: seq<int>, now: int): seq<int> {
    Recent(stamps, now - MINUTE) + if Allows(stamps, now) then [now] else []
  }

  /** How many of the stamps lie in the half-open interval (from, from + MINUTE]. */
  function InMinute(stamps: seq<int>, from: int): nat {
    if stamps == [] then 0
    else (if from < stamps[0] <= from + MINUTE then 1 else 0) + InMinute(stamps[1..], from)
  }

  lemma {:induction false} RecentAppend(a: seq<int>, b: seq<int>, cutoff: int)
    ensures Recent(a + b, cutoff) == Recent(a, cutoff) + Recent(b, cutoff)
  {
    if a == [] {
      assert a + b == b;
    } else {
      assert (a + b)[1..] == a[1..] + b;
      RecentAppend(a[1..], b, cutoff);
    }
  }

  lemma {:induction false} RecentTwice(stamps: seq<int>, early: int, late: int)
    requires early <= late
    ensures Recent(Recent(stamps, early), late) == Recent(stamps, late)
  {
    if stamps != [] {
      RecentTwice(stamps[1..], early, late);
      var head := if stamps[0] > early then [stamps[0]] else [];
      RecentAppend(head, Recent(stamps[1..], early), late);
      assert stamps[0] > early ==> Recent(head, late) == if stamps[0] > late then [stamps[0]] else [] by {
        assert stamps[0] > early ==> head[1..] == [];
      }
    }
  }

  lemma {:induction false} InMinuteAppend(a: seq<int>, b: seq<int>, from: int)
    ensures InMinute(a + b, from) == InMinute(a, from) + InMinute(b, from)
  {
    if a == [] {
      assert a + b == b;
    } else {
      assert (a + b)[1..] == a[1..] + b;
      InMinuteAppend(a[1..], b, from);
    }
  }

  lemma InMinuteOne(t: int, from: int)
    ensures InMinute([t], from) == if from < t <= from + MINUTE then 1 else 0
  {
    assert [t][1..] == [];
  }

  ghost predicate NotAfter(stamps: seq<int>, now: int) {
    forall i :: 0 <= i < |stamps| ==> stamps[i] <= now
  }

  lemma {:induction false} InMinuteRecent(stamps: seq<int>, from: int, cutoff: int)
    requires cutoff <= from
    ensures InMinute(stamps, from) <= |Recent(stamps, cutoff)|
    ensures cutoff == from && NotAfter(stamps, from + MINUTE) ==> InMinute(stamps, from) == |Recent(stamps, cutoff)|
  {
    if stamps != [] {
      InMinuteRecent(stamps[1..], from, cutoff);
      if NotAfter(stamps, from + MINUTE) {
        assert stamps[0] <= from + MINUTE;
        assert NotAfter(stamps[1..], from + MINUTE);
      }
    }
  }

  /** What is kept of an issuer agrees with all it was allowed, over the last minute and any
      shorter time; and no minute holds more than ten. */
  ghost predicate Faithful(stamps: seq<int>, allowed: seq<int>, now: int) {
    && NotAfter(allowed, now)
    && (forall cutoff :: cutoff >= now - MINUTE ==> Recent(stamps, cutoff) == Recent(allowed, cutoff))
    && forall from :: InMinute(allowed, from) <= MAX_PER_MINUTE
  }

  lemma NotedStaysRecent(stamps: seq<int>, allowed: seq<int>, before: int, now: int, cutoff: int)
    requires Faithful(stamps, allowed, before) && before <= now && cutoff >= now - MINUTE
    ensures Recent(Noted(stamps, now), cutoff) == Recent(allowed + if Allows(stamps, now) then [now] else [], cutoff)
  {
    var one := if Allows(stamps, now) then [now] else [];
    RecentAppend(Recent(stamps, now - MINUTE), one, cutoff);
    RecentAppend(allowed, one, cutoff);
    RecentTwice(stamps, now - MINUTE, cutoff);
  }

  lemma AllowedStaysSparse(stamps: seq<int>, allowed: seq<int>, before: int, now: int, from: int)
    requires Faithful(stamps, allowed, before) && before <= now && Allows(stamps, now)
    ensures InMinute(allowed + [now], from) <= MAX_PER_MINUTE
  {
    InMinuteAppend(allowed, [now], from);
    InMinuteOne(now, from);
    if from < now <= from + MINUTE {
      InMinuteRecent(allowed, from, now - MINUTE);
    }
  }

  lemma NotedStaysFaithful(stamps: seq<int>, allowed: seq<int>, before: int, now: int)
    requires Faithful(stamps, allowed, before) && before <= now
    ensures Faithful(Noted(stamps, now), allowed + if Allows(stamps, now) then [now] else [], now)
  {
    var next := allowed + if Allows(stamps, now) then [now] else [];
    forall cutoff | cutoff >= now - MINUTE
      ensures Recent(Noted(stamps, now), cutoff) == Recent(next, cutoff)
    {
      NotedStaysRecent(stamps, allowed, before, now, cutoff);
    }
    forall from
      ensures InMinute(next, from) <= MAX_PER_MINUTE
    {
      if Allows(stamps, now) {
        AllowedStaysSparse(stamps, allowed, before, now, from);
      } else {
        assert next == allowed;
      }
    }
  }

  lemma FaithfulLater(stamps: seq<int>, allowed: seq<int>, before: int, now: int)
    requires Faithful(stamps, allowed, before) && before <= now
    ensures Faithful(stamps, allowed, now)
  {
  }

  /** Faithful stamps decide the call by what was really allowed in the last minute. */
  lemma FaithfulDecides(stamps: seq<int>, allowed: seq<int>, before: int, now: int)
    requires Faithful(stamps, allowed, before) && before <= now
    ensures Allows(stamps, now) <==> InMinute(allowed, now - MINUTE) < MAX_PER_MINUTE
  {
    InMinuteRecent(allowed, now - MINUTE, now - MINUTE);
  }

  // ---- All issuers -----------------------------------------------------------------------

  type Rates = map<string, seq<int>>

  function StampsOf(rates: Rates, issuer: string): seq<int> {
    if issuer in rates then rates[issuer] else []
  }

  function Checked(rates: Rates, issuer: string, now: int): Rates {
    rates[issuer := Noted(StampsOf(rates, issuer), now)]
  }

  class RateLimiter {
    var rates: Rates

    constructor ()
      ensures rates == map[]
    {
      rates := map[];
    }

    method CheckIssuerRate(issuer: string, now: int) returns (ok: bool)
      modifies this
      ensures ok == Allows(StampsOf(old(rates), issuer), now)
      ensures rates == Checked(old(rates), issuer, now)
    {
      if issuer !in rates {
        rates := rates[issuer := []];
      }
      var stamps := rates[issuer];
      var recent := [];
      for i := 0 to |stamps|
        invariant recent == Recent(stamps[..i], now - MINUTE)
        invariant rates == old(rates)[issuer := stamps]
      {
        assert stamps[..i + 1] == stamps[..i] + [stamps[i]];
        RecentAppend(stamps[..i], [stamps[i]], now - MINUTE);
        assert [stamps[i]][1..] == [];
        if stamps[i] > now - MINUTE {
          recent := recent + [stamps[i]];
        }
      }
      assert stamps[..|stamps|] == stamps == StampsOf(old(rates), issuer);
      if |recent| >= MAX_PER_MINUTE {
        rates := rates[issuer := recent];
        assert recent + [] == recent;
        return false;
      }
      rates := rates[issuer := recent + [now]];
      assert rates == old(rates)[issuer := recent + [now]];
      return true;
    }
  }

  // ---- Runs ------------------------------------------------------------------------------

  datatype Call = Call(issuer: string, at: int)

  ghost predicate Timely(calls: seq<Call>) {
    forall i, j :: 0 <= i < j < |calls| ==> calls[i].at <= calls[j].at
  }

  function After(calls: seq<Call>): Rates
    decreases |calls|
  {
    if calls == [] then map[]
    else var c := calls[|calls| - 1]; Checked(After(calls[..|calls| - 1]), c.issuer, c.at)
  }

  predicate Accepted(calls: seq<Call>, i: nat)
    requires i < |calls|
  {
    Allows(StampsOf(After(calls[..i]), calls[i].issuer), calls[i].at)
  }

  /** When the issuer's calls were accepted, over the whole run. */
  function AcceptedTimes(calls: seq<Call>, issuer: string): seq<int>
    decreases |calls|
  {
    if calls == [] then []
    else
      var n := |calls| - 1;
      AcceptedTimes(calls[..n], issuer) + if calls[n].issuer == issuer && Accepted(calls, n) then [calls[n].at] else []
  }

  lemma AfterAppend(calls: seq<Call>, c: Call)
    ensures After(calls + [c]) == Checked(After(calls), c.issuer, c.at)
  {
    assert (calls + [c])[..|calls|] == calls;
  }

  lemma AcceptedAppend(calls: seq<Call>, c: Call, issuer: string)
    ensures AcceptedTimes(calls + [c], issuer)
         == AcceptedTimes(calls, issuer)
            + if c.issuer == issuer && Allows(StampsOf(After(calls), c.issuer), c.at) then [c.at] else []
  {
    assert (calls + [c])[..|calls|] == calls;
  }

  lemma {:induction false} RunStaysFaithful(calls: seq<Call>, issuer: string, now: int)
    requires Timely(calls) && (calls != [] ==> calls[|calls| - 1].at <= now)
    ensures Faithful(StampsOf(After(calls), issuer), AcceptedTimes(calls, issuer), now)
    decreases |calls|
  {
    if calls != [] {
      var n := |calls| - 1;
      var c := calls[n];
      RunStaysFaithful(calls[..n], issuer, c.at);
      var stamps, allowed := StampsOf(After(calls[..n]), issuer), AcceptedTimes(calls[..n], issuer);
      if c.issuer == issuer {
        NotedStaysFaithful(stamps, allowed, c.at, c.at);
        FaithfulLater(Noted(stamps, c.at), AcceptedTimes(calls, issuer), c.at, now);
      } else {
        assert AcceptedTimes(calls, issuer) == allowed;
        FaithfulLater(stamps, allowed, c.at, now);
      }
    }
  }

  /** Every minute, whether or not a call ends it, holds at most ten accepted calls of an issuer:
      the minute after an instant, and, counting in nanoseconds, the minute from an instant on. */
  lemma AtMostTenAMinute(calls: seq<Call>, issuer: string, from: int)
    requires Timely(calls)
    ensures InMinute(AcceptedTimes(calls, issuer), from) <= MAX_PER_MINUTE
  {
    RunStaysFaithful(calls, issuer, if calls == [] then 0 else calls[|calls| - 1].at);
  }

  /** A call is refused if and only if exactly ten were accepted in the minute before it. */
  lemma RefusedExactlyWhenFull(calls: seq<Call>, i: nat)
    requires Timely(calls) && i < |calls|
    ensures !Accepted(calls, i)
       <==> InMinute(AcceptedTimes(calls[..i], calls[i].issuer), calls[i].at - MINUTE) == MAX_PER_MINUTE
  {
    var stamps := StampsOf(After(calls[..i]), calls[i].issuer);
    var times := AcceptedTimes(calls[..i], calls[i].issuer);
    RunStaysFaithful(calls[..i], calls[i].issuer, calls[i].at);
    FaithfulDecides(stamps, times, calls[i].at, calls[i].at);
  }

  /** The next call, whenever it comes, is accepted if and only if fewer than ten were in the minute
      before it. */
  lemma NextAllowedExactly(calls: seq<Call>, issuer: string, now: int)
    requires Timely(calls) && forall i :: 0 <= i < |calls| ==> calls[i].at <= now
    ensures Allows(StampsOf(After(calls), issuer), now) <==> InMinute(AcceptedTimes(calls, issuer), now - MINUTE) < 10
  {
    RunStaysFaithful(calls, issuer, now);
    FaithfulDecides(StampsOf(After(calls), issuer), AcceptedTimes(calls, issuer), now, now);
  }
}
