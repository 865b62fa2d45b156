/** Exponentially weighted reputation scores (security/reputation.go), over the real numbers. */
module Reputation {
  import opened Basics

  const DECAY := 0.1
  const NEUTRAL := 0.5
  const MALICIOUS := 0.15

  datatype Behavior = Success | Timeout | Error | InvalidSignature | Spam | ProtocolViolation | Unlisted(name: string)

  datatype Entry = Entry(score: real, eventCount: nat, lastUpdated: int)

  type Store = map<string, Entry>

  // ---- One peer --------------------------------------------------------------------------

  function Weight(b: Behavior): real
    requires !b.Unlisted?
  {
    match b
    case Success => 1.0
    case Timeout => -0.3
    case Error => -0.2
    case InvalidSignature => -0.8
    case Spam => -0.5
    case ProtocolViolation => -0.7
  }

  /** The weight moved to the unit interval. */
  function Value(b: Behavior): (v: real)
    requires !b.Unlisted?
    ensures 0.1 <= v <= 1.0
    ensures v < 0.15 <==> b == InvalidSignature
  {
    (Weight(b) + 1.0) / 2.0
  }

  function Clamp(x: real): (y: real)
    ensures 0.0 <= y <= 1.0
    ensures y == x <==> 0.0 <= x <= 1.0
  {
    if x > 1.0 then 1.0 else if x < 0.0 then 0.0 else x
  }

  function Blend(score: real, v: real): real {
    DECAY * v + (1.0 - DECAY) * score
  }

  function GossipBlend(score: real, reported: real, weight: real): real {
    score * (1.0 - weight) + reported * weight
  }

  datatype Action =
    | Record(peer: string, behavior: Behavior, at: int)
    | Gossip(peer: string, reported: real, weight: real, at: int)
    | SetScore(peer: string, score: real, at: int)

  /** What an action does to the entry of its own peer. */
  function Effect(entry: Option<Entry>, act: Action): Option<Entry> {
    var e := if entry.Some? then entry.value else Entry(NEUTRAL, 0, 0);
    match act
    case Record(_, b, at) =>
      if b.Unlisted? then entry else Some(Entry(Clamp(Blend(e.score, Value(b))), e.eventCount + 1, at))
    case Gossip(_, reported, weight, at) =>
      Some(Entry(Clamp(GossipBlend(e.score, reported, weight)), e.eventCount, at))
    case SetScore(_, score, at) =>
      if entry.None? then Some(Entry(Clamp(score), 0, at))
      else Some(Entry(Clamp(Blend(e.score, Clamp(score))), e.eventCount, at))
  }

  function EntryOf(store: Store, peer: string): Option<Entry> {
    if peer in store then Some(store[peer]) else None
  }

  function Next(store: Store, act: Action): Store {
    var e := Effect(EntryOf(store, act.peer), act);
    if e.None? then store else store[act.peer := e.value]
  }

  function ScoreOf(store: Store, peer: string): real {
    if peer in store then store[peer].score else NEUTRAL
  }

  predicate Malicious(store: Store, peer: string) {
    ScoreOf(store, peer) < MALICIOUS
  }

  // ---- The store object ------------------------------------------------------------------

  class ReputationStore {
    var entries: Store

    constructor ()
      ensures entries == map[]
    {
      entries := map[];
    }

    method RecordEvent(peer: string, behavior: Behavior, now: int)
      modifies this
      ensures entries == Next(old(entries), Record(peer, behavior, now))
    {
      if behavior.Unlisted? {
        assert peer in entries ==> entries[peer := entries[peer]] == entries;
        return;
      }
      if peer !in entries {
        entries := entries[peer := Entry(NEUTRAL, 0, 0)];
      }
      var e := entries[peer];
      e := e.(score := DECAY * Value(behavior) + (1.0 - DECAY) * e.score);
      e := e.(score := Clamp(e.score), eventCount := e.eventCount + 1, lastUpdated := now);
      entries := entries[peer := e];
      assert entries == old(entries)[peer := e];
    }

    method SetScoreInternal(peer: string, score: real, now: int)
      modifies this
      ensures entries == Next(old(entries), SetScore(peer, score, now))
    {
      var s := score;
      if s < 0.0 {
        s := 0.0;
      }
      if s > 1.0 {
        s := 1.0;
      }
      if peer !in entries {
        entries := entries[peer := Entry(s, 0, now)];
      } else {
        var e := entries[peer];
        entries := entries[peer := e.(score := Clamp(DECAY * s + (1.0 - DECAY) * e.score), lastUpdated := now)];
      }
    }

    method ApplyGossipScore(peer: string, reported: real, weight: real, now: int)
      modifies this
      ensures entries == Next(old(entries), Gossip(peer, reported, weight, now))
    {
      if peer !in entries {
        entries := entries[peer := Entry(NEUTRAL, 0, 0)];
      }
      var e := entries[peer];
      e := e.(score := GossipBlend(e.score, reported, weight));
      e := e.(score := Clamp(e.score), lastUpdated := now);
      entries := entries[peer := e];
      assert entries == old(entries)[peer := e];
    }

    method IsMalicious(peer: string) returns (malicious: bool)
      ensures malicious == Malicious(entries, peer)
    {
      var score := NEUTRAL;
      if peer in entries {
        score := entries[peer].score;
      }
      return score < MALICIOUS;
    }
  }

  // ---- The clamp -------------------------------------------------------------------------

  /** From a score in range no recorded behaviour takes the sum out of range, so that the clamp
      never acts; a gossip report is clamped exactly when the weighted sum leaves the range, which
      takes a report or a weight outside the unit interval. */
  lemma ClampNeverFires(score: real, b: Behavior)
    requires 0.0 <= score <= 1.0 && !b.Unlisted?
    ensures Clamp(Blend(score, Value(b))) == Blend(score, Value(b))
  {
    var v := Value(b);
    assert 0.0 <= Blend(score, v) <= 1.0;
  }

  lemma GossipClampNeedsRange(score: real, reported: real, weight: real)
    requires 0.0 <= score <= 1.0 && 0.0 <= reported <= 1.0 && 0.0 <= weight <= 1.0
    ensures Clamp(GossipBlend(score, reported, weight)) == GossipBlend(score, reported, weight)
  {
    NonNegativeProduct(score, 1.0 - weight);
    NonNegativeProduct(reported, weight);
    NonNegativeProduct(1.0 - score, 1.0 - weight);
    NonNegativeProduct(1.0 - reported, weight);
    assert (1.0 - score) * (1.0 - weight) + (1.0 - reported) * weight == 1.0 - GossipBlend(score, reported, weight);
  }

  lemma NonNegativeProduct(x: real, y: real)
    requires x >= 0.0 && y >= 0.0
    ensures x * y >= 0.0
  {
  }

  // ---- Sequences of behaviours -----------------------------------------------------------

  function Scored(score: real, bs: seq<Behavior>): real
    decreases |bs|
  {
    if bs == [] then score
    else
      var before, b := Scored(score, bs[..|bs| - 1]), bs[|bs| - 1];
      if b.Unlisted? then before else Clamp(Blend(before, Value(b)))
  }

  function Listed(bs: seq<Behavior>): (l: seq<Behavior>)
    ensures forall b :: b in l ==> !b.Unlisted? && b in bs
    decreases |bs|
  {
    if bs == [] then []
    else Listed(bs[..|bs| - 1]) + if bs[|bs| - 1].Unlisted? then [] else [bs[|bs| - 1]]
  }

  /** Unlisted behaviours leave no trace. */
  lemma {:induction false} UnlistedIgnored(score: real, bs: seq<Behavior>)
    ensures Scored(score, bs) == Scored(score, Listed(bs))
    decreases |bs|
  {
    if bs != [] {
      var n := |bs| - 1;
      UnlistedIgnored(score, bs[..n]);
      if !bs[n].Unlisted? {
        assert Listed(bs)[..|Listed(bs)| - 1] == Listed(bs[..n]);
      } else {
        assert Listed(bs) == Listed(bs[..n]);
      }
    }
  }

  /** x after n further events: 0.9 to the n, times x. */
  function Faded(n: nat, x: real): (f: real)
    ensures x > 0.0 ==> 0.0 < f <= x
    ensures x == 0.0 ==> f == 0.0
  {
    if n == 0 then x else (1.0 - DECAY) * Faded(n - 1, x)
  }

  function Power(x: real, n: nat): real {
    if n == 0 then 1.0 else x * Power(x, n - 1)
  }

  lemma {:induction false} FadedIsPower(n: nat, x: real)
    ensures Faded(n, x) == Power(1.0 - DECAY, n) * x
  {
    if n > 0 {
      FadedIsPower(n - 1, x);
    }
  }

  lemma {:induction false} FadedDifference(n: nat, x: real, y: real)
    ensures Faded(n, x) - Faded(n, y) == Faded(n, x - y)
  {
    if n > 0 {
      FadedDifference(n - 1, x, y);
    }
  }

  lemma {:induction false} FadedAdd(m: nat, n: nat, x: real)
    ensures Faded(m + n, x) == Faded(m, Faded(n, x))
  {
    if m > 0 {
      FadedAdd(m - 1, n, x);
    }
  }

  /** The weighted sum: a tenth of each value, faded once for every later behaviour. */
  function WeightedSum(bs: seq<Behavior>): real
    requires forall b :: b in bs ==> !b.Unlisted?
  {
    if bs == [] then 0.0 else Faded(|bs| - 1, DECAY * Value(bs[0])) + WeightedSum(bs[1..])
  }

  lemma {:induction false} WeightedSumAppend(bs: seq<Behavior>, b: Behavior)
    requires (forall c :: c in bs ==> !c.Unlisted?) && !b.Unlisted?
    ensures WeightedSum(bs + [b]) == (1.0 - DECAY) * WeightedSum(bs) + DECAY * Value(b)
  {
    if bs == [] {
      assert [b][1..] == [];
    } else {
      assert (bs + [b])[1..] == bs[1..] + [b];
      WeightedSumAppend(bs[1..], b);
    }
  }

  lemma {:induction false} ScoredInRange(score: real, bs: seq<Behavior>)
    requires 0.0 <= score <= 1.0
    ensures 0.0 <= Scored(score, bs) <= 1.0
    decreases |bs|
  {
    if bs != [] {
      ScoredInRange(score, bs[..|bs| - 1]);
    }
  }

  lemma ScoredNext(score: real, bs: seq<Behavior>)
    requires 0.0 <= score <= 1.0 && bs != [] && !bs[|bs| - 1].Unlisted?
    ensures Scored(score, bs) == Blend(Scored(score, bs[..|bs| - 1]), Value(bs[|bs| - 1]))
  {
    ScoredInRange(score, bs[..|bs| - 1]);
    ClampNeverFires(Scored(score, bs[..|bs| - 1]), bs[|bs| - 1]);
  }

  /** After any behaviours the score is the faded start plus the weighted sum. */
  lemma {:induction false} ClosedForm(score: real, bs: seq<Behavior>)
    requires 0.0 <= score <= 1.0
    ensures Scored(score, bs) == Faded(|Listed(bs)|, score) + WeightedSum(Listed(bs))
    decreases |bs|
  {
    if bs != [] {
      var n := |bs| - 1;
      var before := Listed(bs[..n]);
      ClosedForm(score, bs[..n]);
      if bs[n].Unlisted? {
        assert Listed(bs) == before;
      } else {
        ScoredNext(score, bs);
        WeightedSumAppend(before, bs[n]);
      }
    }
  }

  /** Two runs on the same behaviours draw together by 0.9 at each one. */
  lemma Contraction(s: real, t: real, bs: seq<Behavior>)
    requires 0.0 <= s <= 1.0 && 0.0 <= t <= 1.0
    ensures Scored(s, bs) - Scored(t, bs) == Faded(|Listed(bs)|, s - t)
  {
    ClosedForm(s, bs);
    ClosedForm(t, bs);
    FadedDifference(|Listed(bs)|, s, t);
  }

  /** Where a score settles if a behaviour goes on. */
  function Rest(b: Behavior): real
    requires !b.Unlisted?
  {
    match b
    case Success => 1.0
    case Error => 0.4
    case Timeout => 0.35
    case Spam => 0.25
    case ProtocolViolation => 0.15
    case InvalidSignature => 0.1
  }

  function Again(b: Behavior, n: nat): seq<Behavior> {
    seq(n, _ => b)
  }

  lemma StepToRest(score: real, b: Behavior)
    requires !b.Unlisted?
    ensures Blend(score, Value(b)) - Rest(b) == 0.9 * (score - Rest(b))
  {
  }

  /** A behaviour that goes on draws the score towards its own level, by a tenth of the distance each
      time. */
  lemma {:induction false} DrawnToRest(score: real, b: Behavior, n: nat)
    requires 0.0 <= score <= 1.0 && !b.Unlisted?
    ensures Scored(score, Again(b, n)) - Rest(b) == Faded(n, score - Rest(b))
  {
    if n > 0 {
      DrawnToRest(score, b, n - 1);
      assert Again(b, n)[..n - 1] == Again(b, n - 1);
      ScoredNext(score, Again(b, n));
      StepToRest(Scored(score, Again(b, n - 1)), b);
    }
  }

  // ---- When a peer turns malicious -------------------------------------------------------

  /** Behaviours worth at least v keep the score above v by what is left of the start. */
  lemma {:induction false} NoLowerThan(score: real, v: real, bs: seq<Behavior>)
    requires 0.0 <= score <= 1.0
    requires forall b :: b in Listed(bs) ==> Value(b) >= v
    ensures Scored(score, bs) - v >= Faded(|Listed(bs)|, score - v)
    decreases |bs|
  {
    if bs != [] {
      var n := |bs| - 1;
      var before := Listed(bs[..n]);
      if bs[n].Unlisted? {
        assert Listed(bs) == before;
        NoLowerThan(score, v, bs[..n]);
      } else {
        assert bs[n] in Listed(bs);
        assert forall b :: b in before ==> b in Listed(bs);
        NoLowerThan(score, v, bs[..n]);
        ScoredNext(score, bs);
      }
    }
  }

  /** 0.4 faded n times first falls below 0.05 at n = 20. */
  lemma FadedBelow(n: nat)
    ensures Faded(n, 0.4) < 0.05 <==> n >= 20
  {
    FiveFades(0.4);
    FiveFades(Faded(5, 0.4));
    FiveFades(Faded(10, 0.4));
    FiveFades(Faded(15, 0.4));
    FadedAdd(5, 5, 0.4);
    FadedAdd(5, 10, 0.4);
    FadedAdd(5, 15, 0.4);
    if n >= 20 {
      FadedAdd(n - 20, 20, 0.4);
    } else {
      FadedAdd(19 - n, n, 0.4);
    }
  }

  lemma FiveFades(x: real)
    ensures Faded(5, x) == 0.59049 * x
  {
    assert Faded(1, x) == 0.9 * x;
    assert Faded(2, x) == 0.81 * x;
    assert Faded(3, x) == 0.729 * x;
    assert Faded(4, x) == 0.6561 * x;
  }

  function Repeat(b: Behavior, n: nat): (bs: seq<Behavior>)
    ensures |bs| == n && forall c :: c in bs ==> c == b
  {
    seq(n, _ => b)
  }

  lemma {:induction false} InvalidSignatures(n: nat)
    ensures Scored(NEUTRAL, Repeat(InvalidSignature, n)) == 0.1 + Faded(n, 0.4)
  {
    if n > 0 {
      var bs := Repeat(InvalidSignature, n);
      assert bs[..n - 1] == Repeat(InvalidSignature, n - 1);
      InvalidSignatures(n - 1);
      ScoredNext(NEUTRAL, bs);
    }
  }

  /** From neutral, consecutive invalid signatures make a peer malicious at exactly the
      twentieth. */
  lemma TwentiethInvalidSignature(n: nat)
    ensures Scored(NEUTRAL, Repeat(InvalidSignature, n)) < MALICIOUS <==> n >= 20
  {
    InvalidSignatures(n);
    FadedBelow(n);
  }

  /** The other behaviours never do, in any number and order. */
  lemma {:induction false} NeverWithoutInvalidSignature(bs: seq<Behavior>)
    requires InvalidSignature !in bs
    ensures Scored(NEUTRAL, bs) > MALICIOUS
  {
    NoLowerThan(NEUTRAL, 0.15, bs);
  }

  /** No sequence of fewer than twenty behaviours of any kinds does. */
  lemma {:induction false} MaliciousTakesTwenty(bs: seq<Behavior>)
    requires Scored(NEUTRAL, bs) < MALICIOUS
    ensures |Listed(bs)| >= 20 && InvalidSignature in bs
  {
    NoLowerThan(NEUTRAL, 0.1, bs);
    FadedBelow(|Listed(bs)|);
    if InvalidSignature !in bs {
      NeverWithoutInvalidSignature(bs);
    }
  }

  /** Two successes clear any peer; one clears it exactly from a score of 1/18 up. */
  lemma TwoSuccessesClear(score: real)
    requires 0.0 <= score <= 1.0
    ensures Scored(score, [Success, Success]) >= MALICIOUS
    ensures Scored(score, [Success]) >= MALICIOUS <==> score >= 1.0 / 18.0
  {
    assert [Success][..0] == [] && [Success, Success][..1] == [Success];
    ClampNeverFires(score, Success);
    ClampNeverFires(Scored(score, [Success]), Success);
  }

  // ---- Runs of the whole store -----------------------------------------------------------

  function After(acts: seq<Action>): Store
    decreases |acts|
  {
    if acts == [] then map[] else Next(After(acts[..|acts| - 1]), acts[|acts| - 1])
  }

  lemma AfterAppend(acts: seq<Action>, act: Action)
    ensures After(acts + [act]) == Next(After(acts), act)
  {
    assert (acts + [act])[..|acts|] == acts;
  }

  /** The entry a peer would have if only its own actions took place. */
  function Alone(acts: seq<Action>, peer: string): Option<Entry>
    decreases |acts|
  {
    if acts == [] then None
    else
      var before, act := Alone(acts[..|acts| - 1], peer), acts[|acts| - 1];
      if act.peer == peer then Effect(before, act) else before
  }

  /** A peer's entry depends on its own actions only. */
  lemma {:induction false} PeersAreIndependent(acts: seq<Action>, peer: string)
    ensures EntryOf(After(acts), peer) == Alone(acts, peer)
    decreases |acts|
  {
    if acts != [] {
      PeersAreIndependent(acts[..|acts| - 1], peer);
    }
  }

  /** Events, initial scores and gossip with any reported score and weight, interleaved in any
      way, leave every score in the unit interval. */
  lemma {:induction false} ScoresStayInRange(acts: seq<Action>, peer: string)
    ensures 0.0 <= ScoreOf(After(acts), peer) <= 1.0
    decreases |acts|
  {
    if acts != [] {
      ScoresStayInRange(acts[..|acts| - 1], peer);
    }
  }

  function BehaviorsOf(acts: seq<Action>, peer: string): seq<Behavior>
    decreases |acts|
  {
    if acts == [] then []
    else
      var act := acts[|acts| - 1];
      BehaviorsOf(acts[..|acts| - 1], peer)
        + if act.Record? && act.peer == peer then [act.behavior] else []
  }

  /** What the store holds for a peer with these behaviours and no others. */
  predicate Holds(entry: Option<Entry>, bs: seq<Behavior>) {
    if entry.None? then Listed(bs) == [] && Scored(NEUTRAL, bs) == NEUTRAL
    else entry.value.score == Scored(NEUTRAL, bs) && entry.value.eventCount == |Listed(bs)|
  }

  lemma RecordHolds(entry: Option<Entry>, bs: seq<Behavior>, act: Action)
    requires Holds(entry, bs) && act.Record?
    ensures Holds(Effect(entry, act), bs + [act.behavior])
  {
    assert (bs + [act.behavior])[..|bs|] == bs;
  }

  lemma {:induction false} AloneHolds(acts: seq<Action>, peer: string)
    requires forall i :: 0 <= i < |acts| ==> acts[i].Record?
    ensures Holds(Alone(acts, peer), BehaviorsOf(acts, peer))
    decreases |acts|
  {
    if acts != [] {
      var n := |acts| - 1;
      var bs := BehaviorsOf(acts[..n], peer);
      AloneHolds(acts[..n], peer);
      if acts[n].peer == peer {
        RecordHolds(Alone(acts[..n], peer), bs, acts[n]);
      } else {
        assert bs + [] == bs;
      }
    }
  }

  /** Without gossip and initial scores the store holds, for each peer, the score of its own
      behaviours from neutral, and their number. */
  lemma {:induction false} StoreScoresBehaviors(acts: seq<Action>, peer: string)
    requires forall i :: 0 <= i < |acts| ==> acts[i].Record?
    ensures ScoreOf(After(acts), peer) == Scored(NEUTRAL, BehaviorsOf(acts, peer))
    ensures |Listed(BehaviorsOf(acts, peer))| == if peer in After(acts) then After(acts)[peer].eventCount else 0
  {
    PeersAreIndependent(acts, peer);
    AloneHolds(acts, peer);
  }

  /** In a run of recorded events, a peer reported malicious has at least twenty of its own,
      with an invalid signature among them. */
  lemma OnlyEarnedMalice(acts: seq<Action>, peer: string)
    requires forall i :: 0 <= i < |acts| ==> acts[i].Record?
    requires Malicious(After(acts), peer)
    ensures peer in After(acts) && After(acts)[peer].eventCount >= 20
    ensures InvalidSignature in BehaviorsOf(acts, peer)
  {
    StoreScoresBehaviors(acts, peer);
    MaliciousTakesTwenty(BehaviorsOf(acts, peer));
  }

  // ---- Second-hand scores ----------------------------------------------------------------

  /** n reports of the same score for one peer. */
  function Reports(peer: string, reported: real, weight: real, at: int, n: nat): seq<Action> {
    seq(n, _ => Gossip(peer, reported, weight, at))
  }

  lemma BlendDraws(score: real, reported: real, weight: real)
    requires 0.0 <= score <= 1.0 && 0.0 <= reported <= 1.0 && 0.0 <= weight <= 1.0
    ensures Clamp(GossipBlend(score, reported, weight)) - reported == (1.0 - weight) * (score - reported)
  {
    GossipClampNeedsRange(score, reported, weight);
  }

  lemma ReportDraws(store: Store, peer: string, reported: real, weight: real, at: int)
    requires 0.0 <= ScoreOf(store, peer) <= 1.0 && 0.0 <= reported <= 1.0 && 0.0 <= weight <= 1.0
    ensures ScoreOf(Next(store, Gossip(peer, reported, weight, at)), peer) - reported
         == (1.0 - weight) * (ScoreOf(store, peer) - reported)
  {
    BlendDraws(ScoreOf(store, peer), reported, weight);
  }

  /** After any run, a report draws the peer's score towards it: the part 1 - weight of the distance is
      left. */
  lemma ReportDrawsScore(acts: seq<Action>, peer: string, reported: real, weight: real, at: int)
    requires 0.0 <= reported <= 1.0 && 0.0 <= weight <= 1.0
    ensures ScoreOf(After(acts + [Gossip(peer, reported, weight, at)]), peer) - reported
         == (1.0 - weight) * (ScoreOf(After(acts), peer) - reported)
  {
    AfterAppend(acts, Gossip(peer, reported, weight, at));
    ScoresStayInRange(acts, peer);
    ReportDraws(After(acts), peer, reported, weight, at);
  }

  /** Reports change neither the count of events nor other peers. */
  lemma ReportsOnlyScore(store: Store, peer: string, reported: real, weight: real, at: int, other: string)
    ensures var next := Next(store, Gossip(peer, reported, weight, at));
            && (other != peer ==> EntryOf(next, other) == EntryOf(store, other))
            && peer in next && next[peer].eventCount == (if peer in store then store[peer].eventCount else 0)
            && next[peer].lastUpdated == at
  {
  }

  /** What n reports of the lowest score leave of the neutral one. */
  function Slandered(n: nat): real {
    if n == 0 then 0.5 else 0.7 * Slandered(n - 1)
  }

  lemma {:induction false} SlanderedScore(peer: string, at: int, n: nat)
    ensures ScoreOf(After(Reports(peer, 0.0, 0.3, at, n)), peer) == Slandered(n)
  {
    if n > 0 {
      SlanderedScore(peer, at, n - 1);
      var before := Reports(peer, 0.0, 0.3, at, n - 1);
      assert Reports(peer, 0.0, 0.3, at, n) == before + [Gossip(peer, 0.0, 0.3, at)];
      ReportDrawsScore(before, peer, 0.0, 0.3, at);
    }
  }

  lemma {:induction false} SlanderedBelow(n: nat)
    ensures Slandered(n) < 0.15 <==> n >= 4
    ensures n >= 4 ==> 0.0 < Slandered(n)
  {
    if n > 4 {
      SlanderedBelow(n - 1);
    } else {
      assert Slandered(0) == 0.5 && Slandered(1) == 0.35 && Slandered(2) == 0.245;
      assert Slandered(3) == 0.1715 && Slandered(4) == 0.12005;
    }
  }

  /** Gossip alone can condemn: with the default weight of 0.3, reports of the lowest score about an
      unknown peer turn it malicious at exactly the fourth, where it takes twenty events of its own. */
  lemma FourReportsCondemn(peer: string, at: int, n: nat)
    ensures Malicious(After(Reports(peer, 0.0, 0.3, at, n)), peer) <==> n >= 4
  {
    SlanderedScore(peer, at, n);
    SlanderedBelow(n);
  }

  /** The first score of a peer is taken as it is, within range; a later one moves the score a tenth of
      the way towards it. */
  lemma SettingDraws(store: Store, peer: string, score: real, at: int)
    requires 0.0 <= ScoreOf(store, peer) <= 1.0
    ensures var to, next := (if score < 0.0 then 0.0 else if score > 1.0 then 1.0 else score), Next(store, SetScore(peer, score, at));
            && peer in next && next[peer].lastUpdated == at
            && next[peer].eventCount == (if peer in store then store[peer].eventCount else 0)
            && next[peer].score - to == if peer in store then 0.9 * (store[peer].score - to) else 0.0
  {
    if peer in store {
      assert 0.0 <= Blend(store[peer].score, Clamp(score)) <= 1.0;
    }
  }
}
