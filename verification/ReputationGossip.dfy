/** Second-hand reputation claims (security/reputation_gossip.go): trust and age checks,
    deduplication, rate limiting, and blending into the store. One processing of a claim reads the
    clock once. */
module ReputationGossip {
  import opened Basics
  import D = Deduplication
  import W = SlidingWindow
  import T = TrustStore
  import R = Reputation

  const MAX_CLAIM_AGE := 1 * HOUR
  const SEEN_CLAIMS_TTL := 2 * HOUR
  const MIN_TRUST := T.VERIFIED
  const SECOND_HAND_WEIGHT := 0.3

  /** timestamp is None for the zero time. */
  datatype Claim = Claim(id: string, issuer: string, subject: string, score: real, timestamp: Option<int>)

  datatype Config = Config(self: string, weight: real)

  datatype State = State(seen: map<string, int>, rates: W.Rates, scores: R.Store)

  // ---- The operations as functions -------------------------------------------------------

  predicate Eligible(cfg: Config, claim: Claim, trust: int, now: int) {
    && trust >= MIN_TRUST
    && claim.issuer != cfg.self
    && !(claim.timestamp.Some? && now - claim.timestamp.value > MAX_CLAIM_AGE)
  }

  /** The claim gets as far as the issuer's rate. */
  predicate Reaches(cfg: Config, st: State, claim: Claim, trust: int, now: int) {
    Eligible(cfg, claim, trust, now) && (claim.id == "" || claim.id !in st.seen)
  }

  predicate Applies(cfg: Config, st: State, claim: Claim, trust: int, now: int) {
    Reaches(cfg, st, claim, trust, now) && W.Allows(W.StampsOf(st.rates, claim.issuer), now)
  }

  /** An eligible claim's ID is recorded even if the rate then refuses it. */
  function Processed(cfg: Config, st: State, claim: Claim, trust: int, now: int): State {
    State(
      if Eligible(cfg, claim, trust, now) && claim.id != "" then D.Offered(st.seen, claim.id, now) else st.seen,
      if Reaches(cfg, st, claim, trust, now) then W.Checked(st.rates, claim.issuer, now) else st.rates,
      if Applies(cfg, st, claim, trust, now)
      then R.Next(st.scores, R.Gossip(claim.subject, claim.score, cfg.weight, now)) else st.scores)
  }

  // ---- The gossip object -----------------------------------------------------------------

  class ReputationGossip {
    const store: R.ReputationStore
    const trust: T.TrustStore
    const limiter: W.RateLimiter
    const self: string
    var seenClaims: map<string, int>
    var weight: real

    ghost function Now(): State
      reads this, store, limiter
    {
      State(seenClaims, limiter.rates, store.entries)
    }

    ghost function Setup(): Config
      reads this
    {
      Config(self, weight)
    }

    constructor (store: R.ReputationStore, trust: T.TrustStore, self: string)
      ensures Setup() == Config(self, SECOND_HAND_WEIGHT) && Now() == State(map[], map[], store.entries)
      ensures this.store == store && this.trust == trust && fresh(limiter)
    {
      this.store, this.trust, this.self, weight := store, trust, self, SECOND_HAND_WEIGHT;
      seenClaims := map[];
      limiter := new W.RateLimiter();
    }

    method ProcessClaim(claim: Claim, now: int) returns (applied: bool)
      modifies `seenClaims, limiter, store
      ensures var level := T.LevelAt(old(trust.trusted), claim.issuer, now);
              && applied == Applies(Setup(), old(Now()), claim, level, now)
              && Now() == Processed(Setup(), old(Now()), claim, level, now)
    {
      var level := trust.Check(claim.issuer, now);
      if level < MIN_TRUST {
        return false;
      }
      if claim.issuer == self {
        return false;
      }
      if claim.timestamp.Some? && now - claim.timestamp.value > MAX_CLAIM_AGE {
        return false;
      }
      if claim.id != "" {
        if claim.id in seenClaims {
          return false;
        }
        seenClaims := seenClaims[claim.id := now];
      }
      var ok := limiter.CheckIssuerRate(claim.issuer, now);
      if !ok {
        return false;
      }
      store.ApplyGossipScore(claim.subject, claim.score, weight, now);
      return true;
    }

    method CleanSeenClaims(now: int)
      modifies `seenClaims
      ensures seenClaims == D.Swept(old(seenClaims), now - SEEN_CLAIMS_TTL)
    {
      seenClaims := D.Forget(seenClaims, now - SEEN_CLAIMS_TTL);
    }
  }

  // ---- Runs ------------------------------------------------------------------------------

  /** trust is the issuer's level when the claim arrives; Observe stands for the store's other uses. */
  datatype Action =
    | Process(at: int, claim: Claim, trust: int)
    | Clean(at: int)
    | Observe(at: int, act: R.Action)

  const EMPTY := State(map[], map[], map[])

  function Next(cfg: Config, st: State, act: Action): State {
    match act
    case Process(at, claim, trust) => Processed(cfg, st, claim, trust, at)
    case Clean(at) => st.(seen := D.Swept(st.seen, at - SEEN_CLAIMS_TTL))
    case Observe(_, other) => st.(scores := R.Next(st.scores, other))
  }

  function After(cfg: Config, acts: seq<Action>): State
    decreases |acts|
  {
    if acts == [] then EMPTY else Next(cfg, After(cfg, acts[..|acts| - 1]), acts[|acts| - 1])
  }

  ghost predicate Timely(acts: seq<Action>) {
    forall i, j :: 0 <= i < j < |acts| ==> acts[i].at <= acts[j].at
  }

  predicate Applied(cfg: Config, acts: seq<Action>, i: nat)
    requires i < |acts|
  {
    acts[i].Process? && Applies(cfg, After(cfg, acts[..i]), acts[i].claim, acts[i].trust, acts[i].at)
  }

  // ---- Each claim once -------------------------------------------------------------------

  function StepOf(cfg: Config, act: Action): D.Step<string> {
    match act
    case Process(at, claim, trust) =>
      if Eligible(cfg, claim, trust, at) && claim.id != "" then D.Offer(at, claim.id) else D.Idle(at)
    case Clean(at) => D.Sweep(at)
    case Observe(at, _) => D.Idle(at)
  }

  function StepsOf(cfg: Config, acts: seq<Action>): (steps: seq<D.Step<string>>)
    ensures |steps| == |acts| && forall i :: 0 <= i < |acts| ==> steps[i] == StepOf(cfg, acts[i])
  {
    seq(|acts|, i requires 0 <= i < |acts| => StepOf(cfg, acts[i]))
  }

  /** The seen claims are a deduplication table. */
  lemma {:induction false} SeenIsDeduplication(cfg: Config, acts: seq<Action>)
    ensures After(cfg, acts).seen == D.After(StepsOf(cfg, acts), SEEN_CLAIMS_TTL)
    decreases |acts|
  {
    if acts != [] {
      SeenIsDeduplication(cfg, acts[..|acts| - 1]);
      assert StepsOf(cfg, acts)[..|acts| - 1] == StepsOf(cfg, acts[..|acts| - 1]);
    }
  }

  lemma AppliedMeansAdmitted(cfg: Config, acts: seq<Action>, i: nat)
    requires i < |acts| && Applied(cfg, acts, i) && acts[i].claim.id != ""
    ensures D.Admits(StepsOf(cfg, acts), i, SEEN_CLAIMS_TTL)
  {
    SeenIsDeduplication(cfg, acts[..i]);
    assert StepsOf(cfg, acts)[..i] == StepsOf(cfg, acts[..i]);
  }

  /** In every run, two applied claims with one ID are more than two hours apart; so a claim
      dated at most an hour after its first application is never applied again. */
  lemma NotAppliedAgain(cfg: Config, acts: seq<Action>, i: nat, j: nat)
    requires Timely(acts) && i < j < |acts| && acts[j].Process?
    requires Applied(cfg, acts, i) && acts[i].claim.id != "" && acts[j].claim.id == acts[i].claim.id
    requires acts[j].claim.timestamp.Some? && acts[j].claim.timestamp.value <= acts[i].at + MAX_CLAIM_AGE
    ensures !Applied(cfg, acts, j)
  {
    if Applied(cfg, acts, j) {
      AppliedMeansAdmitted(cfg, acts, i);
      AppliedMeansAdmitted(cfg, acts, j);
      D.AdmittedApart(StepsOf(cfg, acts), i, j, SEEN_CLAIMS_TTL);
    }
  }

  /** The claim is applied at time t and again later. */
  ghost predicate AppliedTwice(cfg: Config, acts: seq<Action>, claim: Claim, t: int) {
    exists i: nat, j: nat :: i < j < |acts| && Applied(cfg, acts, i) && Applied(cfg, acts, j)
      && acts[i].claim == claim && acts[j].claim == claim && acts[i].at == t
  }

  function Repeated(claim: Claim, trust: int, t: int): seq<Action> {
    if claim.id == "" then [Process(t, claim, trust), Process(t, claim, trust)]
    else [Process(t, claim, trust), Clean(t + SEEN_CLAIMS_TTL + 1), Process(t + SEEN_CLAIMS_TTL + 1, claim, trust)]
  }

  lemma FirstTwoAllowed(st: State, issuer: string, t: int, u: int)
    requires W.StampsOf(st.rates, issuer) == []
    ensures W.Allows([], t) && W.Allows(W.StampsOf(W.Checked(st.rates, issuer, t), issuer), u)
  {
    assert W.Noted([], t) == [t] && [t][1..] == [];
  }

  lemma RepeatedApplies(cfg: Config, claim: Claim, trust: int, t: int)
    requires Eligible(cfg, claim, trust, t)
    requires claim.id == "" || claim.timestamp.None? || claim.timestamp.value > t + MAX_CLAIM_AGE
    ensures Timely(Repeated(claim, trust, t)) && AppliedTwice(cfg, Repeated(claim, trust, t), claim, t)
  {
    var acts := Repeated(claim, trust, t);
    var one := [acts[0]];
    assert acts[..0] == [] && acts[..1] == one && one[..0] == [];
    assert After(cfg, one) == Processed(cfg, EMPTY, claim, trust, t);
    FirstTwoAllowed(EMPTY, claim.issuer, t, acts[|acts| - 1].at);
    assert Applied(cfg, acts, 0);
    if claim.id != "" {
      var two := acts[..2];
      assert two == [acts[0], acts[1]] && two[..1] == one;
      assert claim.id !in After(cfg, two).seen;
      assert Applied(cfg, acts, 2);
    } else {
      assert Applied(cfg, acts, 1);
    }
  }

  /** A claim first applied at t can be applied again, in some run, if and only if it has no ID,
      or no timestamp, or a timestamp more than an hour after t. */
  lemma AppliedOnceExactly(cfg: Config, claim: Claim, trust: int, t: int)
    requires Eligible(cfg, claim, trust, t)
    ensures (exists acts: seq<Action> :: Timely(acts) && AppliedTwice(cfg, acts, claim, t))
       <==> claim.id == "" || claim.timestamp.None? || claim.timestamp.value > t + MAX_CLAIM_AGE
  {
    if claim.id == "" || claim.timestamp.None? || claim.timestamp.value > t + MAX_CLAIM_AGE {
      RepeatedApplies(cfg, claim, trust, t);
    } else {
      forall acts: seq<Action> | Timely(acts)
        ensures !AppliedTwice(cfg, acts, claim, t)
      {
        if AppliedTwice(cfg, acts, claim, t) {
          var i: nat, j: nat :| i < j < |acts| && Applied(cfg, acts, i) && Applied(cfg, acts, j)
            && acts[i].claim == claim && acts[j].claim == claim && acts[i].at == t;
          NotAppliedAgain(cfg, acts, i, j);
        }
      }
    }
  }

  // ---- Ten a minute ----------------------------------------------------------------------

  /** The rate checks that a run makes. */
  function Checks(cfg: Config, acts: seq<Action>): seq<W.Call>
    decreases |acts|
  {
    if acts == [] then []
    else
      var n := |acts| - 1;
      Checks(cfg, acts[..n]) + ChecksOf(cfg, After(cfg, acts[..n]), acts[n])
  }

  function ChecksOf(cfg: Config, st: State, act: Action): seq<W.Call> {
    if act.Process? && Reaches(cfg, st, act.claim, act.trust, act.at) then [W.Call(act.claim.issuer, act.at)] else []
  }

  function AppliedBy(cfg: Config, st: State, act: Action, issuer: string): seq<int> {
    if act.Process? && act.claim.issuer == issuer && Applies(cfg, st, act.claim, act.trust, act.at) then [act.at] else []
  }

  /** When claims of the issuer were applied. */
  function AppliedTimes(cfg: Config, acts: seq<Action>, issuer: string): seq<int>
    decreases |acts|
  {
    if acts == [] then []
    else
      var n := |acts| - 1;
      AppliedTimes(cfg, acts[..n], issuer) + AppliedBy(cfg, After(cfg, acts[..n]), acts[n], issuer)
  }

  lemma {:induction false} ChecksAreTimely(cfg: Config, acts: seq<Action>, now: int)
    requires Timely(acts) && forall i :: 0 <= i < |acts| ==> acts[i].at <= now
    ensures W.Timely(Checks(cfg, acts)) && forall i :: 0 <= i < |Checks(cfg, acts)| ==> Checks(cfg, acts)[i].at <= now
    decreases |acts|
  {
    if acts != [] {
      ChecksAreTimely(cfg, acts[..|acts| - 1], acts[|acts| - 1].at);
    }
  }

  lemma RatesFollowStep(cfg: Config, st: State, act: Action, checks: seq<W.Call>)
    requires st.rates == W.After(checks)
    ensures Next(cfg, st, act).rates == W.After(checks + ChecksOf(cfg, st, act))
  {
    var made := ChecksOf(cfg, st, act);
    if made == [] {
      assert checks + made == checks;
    } else {
      W.AfterAppend(checks, made[0]);
    }
  }

  lemma AppliedFollowStep(cfg: Config, st: State, act: Action, checks: seq<W.Call>, issuer: string)
    requires st.rates == W.After(checks)
    ensures W.AcceptedTimes(checks + ChecksOf(cfg, st, act), issuer)
         == W.AcceptedTimes(checks, issuer) + AppliedBy(cfg, st, act, issuer)
  {
    var made := ChecksOf(cfg, st, act);
    if made == [] {
      assert checks + made == checks;
      assert W.AcceptedTimes(checks, issuer) + [] == W.AcceptedTimes(checks, issuer);
    } else {
      W.AcceptedAppend(checks, made[0], issuer);
    }
  }

  lemma {:induction false} RatesFollowChecks(cfg: Config, acts: seq<Action>)
    ensures After(cfg, acts).rates == W.After(Checks(cfg, acts))
    decreases |acts|
  {
    if acts != [] {
      var n := |acts| - 1;
      RatesFollowChecks(cfg, acts[..n]);
      RatesFollowStep(cfg, After(cfg, acts[..n]), acts[n], Checks(cfg, acts[..n]));
    }
  }

  lemma {:induction false} AppliedFollowChecks(cfg: Config, acts: seq<Action>, issuer: string)
    ensures AppliedTimes(cfg, acts, issuer) == W.AcceptedTimes(Checks(cfg, acts), issuer)
    decreases |acts|
  {
    if acts != [] {
      var n := |acts| - 1;
      AppliedFollowChecks(cfg, acts[..n], issuer);
      RatesFollowChecks(cfg, acts[..n]);
      AppliedFollowStep(cfg, After(cfg, acts[..n]), acts[n], Checks(cfg, acts[..n]), issuer);
    }
  }

  /** In every run, no minute holds more than ten applied claims of one issuer, and so no more
      than ten changes of scores on its word. */
  lemma TenAppliedAMinute(cfg: Config, acts: seq<Action>, issuer: string, from: int)
    requires Timely(acts)
    ensures W.InMinute(AppliedTimes(cfg, acts, issuer), from) <= W.MAX_PER_MINUTE
  {
    ChecksAreTimely(cfg, acts, if acts == [] then 0 else acts[|acts| - 1].at);
    AppliedFollowChecks(cfg, acts, issuer);
    W.AtMostTenAMinute(Checks(cfg, acts), issuer, from);
  }

  /** Which claims are applied: in every run, exactly those of an issuer of level two or more, not of the
      agent itself, that are undated or at most an hour old, whose ID, if there is one, is not among the
      seen ones, and of which fewer than ten of that issuer were applied in the minute before. */
  lemma AppliedExactly(cfg: Config, acts: seq<Action>, j: nat)
    requires Timely(acts) && j < |acts| && acts[j].Process?
    ensures var claim, now := acts[j].claim, acts[j].at;
            Applied(cfg, acts, j)
            <==> && acts[j].trust >= 2 && claim.issuer != cfg.self
                 && (claim.timestamp.None? || now - claim.timestamp.value <= HOUR)
                 && (claim.id == "" || claim.id !in After(cfg, acts[..j]).seen)
                 && W.InMinute(AppliedTimes(cfg, acts[..j], claim.issuer), now - MINUTE) < 10
  {
    var before := acts[..j];
    assert forall i :: 0 <= i < j ==> before[i] == acts[i];
    RateDecides(cfg, before, acts[j].claim.issuer, acts[j].at);
  }

  lemma RateDecides(cfg: Config, acts: seq<Action>, issuer: string, now: int)
    requires Timely(acts) && forall i :: 0 <= i < |acts| ==> acts[i].at <= now
    ensures W.Allows(W.StampsOf(After(cfg, acts).rates, issuer), now)
       <==> W.InMinute(AppliedTimes(cfg, acts, issuer), now - MINUTE) < 10
  {
    ChecksAreTimely(cfg, acts, now);
    RatesFollowChecks(cfg, acts);
    AppliedFollowChecks(cfg, acts, issuer);
    W.NextAllowedExactly(Checks(cfg, acts), issuer, now);
  }

  // ---- Scores ----------------------------------------------------------------------------

  function ToldBy(cfg: Config, st: State, act: Action): seq<R.Action> {
    match act
    case Process(at, claim, trust) =>
      if Applies(cfg, st, claim, trust, at) then [R.Gossip(claim.subject, claim.score, cfg.weight, at)] else []
    case Clean(_) => []
    case Observe(_, other) => [other]
  }

  /** What the store is told in a run: its other uses, and one blend for each applied claim. */
  function Told(cfg: Config, acts: seq<Action>): seq<R.Action>
    decreases |acts|
  {
    if acts == [] then []
    else var n := |acts| - 1; Told(cfg, acts[..n]) + ToldBy(cfg, After(cfg, acts[..n]), acts[n])
  }

  lemma ScoresFollowStep(cfg: Config, st: State, act: Action, told: seq<R.Action>)
    requires st.scores == R.After(told)
    ensures Next(cfg, st, act).scores == R.After(told + ToldBy(cfg, st, act))
  {
    var more := ToldBy(cfg, st, act);
    if more == [] {
      assert told + more == told;
    } else {
      R.AfterAppend(told, more[0]);
    }
  }

  /** The store changes by its other uses and by applied claims only. */
  lemma {:induction false} ScoresFollowTold(cfg: Config, acts: seq<Action>)
    ensures After(cfg, acts).scores == R.After(Told(cfg, acts))
    decreases |acts|
  {
    if acts != [] {
      var n := |acts| - 1;
      ScoresFollowTold(cfg, acts[..n]);
      ScoresFollowStep(cfg, After(cfg, acts[..n]), acts[n], Told(cfg, acts[..n]));
    }
  }

  /** Whatever scores claims report, every score stays in the unit interval. */
  lemma {:induction false} GossipKeepsRange(cfg: Config, acts: seq<Action>, peer: string)
    ensures 0.0 <= R.ScoreOf(After(cfg, acts).scores, peer) <= 1.0
  {
    ScoresFollowTold(cfg, acts);
    R.ScoresStayInRange(Told(cfg, acts), peer);
  }

  // ---- Who may gossip --------------------------------------------------------------------

  /** The trust check compares numbers. Among the named levels it lets through verified, pinned
      and also blocked issuers, which rank between the two. */
  lemma TrustedEnoughToGossip(cfg: Config, claim: Claim, s: T.Store, now: int)
    requires claim.issuer != cfg.self && claim.timestamp.None?
    requires T.UNKNOWN <= T.LevelAt(s, claim.issuer, now) <= T.PINNED
    ensures Eligible(cfg, claim, T.LevelAt(s, claim.issuer, now), now)
       <==> (claim.issuer in s && s[claim.issuer].level in {T.VERIFIED, T.BLOCKED, T.PINNED})
  {
  }
}
