/** Remembering keys for a while. A table keeps the time each key was first seen; a sweep
    forgets the entries older than a retention period. This is the core that nonce checking
    (security/message.go) and claim deduplication (security/reputation_gossip.go) share. */
module Deduplication {

  /** What one step of a run does to the table. Offer records the key unless it is there. */
  datatype Step<K> = Offer(at: int, key: K) | Sweep(at: int) | Idle(at: int)

  function Swept<K>(seen: map<K, int>, cutoff: int): map<K, int> {
    map k | k in seen && seen[k] >= cutoff :: seen[k]
  }

  function Offered<K>(seen: map<K, int>, key: K, at: int): map<K, int> {
    if key in seen then seen else seen[key := at]
  }

  function Next<K>(seen: map<K, int>, step: Step<K>, retention: nat): map<K, int> {
    match step
    case Offer(at, key) => Offered(seen, key, at)
    case Sweep(at) => Swept(seen, at - retention)
    case Idle(_) => seen
  }

  /** The table after a run that starts empty. */
  function After<K>(steps: seq<Step<K>>, retention: nat): map<K, int>
    decreases |steps|
  {
    if steps == [] then map[]
    else Next(After(steps[..|steps| - 1], retention), steps[|steps| - 1], retention)
  }

  ghost predicate Timely<K>(steps: seq<Step<K>>) {
    forall i, j :: 0 <= i < j < |steps| ==> steps[i].at <= steps[j].at
  }

  /** Step i offers a key that the table does not hold. */
  predicate Admits<K(==)>(steps: seq<Step<K>>, i: nat, retention: nat)
    requires i < |steps|
  {
    steps[i].Offer? && steps[i].key !in After(steps[..i], retention)
  }

  /** A key admitted at since is in the table until a sweep more than the retention later. */
  predicate Remembers<K(==)>(seen: map<K, int>, key: K, since: int, now: int, retention: nat) {
    (key in seen && seen[key] >= since) || now > since + retention
  }

  lemma StepRemembers<K>(seen: map<K, int>, step: Step<K>, key: K, since: int, now: int, retention: nat)
    requires Remembers(seen, key, since, now, retention) && since <= now <= step.at
    ensures Remembers(Next(seen, step, retention), key, since, step.at, retention)
  {
  }

  lemma {:induction false} RunRemembers<K>(steps: seq<Step<K>>, i: nat, m: nat, retention: nat)
    requires Timely(steps) && i < m <= |steps| && Admits(steps, i, retention)
    ensures Remembers(After(steps[..m], retention), steps[i].key, steps[i].at, steps[m - 1].at, retention)
    decreases m
  {
    assert steps[..m][..m - 1] == steps[..m - 1];
    if m > i + 1 {
      RunRemembers(steps, i, m - 1, retention);
      StepRemembers(After(steps[..m - 1], retention), steps[m - 1], steps[i].key, steps[i].at, steps[m - 2].at, retention);
    }
  }

  /** In every run whose clock does not go back, two admissions of one key lie more than the
      retention period apart. */
  lemma AdmittedApart<K>(steps: seq<Step<K>>, i: nat, j: nat, retention: nat)
    requires Timely(steps) && i < j < |steps|
    requires Admits(steps, i, retention) && Admits(steps, j, retention) && steps[i].key == steps[j].key
    ensures steps[j].at > steps[i].at + retention
  {
    RunRemembers(steps, i, j, retention);
  }

  /** Stamped offers taken only within skew of the clock: with a retention of at least twice
      the skew, one key and stamp is admitted once. */
  lemma StampAdmittedOnce<K>(steps: seq<Step<K>>, i: nat, j: nat, retention: nat, skew: nat, stamp: int)
    requires Timely(steps) && i < j < |steps| && retention >= 2 * skew
    requires steps[i].at - skew <= stamp <= steps[i].at + skew
    requires steps[j].at - skew <= stamp <= steps[j].at + skew
    requires Admits(steps, i, retention) && steps[j].Offer? && steps[i].key == steps[j].key
    ensures !Admits(steps, j, retention)
  {
    if Admits(steps, j, retention) {
      AdmittedApart(steps, i, j, retention);
    }
  }

  /** A held key was admitted by an earlier step, at the time the table keeps. */
  lemma {:induction false} HeldWasAdmitted<K>(steps: seq<Step<K>>, key: K, retention: nat) returns (i: nat)
    requires key in After(steps, retention)
    ensures i < |steps| && Admits(steps, i, retention) && steps[i].key == key
    ensures After(steps, retention)[key] == steps[i].at
    decreases |steps|
  {
    var n := |steps| - 1;
    var before := After(steps[..n], retention);
    if key in before {
      i := HeldWasAdmitted(steps[..n], key, retention);
      assert steps[..n][..i] == steps[..i];
    } else {
      i := n;
    }
  }

  /** The i-th step admits the key, and no sweep since was more than the retention period later. */
  ghost predicate HeldSince<K>(steps: seq<Step<K>>, key: K, i: nat, retention: nat) {
    && i < |steps| && Admits(steps, i, retention) && steps[i].key == key
    && forall k :: i < k < |steps| && steps[k].Sweep? ==> steps[i].at >= steps[k].at - retention
  }

  lemma {:induction false} HeldFrom<K>(steps: seq<Step<K>>, key: K, i: nat, m: nat, retention: nat)
    requires i < m <= |steps| && HeldSince(steps, key, i, retention)
    ensures key in After(steps[..m], retention) && After(steps[..m], retention)[key] == steps[i].at
    decreases m
  {
    assert steps[..m][..m - 1] == steps[..m - 1];
    if m > i + 1 {
      HeldFrom(steps, key, i, m - 1, retention);
    }
  }

  lemma {:induction false} HeldHasCause<K>(steps: seq<Step<K>>, key: K, retention: nat) returns (i: nat)
    requires key in After(steps, retention)
    ensures HeldSince(steps, key, i, retention) && After(steps, retention)[key] == steps[i].at
    decreases |steps|
  {
    var n := |steps| - 1;
    if key in After(steps[..n], retention) {
      i := HeldHasCause(steps[..n], key, retention);
      assert steps[..n][..i] == steps[..i];
      assert forall k :: i < k < n ==> steps[..n][k] == steps[k];
    } else {
      i := n;
    }
  }

  /** A key is held after a run if and only if some step admitted it and no sweep has forgotten it since,
      whatever the clock does. */
  lemma HeldExactly<K>(steps: seq<Step<K>>, key: K, retention: nat)
    ensures key in After(steps, retention) <==> exists i :: HeldSince(steps, key, i, retention)
  {
    if key in After(steps, retention) {
      var i := HeldHasCause(steps, key, retention);
    }
    if i :| HeldSince(steps, key, i, retention) {
      HeldFrom(steps, key, i, |steps|, retention);
      assert steps[..|steps|] == steps;
    }
  }

  /** One key is admitted twice between two instants that are span apart. */
  ghost predicate AdmitsTwice<K(!new)>(steps: seq<Step<K>>, retention: nat, span: nat) {
    exists i: nat, j: nat :: i < j < |steps| && Admits(steps, i, retention) && Admits(steps, j, retention)
      && steps[i].key == steps[j].key && steps[j].at <= steps[i].at + span
  }

  /** Offer, sweep as soon as the entry may go, and offer again. */
  function Replay<K>(key: K, retention: nat): seq<Step<K>> {
    [Offer(0, key), Sweep(retention + 1), Offer(retention + 1, key)]
  }

  lemma ReplayAdmitsTwice<K(!new)>(key: K, retention: nat, span: nat)
    requires span > retention
    ensures Timely(Replay(key, retention)) && AdmitsTwice(Replay(key, retention), retention, span)
  {
    var steps := Replay(key, retention);
    var first := [Offer(0, key)];
    assert steps[..0] == [] && steps[..1] == first && first[..0] == [];
    assert steps[..2] == [Offer(0, key), Sweep(retention + 1)] && steps[..2][..1] == first;
    assert After(first, retention) == map[key := 0];
    assert key !in After(steps[..2], retention);
    assert Admits(steps, 0, retention) && Admits(steps, 2, retention);
  }

  /** A retention period excludes double admission within a span in all runs if and only if it
      is at least as long as the span. */
  lemma RetentionSufficesExactly<K(!new)>(key: K, retention: nat, span: nat)
    ensures (forall steps: seq<Step<K>> :: Timely(steps) ==> !AdmitsTwice(steps, retention, span)) <==> span <= retention
  {
    if span <= retention {
      forall steps: seq<Step<K>> | Timely(steps)
        ensures !AdmitsTwice(steps, retention, span)
      {
        if AdmitsTwice(steps, retention, span) {
          var i: nat, j: nat :| i < j < |steps| && Admits(steps, i, retention) && Admits(steps, j, retention)
            && steps[i].key == steps[j].key && steps[j].at <= steps[i].at + span;
          AdmittedApart(steps, i, j, retention);
        }
      }
    } else {
      ReplayAdmitsTwice(key, retention, span);
    }
  }

  /** Forgetting in any order: the loop of a sweep, which visits the keys of a map. */
  method Forget<K(==)>(table: map<K, int>, cutoff: int) returns (kept: map<K, int>)
    ensures kept == Swept(table, cutoff)
  {
    kept := table;
    var rest := table.Keys;
    while rest != {}
      invariant rest <= table.Keys
      invariant kept == map k | k in table && (k in rest || table[k] >= cutoff) :: table[k]
      decreases |rest|
    {
      var k :| k in rest;
      if kept[k] < cutoff {
        kept := kept - {k};
      }
      rest := rest - {k};
    }
  }
}
