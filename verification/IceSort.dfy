/** Ordering of ICE candidates by type (transport/webrtc.go). */
module IceSort {

  /** Unspecified and peer-reflexive candidates have no priority of their own. */
  datatype Kind = Unspecified | Host | ServerReflexive | PeerReflexive | Relay

  datatype Candidate = Candidate(kind: Kind, address: string)

  function Priority(c: Candidate): int {
    match c.kind
    case Host => 3
    case ServerReflexive => 2
    case Relay => 1
    case _ => 0
  }

  /** No candidate at one of the first n places is followed by one of a higher priority. */
  predicate Settled(s: seq<Candidate>, n: nat) {
    forall i, j :: 0 <= i < j < |s| && i < n ==> Priority(s[i]) >= Priority(s[j])
  }

  // ---- The exchange sort on values -------------------------------------------------------

  function Exchanged(s: seq<Candidate>, i: nat, j: nat): seq<Candidate>
    requires i < |s| && j < |s|
  {
    if Priority(s[i]) < Priority(s[j]) then s[i := s[j]][j := s[i]] else s
  }

  /** What the inner loop does from j on. */
  function Swept(s: seq<Candidate>, i: nat, j: nat): (t: seq<Candidate>)
    requires i < |s|
    ensures |t| == |s|
    decreases |s| - j
  {
    if j >= |s| then s else Swept(Exchanged(s, i, j), i, j + 1)
  }

  /** What the outer loop does from i on. */
  function Sorted(s: seq<Candidate>, i: nat): (t: seq<Candidate>)
    ensures |t| == |s|
    decreases |s| - i
  {
    if i + 1 >= |s| then s else Sorted(Swept(s, i, i + 1), i + 1)
  }

  lemma ExchangeFacts(s: seq<Candidate>, i: nat, j: nat)
    requires i < j < |s| && Settled(s, i)
    requires forall k :: i < k < j ==> Priority(s[i]) >= Priority(s[k])
    ensures var t := Exchanged(s, i, j);
            && multiset(t) == multiset(s) && |t| == |s| && Settled(t, i)
            && forall k :: i < k <= j ==> Priority(t[i]) >= Priority(t[k])
  {
  }

  lemma {:induction false} SweptFacts(s: seq<Candidate>, i: nat, j: nat)
    requires i < j <= |s| && Settled(s, i)
    requires forall k :: i < k < j ==> Priority(s[i]) >= Priority(s[k])
    ensures multiset(Swept(s, i, j)) == multiset(s) && Settled(Swept(s, i, j), i + 1)
    decreases |s| - j
  {
    if j < |s| {
      ExchangeFacts(s, i, j);
      SweptFacts(Exchanged(s, i, j), i, j + 1);
    }
  }

  lemma LastSettled(s: seq<Candidate>, i: nat)
    requires Settled(s, i) && i + 1 >= |s|
    ensures Settled(s, |s|)
  {
  }

  /** The nested exchange loops rearrange a list into nonincreasing priority. */
  lemma {:induction false} SortedFacts(s: seq<Candidate>, i: nat)
    requires Settled(s, i)
    ensures multiset(Sorted(s, i)) == multiset(s) && Settled(Sorted(s, i), |s|)
    decreases |s| - i
  {
    if i + 1 < |s| {
      SweptFacts(s, i, i + 1);
      SortedFacts(Swept(s, i, i + 1), i + 1);
    } else {
      LastSettled(s, i);
    }
  }

  // ---- The sort on arrays ----------------------------------------------------------------

  method CopyOf(candidates: array<Candidate>) returns (copy: array<Candidate>)
    ensures fresh(copy) && copy[..] == candidates[..]
  {
    copy := new Candidate[candidates.Length](i requires 0 <= i < candidates.Length reads candidates => candidates[i]);
  }

  method SweepFrom(a: array<Candidate>, i: nat)
    requires i < a.Length
    modifies a
    ensures a[..] == Swept(old(a[..]), i, i + 1)
  {
    var j := i + 1;
    while j < a.Length
      invariant i < j <= a.Length && Swept(a[..], i, j) == Swept(old(a[..]), i, i + 1)
    {
      ghost var before := a[..];
      if Priority(a[i]) < Priority(a[j]) {
        a[i], a[j] := a[j], a[i];
      }
      assert a[..] == Exchanged(before, i, j);
      j := j + 1;
    }
  }

  /** Host candidates go first, then server-reflexive ones, then relays, then all others. */
  predicate GoesBefore(a: Kind, b: Kind) {
    || (a == Host && b != Host)
    || (a == ServerReflexive && b != Host && b != ServerReflexive)
    || (a == Relay && (b == PeerReflexive || b == Unspecified))
  }

  /** Sorts a copy; the caller's candidates stay as they are. */
  method SortICECandidates(candidates: array<Candidate>) returns (sorted: array<Candidate>)
    ensures fresh(sorted) && candidates[..] == old(candidates[..])
    ensures multiset(sorted[..]) == multiset(candidates[..])
    ensures Settled(sorted[..], sorted.Length)
    ensures forall i, j :: 0 <= i < j < sorted.Length ==> !GoesBefore(sorted[j].kind, sorted[i].kind)
  {
    sorted := CopyOf(candidates);
    ghost var goal := Sorted(candidates[..], 0);
    var i := 0;
    while i < sorted.Length - 1
      invariant 0 <= i && Sorted(sorted[..], i) == goal
    {
      SweepFrom(sorted, i);
      i := i + 1;
    }
    assert sorted[..] == goal;
    SortedFacts(candidates[..], 0);
    SettledByKind(sorted[..]);
  }

  lemma SettledByKind(s: seq<Candidate>)
    requires Settled(s, |s|)
    ensures forall i, j :: 0 <= i < j < |s| ==> !GoesBefore(s[j].kind, s[i].kind)
  {
    forall i, j | 0 <= i < j < |s| ensures !GoesBefore(s[j].kind, s[i].kind) {
      assert Priority(s[i]) >= Priority(s[j]);
    }
  }
}
