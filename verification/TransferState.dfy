/** The lifecycle of one file transfer (filetransfer/state.go). */
module TransferState {
  import opened Basics
  import opened ChunkCipher

  datatype State = Idle | Offered | Accepted | Transferring | Completing | Done | Failed | Cancelled

  datatype Direction = Send | Recv

  /** The digest of a file. Hashing is idealised: different contents have different digests. */
  datatype Digest = Digest(content: Bytes)

  const OFFERED_TIMEOUT := 60 * SECOND
  const ACCEPTED_TIMEOUT := 30 * SECOND
  const TRANSFERRING_TIMEOUT := 30 * MINUTE
  const COMPLETING_TIMEOUT := 60 * SECOND

  /** The table of allowed next states. */
  function Targets(from: State): seq<State> {
    match from
    case Idle => [Offered]
    case Offered => [Accepted, Failed, Cancelled]
    case Accepted => [Transferring, Failed, Cancelled]
    case Transferring => [Completing, Failed, Cancelled]
    case Completing => [Done, Failed]
    case Done => []
    case Failed => []
    case Cancelled => []
  }

  predicate ValidTransition(from: State, to: State) {
    to in Targets(from)
  }

  predicate Terminal(s: State) {
    s == Done || s == Failed || s == Cancelled
  }

  /** Zero means that the state never times out. */
  function StateTimeout(s: State): nat {
    match s
    case Offered => OFFERED_TIMEOUT
    case Accepted => ACCEPTED_TIMEOUT
    case Transferring => TRANSFERRING_TIMEOUT
    case Completing => COMPLETING_TIMEOUT
    case _ => 0
  }

  /** The fields of a transfer that its lifecycle depends on. */
  datatype Record = Record(
    direction: Direction,
    peer: string,
    state: State,
    challenge: string,
    counterChallenge: string,
    sessionKey: Option<Key>,
    digest: Option<Digest>,
    lastConfirmed: UInt32,
    lastActive: int,
    completedAt: Option<int>,
    error: string)

  function NewRecord(dir: Direction, peer: string, now: int): Record {
    Record(dir, peer, Idle, "", "", None, None, 0, now, None, "")
  }

  /** What Transition leaves behind; an invalid request changes nothing. */
  function Moved(r: Record, to: State, now: int): Record {
    if !ValidTransition(r.state, to) then r
    else r.(state := to, lastActive := now, completedAt := if Terminal(to) then Some(now) else r.completedAt)
  }

  predicate TimedOut(r: Record, now: int) {
    StateTimeout(r.state) != 0 && now - r.lastActive > StateTimeout(r.state)
  }

  /** A sequence of transition requests, each one allowed to fail. */
  function MovedAll(r: Record, requests: seq<(State, int)>): Record
    decreases |requests|
  {
    if requests == [] then r else MovedAll(Moved(r, requests[0].0, requests[0].1), requests[1..])
  }

  function Rank(s: State): nat {
    match s
    case Idle => 0
    case Offered => 1
    case Accepted => 2
    case Transferring => 3
    case Completing => 4
    case _ => 5
  }

  /** The terminal states are exactly those that no request leaves. */
  lemma TerminalIffStuck(s: State)
    ensures Terminal(s) <==> forall to :: !ValidTransition(s, to)
  {
    if !Terminal(s) {
      assert ValidTransition(s, Targets(s)[0]);
    }
  }

  /** Whatever is requested, a finished transfer keeps its outcome and its completion time, and
      an unfinished one only moves forward. */
  lemma {:induction false} LifecycleIsOneWay(r: Record, requests: seq<(State, int)>)
    ensures Terminal(r.state) ==> MovedAll(r, requests) == r
    ensures Rank(r.state) <= Rank(MovedAll(r, requests).state)
    decreases |requests|
  {
    if requests != [] {
      LifecycleIsOneWay(Moved(r, requests[0].0, requests[0].1), requests[1..]);
    }
  }

  /** The number of requests that were granted. */
  function Granted(r: Record, requests: seq<(State, int)>): nat
    decreases |requests|
  {
    if requests == [] then 0
    else (if ValidTransition(r.state, requests[0].0) then 1 else 0)
         + Granted(Moved(r, requests[0].0, requests[0].1), requests[1..])
  }

  /** No transfer makes more than five transitions in its life. */
  lemma {:induction false} AtMostFiveTransitions(r: Record, requests: seq<(State, int)>)
    ensures Granted(r, requests) <= 5 - Rank(r.state)
    decreases |requests|
  {
    if requests != [] {
      AtMostFiveTransitions(Moved(r, requests[0].0, requests[0].1), requests[1..]);
    }
  }

  /** The transfer object that the handlers share. */
  class Transfer {
    const fileId: string
    const direction: Direction
    const peer: string
    var state: State
    var challenge: string
    var counterChallenge: string
    var sessionKey: Option<Key>
    var digest: Option<Digest>
    var lastConfirmed: UInt32
    var lastActive: int
    var completedAt: Option<int>
    var error: string

    function Snapshot(): Record
      reads this
    {
      Record(direction, peer, state, challenge, counterChallenge, sessionKey, digest, lastConfirmed, lastActive,
             completedAt, error)
    }

    constructor (fileId: string, dir: Direction, peer: string, now: int)
      ensures this.fileId == fileId && Snapshot() == NewRecord(dir, peer, now)
    {
      this.fileId := fileId;
      this.direction := dir;
      this.peer := peer;
      state, challenge, counterChallenge, sessionKey, digest := Idle, "", "", None, None;
      lastConfirmed, lastActive, completedAt, error := 0, now, None, "";
    }

    method Transition(to: State, now: int) returns (ok: bool)
      modifies this
      ensures ok == ValidTransition(old(state), to)
      ensures Snapshot() == Moved(old(Snapshot()), to, now)
    {
      if !ValidTransition(state, to) {
        return false;
      }
      state := to;
      lastActive := now;
      if to == Done || to == Failed || to == Cancelled {
        completedAt := Some(now);
      }
      return true;
    }

    method IsTimedOut(now: int) returns (late: bool)
      ensures late == TimedOut(Snapshot(), now)
    {
      var timeout := StateTimeout(state);
      if timeout == 0 {
        return false;
      }
      return now - lastActive > timeout;
    }
  }
}
