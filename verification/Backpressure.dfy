/** Backpressure between the sending goroutine and the data channel (filetransfer/sender.go),
    under the buffering rules of section 6.2 of W3C WebRTC 1.0: the low-water event is queued
    each time the buffered amount falls from above the threshold to the threshold or below, and
    its callback runs some time later. The callback puts a token into a channel of capacity
    one; a blocked sender takes the token. */
module Backpressure {
  const HIGH := 1024 * 1024
  const LOW := 256 * 1024

  /** A full chunk, the cipher's nonce and tag, and the frame header. */
  const MAX_FRAME := 64 * 1024 + 24 + 16 + 9
  const FIN_SIZE := 9

  datatype Pc =
    | Idle                    // about to test the buffered amount for the next frame
    | Blocked                 // waiting for the token
    | Cleared                 // about to send
    | Finished

  datatype Link = Link(buffered: nat, token: bool, pending: nat, pc: Pc)

  const START := Link(0, false, 0, Idle)

  datatype Action =
    | Test
    | Take
    | Send(size: nat)
    | SendFin
    | Drain(size: nat)
    | Callback

  predicate SenderStep(a: Action) {
    !a.Drain? && !a.Callback?
  }

  function Step(s: Link, a: Action): Link {
    match a
    case Test => if s.pc != Idle then s else s.(pc := if s.buffered > HIGH then Blocked else Cleared)
    case Take => if s.pc != Blocked || !s.token then s else s.(token := false, pc := Cleared)
    case Send(n) => if s.pc != Cleared || !(0 < n <= MAX_FRAME) then s else s.(buffered := s.buffered + n, pc := Idle)
    case SendFin => if s.pc != Idle then s else s.(buffered := s.buffered + FIN_SIZE, pc := Finished)
    case Drain(n) =>
      if n > s.buffered then s
      else s.(buffered := s.buffered - n,
              pending := if s.buffered > LOW && s.buffered - n <= LOW then s.pending + 1 else s.pending)
    case Callback => if s.pending == 0 then s else s.(pending := s.pending - 1, token := true)
  }

  function Run(s: Link, acts: seq<Action>): Link
    decreases |acts|
  {
    if acts == [] then s else Run(Step(s, acts[0]), acts[1..])
  }

  lemma {:induction false} RunAppend(s: Link, a: seq<Action>, b: seq<Action>)
    ensures Run(s, a + b) == Run(Run(s, a), b)
    decreases |a|
  {
    if a == [] {
      assert a + b == b;
    } else {
      assert (a + b)[1..] == a[1..] + b;
      RunAppend(Step(s, a[0]), a[1..], b);
    }
  }

  // ---- No lost wakeup --------------------------------------------------------------------

  predicate Awake(s: Link) {
    s.pc == Blocked && !s.token && s.pending == 0 ==> s.buffered > LOW
  }

  /** In every run: a sender that is blocked with no token and no callback on its way still has
      more than the threshold in the buffer, so a wakeup is yet to come. */
  lemma {:induction false} NoLostWakeup(s: Link, acts: seq<Action>)
    requires Awake(s)
    ensures Awake(Run(s, acts))
    decreases |acts|
  {
    if acts != [] {
      NoLostWakeup(Step(s, acts[0]), acts[1..]);
    }
  }

  /** Emptying the buffer and running the callbacks always frees a blocked sender: the sender
      itself need do nothing but take the token. */
  lemma DrainingFreesSender(acts: seq<Action>)
    requires Run(START, acts).pc == Blocked
    ensures var s := Run(START, acts); Run(s, [Drain(s.buffered), Callback, Take]).pc == Cleared
  {
    NoLostWakeup(START, acts);
    var s := Run(START, acts);
    RunThree(s, Drain(s.buffered), Callback, Take);
  }

  lemma RunOne(s: Link, a: Action)
    ensures Run(s, [a]) == Step(s, a)
  {
    assert [a][1..] == [];
  }

  lemma RunTwo(s: Link, a: Action, b: Action)
    ensures Run(s, [a, b]) == Step(Step(s, a), b)
  {
    assert [a, b][1..] == [b];
    RunOne(Step(s, a), b);
  }

  lemma RunThree(s: Link, a: Action, b: Action, c: Action)
    ensures Run(s, [a, b, c]) == Step(Step(Step(s, a), b), c)
  {
    assert [a, b, c][1..] == [b, c];
    RunTwo(Step(s, a), b, c);
  }

  // ---- The bound on the buffer -----------------------------------------------------------

  /** The sender never moves while more than c callbacks are outstanding. With c = 0 every
      callback runs before the sender's next step. */
  predicate Prompt(s: Link, acts: seq<Action>, c: nat)
    decreases |acts|
  {
    acts == [] || ((SenderStep(acts[0]) ==> s.pending <= c) && Prompt(Step(s, acts[0]), acts[1..], c))
  }

  /** Wakeups that have been earned but not used. */
  function Wakeups(s: Link): nat {
    s.pending + if s.token then 1 else 0
  }

  predicate Bounded(s: Link, c: nat) {
    && s.pending <= c + 1 && (s.buffered > LOW ==> s.pending <= c)
    && (s.buffered > HIGH && s.pc != Finished ==>
          s.buffered + MAX_FRAME * Wakeups(s) <= HIGH + MAX_FRAME * (if s.pc == Cleared then c + 1 else c + 2))
    && (s.pc == Finished ==> s.buffered <= HIGH + MAX_FRAME * (c + 2) + FIN_SIZE)
  }

  lemma BoundedStep(s: Link, a: Action, c: nat)
    requires Bounded(s, c) && (SenderStep(a) ==> s.pending <= c)
    ensures Bounded(Step(s, a), c)
  {
  }

  lemma {:induction false} BoundedRun(s: Link, acts: seq<Action>, c: nat)
    requires Bounded(s, c) && Prompt(s, acts, c)
    ensures Bounded(Run(s, acts), c)
    decreases |acts|
  {
    if acts != [] {
      BoundedStep(s, acts[0], c);
      BoundedRun(Step(s, acts[0]), acts[1..], c);
    }
  }

  /** In every run in which at most c callbacks are outstanding when the sender moves, the
      buffer holds at most 1 MB plus c + 2 frames, and the FIN frame, which is sent without a
      test. When callbacks run before the sender's next step this is two frames: one that passed
      the test and one that a stale token let through. */
  lemma BufferBound(acts: seq<Action>, c: nat)
    requires Prompt(START, acts, c)
    ensures var s := Run(START, acts);
            s.buffered <= HIGH + MAX_FRAME * (c + 2) + if s.pc == Finished then FIN_SIZE else 0
  {
    BoundedRun(START, acts, c);
  }

  // ---- The bound is attained -------------------------------------------------------------

  lemma {:induction false} PromptAppend(s: Link, a: seq<Action>, b: seq<Action>, c: nat)
    requires Prompt(s, a, c) && Prompt(Run(s, a), b, c)
    ensures Prompt(s, a + b, c)
    decreases |a|
  {
    if a == [] {
      assert a + b == b;
    } else {
      assert (a + b)[1..] == a[1..] + b;
      PromptAppend(Step(s, a[0]), a[1..], b, c);
    }
  }

  /** A run from s to t that keeps to the limit. */
  predicate Leads(s: Link, acts: seq<Action>, t: Link, c: nat) {
    Prompt(s, acts, c) && Run(s, acts) == t
  }

  lemma LeadsAppend(s: Link, a: seq<Action>, t: Link, b: seq<Action>, u: Link, c: nat)
    requires Leads(s, a, t, c) && Leads(t, b, u, c)
    ensures Leads(s, a + b, u, c)
  {
    RunAppend(s, a, b);
    PromptAppend(s, a, b, c);
  }

  lemma OneStep(s: Link, a: Action, c: nat)
    requires SenderStep(a) ==> s.pending <= c
    ensures Leads(s, [a], Step(s, a), c)
  {
    RunOne(s, a);
  }

  /** One frame of n bytes, sent without blocking. */
  lemma SendOne(s: Link, n: nat, c: nat)
    requires s.pc == Idle && s.buffered <= HIGH && 0 < n <= MAX_FRAME && s.pending <= c
    ensures Leads(s, [Test, Send(n)], s.(buffered := s.buffered + n), c)
  {
    OneStep(s, Test, c);
    OneStep(Step(s, Test), Send(n), c);
    LeadsAppend(s, [Test], Step(s, Test), [Send(n)], s.(buffered := s.buffered + n), c);
  }

  lemma {:induction false} SendMany(s: Link, k: nat, c: nat) returns (acts: seq<Action>)
    requires s.pc == Idle && s.pending <= c && s.buffered + MAX_FRAME * k <= HIGH + MAX_FRAME
    ensures Leads(s, acts, s.(buffered := s.buffered + MAX_FRAME * k), c)
    decreases k
  {
    if k == 0 {
      acts := [];
    } else {
      var t := s.(buffered := s.buffered + MAX_FRAME);
      SendOne(s, MAX_FRAME, c);
      var rest := SendMany(t, k - 1, c);
      LeadsAppend(s, [Test, Send(MAX_FRAME)], t, rest, s.(buffered := s.buffered + MAX_FRAME * k), c);
      acts := [Test, Send(MAX_FRAME)] + rest;
    }
  }

  /** Filling the buffer past the threshold and emptying it queues one more callback. */
  lemma QueueOne(s: Link, c: nat) returns (acts: seq<Action>)
    requires s.pc == Idle && s.buffered == 0 && s.pending <= c
    ensures Leads(s, acts, s.(pending := s.pending + 1), c)
  {
    var full := s.(buffered := MAX_FRAME * 4);
    var fill := SendMany(s, 4, c);
    OneStep(full, Drain(MAX_FRAME * 4), c);
    LeadsAppend(s, fill, full, [Drain(MAX_FRAME * 4)], s.(pending := s.pending + 1), c);
    acts := fill + [Drain(MAX_FRAME * 4)];
  }

  lemma {:induction false} QueueMany(s: Link, k: nat, c: nat) returns (acts: seq<Action>)
    requires s.pc == Idle && s.buffered == 0 && s.pending + k <= c
    ensures Leads(s, acts, s.(pending := s.pending + k), c)
    decreases k
  {
    if k == 0 {
      acts := [];
    } else {
      var first := QueueOne(s, c);
      var rest := QueueMany(s.(pending := s.pending + 1), k - 1, c);
      LeadsAppend(s, first, s.(pending := s.pending + 1), rest, s.(pending := s.pending + k), c);
      acts := first + rest;
    }
  }

  /** An empty buffer with a stale token and c callbacks still queued. */
  lemma StaleWakeups(c: nat) returns (acts: seq<Action>)
    ensures Leads(START, acts, START.(token := true, pending := c), c)
  {
    var queue := QueueOne(START, c);
    var one := START.(pending := 1);
    OneStep(one, Callback, c);
    LeadsAppend(START, queue, one, [Callback], START.(token := true), c);
    var rest := QueueMany(START.(token := true), c, c);
    LeadsAppend(START, queue + [Callback], START.(token := true), rest, START.(token := true, pending := c), c);
    acts := queue + [Callback] + rest;
  }

  /** Each unused wakeup lets one frame through above the limit. */
  lemma {:induction false} SpendWakeups(s: Link, c: nat) returns (acts: seq<Action>)
    requires s.pc == Idle && s.buffered > HIGH && s.token && s.pending <= c
    ensures Leads(s, acts, Link(s.buffered + MAX_FRAME * (s.pending + 1), false, 0, Idle), c)
    decreases s.pending
  {
    var blocked, cleared := s.(pc := Blocked), s.(pc := Cleared, token := false);
    var sent := s.(buffered := s.buffered + MAX_FRAME, token := false);
    OneStep(s, Test, c);
    OneStep(blocked, Take, c);
    OneStep(cleared, Send(MAX_FRAME), c);
    LeadsAppend(s, [Test], blocked, [Take], cleared, c);
    LeadsAppend(s, [Test] + [Take], cleared, [Send(MAX_FRAME)], sent, c);
    acts := [Test] + [Take] + [Send(MAX_FRAME)];
    if s.pending > 0 {
      var woken := sent.(pending := s.pending - 1, token := true);
      OneStep(sent, Callback, c);
      LeadsAppend(s, acts, sent, [Callback], woken, c);
      var rest := SpendWakeups(woken, c);
      LeadsAppend(s, acts + [Callback], woken, rest, Link(s.buffered + MAX_FRAME * (s.pending + 1), false, 0, Idle), c);
      acts := acts + [Callback] + rest;
    }
  }

  /** For every c the bound is reached by some run: the number of frames above 1 MB is exactly
      the number of callbacks that may be outstanding, plus two. */
  lemma BufferBoundAttained(c: nat)
    ensures exists acts :: Prompt(START, acts, c) && Run(START, acts).buffered == HIGH + MAX_FRAME * (c + 2) + FIN_SIZE
  {
    var stale := StaleWakeups(c);
    var s0 := START.(token := true, pending := c);
    var fill := SendMany(s0, 15, c);
    var s1 := s0.(buffered := MAX_FRAME * 15);
    LeadsAppend(START, stale, s0, fill, s1, c);
    SendOne(s1, HIGH - MAX_FRAME * 15, c);
    var s2 := s1.(buffered := HIGH);
    LeadsAppend(START, stale + fill, s1, [Test, Send(HIGH - MAX_FRAME * 15)], s2, c);
    SendOne(s2, MAX_FRAME, c);
    var acts := stale + fill + [Test, Send(HIGH - MAX_FRAME * 15)];
    var s3 := s2.(buffered := HIGH + MAX_FRAME);
    LeadsAppend(START, acts, s2, [Test, Send(MAX_FRAME)], s3, c);
    var spend := SpendWakeups(s3, c);
    acts := acts + [Test, Send(MAX_FRAME)];
    var s4 := Link(s3.buffered + MAX_FRAME * (c + 1), false, 0, Idle);
    LeadsAppend(START, acts, s3, spend, s4, c);
    OneStep(s4, SendFin, c);
    LeadsAppend(START, acts + spend, s4, [SendFin], Step(s4, SendFin), c);
    assert Prompt(START, acts + spend + [SendFin], c);
  }
}
