/** Message-level replay protection (security/message.go). Signatures are ideal: one verifies
    for a key and an envelope exactly if that key signed that envelope's content. */
module MessageValidation {
  import opened Basics
  import D = Deduplication

  const MAX_MESSAGE_SIZE := 0x10_0000
  const NONCE_WINDOW := 5 * MINUTE
  const TIMESTAMP_SKEW := 2 * MINUTE

  datatype Content = Content(source: string, destination: string, protocol: string, messageType: string,
                             nonce: Bytes, timestamp: int, payload: Bytes)

  datatype Signature = NoSignature | Signed(key: string, content: Content)

  datatype Envelope = Envelope(content: Content, signature: Signature)

  datatype Refusal =
    | TooLarge | OutsideWindow | MissingNonce | BadNonceLength | DuplicateNonce
    | MissingSignature | UnknownSender | UnreadableKey | BadSignature

  /** The sender's key as the caller knows it: its text, empty if unknown, and whether it parses. */
  datatype Sender = Sender(key: string, parses: bool)

  // ---- The checks as functions -----------------------------------------------------------

  /** What is refused before the nonce table is consulted. */
  function Malformed(c: Content, now: int): Option<Refusal> {
    if |c.payload| > MAX_MESSAGE_SIZE then Some(TooLarge)
    else if c.timestamp < now - TIMESTAMP_SKEW || c.timestamp > now + TIMESTAMP_SKEW then Some(OutsideWindow)
    else if c.nonce == [] then Some(MissingNonce)
    else if |c.nonce| < 16 || |c.nonce| > 64 then Some(BadNonceLength)
    else None
  }

  function Unauthentic(env: Envelope, sender: Sender): Option<Refusal> {
    if env.signature.NoSignature? then Some(MissingSignature)
    else if sender.key == "" then Some(UnknownSender)
    else if !sender.parses then Some(UnreadableKey)
    else if env.signature != Signed(sender.key, env.content) then Some(BadSignature)
    else None
  }

  /** None accepts the envelope. */
  function Verdict(nonces: map<Bytes, int>, env: Envelope, sender: Sender, now: int): Option<Refusal> {
    if Malformed(env.content, now).Some? then Malformed(env.content, now)
    else if env.content.nonce in nonces then Some(DuplicateNonce)
    else Unauthentic(env, sender)
  }

  /** The nonce stays recorded even if the signature turns out bad. */
  function Recorded(nonces: map<Bytes, int>, c: Content, now: int): map<Bytes, int> {
    if Malformed(c, now).Some? then nonces else D.Offered(nonces, c.nonce, now)
  }

  // ---- The validator object --------------------------------------------------------------

  class MessageValidator {
    var nonces: map<Bytes, int>

    constructor ()
      ensures nonces == map[]
    {
      nonces := map[];
    }

    method ValidateMessage(env: Envelope, sender: Sender, now: int) returns (refusal: Option<Refusal>)
      modifies this
      ensures refusal == Verdict(old(nonces), env, sender, now)
      ensures nonces == Recorded(old(nonces), env.content, now)
    {
      if |env.content.payload| > MAX_MESSAGE_SIZE {
        return Some(TooLarge);
      }
      if env.content.timestamp < now - TIMESTAMP_SKEW || env.content.timestamp > now + TIMESTAMP_SKEW {
        return Some(OutsideWindow);
      }
      if env.content.nonce == [] {
        return Some(MissingNonce);
      }
      if |env.content.nonce| < 16 || |env.content.nonce| > 64 {
        return Some(BadNonceLength);
      }
      if env.content.nonce in nonces {
        return Some(DuplicateNonce);
      }
      nonces := nonces[env.content.nonce := now];
      if env.signature.NoSignature? {
        return Some(MissingSignature);
      }
      if sender.key == "" {
        return Some(UnknownSender);
      }
      if !sender.parses {
        return Some(UnreadableKey);
      }
      if env.signature != Signed(sender.key, env.content) {
        return Some(BadSignature);
      }
      return None;
    }

    method CleanExpiredNonces(now: int)
      modifies this
      ensures nonces == D.Swept(old(nonces), now - NONCE_WINDOW)
    {
      nonces := D.Forget(nonces, now - NONCE_WINDOW);
    }
  }

  // ---- Runs ------------------------------------------------------------------------------

  datatype Action = Validate(at: int, env: Envelope, sender: Sender) | Clean(at: int)

  function Next(nonces: map<Bytes, int>, act: Action): map<Bytes, int> {
    match act
    case Validate(at, env, _) => Recorded(nonces, env.content, at)
    case Clean(at) => D.Swept(nonces, at - NONCE_WINDOW)
  }

  /** The nonce table after a run. */
  function After(acts: seq<Action>): map<Bytes, int>
    decreases |acts|
  {
    if acts == [] then map[] else Next(After(acts[..|acts| - 1]), acts[|acts| - 1])
  }

  ghost predicate Timely(acts: seq<Action>) {
    forall i, j :: 0 <= i < j < |acts| ==> acts[i].at <= acts[j].at
  }

  predicate Accepts(acts: seq<Action>, i: nat)
    requires i < |acts|
  {
    acts[i].Validate? && Verdict(After(acts[..i]), acts[i].env, acts[i].sender, acts[i].at).None?
  }

  function StepOf(act: Action): D.Step<Bytes> {
    match act
    case Validate(at, env, _) =>
      if Malformed(env.content, at).Some? then D.Idle(at) else D.Offer(at, env.content.nonce)
    case Clean(at) => D.Sweep(at)
  }

  function StepsOf(acts: seq<Action>): (steps: seq<D.Step<Bytes>>)
    ensures |steps| == |acts| && forall i :: 0 <= i < |acts| ==> steps[i] == StepOf(acts[i])
  {
    seq(|acts|, i requires 0 <= i < |acts| => StepOf(acts[i]))
  }

  /** The validator's table is a deduplication table. */
  lemma {:induction false} AfterIsDeduplication(acts: seq<Action>)
    ensures After(acts) == D.After(StepsOf(acts), NONCE_WINDOW)
    decreases |acts|
  {
    if acts != [] {
      AfterIsDeduplication(acts[..|acts| - 1]);
      assert StepsOf(acts)[..|acts| - 1] == StepsOf(acts[..|acts| - 1]);
    }
  }

  lemma AcceptedMeansAdmitted(acts: seq<Action>, i: nat)
    requires i < |acts| && Accepts(acts, i)
    ensures D.Admits(StepsOf(acts), i, NONCE_WINDOW)
    ensures var c := acts[i].env.content;
            acts[i].at - TIMESTAMP_SKEW <= c.timestamp <= acts[i].at + TIMESTAMP_SKEW
  {
    AfterIsDeduplication(acts[..i]);
    assert StepsOf(acts)[..i] == StepsOf(acts[..i]);
  }

  // ---- Theorems --------------------------------------------------------------------------

  /** In every run of validations and sweeps, no two accepted envelopes share both nonce and
      timestamp. */
  lemma NoReplay(acts: seq<Action>, i: nat, j: nat)
    requires Timely(acts) && i < j < |acts| && Accepts(acts, i) && Accepts(acts, j)
    ensures acts[i].env.content.nonce != acts[j].env.content.nonce
         || acts[i].env.content.timestamp != acts[j].env.content.timestamp
  {
    AcceptedMeansAdmitted(acts, i);
    AcceptedMeansAdmitted(acts, j);
    var c := acts[i].env.content;
    if c.nonce == acts[j].env.content.nonce && c.timestamp == acts[j].env.content.timestamp {
      D.StampAdmittedOnce(StepsOf(acts), i, j, NONCE_WINDOW, TIMESTAMP_SKEW, c.timestamp);
    }
  }

  /** What is accepted was signed, as it is, by the sender; and nothing signed is accepted twice,
      whatever key it is presented under. */
  lemma EachSigningAcceptedOnce(acts: seq<Action>, i: nat, j: nat)
    requires Timely(acts) && i < j < |acts| && Accepts(acts, i) && Accepts(acts, j)
    ensures acts[i].env.signature == Signed(acts[i].sender.key, acts[i].env.content)
    ensures acts[i].env.signature != acts[j].env.signature
  {
    NoReplay(acts, i, j);
  }

  /** At most a megabyte, dated within two minutes of now, with a nonce of 16 to 64 bytes. */
  predicate WellFormed(c: Content, now: int) {
    |c.payload| <= 1024 * 1024 && now - 2 * MINUTE <= c.timestamp <= now + 2 * MINUTE && 16 <= |c.nonce| <= 64
  }

  /** The i-th action brings the nonce in a well-formed envelope, and no sweep up to the j-th was more
      than five minutes later. */
  ghost predicate NonceHeldSince(acts: seq<Action>, nonce: Bytes, i: nat, j: nat) {
    && i < j <= |acts| && acts[i].Validate? && acts[i].env.content.nonce == nonce
    && WellFormed(acts[i].env.content, acts[i].at) && nonce !in After(acts[..i])
    && forall k :: i < k < j && acts[k].Clean? ==> acts[i].at >= acts[k].at - 5 * MINUTE
  }

  lemma NonceHeldSinceIsHeld(acts: seq<Action>, nonce: Bytes, i: nat, j: nat)
    requires j <= |acts|
    ensures NonceHeldSince(acts, nonce, i, j) <==> D.HeldSince(StepsOf(acts[..j]), nonce, i, NONCE_WINDOW)
  {
    if i < j {
      AfterIsDeduplication(acts[..i]);
      assert StepsOf(acts[..j])[..i] == StepsOf(acts[..i]);
      assert forall k :: 0 <= k < j ==> StepsOf(acts[..j])[k] == StepOf(acts[k]);
    }
  }

  /** The nonces held after any part of a run, told by its actions. */
  lemma NonceHeldExactly(acts: seq<Action>, nonce: Bytes, j: nat)
    requires j <= |acts|
    ensures nonce in After(acts[..j]) <==> exists i :: NonceHeldSince(acts, nonce, i, j)
  {
    AfterIsDeduplication(acts[..j]);
    D.HeldExactly(StepsOf(acts[..j]), nonce, NONCE_WINDOW);
    if i :| NonceHeldSince(acts, nonce, i, j) {
      NonceHeldSinceIsHeld(acts, nonce, i, j);
    }
    if i :| D.HeldSince(StepsOf(acts[..j]), nonce, i, NONCE_WINDOW) {
      NonceHeldSinceIsHeld(acts, nonce, i, j);
    }
  }

  /** What is accepted: in every run, exactly the well-formed envelopes that their sender, whose key is
      known and readable, has signed as they are, and whose nonce is not held. */
  lemma AcceptedExactly(acts: seq<Action>, j: nat)
    requires j < |acts| && acts[j].Validate?
    ensures var env, sender := acts[j].env, acts[j].sender;
            Accepts(acts, j)
            <==> && WellFormed(env.content, acts[j].at)
                 && sender.key != "" && sender.parses && env.signature == Signed(sender.key, env.content)
                 && !(exists i :: NonceHeldSince(acts, env.content.nonce, i, j))
  {
    NonceHeldExactly(acts, acts[j].env.content.nonce, j);
  }

  /** An envelope is refused as a duplicate only if its nonce was recorded by an earlier
      well-formed envelope, accepted or not. */
  lemma DuplicatesHaveACause(acts: seq<Action>, j: nat) returns (i: nat)
    requires j < |acts| && acts[j].Validate?
    requires Verdict(After(acts[..j]), acts[j].env, acts[j].sender, acts[j].at) == Some(DuplicateNonce)
    ensures i < j && acts[i].Validate? && acts[i].env.content.nonce == acts[j].env.content.nonce
    ensures Malformed(acts[i].env.content, acts[i].at).None?
    ensures acts[i].env.content.nonce !in After(acts[..i])
  {
    AfterIsDeduplication(acts[..j]);
    i := D.HeldWasAdmitted(StepsOf(acts[..j]), acts[j].env.content.nonce, NONCE_WINDOW);
    AfterIsDeduplication(acts[..i]);
    assert StepsOf(acts[..j])[..i] == StepsOf(acts[..i]);
  }

  /** Conversely, a recorded nonce is refused for five minutes, whatever the envelope around it. */
  lemma NonceHeldFiveMinutes(acts: seq<Action>, i: nat, j: nat)
    requires Timely(acts) && i < j < |acts| && acts[i].Validate? && acts[j].Validate?
    requires acts[i].env.content.nonce == acts[j].env.content.nonce
    requires Malformed(acts[i].env.content, acts[i].at).None? && Malformed(acts[j].env.content, acts[j].at).None?
    requires acts[i].env.content.nonce !in After(acts[..i]) && acts[j].at <= acts[i].at + NONCE_WINDOW
    ensures Verdict(After(acts[..j]), acts[j].env, acts[j].sender, acts[j].at) == Some(DuplicateNonce)
  {
    AfterIsDeduplication(acts[..i]);
    AfterIsDeduplication(acts[..j]);
    assert StepsOf(acts)[..i] == StepsOf(acts[..i]);
    assert StepsOf(acts)[..j] == StepsOf(acts[..j]);
    if acts[j].env.content.nonce !in After(acts[..j]) {
      D.AdmittedApart(StepsOf(acts), i, j, NONCE_WINDOW);
    }
  }
}
