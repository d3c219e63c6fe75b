/** The client's side of the handshake as a state machine: what one
    `Initialize` message does to the client's initialised flag, its recorded
    user id and the number of times the join waiter has been woken. */
module Handshake {
  import opened Wire

  /** The handshake part of the client: whether it is initialised, the user id
      it recorded, and how often the init semaphore has been released. */
  datatype HandshakeState = HandshakeState(initialized: bool, userId: uint16, releases: nat)

  /** A payload the client accepts: it holds at least an int32, and that int32
      names one of the two players. */
  predicate Accepts(payload: seq<byte>)
  {
    |payload| >= 4 && 0 <= ReadInt(payload) <= 1
  }

  /** The effect of one `Initialize` message with the given payload. */
  function Step(h: HandshakeState, payload: seq<byte>): (r: HandshakeState)
    ensures h.initialized ==> r == h
    ensures !h.initialized ==> (r.initialized <==> Accepts(payload))
    ensures r.initialized && !h.initialized ==> r.userId == ReadInt(payload)
    ensures !r.initialized ==> r.userId == h.userId
    ensures r.releases == h.releases + (if !h.initialized && |payload| >= 4 then 1 else 0)
  {
    if h.initialized then h
    else if |payload| < 4 then h
    else
      var id := ReadInt(payload);
      if id < 0 || id > 1 then h.(initialized := false, releases := h.releases + 1)
      else HandshakeState(true, id, h.releases + 1)
  }

  /** A recorded id always names a player once the client is initialised. */
  ghost predicate Valid(h: HandshakeState)
  {
    h.initialized ==> h.userId <= 1
  }

  lemma StepValid(h: HandshakeState, payload: seq<byte>)
    requires Valid(h)
    ensures Valid(Step(h, payload))
  {
  }

  /** Once a message has initialised the client, every later one is ignored. */
  lemma StepIdempotent(h: HandshakeState, first: seq<byte>, later: seq<byte>)
    requires Step(h, first).initialized
    ensures Step(Step(h, first), later) == Step(h, first)
  {
  }

  /** The effect of a series of `Initialize` messages, in order of arrival. */
  function StepAll(h: HandshakeState, payloads: seq<seq<byte>>): HandshakeState
    decreases payloads
  {
    if payloads == [] then h else StepAll(Step(h, payloads[0]), payloads[1..])
  }

  /** Each message wakes the waiter at most once. */
  lemma {:induction false} StepAllReleases(h: HandshakeState, payloads: seq<seq<byte>>)
    ensures h.releases <= StepAll(h, payloads).releases <= h.releases + |payloads|
    decreases payloads
  {
    if payloads != [] {
      StepAllReleases(Step(h, payloads[0]), payloads[1..]);
    }
  }

  /** An initialised client is never changed by further messages. */
  lemma {:induction false} StepAllInitialized(h: HandshakeState, payloads: seq<seq<byte>>)
    requires h.initialized
    ensures StepAll(h, payloads) == h
    decreases payloads
  {
    if payloads != [] {
      StepAllInitialized(Step(h, payloads[0]), payloads[1..]);
    }
  }

  /** If no message is acceptable the client stays uninitialised and keeps its
      id, whatever else arrives. */
  lemma {:induction false} StepAllNoneAccepted(h: HandshakeState, payloads: seq<seq<byte>>)
    requires !h.initialized
    requires forall i :: 0 <= i < |payloads| ==> !Accepts(payloads[i])
    ensures !StepAll(h, payloads).initialized
    ensures StepAll(h, payloads).userId == h.userId
    decreases payloads
  {
    if payloads != [] {
      StepAllNoneAccepted(Step(h, payloads[0]), payloads[1..]);
    }
  }

  /** The first acceptable message decides the id; rejected messages before it
      and all messages after it leave no trace on the flag or the id. */
  lemma {:induction false} StepAllFirstAccepted(h: HandshakeState, payloads: seq<seq<byte>>, k: nat)
    requires !h.initialized
    requires k < |payloads| && Accepts(payloads[k])
    requires forall i :: 0 <= i < k ==> !Accepts(payloads[i])
    ensures StepAll(h, payloads).initialized
    ensures StepAll(h, payloads).userId == ReadInt(payloads[k])
    decreases payloads
  {
    var h' := Step(h, payloads[0]);
    if k == 0 {
      StepAllInitialized(h', payloads[1..]);
    } else {
      StepAllFirstAccepted(h', payloads[1..], k - 1);
    }
  }
}
