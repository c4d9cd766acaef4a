/**
 The broker as it runs: an object whose maps and sets the handlers update in place. Every handler is
 proved to do exactly what the state machine's step of the same name does.
 */
module BrokerHost {
  import opened Common
  import B = Broker
  import opened Broker
  import BrokerRequests
  import BrokerReplies

  class RequestBroker {
    const limits: Limits
    // the transport, as the broker sees it
    var generation: nat
    var open: bool
    // maps and sets in insertion order
    var pending: seq<PendingRequest>
    var server: map<RequestId, ServerEntry>
    var retired: seq<nat>
    var completed: seq<nat>
    var nextId: nat
    var closed: bool
    // promises settled and callbacks made
    var settled: seq<Settlement>
    var refused: seq<Failure>
    var issues: seq<Issue>
    // continuations of responses that are being sent, and the identity of the next entry object
    var replies: seq<Reply>
    var nextToken: nat
    ghost var sent: map<nat, Sent>
    ghost var retirements: seq<nat>
    ghost var answered: set<nat>
    ghost var awaiting: set<nat>

    ghost function Now(): State
      reads this
    {
      State(generation, open, pending, server, retired, completed, nextId, closed, settled, refused, issues,
            sent, retirements, answered, replies, awaiting, nextToken)
    }

    /** The account of requests and the account of responses are both in order. */
    ghost predicate Valid()
      reads this
    {
      ValidLimits(limits) && BrokerRequests.Sound(Now(), limits) && BrokerReplies.Orderly(Now())
    }

    /** What a handler owes when its event can happen. */
    static lemma Keeps(s: State, l: Limits, e: Event)
      requires ValidLimits(l) && BrokerRequests.Sound(s, l) && BrokerReplies.Orderly(s) && Possible(s, e)
      ensures BrokerRequests.Sound(Next(s, l, e), l) && BrokerReplies.Orderly(Next(s, l, e))
    {
      hide *;
      BrokerRequests.NextKeeps(s, l, e);
      BrokerReplies.NextKeepsOrder(s, l, e);
    }

    constructor (l: Limits)
      ensures Now() == INITIAL && limits == l
      ensures ValidLimits(l) ==> Valid()
    {
      limits := l;
      generation, open, pending, server, retired, completed, nextId, closed := 0, false, [], map[], [], [], 1, false;
      settled, refused, issues, replies, nextToken := [], [], [], [], 0;
      sent, retirements, answered, awaiting := map[], [], {}, {};
    }

    // -------------------------------------------------------------- remembering ids

    static method Remember(s: seq<nat>, id: nat, limit: nat) returns (r: seq<nat>)
      ensures r == B.Remember(s, id, limit)
    {
      r := if id in s then s else s + [id];
      ghost var grown := r;
      while |r| > limit
        invariant |r| <= |grown| && r == grown[|grown| - |r|..]
        invariant |grown| > limit ==> |r| >= limit
        invariant |grown| <= limit ==> r == grown
      {
        r := r[1..];
      }
    }

    method RaiseFatal()
      modifies `issues
      ensures Now() == B.RaiseFatal(old(Now()))
    {
      issues := issues + [Fatal];
    }

    /** Takes a request out of the map, if it is still there. */
    method TakePending(id: nat) returns (p: Option<PendingRequest>)
      modifies `pending
      ensures p == FindRequest(old(pending), id)
      ensures pending == if p.Some? then WithoutRequest(old(pending), id) else old(pending)
    {
      p := FindRequest(pending, id);
      if p.Some? { pending := WithoutRequest(pending, id); }
    }

    /**
     Gives a request up: nobody can settle it again, its promise is rejected once, and its id is remembered as
     the latest of the retired ones. Every other request stays as it is, and an id that is not pending changes
     nothing.
     */
    method Retire(id: nat, failure: Failure)
      modifies this
      ensures Now() == B.Retire(old(Now()), limits, id, failure)
      ensures GivenUp(old(pending), pending, id)
      ensures !IsPending(old(pending), id) ==> Now() == old(Now())
      ensures IsPending(old(pending), id) ==>
                && settled == old(settled) + [Settlement(id, Rejected(failure))]
                && retirements == old(retirements) + [id]
                && (old(Valid()) ==> retired != [] && retired[|retired| - 1] == id)
      ensures server == old(server) && completed == old(completed) && sent == old(sent) && nextId == old(nextId)
    {
      RetireEffect(Now(), limits, id, failure);
      hide BrokerRequests.Sound, BrokerReplies.Orderly, IsPending, GivenUp, FindRequest, WithoutRequest, B.Remember;
      var p := TakePending(id);
      if p.None? { return; }
      retired := Remember(retired, id, Memory(limits));
      settled := settled + [Settlement(id, Rejected(failure))];
      retirements := retirements + [id];
    }

    // -------------------------------------------------------------- requests

    method Refuse(failure: Failure)
      modifies `refused
      ensures Now() == B.Refuse(old(Now()), failure)
    {
      refused := refused + [failure];
    }

    /** The checks before an id is taken, in order. */
    method WhyRefuse(c: Call) returns (f: Option<Failure>)
      ensures f == Refusal(Now(), limits, c)
    {
      if !c.valid { return Some(Failure(ProtocolViolation, NotSent, true)); }
      if closed { return Some(Failure(BrokerClosed, NotSent, true)); }
      if !open { return Some(Failure(TransportNotOpen, NotSent, true)); }
      if |pending| >= limits.maxInFlight { return Some(Failure(BrokerOverloaded, NotSent, true)); }
      if c.aborted { return Some(Failure(RequestAborted, NotSent, true)); }
      if !c.timeoutValid { return Some(Failure(ProtocolViolation, NotSent, true)); }
      if nextId > MAX_SAFE_INTEGER { return Some(Failure(BrokerClosed, NotSent, false)); }
      f := None;
    }

    method Request(c: Call)
      modifies this
      ensures Now() == B.Request(old(Now()), limits, c)
      ensures old(Valid() && Possible(Now(), CallRequest(c))) ==> Valid()
    {
      hide BrokerRequests.Sound, BrokerReplies.Orderly, Possible;
      if Valid() && Possible(Now(), CallRequest(c)) { Keeps(Now(), limits, CallRequest(c)); }
      hide B.Retire;
      var refusal := WhyRefuse(c);
      if refusal.Some? {
        Refuse(refusal.value);
        return;
      }
      var id := nextId;
      nextId := nextId + 1;
      if c.encodeError.Some? {
        Refuse(c.encodeError.value);
        return;
      }
      pending := pending + [PendingRequest(id, c.operation.mutation, generation)];
      sent := sent[id := Sent(c.operation, generation, c.leaves)];
      if c.start.Thrown? { Retire(id, SendFailure(c.operation.mutation, c.start.error)); }
    }

    method SendRejected(id: nat, error: SendError)
      modifies this
      ensures Now() == B.SendRejected(old(Now()), limits, id, error)
      ensures old(Valid() && Possible(Now(), SendFails(id, error))) ==> Valid()
    {
      hide BrokerRequests.Sound, BrokerReplies.Orderly, Possible;
      if Valid() && Possible(Now(), SendFails(id, error)) { Keeps(Now(), limits, SendFails(id, error)); }
      hide B.Retire;
      var p := FindRequest(pending, id);
      if p.Some? { Retire(id, SendFailure(p.value.mutation, error)); }
    }

    method Cancel(id: nat, code: FailureCode)
      modifies this
      ensures Now() == B.Cancel(old(Now()), limits, id, code)
      ensures old(Valid() && Possible(Now(), Cancelled(id, code))) ==> Valid()
    {
      hide BrokerRequests.Sound, BrokerReplies.Orderly, Possible;
      if Valid() && Possible(Now(), Cancelled(id, code)) { Keeps(Now(), limits, Cancelled(id, code)); }
      hide B.Retire;
      var p := FindRequest(pending, id);
      if p.Some? { Retire(id, Failure(code, Unknown, !p.value.mutation)); }
    }

    /** Walks over the requests that were pending when the connection went. */
    method FailPending()
      modifies this
      ensures Now() == B.FailPending(old(Now()), limits)
      ensures pending == []
    {
      hide B.Retire;
      var snapshot := pending;
      var i := 0;
      while i < |snapshot|
        invariant i <= |snapshot|
        invariant FailEach(Now(), limits, snapshot[i..]) == B.FailPending(old(Now()), limits)
      {
        var p := snapshot[i];
        assert snapshot[i..][1..] == snapshot[i + 1..];
        Retire(p.id, Failure(if p.mutation then UnknownOutcome else TransportClosed, Unknown, !p.mutation));
        i := i + 1;
      }
    }

    method TransportClose()
      modifies this
      ensures Now() == B.TransportClose(old(Now()), limits)
      ensures !old(closed) ==> pending == [] && server == map[]
      ensures old(Valid() && Possible(Now(), TransportCloses)) ==> Valid()
    {
      hide BrokerRequests.Sound, BrokerReplies.Orderly, Possible;
      if Valid() && Possible(Now(), TransportCloses) { Keeps(Now(), limits, TransportCloses); }
      hide B.FailPending;
      if closed { return; }
      FailPending();
      server := map[];
    }

    method Close()
      modifies this
      ensures Now() == B.Close(old(Now()), limits)
      ensures closed && (!old(closed) ==> pending == [] && server == map[])
      ensures old(Valid() && Possible(Now(), BrokerCloses)) ==> Valid()
    {
      hide BrokerRequests.Sound, BrokerReplies.Orderly, Possible;
      if Valid() && Possible(Now(), BrokerCloses) { Keeps(Now(), limits, BrokerCloses); }
      hide B.FailPending;
      if closed { return; }
      closed := true;
      FailPending();
      server := map[];
    }

    // -------------------------------------------------------------- frames

    /** A response that comes after its request was given up. */
    method TakeLate(id: nat)
      modifies `retired, `answered, `issues
      ensures Now() == B.TakeLate(old(Now()), id)
    {
      hide Without;
      retired := Without(retired, id);
      answered := answered + {id};
      issues := issues + [LateResponse];
    }

    /** A response that is in time settles its request. */
    method Complete(id: nat, verdict: Verdict)
      modifies this
      ensures Now() == B.Complete(old(Now()), limits, id, verdict)
    {
      hide FindRequest, WithoutRequest, B.Remember;
      var p := TakePending(id);
      if p.None? { return; }
      completed := Remember(completed, id, Memory(limits));
      answered := answered + {id};
      settled := settled + [Settlement(id, verdict)];
    }

    method ReceiveResponse(id: RequestId, error: bool, observerFails: bool, frameGeneration: nat)
      modifies this
      ensures Now() == B.ReceiveResponse(old(Now()), limits, id, error, observerFails, frameGeneration)
    {
      hide FindRequest, B.Complete, B.RaiseFatal, B.TakeLate;
      if id.Textual? || id.value < 0 {
        RaiseFatal();
        return;
      }
      var n: nat := id.value;
      var found := FindRequest(pending, n);
      if found.None? {
        if n in retired { TakeLate(n); } else { RaiseFatal(); }
        return;
      }
      if found.value.generation != frameGeneration || observerFails {
        RaiseFatal();
        return;
      }
      Complete(n, if error then RejectedByFrame(Failure(RemoteError, RemoteRejected, !found.value.mutation), frameGeneration)
                  else Resolved(frameGeneration));
    }

    method ReceiveNotification(known: bool, consumerFails: bool)
      modifies this
      ensures Now() == B.ReceiveNotification(old(Now()), known, consumerFails)
    {
      if !known { issues := issues + [UnknownNotification]; }
      if consumerFails { RaiseFatal(); }
    }

    method TurnDown(id: RequestId, frameGeneration: nat, leaves: bool)
      modifies this
      ensures Now() == B.TurnDown(old(Now()), id, frameGeneration, leaves)
    {
      issues := issues + [UnsupportedServerRequest];
      replies := replies + [Reply(id, nextToken, frameGeneration, leaves)];
      nextToken := nextToken + 1;
    }

    method ReceiveServerRequest(f: Frame, frameGeneration: nat)
      requires f.ServerRequest?
      modifies this
      ensures Now() == B.ReceiveServerRequest(old(Now()), limits, f, frameGeneration)
    {
      hide B.TurnDown;
      if f.observerFails {
        RaiseFatal();
      } else if !f.supported {
        TurnDown(f.serverId, frameGeneration, f.leaves);
      } else if f.serverId in server {
        RaiseFatal();
      } else if |server| >= limits.maxServerRequests {
        TurnDown(f.serverId, frameGeneration, f.leaves);
      } else {
        server := server[f.serverId := ServerEntry(nextToken, frameGeneration, false)];
        nextToken := nextToken + 1;
        if f.consumerFails {
          server := server - {f.serverId};
          RaiseFatal();
        }
      }
    }

    method ReceiveMessage(f: Frame, frameGeneration: nat)
      modifies this
      ensures Now() == B.ReceiveMessage(old(Now()), limits, f, frameGeneration)
      ensures old(Valid() && Possible(Now(), Arrives(f, frameGeneration))) ==> Valid()
    {
      hide BrokerRequests.Sound, BrokerReplies.Orderly, Possible;
      if Valid() && Possible(Now(), Arrives(f, frameGeneration)) { Keeps(Now(), limits, Arrives(f, frameGeneration)); }
      hide B.ReceiveResponse, B.ReceiveNotification, B.ReceiveServerRequest;
      if closed { return; }
      if frameGeneration != generation {
        RaiseFatal();
        return;
      }
      match f {
        case Malformed => RaiseFatal();
        case Response(id, error, observerFails) => ReceiveResponse(id, error, observerFails, frameGeneration);
        case Notification(known, consumerFails) => ReceiveNotification(known, consumerFails);
        case ServerRequest(_, _, _, _, _) => ReceiveServerRequest(f, frameGeneration);
      }
    }

    // -------------------------------------------------------------- responses to server requests

    /** Marks the entry, drops one of a closed generation, or refuses; `ok` when a response may go out. */
    method Claim(id: RequestId) returns (ok: bool)
      modifies `server
      ensures ok == Claimable(old(Now()), id)
      ensures Now() == B.Claim(old(Now()), id)
    {
      if id !in server { return false; }
      var entry := server[id];
      if entry.generation != generation || !open {
        server := server - {id};
        return false;
      }
      if entry.responding {
        assert server[id := entry] == server;
        return false;
      }
      server := server[id := entry.(responding := true)];
      ok := true;
    }

    method StartReply(id: RequestId, optionsValid: bool, start: SendStart, leaves: bool)
      modifies this
      ensures Now() == B.StartReply(old(Now()), id, optionsValid, start, leaves)
      ensures old(Valid() && Possible(Now(), Reject(id, optionsValid, start, leaves))) ==> Valid()
    {
      hide BrokerRequests.Sound, BrokerReplies.Orderly, Possible;
      if Valid() && Possible(Now(), Reject(id, optionsValid, start, leaves)) { Keeps(Now(), limits, Reject(id, optionsValid, start, leaves)); }
      hide B.Claim, B.FinishReply;
      if !optionsValid { return; }
      ghost var before := Now();
      var ok := Claim(id);
      if !ok { return; }
      ClaimedEntry(before, id);
      var k := |replies|;
      replies := replies + [Reply(id, server[id].token, server[id].generation, leaves)];
      awaiting := awaiting + {k};
      if start.Thrown? { FinishReply(k, Some(start.error)); }
    }

    /** The continuation of a send: compares the entry by identity before it touches it. */
    method FinishReply(k: nat, error: Option<SendError>)
      requires k < |replies|
      modifies this
      ensures Now() == B.FinishReply(old(Now()), k, error)
      ensures old(Valid() && Possible(Now(), ReplyEnds(k, error))) ==> Valid()
    {
      hide BrokerRequests.Sound, BrokerReplies.Orderly, Possible;
      if Valid() && Possible(Now(), ReplyEnds(k, error)) { Keeps(Now(), limits, ReplyEnds(k, error)); }
      var r := replies[k];
      awaiting := awaiting - {k};
      if r.id !in server || server[r.id].token != r.token { return; }
      if error.Some? && ReplyFailure(error.value).dispatch == NotSent && r.generation == generation && open {
        server := server[r.id := server[r.id].(responding := false)];
      } else {
        server := server - {r.id};
      }
    }
  }

  predicate IsPending(pending: seq<PendingRequest>, id: nat) { exists p | p in pending :: p.id == id }

  /** The request is out of the map, and every other one is still in it. */
  predicate GivenUp(before: seq<PendingRequest>, after: seq<PendingRequest>, id: nat) {
    && !IsPending(after, id)
    && (forall p | p in after :: p in before)
    && (forall p | p in before && p.id != id :: p in after)
  }

  lemma RetireEffect(s: State, l: Limits, id: nat, failure: Failure)
    ensures var v := B.Retire(s, l, id, failure);
            && GivenUp(s.pending, v.pending, id)
            && (IsPending(s.pending, id) <==> FindRequest(s.pending, id).Some?)
            && (IsPending(s.pending, id) && ValidLimits(l) && BrokerRequests.Sound(s, l) ==>
                  v.retired != [] && v.retired[|v.retired| - 1] == id)
  {
    hide BrokerRequests.Sound, IsPending, GivenUp, FindRequest, WithoutRequest, B.Remember;
    FoundIsPending(s.pending, id);
    WithoutGivesUp(s.pending, id);
    if IsPending(s.pending, id) && ValidLimits(l) && BrokerRequests.Sound(s, l) {
      PendingIsNotRetired(s, l, FindRequest(s.pending, id).value);
      RememberedLast(s.retired, id, Memory(l));
    }
  }

  lemma FoundIsPending(pending: seq<PendingRequest>, id: nat)
    ensures IsPending(pending, id) <==> FindRequest(pending, id).Some?
  {
    hide FindRequest;
  }

  lemma WithoutGivesUp(pending: seq<PendingRequest>, id: nat)
    ensures GivenUp(pending, WithoutRequest(pending, id), id)
    ensures !IsPending(pending, id) ==> GivenUp(pending, pending, id)
  {
    hide WithoutRequest;
  }

  lemma PendingIsNotRetired(s: State, l: Limits, p: PendingRequest)
    requires BrokerRequests.Sound(s, l) && p in s.pending
    ensures p.id !in s.retired
  {
    assert p.id in BrokerRequests.PendingIds(s.pending);
  }

  lemma RememberedLast(s: seq<nat>, id: nat, limit: nat)
    requires limit > 0 && id !in s
    ensures var r := B.Remember(s, id, limit); r != [] && r[|r| - 1] == id
  {
  }

  lemma ClaimedEntry(s: State, id: RequestId)
    requires Claimable(s, id)
    ensures var v := B.Claim(s, id); id in v.server && v.server[id].token == s.server[id].token && v.server[id].generation == s.server[id].generation
  {
  }
}
