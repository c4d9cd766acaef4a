/** What callers and the server can rely on: mutations run at most once, and old ids are remembered exactly. */
module BrokerGuarantees {
  import opened Common
  import opened Broker
  import opened BrokerRequests

  /** A step issues at most one request, under a new id, and otherwise only settles. */
  lemma StepGrows(s: State, l: Limits, e: Event)
    requires Sound(s, l) && Possible(s, e)
    ensures var v := Next(s, l, e);
            && (v.sent == s.sent
                || (e.CallRequest? && s.nextId !in s.sent && v.sent == s.sent[s.nextId := Sent(e.call.operation, s.generation, e.call.leaves)]))
            && s.settled <= v.settled && s.retirements <= v.retirements && s.answered <= v.answered
  {
    hide Retire, FailPending, ReceiveMessage, SendRejected, Cancel, StartReply, FinishReply, RaiseFatal, Pendings, Sets, Verdicts, Remembers,
      TransportClose, Close, Refusal;
  }

  // ---------------------------------------------------------------- mutations run at most once

  predicate Retryable(v: Verdict) { !v.Resolved? && v.failure.retrySafe }

  /** Every earlier request for the operation has ended with an error that is safe to retry. */
  predicate MayRepeat(s: State, o: Operation) {
    forall id | id in s.sent && s.sent[id].operation == o :: exists x | x in s.settled :: x.id == id && Retryable(x.verdict)
  }

  /** A caller that sends a mutation again only when it was told that it may. */
  predicate Careful(s: State, e: Event) { e.CallRequest? && e.call.operation.mutation ==> MayRepeat(s, e.call.operation) }

  predicate CarefulRun(s: State, l: Limits, events: seq<Event>)
    requires PossibleRun(s, l, events)
    decreases |events|
  {
    hide Next;
    events != [] ==> Careful(s, events[0]) && CarefulRun(Next(s, l, events[0]), l, events[1..])
  }

  /** No two frames for the same mutation get out, so the server runs it at most once. */
  predicate AtMostOnce(sent: map<nat, Sent>) {
    forall i, j | i in sent && j in sent && i != j && sent[i].operation == sent[j].operation && sent[i].operation.mutation ::
      !(sent[i].leaves && sent[j].leaves)
  }

  lemma RetryableNeverLeft(s: State, l: Limits, o: Operation)
    requires Sound(s, l) && o.mutation && MayRepeat(s, o)
    ensures forall id | id in s.sent && s.sent[id].operation == o :: !s.sent[id].leaves
  {
    forall id | id in s.sent && s.sent[id].operation == o ensures !s.sent[id].leaves {
      var x :| x in s.settled && x.id == id && Retryable(x.verdict);
      assert Fair(x, s.sent);
    }
  }

  lemma StepAtMostOnce(s: State, l: Limits, e: Event)
    requires Sound(s, l) && Possible(s, e) && Careful(s, e) && AtMostOnce(s.sent)
    ensures AtMostOnce(Next(s, l, e).sent)
  {
    StepGrows(s, l, e);
    if e.CallRequest? && e.call.operation.mutation { RetryableNeverLeft(s, l, e.call.operation); }
    hide Next, Sound, Possible, MayRepeat;
  }

  /**
   If callers repeat a mutation only after an error marked safe to retry, then in every run, whatever
   times out, is aborted, fails to send, disconnects or is answered late, at most one frame of each
   mutation gets out.
   */
  lemma {:induction false} MutationsRunAtMostOnce(s: State, l: Limits, events: seq<Event>)
    requires ValidLimits(l) && Sound(s, l) && AtMostOnce(s.sent)
    requires PossibleRun(s, l, events) && CarefulRun(s, l, events)
    ensures AtMostOnce(Run(s, l, events).sent)
    decreases |events|
  {
    hide Sound, Next, Possible, AtMostOnce, Careful;
    if events != [] {
      StepAtMostOnce(s, l, events[0]);
      NextKeeps(s, l, events[0]);
      MutationsRunAtMostOnce(Next(s, l, events[0]), l, events[1..]);
    }
  }

  // ---------------------------------------------------------------- a closed transport

  predicate Reopens(e: Event) { e.TransportMoves? && e.nowOpen }

  /** A call on a closed transport is told so before a frame is made; a response is not begun. */
  lemma ClosedTransportRefuses(s: State, l: Limits, e: Event)
    requires !s.open && Possible(s, e) && !Reopens(e)
    ensures var v := Next(s, l, e);
            && !v.open && v.sent == s.sent && v.awaiting <= s.awaiting
            && (e.CallRequest? ==>
                  |v.refused| == |s.refused| + 1 && v.refused[|s.refused|].dispatch == NotSent && v.pending == s.pending)
            && (e.Reject? ==> v.replies == s.replies)
  {
    hide FindRequest, WithoutRequest, Remember, Without, Retire, FailEach;
    if e.Arrives? || e.TransportCloses? || e.BrokerCloses? || e.SendFails? || e.Cancelled? { SettlingStays(s, l, e); }
  }

  lemma {:induction false} FailEachStays(s: State, l: Limits, requests: seq<PendingRequest>)
    ensures FailEach(s, l, requests).open == s.open && FailEach(s, l, requests).awaiting == s.awaiting
    decreases |requests|
  {
    hide FindRequest, WithoutRequest, Remember;
    if requests != [] {
      var p := requests[0];
      var v := Retire(s, l, p.id, Failure(if p.mutation then UnknownOutcome else TransportClosed, Unknown, !p.mutation));
      FailEachStays(v, l, requests[1..]);
    }
  }

  /** Frames, and the end of a connection, only settle what is there. */
  lemma SettlingStays(s: State, l: Limits, e: Event)
    requires Possible(s, e) && (e.Arrives? || e.TransportCloses? || e.BrokerCloses? || e.SendFails? || e.Cancelled?)
    ensures Next(s, l, e).open == s.open && Next(s, l, e).awaiting == s.awaiting && Next(s, l, e).sent == s.sent
  {
    hide FindRequest, WithoutRequest, Remember, Without, FailEach;
    FailEachStays(s, l, s.pending);
    FailEachStays(s.(closed := true), l, s.pending);
  }

  /** Until the transport is open again no request and no response leaves, whatever callers and the server do. */
  lemma {:induction false} NothingLeavesWhileClosed(s: State, l: Limits, events: seq<Event>)
    requires !s.open && PossibleRun(s, l, events) && forall i | 0 <= i < |events| :: !Reopens(events[i])
    ensures var v := Run(s, l, events);
            v.sent == s.sent && v.awaiting <= s.awaiting && !v.open
    decreases |events|
  {
    hide Next, Possible;
    if events != [] {
      ClosedTransportRefuses(s, l, events[0]);
      NothingLeavesWhileClosed(Next(s, l, events[0]), l, events[1..]);
    }
  }

  // ---------------------------------------------------------------- the memory of old ids

  lemma {:induction false} RunGrows(s: State, l: Limits, events: seq<Event>)
    requires Sound(s, l) && ValidLimits(l) && PossibleRun(s, l, events)
    ensures var v := Run(s, l, events);
            s.settled <= v.settled && s.retirements <= v.retirements && s.answered <= v.answered
    decreases |events|
  {
    hide Sound, Next, Possible;
    if events != [] {
      StepGrows(s, l, events[0]);
      NextKeeps(s, l, events[0]);
      RunGrows(Next(s, l, events[0]), l, events[1..]);
    }
  }

  /** How many requests were retired after this one. */
  function LaterRetirements(s: State, id: nat): nat
    requires id in s.retirements
  {
    |s.retirements| - 1 - Position(s.retirements, id)
  }

  /** The broker takes the response, and only notes that it was late. */
  predicate OnlyDegraded(s: State, v: State) {
    && v.issues == s.issues + [LateResponse]
    && v.settled == s.settled && v.pending == s.pending && v.server == s.server && v.closed == s.closed
  }

  predicate FatalFor(s: State, v: State) { v == s.(issues := s.issues + [Fatal]) }

  lemma NotPending(s: State, l: Limits, id: nat)
    requires Sound(s, l) && id in SettledIds(s.settled)
    ensures FindRequest(s.pending, id).None?
  {
    FoundIsPending(s.pending, id);
    hide Pendings, Sets, Verdicts, Remembers, FindRequest;
  }

  lemma RetiredIsSettled(s: State, l: Limits, id: nat)
    requires Sound(s, l)
    ensures id in s.retirements ==> id in SettledIds(s.settled)
    ensures id in s.answered ==> id in SettledIds(s.settled) && id !in s.retired
    ensures id in s.retired ==> id in s.retirements && id !in s.answered
  {
  }

  /** The first late response to a request with fewer later retirements than the memory holds is only degraded. */
  lemma LateResponseIsDegraded(s: State, l: Limits, id: nat, error: bool, observerFails: bool)
    requires Sound(s, l) && !s.closed
    requires id in s.retirements && id !in s.answered && LaterRetirements(s, id) < Memory(l)
    ensures OnlyDegraded(s, ReceiveMessage(s, l, Response(Numeric(id), error, observerFails), s.generation))
  {
    RetiredIsSettled(s, l, id);
    NotPending(s, l, id);
    assert id in s.retired by { assert s.retirements[Position(s.retirements, id)] == id; }
    hide Sound, FindRequest;
  }

  function Elements(s: seq<nat>): set<nat> { set x | x in s }

  lemma {:induction false} ElementsSize(s: seq<nat>)
    ensures |Elements(s)| <= |s|
    ensures Distinct(s) ==> |Elements(s)| == |s|
  {
    if s == [] { assert Elements(s) == {}; } else {
      assert Elements(s) == Elements(s[1..]) + {s[0]};
      ElementsSize(s[1..]);
    }
  }

  lemma SameSize(a: set<nat>, b: set<nat>)
    requires a <= b && |b| <= |a|
    ensures a == b
  {
    assert b == a + (b - a);
    assert |b| == |a| + |b - a|;
  }

  /** A memory filled by other ids has no room for this one. */
  lemma NoRoom(last: seq<nat>, retired: seq<nat>, id: nat)
    requires Distinct(last) && |retired| <= |last| && id !in last
    requires forall x | x in last :: x in retired
    ensures id !in retired
  {
    ElementsSize(last);
    ElementsSize(retired);
    assert Elements(last) <= Elements(retired);
    SameSize(Elements(last), Elements(retired));
    assert id in retired ==> id in Elements(retired);
  }

  /** With as many later retirements, none of them answered, the id is forgotten. */
  lemma Forgotten(s: State, l: Limits, id: nat)
    requires Sound(s, l) && id in s.retirements && LaterRetirements(s, id) >= Memory(l)
    requires forall x | x in s.retirements :: x !in s.answered
    ensures id !in s.retired
  {
    var k, log := Memory(l), s.retirements;
    var last := log[|log| - k..];
    assert forall i | 0 <= i < |last| :: last[i] == log[|log| - k + i];
    assert forall j | Position(log, id) < j < |log| :: log[Position(log, id)] != log[j];
    forall x | x in last ensures x in s.retired {
      var i :| 0 <= i < |last| && last[i] == x;
      assert log[|log| - k + i] in s.answered || log[|log| - k + i] in s.retired;
    }
    NoRoom(last, s.retired, id);
  }

  /**
   The memory is exact. While no late response has come, a response to a retired request is merely
   degraded when fewer requests were retired after it than the memory holds, and fatal otherwise.
   */
  lemma MemoryIsExact(s: State, l: Limits, id: nat, error: bool, observerFails: bool)
    requires Sound(s, l) && !s.closed && id in s.retirements
    requires forall x | x in s.retirements :: x !in s.answered
    ensures var v := ReceiveMessage(s, l, Response(Numeric(id), error, observerFails), s.generation);
            if LaterRetirements(s, id) < Memory(l) then OnlyDegraded(s, v) else FatalFor(s, v)
  {
    if LaterRetirements(s, id) < Memory(l) {
      LateResponseIsDegraded(s, l, id, error, observerFails);
    } else {
      Forgotten(s, l, id);
      RetiredIsSettled(s, l, id);
      NotPending(s, l, id);
      hide Sound, FindRequest, LaterRetirements;
    }
  }

  /** Once a response was taken for an id, any later one, after whatever run, is fatal and touches nothing else. */
  lemma SecondResponseIsFatal(s: State, l: Limits, events: seq<Event>, id: nat, error: bool, observerFails: bool)
    requires Sound(s, l) && ValidLimits(l) && PossibleRun(s, l, events) && id in s.answered
    ensures var t := Run(s, l, events);
            !t.closed ==> FatalFor(t, ReceiveMessage(t, l, Response(Numeric(id), error, observerFails), t.generation))
  {
    hide Run, PossibleRun, Sound, FindRequest;
    RunGrows(s, l, events);
    RunKeeps(s, l, events);
    var t := Run(s, l, events);
    RetiredIsSettled(t, l, id);
    NotPending(t, l, id);
  }

  /** The response that is taken is counted: on time or late, the id is answered from then on. */
  lemma TakenResponseIsAnswered(s: State, l: Limits, id: nat, error: bool, generation: nat)
    requires !s.closed && generation == s.generation
    requires var v := ReceiveMessage(s, l, Response(Numeric(id), error, false), generation); v.issues == s.issues || v.issues == s.issues + [LateResponse]
    ensures id in ReceiveMessage(s, l, Response(Numeric(id), error, false), generation).answered
  {
    assert s.issues + [Fatal] != s.issues + [LateResponse] by {
      assert (s.issues + [Fatal])[|s.issues|] == Fatal && (s.issues + [LateResponse])[|s.issues|] == LateResponse;
    }
  }
}
