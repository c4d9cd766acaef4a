/** What the broker keeps about requests over every run. */
module BrokerRequests {
  import opened Common
  import opened Broker

  // ---------------------------------------------------------------- the invariant

  function PendingIds(pending: seq<PendingRequest>): set<nat> { set p | p in pending :: p.id }

  function SettledIds(settled: seq<Settlement>): set<nat> { set x | x in settled :: x.id }

  predicate Distinct(s: seq<nat>) { forall i, j | 0 <= i < j < |s| :: s[i] != s[j] }

  predicate Ascending(s: seq<PendingRequest>) {
    s != [] ==> (forall p | p in s[1..] :: s[0].id < p.id) && Ascending(s[1..])
  }

  predicate Pendings(pending: seq<PendingRequest>, sent: map<nat, Sent>, l: Limits) {
    && Ascending(pending)
    && (forall p | p in pending ::
          p.id in sent && sent[p.id].operation.mutation == p.mutation && sent[p.id].generation == p.generation)
    && |pending| <= l.maxInFlight
  }

  /** Every issued request is pending or settled, never both, and settled once; no id is used again. */
  predicate Accounts(pending: set<nat>, settled: seq<Settlement>, issued: set<nat>, nextId: nat) {
    && (forall i, j | 0 <= i < j < |settled| :: settled[i].id != settled[j].id)
    && issued == pending + SettledIds(settled)
    && pending !! SettledIds(settled)
    && nextId >= 1
    && (forall id | id in issued :: 1 <= id < nextId)
  }

  /** Retired and completed ids are settled, no id is both, and an answered id is not retired any more. */
  predicate Sets(retired: seq<nat>, completed: seq<nat>, retirements: seq<nat>, answered: set<nat>, settled: set<nat>) {
    && Distinct(completed) && Distinct(retirements)
    && (forall id | id in retired :: id in retirements && id !in answered)
    && (forall id | id in completed :: id in answered && id !in retirements)
    && (forall id | id in retirements :: id in settled)
    && answered <= settled
  }

  /** What a verdict says about its request. */
  predicate Fair(x: Settlement, sent: map<nat, Sent>) {
    && x.id in sent
    && (x.verdict.Rejected? && x.verdict.failure.retrySafe && sent[x.id].operation.mutation ==> !sent[x.id].leaves)
    && (x.verdict.RejectedByFrame? && x.verdict.failure.retrySafe ==> !sent[x.id].operation.mutation)
    && (!x.verdict.Rejected? ==> x.verdict.frame == sent[x.id].generation)
  }

  predicate Verdicts(settled: seq<Settlement>, sent: map<nat, Sent>) { forall x | x in settled :: Fair(x, sent) }

  function Position(log: seq<nat>, id: nat): (p: nat)
    requires id in log
    ensures p < |log| && log[p] == id && id !in log[..p]
  {
    if log[0] == id then 0 else 1 + Position(log[1..], id)
  }

  predicate InOrder(r: seq<nat>, log: seq<nat>) {
    && (forall id | id in r :: id in log)
    && (r != [] ==> (forall id | id in r[1..] :: id in log && Position(log, r[0]) < Position(log, id)) && InOrder(r[1..], log))
  }

  /** Retired ids stand in the order of their retirement, and the latest ones are all there unless answered. */
  predicate Remembers(retired: seq<nat>, retirements: seq<nat>, answered: set<nat>, limit: nat) {
    && |retired| <= limit
    && InOrder(retired, retirements)
    && (forall p | 0 <= p < |retirements| && |retirements| - limit <= p :: retirements[p] in answered || retirements[p] in retired)
  }

  predicate Sound(s: State, l: Limits) {
    && Pendings(s.pending, s.sent, l)
    && Accounts(PendingIds(s.pending), s.settled, s.sent.Keys, s.nextId)
    && Sets(s.retired, s.completed, s.retirements, s.answered, SettledIds(s.settled))
    && Verdicts(s.settled, s.sent)
    && Remembers(s.retired, s.retirements, s.answered, Memory(l))
  }

  // ---------------------------------------------------------------- an id is issued

  lemma {:induction false} AscendingAppend(s: seq<PendingRequest>, p: PendingRequest)
    requires Ascending(s) && forall q | q in s :: q.id < p.id
    ensures Ascending(s + [p])
  {
    if s != [] {
      AscendingAppend(s[1..], p);
      assert (s + [p])[1..] == s[1..] + [p];
    }
  }

  lemma IssuedKeeps(s: State, l: Limits, operation: Operation, leaves: bool)
    requires Sound(s, l) && |s.pending| < l.maxInFlight
    ensures Sound(Issued(s, operation, leaves), l)
  {
    hide Ascending, Remembers, Sets;
    var v := Issued(s, operation, leaves);
    var p := PendingRequest(s.nextId, operation.mutation, s.generation);
    assert forall q | q in s.pending :: q.id in s.sent && q.id < p.id;
    AscendingAppend(s.pending, p);
    assert PendingIds(v.pending) == PendingIds(s.pending) + {s.nextId} by {
      assert forall q :: q in v.pending <==> q in s.pending || q == p;
    }
    assert s.nextId !in SettledIds(s.settled);
    assert v.sent.Keys == s.sent.Keys + {s.nextId};
    IssuedVerdicts(s.settled, s.sent, v.sent);
  }

  lemma IssuedVerdicts(settled: seq<Settlement>, sent: map<nat, Sent>, more: map<nat, Sent>)
    requires Verdicts(settled, sent) && forall id | id in sent :: id in more && more[id] == sent[id]
    ensures Verdicts(settled, more)
  {
    forall x | x in settled ensures Fair(x, more) { assert Fair(x, sent); }
  }

  // ---------------------------------------------------------------- an id leaves the pending requests

  lemma FoundIsPending(pending: seq<PendingRequest>, id: nat)
    ensures FindRequest(pending, id).Some? <==> id in PendingIds(pending)
  {
  }

  lemma {:induction false} WithoutKeepsOrder(s: seq<PendingRequest>, id: nat)
    requires Ascending(s)
    ensures Ascending(WithoutRequest(s, id))
  {
    if s != [] {
      WithoutKeepsOrder(s[1..], id);
      var t := WithoutRequest(s[1..], id);
      assert ([s[0]] + t)[1..] == t;
    }
  }

  lemma TakenPending(pending: seq<PendingRequest>, sent: map<nat, Sent>, l: Limits, id: nat)
    requires Pendings(pending, sent, l)
    ensures Pendings(WithoutRequest(pending, id), sent, l)
    ensures PendingIds(WithoutRequest(pending, id)) == PendingIds(pending) - {id}
  {
    WithoutKeepsOrder(pending, id);
    hide Ascending;
  }

  lemma SettledOnce(pending: set<nat>, settled: seq<Settlement>, issued: set<nat>, nextId: nat, id: nat, verdict: Verdict)
    requires Accounts(pending, settled, issued, nextId) && id in pending
    ensures SettledIds(settled + [Settlement(id, verdict)]) == SettledIds(settled) + {id}
    ensures Accounts(pending - {id}, settled + [Settlement(id, verdict)], issued, nextId)
  {
    var x := Settlement(id, verdict);
    var more := settled + [x];
    assert forall y :: y in more <==> y in settled || y == x;
    assert SettledIds(more) == SettledIds(settled) + {id};
    forall i, j | 0 <= i < j < |more| ensures more[i].id != more[j].id {
      if j == |settled| { assert settled[i] in settled; assert settled[i].id in SettledIds(settled); }
    }
  }

  lemma AddVerdict(settled: seq<Settlement>, sent: map<nat, Sent>, x: Settlement)
    requires Verdicts(settled, sent) && Fair(x, sent)
    ensures Verdicts(settled + [x], sent)
  {
    hide Fair;
  }

  // ---------------------------------------------------------------- the order of retirements

  lemma {:induction false} PositionKept(log: seq<nat>, id: nat, x: nat)
    requires x in log
    ensures Position(log + [id], x) == Position(log, x)
  {
    if log[0] != x {
      assert (log + [id])[1..] == log[1..] + [id];
      PositionKept(log[1..], id, x);
    }
  }

  lemma {:induction false} PositionLast(log: seq<nat>, id: nat)
    requires id !in log
    ensures Position(log + [id], id) == |log|
  {
    if log != [] {
      assert (log + [id])[1..] == log[1..] + [id];
      PositionLast(log[1..], id);
    }
  }

  lemma {:induction false} InOrderAppend(r: seq<nat>, log: seq<nat>, id: nat)
    requires InOrder(r, log) && id !in log
    ensures InOrder(r + [id], log + [id])
  {
    PositionLast(log, id);
    if r == [] {
      assert [id][1..] == [];
    } else {
      InOrderAppend(r[1..], log, id);
      assert (r + [id])[1..] == r[1..] + [id];
      forall x | x in r ensures x in log && Position(log + [id], x) == Position(log, x) { PositionKept(log, id, x); }
    }
  }

  /** Increasing positions leave room: the first of `k` is at least `k` from the end. */
  lemma {:induction false} RoomBehind(r: seq<nat>, log: seq<nat>)
    requires r != [] && InOrder(r, log)
    ensures Position(log, r[0]) + |r| <= |log|
  {
    if |r| > 1 {
      RoomBehind(r[1..], log);
      assert r[1] in r[1..];
    }
  }

  lemma DistinctAppend(s: seq<nat>, id: nat)
    requires Distinct(s) && id !in s
    ensures Distinct(s + [id])
  {
  }

  lemma DistinctPosition(log: seq<nat>, p: nat)
    requires Distinct(log) && p < |log|
    ensures Position(log, log[p]) == p
  {
  }

  lemma RememberRetired(retired: seq<nat>, retirements: seq<nat>, answered: set<nat>, limit: nat, id: nat)
    requires Remembers(retired, retirements, answered, limit) && limit >= 1
    requires id !in retirements && Distinct(retirements)
    ensures Remembers(Remember(retired, id, limit), retirements + [id], answered, limit)
  {
    var grown, log := retired + [id], retirements + [id];
    assert id !in retired;
    InOrderAppend(retired, retirements, id);
    RoomBehind(grown, log);
    DistinctAppend(retirements, id);
    var r := Remember(retired, id, limit);
    assert r == if |grown| > limit then grown[1..] else grown;
    forall p | 0 <= p < |log| && |log| - limit <= p ensures log[p] in answered || log[p] in r {
      DistinctPosition(log, p);
      assert log[p] in answered || log[p] in grown;
      assert grown == [grown[0]] + grown[1..];
    }
  }

  lemma RememberSets(retired: seq<nat>, completed: seq<nat>, retirements: seq<nat>, answered: set<nat>, settled: set<nat>, limit: nat, id: nat)
    requires Sets(retired, completed, retirements, answered, settled) && id !in settled
    ensures Sets(Remember(retired, id, limit), completed, retirements + [id], answered, settled + {id})
    ensures Sets(retired, Remember(completed, id, limit), retirements, answered + {id}, settled + {id})
  {
    DistinctAppend(retirements, id);
    assert id !in completed && id !in retired;
    DistinctAppend(completed, id);
  }

  lemma RetireKeeps(s: State, l: Limits, id: nat, failure: Failure)
    requires Sound(s, l) && ValidLimits(l)
    requires id in s.sent && failure.retrySafe && s.sent[id].operation.mutation ==> !s.sent[id].leaves
    ensures Sound(Retire(s, l, id, failure), l)
  {
    FoundIsPending(s.pending, id);
    if id in PendingIds(s.pending) {
      TakenPending(s.pending, s.sent, l, id);
      SettledOnce(PendingIds(s.pending), s.settled, s.sent.Keys, s.nextId, id, Rejected(failure));
      RememberSets(s.retired, s.completed, s.retirements, s.answered, SettledIds(s.settled), Memory(l), id);
      RememberRetired(s.retired, s.retirements, s.answered, Memory(l), id);
      AddVerdict(s.settled, s.sent, Settlement(id, Rejected(failure)));
      hide Pendings, Accounts, Sets, Verdicts, Remembers, PendingIds, SettledIds, Remember;
    }
  }

  // ---------------------------------------------------------------- an id is answered

  lemma AnsweredRemembers(retired: seq<nat>, retirements: seq<nat>, answered: set<nat>, limit: nat, id: nat)
    requires Remembers(retired, retirements, answered, limit)
    ensures Remembers(retired, retirements, answered + {id}, limit)
  {
    hide InOrder;
  }

  lemma CompleteKeeps(s: State, l: Limits, id: nat, verdict: Verdict)
    requires Sound(s, l)
    requires id in s.sent ==> Fair(Settlement(id, verdict), s.sent)
    ensures Sound(Complete(s, l, id, verdict), l)
  {
    FoundIsPending(s.pending, id);
    if id in PendingIds(s.pending) {
      TakenPending(s.pending, s.sent, l, id);
      SettledOnce(PendingIds(s.pending), s.settled, s.sent.Keys, s.nextId, id, verdict);
      RememberSets(s.retired, s.completed, s.retirements, s.answered, SettledIds(s.settled), Memory(l), id);
      AnsweredRemembers(s.retired, s.retirements, s.answered, Memory(l), id);
      AddVerdict(s.settled, s.sent, Settlement(id, verdict));
      hide Pendings, Accounts, Sets, Verdicts, Remembers, PendingIds, SettledIds, Remember;
    }
  }

  lemma {:induction false} WithoutInOrder(r: seq<nat>, log: seq<nat>, id: nat)
    requires InOrder(r, log)
    ensures InOrder(Without(r, id), log)
  {
    if r != [] {
      WithoutInOrder(r[1..], log, id);
      var t := Without(r[1..], id);
      assert ([r[0]] + t)[1..] == t;
    }
  }

  lemma TakeLateKeeps(s: State, l: Limits, id: nat)
    requires Sound(s, l) && id in s.retired
    ensures Sound(TakeLate(s, id), l)
  {
    WithoutInOrder(s.retired, s.retirements, id);
    hide Pendings, Accounts, Verdicts, InOrder;
  }

  // ---------------------------------------------------------------- every handler

  lemma SameRequestsKeep(s: State, v: State, l: Limits)
    requires Sound(s, l) && SameRequests(s, v)
    ensures Sound(v, l)
  {
    hide Pendings, Sets, Verdicts, Remembers;
  }

  lemma RequestKeeps(s: State, l: Limits, c: Call)
    requires Sound(s, l) && ValidLimits(l) && Possible(s, CallRequest(c))
    ensures Sound(Request(s, l, c), l)
  {
    hide Sound, Retire, Refusal;
    var v := Request(s, l, c);
    if Refusal(s, l, c).None? && c.encodeError.None? {
      IssuedKeeps(s, l, c.operation, c.leaves);
      if c.start.Thrown? {
        RetireKeeps(Issued(s, c.operation, c.leaves), l, s.nextId, SendFailure(c.operation.mutation, c.start.error));
      }
    } else {
      SameRequestsKeep(s, v, l);
    }
  }

  lemma PendingKind(s: State, l: Limits, id: nat)
    requires Sound(s, l) && FindRequest(s.pending, id).Some?
    ensures id in s.sent && s.sent[id].operation.mutation == FindRequest(s.pending, id).value.mutation
    ensures s.sent[id].generation == FindRequest(s.pending, id).value.generation
  {
  }

  lemma SendRejectedKeeps(s: State, l: Limits, id: nat, error: SendError)
    requires Sound(s, l) && ValidLimits(l) && Possible(s, SendFails(id, error))
    ensures Sound(SendRejected(s, l, id, error), l)
  {
    if FindRequest(s.pending, id).Some? {
      PendingKind(s, l, id);
      hide Sound;
      RetireKeeps(s, l, id, SendFailure(FindRequest(s.pending, id).value.mutation, error));
    }
  }

  lemma CancelKeeps(s: State, l: Limits, id: nat, code: FailureCode)
    requires Sound(s, l) && ValidLimits(l)
    ensures Sound(Cancel(s, l, id, code), l)
  {
    if FindRequest(s.pending, id).Some? {
      PendingKind(s, l, id);
      hide Sound;
      RetireKeeps(s, l, id, Failure(code, Unknown, !FindRequest(s.pending, id).value.mutation));
    }
  }

  lemma {:induction false} FailEachKeeps(s: State, l: Limits, requests: seq<PendingRequest>)
    requires Sound(s, l) && ValidLimits(l)
    requires forall p | p in requests :: p.id in s.sent && s.sent[p.id].operation.mutation == p.mutation
    ensures Sound(FailEach(s, l, requests), l)
    decreases |requests|
  {
    hide Sound;
    if requests != [] {
      var p := requests[0];
      assert p in requests;
      var f := Failure(if p.mutation then UnknownOutcome else TransportClosed, Unknown, !p.mutation);
      RetireKeeps(s, l, p.id, f);
      FailEachKeeps(Retire(s, l, p.id, f), l, requests[1..]);
    }
  }

  lemma FailPendingKeeps(s: State, l: Limits)
    requires Sound(s, l) && ValidLimits(l)
    ensures Sound(FailPending(s, l), l)
  {
    FailEachKeeps(s, l, s.pending);
  }

  lemma ReceiveResponseKeeps(s: State, l: Limits, id: RequestId, error: bool, observerFails: bool, generation: nat)
    requires Sound(s, l) && ValidLimits(l)
    ensures Sound(ReceiveResponse(s, l, id, error, observerFails, generation), l)
  {
    if id.Numeric? && id.value >= 0 {
      if FindRequest(s.pending, id.value).Some? {
        PendingKind(s, l, id.value);
        var p := FindRequest(s.pending, id.value).value;
        if p.generation == generation {
          CompleteKeeps(s, l, id.value, if error then RejectedByFrame(Failure(RemoteError, RemoteRejected, !p.mutation), generation) else Resolved(generation));
        }
      } else if id.value in s.retired {
        TakeLateKeeps(s, l, id.value);
      }
    }
    hide Pendings, Accounts, Sets, Verdicts, Remembers;
  }

  lemma ReceiveMessageKeeps(s: State, l: Limits, f: Frame, generation: nat)
    requires Sound(s, l) && ValidLimits(l)
    ensures Sound(ReceiveMessage(s, l, f, generation), l)
  {
    hide Sound, ReceiveResponse, ReceiveServerRequest, ReceiveNotification;
    if f.Response? { ReceiveResponseKeeps(s, l, f.id, f.error, f.observerFails, generation); }
    var v := ReceiveMessage(s, l, f, generation);
    if SameRequests(s, v) { SameRequestsKeep(s, v, l); }
  }

  /** Every step keeps the request invariant. */
  lemma NextKeeps(s: State, l: Limits, e: Event)
    requires Sound(s, l) && ValidLimits(l) && Possible(s, e)
    ensures Sound(Next(s, l, e), l)
  {
    hide Sound, FailPending, ReceiveMessage, Request, SendRejected, Cancel, StartReply, FinishReply, RaiseFatal;
    match e
    case CallRequest(c) => RequestKeeps(s, l, c);
    case SendFails(id, error) => SendRejectedKeeps(s, l, id, error);
    case Cancelled(id, code) => CancelKeeps(s, l, id, code);
    case Arrives(f, generation) => ReceiveMessageKeeps(s, l, f, generation);
    case TransportCloses => FailPendingKeeps(s, l); SameRequestsKeep(FailPending(s, l), FailPending(s, l).(server := map[]), l);
    case BrokerCloses =>
      var c := s.(closed := true);
      SameRequestsKeep(s, c, l);
      FailPendingKeeps(c, l);
      SameRequestsKeep(FailPending(c, l), FailPending(c, l).(server := map[]), l);
    case _ => SameRequestsKeep(s, Next(s, l, e), l);
  }

  // ---------------------------------------------------------------- runs

  predicate PossibleRun(s: State, l: Limits, events: seq<Event>)
    decreases |events|
  {
    hide Next;
    events != [] ==> Possible(s, events[0]) && PossibleRun(Next(s, l, events[0]), l, events[1..])
  }

  function Run(s: State, l: Limits, events: seq<Event>): State
    requires PossibleRun(s, l, events)
    decreases |events|
  {
    hide Next;
    if events == [] then s else Run(Next(s, l, events[0]), l, events[1..])
  }

  lemma {:induction false} RunKeeps(s: State, l: Limits, events: seq<Event>)
    requires Sound(s, l) && ValidLimits(l) && PossibleRun(s, l, events)
    ensures Sound(Run(s, l, events), l)
    decreases |events|
  {
    hide Sound, Next, Possible;
    if events != [] {
      NextKeeps(s, l, events[0]);
      RunKeeps(Next(s, l, events[0]), l, events[1..]);
    }
  }

  /**
   In every state a run can reach: no id is pending, retired and completed at once in any pair; every
   issued request is pending or settled exactly once; the limit on pending requests holds; and a promise
   that a frame settled was settled by a frame of the generation it was sent in.
   */
  lemma EveryRunIsSound(l: Limits, events: seq<Event>)
    requires ValidLimits(l) && PossibleRun(INITIAL, l, events)
    ensures var s := Run(INITIAL, l, events); var p := PendingIds(s.pending);
            && (forall id | id in p :: id !in s.retired && id !in s.completed)
            && (forall id | id in s.retired :: id !in s.completed)
            && s.sent.Keys == p + SettledIds(s.settled) && p !! SettledIds(s.settled)
            && (forall i, j | 0 <= i < j < |s.settled| :: s.settled[i].id != s.settled[j].id)
            && (forall id | id in s.sent :: id < s.nextId)
            && |s.pending| <= l.maxInFlight && |s.retired| <= Memory(l)
            && (forall x | x in s.settled && !x.verdict.Rejected? :: x.verdict.frame == s.sent[x.id].generation)
  {
    assert Sound(INITIAL, l);
    hide Run, PossibleRun;
    RunKeeps(INITIAL, l, events);
    var s := Run(INITIAL, l, events);
    forall x | x in s.settled ensures Fair(x, s.sent) { }
    hide Ascending, InOrder;
  }
}
