/**
 The JSON-RPC request broker as a state machine: every handler runs to completion, so each is one step.
 The state also keeps what left the broker and what the environment decided, so that properties of whole
 runs can be stated.
 */
module Broker {
  import opened Common

  const MAX_SAFE_INTEGER: nat := 0x1F_FFFF_FFFF_FFFF

  // ---------------------------------------------------------------- values

  datatype RequestId = Numeric(value: int) | Textual(text: string)

  datatype FailureCode =
    | ProtocolViolation | BrokerClosed | TransportNotOpen | BrokerOverloaded | RequestAborted | RequestTimeout
    | InvalidMessage | RemoteError | UnknownOutcome | TransportSendFailed | TransportClosed

  datatype Dispatch = NotSent | Unknown | RemoteRejected | NotApplicable

  datatype Failure = Failure(code: FailureCode, dispatch: Dispatch, retrySafe: bool)

  /** What the transport throws or rejects with: an adapter error with its own labels, or anything else. */
  datatype SendError = Adapter(failure: Failure) | Other

  datatype SendStart = Started | Thrown(error: SendError)

  /** A logical operation of the caller; it may take several requests to carry out. */
  datatype Operation = Operation(name: string, mutation: bool)

  datatype PendingRequest = PendingRequest(id: nat, mutation: bool, generation: nat)

  /** What was handed to the transport under an id; `leaves` is whether the frame ever gets out. */
  datatype Sent = Sent(operation: Operation, generation: nat, leaves: bool)

  /** How a promise ended, and by a frame of which connection generation, if by a frame. */
  datatype Verdict = Resolved(frame: nat) | RejectedByFrame(failure: Failure, frame: nat) | Rejected(failure: Failure)

  datatype Settlement = Settlement(id: nat, verdict: Verdict)

  datatype Issue = LateResponse | UnknownNotification | UnsupportedServerRequest | Fatal

  /** `token` is the identity of the entry object. */
  datatype ServerEntry = ServerEntry(token: nat, generation: nat, responding: bool)

  datatype Reply = Reply(id: RequestId, token: nat, generation: nat, leaves: bool)

  datatype Limits = Limits(maxInFlight: nat, maxServerRequests: nat)

  predicate ValidLimits(l: Limits) { l.maxInFlight >= 1 && l.maxServerRequests >= 1 }

  /** How many retired, and how many completed, ids are remembered. */
  function Memory(l: Limits): nat { if l.maxInFlight * 8 < 1024 then l.maxInFlight * 8 else 1024 }

  datatype State = State(
    // the transport
    generation: nat,
    open: bool,
    // the broker
    pending: seq<PendingRequest>,
    server: map<RequestId, ServerEntry>,
    retired: seq<nat>,
    completed: seq<nat>,
    nextId: nat,
    closed: bool,
    // what callers and consumers saw
    settled: seq<Settlement>,
    refused: seq<Failure>,
    issues: seq<Issue>,
    // what happened
    sent: map<nat, Sent>,
    retirements: seq<nat>,
    answered: set<nat>,
    replies: seq<Reply>,
    awaiting: set<nat>,
    nextToken: nat)

  const INITIAL: State := State(0, false, [], map[], [], [], 1, false, [], [], [], map[], [], {}, [], {}, 0)

  // ---------------------------------------------------------------- insertion-ordered sets

  function Without(s: seq<nat>, id: nat): (r: seq<nat>)
    ensures forall x :: x in r <==> x in s && x != id
    ensures |r| <= |s|
    ensures id !in s ==> r == s
  {
    if s == [] then []
    else if s[0] == id then Without(s[1..], id)
    else [s[0]] + Without(s[1..], id)
  }

  function WithoutRequest(s: seq<PendingRequest>, id: nat): (r: seq<PendingRequest>)
    ensures forall x :: x in r <==> x in s && x.id != id
    ensures |r| <= |s|
  {
    if s == [] then []
    else if s[0].id == id then WithoutRequest(s[1..], id)
    else [s[0]] + WithoutRequest(s[1..], id)
  }

  function FindRequest(s: seq<PendingRequest>, id: nat): (r: Option<PendingRequest>)
    ensures r.Some? ==> r.value in s && r.value.id == id
    ensures r.None? ==> forall x | x in s :: x.id != id
  {
    if s == [] then None else if s[0].id == id then Some(s[0]) else FindRequest(s[1..], id)
  }

  /** Adds an id and forgets the oldest ones beyond the limit. */
  function Remember(s: seq<nat>, id: nat, limit: nat): (r: seq<nat>)
    ensures |r| <= limit
  {
    var grown := if id in s then s else s + [id];
    if |grown| > limit then grown[|grown| - limit..] else grown
  }

  // ---------------------------------------------------------------- the four ways an id moves

  /** Nothing about requests changed, except that ids may have been used up. */
  predicate SameRequests(s: State, v: State) {
    && v.pending == s.pending && v.sent == s.sent && v.settled == s.settled && v.nextId >= s.nextId
    && v.retired == s.retired && v.completed == s.completed && v.retirements == s.retirements && v.answered == s.answered
  }

  /** Nothing about server requests changed. */
  predicate SameServer(s: State, v: State) {
    v.server == s.server && v.replies == s.replies && v.awaiting == s.awaiting && v.nextToken == s.nextToken
  }

  /** Requests were only settled: what was sent stays, and nothing that happened is undone. */
  predicate Grows(s: State, v: State) {
    && v.sent == s.sent && s.nextId <= v.nextId
    && s.settled <= v.settled && s.retirements <= v.retirements && s.answered <= v.answered
  }

  function Issued(s: State, operation: Operation, leaves: bool): (v: State)
    ensures SameServer(s, v)
  {
    s.(pending := s.pending + [PendingRequest(s.nextId, operation.mutation, s.generation)],
       nextId := s.nextId + 1,
       sent := s.sent[s.nextId := Sent(operation, s.generation, leaves)])
  }

  /** The request is given up: its promise is rejected and its id remembered for a late response. */
  function Retire(s: State, l: Limits, id: nat, failure: Failure): (v: State)
    ensures Grows(s, v) && SameServer(s, v)
  {
    if FindRequest(s.pending, id).None? then s
    else
      s.(pending := WithoutRequest(s.pending, id),
         retired := Remember(s.retired, id, Memory(l)),
         settled := s.settled + [Settlement(id, Rejected(failure))],
         retirements := s.retirements + [id])
  }

  /** A response settles the promise. */
  function Complete(s: State, l: Limits, id: nat, verdict: Verdict): (v: State)
    ensures Grows(s, v) && SameServer(s, v)
  {
    if FindRequest(s.pending, id).None? then s
    else
      s.(pending := WithoutRequest(s.pending, id),
         completed := Remember(s.completed, id, Memory(l)),
         settled := s.settled + [Settlement(id, verdict)],
         answered := s.answered + {id})
  }

  /** The one late response a remembered id may still get. */
  function TakeLate(s: State, id: nat): (v: State)
    ensures Grows(s, v) && SameServer(s, v)
  {
    s.(retired := Without(s.retired, id), answered := s.answered + {id}, issues := s.issues + [LateResponse])
  }

  function RaiseFatal(s: State): (v: State)
    ensures SameRequests(s, v) && SameServer(s, v)
  {
    s.(issues := s.issues + [Fatal])
  }

  // ---------------------------------------------------------------- requests

  datatype Call = Call(
    operation: Operation,
    valid: bool,
    aborted: bool,
    timeoutValid: bool,
    encodeError: Option<Failure>,
    start: SendStart,
    leaves: bool)

  function Refuse(s: State, failure: Failure): State { s.(refused := s.refused + [failure]) }

  /** What the caller is told when the transport does not take the frame. */
  function SendFailure(mutation: bool, error: SendError): Failure {
    match error
    case Adapter(f) => if f.dispatch == Unknown && mutation then Failure(UnknownOutcome, Unknown, false) else f
    case Other => Failure(if mutation then UnknownOutcome else TransportSendFailed, Unknown, !mutation)
  }

  /** Why a call is turned away before it gets an id. */
  function Refusal(s: State, l: Limits, c: Call): (f: Option<Failure>)
    ensures f.None? ==> |s.pending| < l.maxInFlight
  {
    if !c.valid then Some(Failure(ProtocolViolation, NotSent, true))
    else if s.closed then Some(Failure(BrokerClosed, NotSent, true))
    else if !s.open then Some(Failure(TransportNotOpen, NotSent, true))
    else if |s.pending| >= l.maxInFlight then Some(Failure(BrokerOverloaded, NotSent, true))
    else if c.aborted then Some(Failure(RequestAborted, NotSent, true))
    else if !c.timeoutValid then Some(Failure(ProtocolViolation, NotSent, true))
    else if s.nextId > MAX_SAFE_INTEGER then Some(Failure(BrokerClosed, NotSent, false))
    else None
  }

  /** A request that cannot be encoded has used up its id all the same. */
  function Request(s: State, l: Limits, c: Call): (v: State)
    ensures SameServer(s, v)
  {
    var refusal := Refusal(s, l, c);
    if refusal.Some? then Refuse(s, refusal.value)
    else if c.encodeError.Some? then Refuse(s.(nextId := s.nextId + 1), c.encodeError.value)
    else
      match c.start
      case Started => Issued(s, c.operation, c.leaves)
      case Thrown(e) => Retire(Issued(s, c.operation, c.leaves), l, s.nextId, SendFailure(c.operation.mutation, e))
  }

  /** The send promise of a request rejects. */
  function SendRejected(s: State, l: Limits, id: nat, error: SendError): (v: State)
    ensures Grows(s, v) && SameServer(s, v)
  {
    match FindRequest(s.pending, id)
    case None => s
    case Some(p) => Retire(s, l, id, SendFailure(p.mutation, error))
  }

  /** Timeout or abort; a request in the map has been handed to the transport. */
  function Cancel(s: State, l: Limits, id: nat, code: FailureCode): (v: State)
    ensures Grows(s, v) && SameServer(s, v)
  {
    match FindRequest(s.pending, id)
    case None => s
    case Some(p) => Retire(s, l, id, Failure(code, Unknown, !p.mutation))
  }

  function FailEach(s: State, l: Limits, requests: seq<PendingRequest>): (v: State)
    ensures Grows(s, v) && SameServer(s, v)
    ensures v.closed == s.closed
    ensures v.pending != [] ==> v.pending[0] in s.pending && forall r | r in requests :: r.id != v.pending[0].id
    decreases |requests|
  {
    if requests == [] then s
    else
      var p := requests[0];
      FailEach(Retire(s, l, p.id, Failure(if p.mutation then UnknownOutcome else TransportClosed, Unknown, !p.mutation)), l, requests[1..])
  }

  function FailPending(s: State, l: Limits): (v: State)
    ensures Grows(s, v) && SameServer(s, v)
    ensures v.pending == [] && v.closed == s.closed
  {
    FailEach(s, l, s.pending)
  }

  function TransportClose(s: State, l: Limits): (v: State)
    ensures Grows(s, v)
    ensures !s.closed ==> v.pending == [] && v.server == map[]
  {
    if s.closed then s else FailPending(s, l).(server := map[])
  }

  function Close(s: State, l: Limits): (v: State)
    ensures Grows(s, v)
    ensures !s.closed ==> v.closed && v.pending == [] && v.server == map[]
  {
    if s.closed then s else FailPending(s.(closed := true), l).(server := map[])
  }

  // ---------------------------------------------------------------- frames

  datatype Frame =
    | Malformed
    | Response(id: RequestId, error: bool, observerFails: bool)
    | Notification(known: bool, consumerFails: bool)
    | ServerRequest(serverId: RequestId, supported: bool, observerFails: bool, consumerFails: bool, leaves: bool)

  function ReceiveResponse(s: State, l: Limits, id: RequestId, error: bool, observerFails: bool, generation: nat): (v: State)
    ensures Grows(s, v) && SameServer(s, v)
  {
    if id.Textual? || id.value < 0 then RaiseFatal(s)
    else
      match FindRequest(s.pending, id.value)
      case None => if id.value in s.retired then TakeLate(s, id.value) else RaiseFatal(s)
      case Some(p) =>
        if p.generation != generation then RaiseFatal(s)
        else if observerFails then RaiseFatal(s)
        else
          Complete(s, l, id.value,
                   if error then RejectedByFrame(Failure(RemoteError, RemoteRejected, !p.mutation), generation) else Resolved(generation))
  }

  function ReceiveNotification(s: State, known: bool, consumerFails: bool): (v: State)
    ensures SameRequests(s, v) && SameServer(s, v)
  {
    var s1 := if known then s else s.(issues := s.issues + [UnknownNotification]);
    if consumerFails then RaiseFatal(s1) else s1
  }

  /** Turned down on the spot: one error frame, no entry. */
  function TurnDown(s: State, id: RequestId, generation: nat, leaves: bool): (v: State)
    ensures SameRequests(s, v)
  {
    s.(issues := s.issues + [UnsupportedServerRequest],
       replies := s.replies + [Reply(id, s.nextToken, generation, leaves)],
       nextToken := s.nextToken + 1)
  }

  function Accept(s: State, id: RequestId, generation: nat): (v: State)
    ensures SameRequests(s, v)
  {
    s.(server := s.server[id := ServerEntry(s.nextToken, generation, false)], nextToken := s.nextToken + 1)
  }

  function ReceiveServerRequest(s: State, l: Limits, f: Frame, generation: nat): (v: State)
    requires f.ServerRequest?
    ensures SameRequests(s, v)
  {
    if f.observerFails then RaiseFatal(s)
    else if !f.supported then TurnDown(s, f.serverId, generation, f.leaves)
    else if f.serverId in s.server then RaiseFatal(s)
    else if |s.server| >= l.maxServerRequests then TurnDown(s, f.serverId, generation, f.leaves)
    else
      var s1 := Accept(s, f.serverId, generation);
      if f.consumerFails then RaiseFatal(s1.(server := s1.server - {f.serverId})) else s1
  }

  function ReceiveFrame(s: State, l: Limits, f: Frame, generation: nat): (v: State)
    ensures Grows(s, v)
  {
    match f
    case Malformed => RaiseFatal(s)
    case Response(id, error, observerFails) => ReceiveResponse(s, l, id, error, observerFails, generation)
    case Notification(known, consumerFails) => ReceiveNotification(s, known, consumerFails)
    case ServerRequest(_, _, _, _, _) => ReceiveServerRequest(s, l, f, generation)
  }

  function ReceiveMessage(s: State, l: Limits, f: Frame, generation: nat): (v: State)
    ensures Grows(s, v)
  {
    if s.closed then s
    else if generation != s.generation then RaiseFatal(s)
    else ReceiveFrame(s, l, f, generation)
  }

  // ---------------------------------------------------------------- responses to server requests

  /** Whether a response may be sent for this id now. */
  predicate Claimable(s: State, id: RequestId) {
    id in s.server && s.server[id].generation == s.generation && s.open && !s.server[id].responding
  }

  /** Claiming marks the entry; an entry of a closed generation is dropped instead. */
  function Claim(s: State, id: RequestId): (v: State)
    ensures SameRequests(s, v)
  {
    if id !in s.server then s
    else if s.server[id].generation != s.generation || !s.open then s.(server := s.server - {id})
    else s.(server := s.server[id := s.server[id].(responding := true)])
  }

  function StartReply(s: State, id: RequestId, optionsValid: bool, start: SendStart, leaves: bool): (v: State)
    ensures SameRequests(s, v)
  {
    if !optionsValid then s
    else if !Claimable(s, id) then Claim(s, id)
    else
      var e := s.server[id];
      var k := |s.replies|;
      var s1 := Claim(s, id).(replies := s.replies + [Reply(id, e.token, e.generation, leaves)], awaiting := s.awaiting + {k});
      match start
      case Started => s1
      case Thrown(error) => FinishReply(s1, k, Some(error))
  }

  function ReplyFailure(error: SendError): Failure {
    match error
    case Adapter(f) => f
    case Other => Failure(UnknownOutcome, Unknown, false)
  }

  /** The send of reply `k` ends: with no error, or with one (the transport's, an abort or a timeout). */
  function FinishReply(s: State, k: nat, error: Option<SendError>): (v: State)
    requires k < |s.replies|
    ensures SameRequests(s, v)
  {
    var r := s.replies[k];
    var s1 := s.(awaiting := s.awaiting - {k});
    if r.id !in s.server || s.server[r.id].token != r.token then s1
    else if error.Some? && ReplyFailure(error.value).dispatch == NotSent && r.generation == s.generation && s.open then
      s1.(server := s.server[r.id := s.server[r.id].(responding := false)])
    else s1.(server := s.server - {r.id})
  }

  // ---------------------------------------------------------------- events

  datatype Event =
    | CallRequest(call: Call)
    | SendFails(id: nat, error: SendError)
    | Cancelled(id: nat, code: FailureCode)
    | Arrives(frame: Frame, generation: nat)
    | TransportMoves(newGeneration: nat, nowOpen: bool)
    | TransportCloses
    | BrokerCloses
    | Reject(serverId: RequestId, optionsValid: bool, start: SendStart, leaves: bool)
    | ReplyEnds(reply: nat, result: Option<SendError>)
    | TurnDownFails

  /** An error that is labelled as safe to retry is about a frame that never got out. */
  predicate Truthful(error: SendError, leaves: bool) {
    error.Adapter? && error.failure.retrySafe && error.failure.dispatch != Unknown ==> !leaves
  }

  predicate TruthfulReply(error: SendError, leaves: bool) { ReplyFailure(error).dispatch == NotSent ==> !leaves }

  /** What the environment can do; the transport's labels are truthful and its generations only go up. */
  predicate Possible(s: State, e: Event) {
    match e
    case CallRequest(c) => c.start.Thrown? ==> Truthful(c.start.error, c.leaves)
    case SendFails(id, error) => id in s.sent ==> Truthful(error, s.sent[id].leaves)
    case TransportMoves(generation, _) => generation >= s.generation
    case Reject(_, _, start, leaves) => start.Thrown? ==> TruthfulReply(start.error, leaves)
    case ReplyEnds(k, result) =>
      k in s.awaiting && k < |s.replies| && (result.Some? ==> TruthfulReply(result.value, s.replies[k].leaves))
    case _ => true
  }

  function Next(s: State, l: Limits, e: Event): State
    requires Possible(s, e)
  {
    match e
    case CallRequest(c) => Request(s, l, c)
    case SendFails(id, error) => SendRejected(s, l, id, error)
    case Cancelled(id, code) => Cancel(s, l, id, code)
    case Arrives(f, generation) => ReceiveMessage(s, l, f, generation)
    case TransportMoves(generation, open) => s.(generation := generation, open := open)
    case TransportCloses => TransportClose(s, l)
    case BrokerCloses => Close(s, l)
    case Reject(id, valid, start, leaves) => StartReply(s, id, valid, start, leaves)
    case ReplyEnds(k, result) => FinishReply(s, k, result)
    case TurnDownFails => RaiseFatal(s)
  }
}
