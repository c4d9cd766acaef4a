/**
 The app-server connection as a state machine: the stages of a handshake between two awaits, the queue of
 messages that arrive before it is over, and the gate in front of requests and responses.
 */
module Connection {
  import opened Common

  // ---------------------------------------------------------------- values

  datatype Phase = Idle | Connecting | Handshaking | Ready | Degraded | Disconnected | Incompatible | Closing

  datatype Level = Unavailable | Unsupported | Working | Impaired

  /** The compatibility verdict, as far as the gate looks at it. */
  datatype Compatibility = Compatibility(level: Level, mutationsAllowed: bool)

  /** The transport: its own close starts at once, its end is a later event. Frames pass only while it is open. */
  datatype Link = Shut | Dialing | Open | Leaving

  /** Where a connect attempt is suspended; `sendable` tells whether what it waits for could be sent at all. */
  datatype Stage =
    | NoAttempt
    | AwaitTransport(connected: bool)
    | AwaitInitialize(sendable: bool)
    | AwaitNotify(sendable: bool)
    | AwaitModes(sendable: bool)
    | AwaitClose(incompatible: bool)
    | AwaitRecycle

  /** Messages are numbered as they arrive. */
  datatype Connection = Connection(
    phase: Phase,
    compatibility: Compatibility,
    initialized: bool,
    responseObserved: bool,
    queue: seq<nat>,
    closedForGood: bool,
    stage: Stage,
    link: Link,
    // what happened in this attempt
    arrivals: nat,
    accepted: seq<nat>,
    delivered: seq<nat>,
    initializedSent: bool,
    failed: bool,
    lost: bool,
    violations: nat)

  /** `versionSupported`: the installed program passes the check before any handshake. */
  datatype Options = Options(queueLimit: nat, versionSupported: bool)

  function Assess(o: Options): Compatibility { Compatibility(if o.versionSupported then Unavailable else Unsupported, false) }

  function Initial(o: Options): Connection {
    Connection(Idle, Assess(o), false, false, [], false, NoAttempt, Shut, 0, [], [], false, false, false, 0)
  }

  /** Requests, responses and rejections pass only here. */
  predicate Gate(s: Connection) { (s.phase == Ready || s.phase == Degraded) && s.compatibility.mutationsAllowed }

  // ---------------------------------------------------------------- pieces

  /** A blocked connection is not unblocked. */
  predicate StaysBlocked(s: Connection, v: Connection) {
    v.compatibility.mutationsAllowed ==> s.compatibility.mutationsAllowed
  }

  /** The handshake state is dropped; what was still queued is lost. */
  function Reset(s: Connection): (v: Connection)
    ensures StaysBlocked(s, v)
  {
    s.(initialized := false, responseObserved := false, queue := [], lost := s.lost || s.queue != [])
  }

  predicate MayConnect(s: Connection, aborted: bool) {
    && !s.closedForGood
    && (s.phase == Idle || s.phase == Disconnected || s.phase == Incompatible)
    && !aborted
  }

  function Connect(s: Connection, o: Options, aborted: bool): (v: Connection)
    ensures StaysBlocked(s, v)
  {
    if !MayConnect(s, aborted) then s
    else if !o.versionSupported then s.(compatibility := Assess(o), phase := Incompatible)
    else
      s.(compatibility := Assess(o), phase := Connecting, stage := AwaitTransport(false), link := Dialing,
         initialized := false, responseObserved := false, queue := [],
         accepted := [], delivered := [], initializedSent := false, failed := false, lost := false)
  }

  /** What is asked to close is on its way down from that moment. */
  function Left(l: Link): Link { if l == Shut then Shut else Leaving }

  /** An error inside the handshake: the transport is closed before anything else. */
  function Fail(s: Connection): (v: Connection)
    ensures StaysBlocked(s, v)
  {
    s.(stage := AwaitClose(s.compatibility.level == Unsupported), failed := true, link := Left(s.link))
  }

  function Transported(s: Connection, ok: bool): (v: Connection)
    ensures StaysBlocked(s, v)
  {
    if ok then s.(phase := Handshaking, stage := AwaitInitialize(s.link == Open)) else Fail(s)
  }

  function Initialized(s: Connection, ok: bool): (v: Connection)
    ensures StaysBlocked(s, v)
  {
    if ok then s.(stage := AwaitNotify(s.link == Open)) else Fail(s)
  }

  /** The initialized notification is out: the queue is handed over in order; a consumer may fail part way. */
  function Notified(s: Connection, ok: bool, failsAt: Option<nat>, aborted: bool): (v: Connection)
    ensures StaysBlocked(s, v)
  {
    if !ok then Fail(s.(initialized := false))
    else
      var s1 := s.(initialized := true, initializedSent := true, responseObserved := false, queue := []);
      if failsAt.Some? && failsAt.value < |s.queue| then
        Fail(s1.(delivered := s.delivered + s.queue[..failsAt.value + 1], lost := s.lost || failsAt.value + 1 < |s.queue|))
      else
        var s2 := s1.(delivered := s.delivered + s.queue);
        if aborted then Fail(s2) else s2.(stage := AwaitModes(s.link == Open))
  }

  function Assessed(s: Connection, ok: bool, compatible: bool): Connection {
    if !ok then Fail(s)
    else if !compatible then Fail(s.(compatibility := Compatibility(Unsupported, false), phase := Incompatible))
    else s.(compatibility := Compatibility(Working, true), phase := Ready, stage := NoAttempt)
  }

  function Closed(s: Connection, o: Options, incompatible: bool): (v: Connection)
    ensures StaysBlocked(s, v)
  {
    Reset(s).(compatibility := if incompatible then s.compatibility else Assess(o),
              phase := if incompatible then Incompatible else Disconnected,
              stage := NoAttempt, link := Shut)
  }

  predicate InboundAllowed(s: Connection) { s.initialized || (s.phase == Handshaking && s.responseObserved) }

  function Deliver(s: Connection, k: nat, consumerFails: bool): (v: Connection)
    ensures StaysBlocked(s, v)
  {
    s.(accepted := s.accepted + [k], delivered := s.delivered + [k], violations := s.violations + (if consumerFails then 1 else 0))
  }

  function Enqueue(s: Connection, o: Options, k: nat): (v: Connection)
    ensures StaysBlocked(s, v)
  {
    if !InboundAllowed(s) || |s.queue| >= o.queueLimit then s.(violations := s.violations + 1)
    else s.(accepted := s.accepted + [k], queue := s.queue + [k])
  }

  function Receive(s: Connection, o: Options, consumerFails: bool): (v: Connection)
    ensures StaysBlocked(s, v)
  {
    var numbered := s.(arrivals := s.arrivals + 1);
    if s.initialized then Deliver(numbered, s.arrivals, consumerFails) else Enqueue(numbered, o, s.arrivals)
  }

  function ObserveInitializeResponse(s: Connection): (v: Connection)
    ensures StaysBlocked(s, v)
  {
    if s.phase == Handshaking then s.(responseObserved := true) else s
  }

  function Issue(s: Connection, degraded: bool, late: bool): (v: Connection)
    ensures StaysBlocked(s, v)
  {
    if degraded && (s.compatibility.level == Impaired || s.compatibility.level == Working) then
      s.(compatibility := Compatibility(Impaired, late && s.compatibility.mutationsAllowed), phase := Degraded)
    else s
  }

  function TransportClosed(s: Connection, o: Options): (v: Connection)
    ensures StaysBlocked(s, v)
  {
    var s1 := Reset(s).(link := Shut);
    if s.phase == Incompatible then s1
    else s1.(compatibility := Assess(o), phase := if s.phase == Connecting || s.phase == Handshaking then s.phase else Disconnected)
  }

  /** Nothing arrives any more once the object has let go of the transport. */
  function Finish(s: Connection, o: Options): (v: Connection)
    ensures StaysBlocked(s, v)
  {
    Reset(s).(link := Shut, compatibility := Assess(o), phase := Disconnected)
  }

  /** The abort of a dialing transport may shut it on the spot (`abandoned`). */
  function Close(s: Connection, o: Options, abandoned: bool): (v: Connection)
    ensures StaysBlocked(s, v)
  {
    if s.closedForGood then s
    else if s.link == Shut || abandoned then Finish(s.(closedForGood := true), o)
    else s.(closedForGood := true, phase := Closing, link := Leaving)
  }

  function Recycled(s: Connection, o: Options, aborted: bool): (v: Connection)
    ensures StaysBlocked(s, v)
  {
    Connect(Reset(s).(phase := Disconnected, stage := NoAttempt, link := Shut), o, aborted)
  }

  predicate MayReconnect(s: Connection, aborted: bool) {
    && !s.closedForGood && !aborted
    && s.phase != Closing && s.phase != Connecting && s.phase != Handshaking
    && s.link != Leaving && s.link != Dialing
  }

  function Reconnect(s: Connection, o: Options, aborted: bool): (v: Connection)
    ensures StaysBlocked(s, v)
  {
    if !MayReconnect(s, aborted) then s
    else if s.link == Open then s.(phase := Closing, stage := AwaitRecycle, link := Leaving)
    else Recycled(s, o, aborted)
  }

  // ---------------------------------------------------------------- events

  datatype Event =
    | ConnectCall(aborted: bool)
    | TransportOpens
    | TransportReady(ok: bool)
    | InitializeObserved
    | InitializeReady(ok: bool)
    | NotifyReady(ok: bool, failsAt: Option<nat>, aborted: bool)
    | ModesReady(ok: bool, compatible: bool)
    | CloseReady
    | Inbound(consumerFails: bool)
    | IssueRaised(degraded: bool, late: bool)
    | TransportCloses
    | CloseCall(abandoned: bool)
    | CloseFinished
    | ReconnectCall(aborted: bool)
    | RecycleReady(aborted: bool)
    | RecycleFails

  /**
   One attempt at a time. Frames, and the degraded issues they raise, come from an open transport only; what
   could not be sent is not answered; a close aborts the attempt at its next check; and a transport ends at most
   once.
   */
  predicate Possible(s: Connection, e: Event) {
    match e
    case ConnectCall(_) => s.stage == NoAttempt
    case TransportOpens => s.stage.AwaitTransport? && s.link == Dialing
    case TransportReady(ok) => s.stage.AwaitTransport? && (ok ==> s.stage.connected)
    case InitializeObserved => s.link == Open
    case InitializeReady(ok) => s.stage.AwaitInitialize? && (ok ==> s.stage.sendable && !s.closedForGood)
    case NotifyReady(ok, _, aborted) => s.stage.AwaitNotify? && (ok ==> s.stage.sendable) && (s.closedForGood ==> aborted)
    case ModesReady(ok, _) => s.stage.AwaitModes? && (ok ==> s.stage.sendable)
    case CloseReady => s.stage.AwaitClose?
    case Inbound(_) => s.link == Open
    case TransportCloses => s.link != Shut
    case ReconnectCall(_) => s.stage == NoAttempt
    case RecycleReady(_) => s.stage == AwaitRecycle
    case RecycleFails => s.stage == AwaitRecycle
    case IssueRaised(degraded, _) => degraded ==> s.link == Open
    case CloseCall(abandoned) => abandoned ==> s.link == Dialing
    case CloseFinished => s.closedForGood
  }

  function Next(s: Connection, o: Options, e: Event): Connection
    requires Possible(s, e)
  {
    match e
    case ConnectCall(aborted) => Connect(s, o, aborted)
    case TransportOpens => s.(link := Open, stage := AwaitTransport(true))
    case TransportReady(ok) => Transported(s, ok)
    case InitializeObserved => ObserveInitializeResponse(s)
    case InitializeReady(ok) => Initialized(s, ok)
    case NotifyReady(ok, failsAt, aborted) => Notified(s, ok, failsAt, aborted)
    case ModesReady(ok, compatible) => Assessed(s, ok, compatible)
    case CloseReady => Closed(s, o, s.stage.incompatible)
    case Inbound(consumerFails) => Receive(s, o, consumerFails)
    case IssueRaised(degraded, late) => Issue(s, degraded, late)
    case TransportCloses => TransportClosed(s, o)
    case CloseCall(abandoned) => Close(s, o, abandoned)
    case CloseFinished => Finish(s, o)
    case ReconnectCall(aborted) => Reconnect(s, o, aborted)
    case RecycleReady(aborted) => Recycled(s, o, aborted)
    case RecycleFails => s.(stage := NoAttempt, link := Shut)
  }

  // ---------------------------------------------------------------- the invariant

  predicate Ascending(s: seq<nat>) { forall i, j | 0 <= i < j < |s| :: s[i] < s[j] }

  /** Arrival numbers in order, all of them given out already. */
  predicate Line(s: seq<nat>, bound: nat) { Ascending(s) && forall k | k in s :: k < bound }

  /** Where an attempt stands, and what it may have lost by then. */
  predicate Staged(s: Connection) {
    && (s.stage.AwaitTransport? || s.stage.AwaitInitialize? || s.stage.AwaitNotify? ==> !s.initialized && !s.failed)
    && (s.stage.AwaitTransport? ==> s.phase != Handshaking && s.queue == [] && !s.lost)
    && (s.stage.AwaitClose? ==> s.failed)
    && (s.stage.AwaitModes? ==> !s.failed && (s.link == Open ==> s.initialized))
    && (s.stage != NoAttempt && s.stage != AwaitRecycle ==> !Operational(s.compatibility))
    && (s.stage.AwaitModes? && s.stage.sendable ==> !s.lost && s.queue == [])
    && (s.lost && !s.failed ==> s.link != Open)
  }

  /** A transport is open only under an attempt or its result, never under a close. */
  predicate Linked(s: Connection) {
    && (s.link == Open ==> s.phase != Closing && !s.closedForGood)
    && (s.link == Dialing ==> s.stage == AwaitTransport(false) && s.phase == Connecting && !s.closedForGood)
    && (s.stage == AwaitRecycle ==> s.link == Leaving || s.link == Shut)
    && (s.stage == AwaitRecycle ==> s.phase != Ready && s.phase != Degraded)
    && (s.stage == NoAttempt && MayConnect(s, false) ==> s.link == Shut)
  }

  predicate Delivery(s: Connection) {
    // in arrival order, and nothing twice
    && Line(s.delivered + s.queue, s.arrivals)
    // nothing before the initialized notification
    && (s.initialized ==> s.initializedSent && s.queue == [])
    && (s.delivered != [] ==> s.initializedSent)
    // nothing is lost
    && (!s.failed && !s.lost ==> s.accepted == s.delivered + s.queue)
  }

  predicate Operational(c: Compatibility) { c.level == Working || c.level == Impaired }

  /** Only a completed handshake, which has lost nothing, opens the gate. */
  predicate Gated(s: Connection) {
    && (s.compatibility.mutationsAllowed ==> Operational(s.compatibility))
    && (Operational(s.compatibility) ==> !s.failed && !s.lost && s.queue == [] && (s.link == Open ==> s.initialized))
    && (s.phase == Ready || s.phase == Degraded ==> Operational(s.compatibility))
    && (s.phase == Incompatible ==> !s.compatibility.mutationsAllowed)
  }

  predicate Sound(s: Connection, o: Options) {
    |s.queue| <= o.queueLimit && Staged(s) && Linked(s) && Gated(s) && Delivery(s)
  }

  // ---------------------------------------------------------------- every step keeps it

  lemma LineGrows(s: seq<nat>, k: nat)
    requires Line(s, k)
    ensures Line(s + [k], k + 1) && Line(s, k + 1)
  {
    var t := s + [k];
    forall i, j | 0 <= i < j < |t| ensures t[i] < t[j] {
      assert t[i] == s[i] && s[i] in s;
    }
  }

  lemma LinePrefix(s: seq<nat>, n: nat, bound: nat)
    requires Line(s, bound) && n <= |s|
    ensures Line(s[..n], bound)
  {
    assert forall k | k in s[..n] :: k in s;
  }

  /** A message is delivered, or queued behind the others, or ends the connection; never two of these. */
  lemma ReceiveEffect(s: Connection, o: Options, consumerFails: bool)
    ensures var v := Receive(s, o, consumerFails);
            && (if s.initialized then v.delivered == s.delivered + [s.arrivals] && v.queue == s.queue
                else if InboundAllowed(s) && |s.queue| < o.queueLimit then v.delivered == s.delivered && v.queue == s.queue + [s.arrivals]
                else v.delivered == s.delivered && v.queue == s.queue && v.violations == s.violations + 1)
            && v.arrivals == s.arrivals + 1 && v.phase == s.phase && v.compatibility == s.compatibility && v.initialized == s.initialized
  {
  }

  lemma ReceiveKeeps(s: Connection, o: Options, consumerFails: bool)
    requires Sound(s, o) && s.link == Open
    ensures Sound(Receive(s, o, consumerFails), o)
  {
    var k := s.arrivals;
    LineGrows(s.delivered + s.queue, k);
    assert s.delivered + (s.queue + [k]) == (s.delivered + s.queue) + [k];
    assert s.queue == [] ==> (s.delivered + [k]) + s.queue == (s.delivered + s.queue) + [k];
    hide Ascending;
  }

  lemma DropQueue(s: Connection)
    requires Delivery(s)
    ensures Delivery(Reset(s))
  {
    assert (s.delivered + s.queue)[..|s.delivered|] == s.delivered == s.delivered + [];
    LinePrefix(s.delivered + s.queue, |s.delivered|, s.arrivals);
  }

  /** What is handed over is the queue from its front, and all of it when the attempt goes on. */
  lemma NotifiedEffect(s: Connection, ok: bool, failsAt: Option<nat>, aborted: bool)
    ensures var v := Notified(s, ok, failsAt, aborted);
            && (v.delivered != s.delivered ==> ok && v.initializedSent)
            && s.delivered <= v.delivered <= s.delivered + s.queue
            && (v.stage.AwaitModes? ==> v.initialized && v.delivered == s.delivered + s.queue && v.queue == [])
            && (v.stage.AwaitModes? || (v.stage.AwaitClose? && v.failed))
  {
  }

  lemma NotifiedDelivery(s: Connection, o: Options, ok: bool, failsAt: Option<nat>, aborted: bool)
    requires Sound(s, o) && s.stage.AwaitNotify?
    ensures Delivery(Notified(s, ok, failsAt, aborted))
  {
    var n := if ok && failsAt.Some? && failsAt.value < |s.queue| then failsAt.value + 1 else |s.queue|;
    LinePrefix(s.delivered + s.queue, |s.delivered| + n, s.arrivals);
    assert s.delivered + s.queue[..n] == (s.delivered + s.queue)[..|s.delivered| + n];
    assert (s.delivered + s.queue[..n]) + [] == s.delivered + s.queue[..n];
    assert s.queue[..|s.queue|] == s.queue;
    hide Line, Gated;
  }

  lemma NotifiedKeeps(s: Connection, o: Options, ok: bool, failsAt: Option<nat>, aborted: bool)
    requires Sound(s, o) && s.stage.AwaitNotify?
    ensures Sound(Notified(s, ok, failsAt, aborted), o)
  {
    NotifiedDelivery(s, o, ok, failsAt, aborted);
    hide Delivery;
  }

  lemma DeliveryLeft(s: Connection, v: Connection)
    requires Delivery(s)
    requires v.arrivals == s.arrivals && v.delivered == s.delivered && v.initializedSent == s.initializedSent && v.accepted == s.accepted
    requires (s.failed ==> v.failed) && (s.lost ==> v.lost) && (v.initialized ==> s.initialized)
    requires v.queue == s.queue || (v.queue == [] && (v.lost || s.queue == []))
    ensures Delivery(v)
  {
    DropQueue(s);
    hide Line;
  }

  lemma DeliveryFresh(v: Connection)
    requires v.delivered == [] && v.queue == [] && v.accepted == [] && !v.initialized
    ensures Delivery(v)
  {
    assert v.delivered + v.queue == [];
  }

  lemma ConnectKeeps(s: Connection, o: Options, aborted: bool)
    requires Sound(s, o) && s.stage == NoAttempt
    ensures Sound(Connect(s, o, aborted), o)
  {
    var v := Connect(s, o, aborted);
    if v.stage == NoAttempt { DeliveryLeft(s, v); } else { DeliveryFresh(v); }
    hide Delivery;
  }

  lemma ResetKeeps(s: Connection, v: Connection, o: Options)
    requires Sound(s, o) && v == Reset(s).(link := Shut, phase := v.phase, compatibility := v.compatibility, closedForGood := v.closedForGood, stage := v.stage)
    requires v.stage == s.stage || (v.stage == NoAttempt && s.stage == AwaitRecycle)
    requires v.stage == AwaitRecycle ==> v.phase != Ready && v.phase != Degraded
    requires v.compatibility == s.compatibility || (!Operational(v.compatibility) && !v.compatibility.mutationsAllowed)
    requires (v.phase == Ready || v.phase == Degraded ==> s.phase == v.phase && v.compatibility == s.compatibility)
    requires (v.phase == Handshaking ==> s.phase == Handshaking) && (v.phase == Incompatible ==> s.phase == Incompatible)
    ensures Sound(v, o)
  {
    DeliveryLeft(s, v);
    hide Delivery;
  }

  lemma RecycledKeeps(s: Connection, o: Options, aborted: bool)
    requires Sound(s, o) && (s.stage == AwaitRecycle || s.stage == NoAttempt)
    ensures Sound(Recycled(s, o, aborted), o)
  {
    ResetKeeps(s, Reset(s).(link := Shut, phase := Disconnected, stage := NoAttempt), o);
    ConnectKeeps(Reset(s).(link := Shut, phase := Disconnected, stage := NoAttempt), o, aborted);
    hide Sound, Connect;
  }

  lemma TransportClosedKeeps(s: Connection, o: Options)
    requires Sound(s, o)
    ensures Sound(TransportClosed(s, o), o)
  {
    ResetKeeps(s, TransportClosed(s, o), o);
    hide Sound;
  }

  lemma FinishKeeps(s: Connection, o: Options)
    requires Sound(s, o)
    ensures Sound(Finish(s, o), o)
  {
    ResetKeeps(s, Finish(s, o), o);
    hide Sound;
  }

  lemma ClosedKeeps(s: Connection, o: Options)
    requires Sound(s, o) && s.stage.AwaitClose?
    ensures Sound(Closed(s, o, s.stage.incompatible), o)
  {
    DeliveryLeft(s, Closed(s, o, s.stage.incompatible));
    hide Delivery;
  }

  lemma FailKeeps(s: Connection, o: Options)
    requires |s.queue| <= o.queueLimit && Staged(s) && Delivery(s) && !Operational(s.compatibility)
    requires (s.compatibility.mutationsAllowed ==> Operational(s.compatibility)) && s.phase != Ready && s.phase != Degraded
    requires s.stage != NoAttempt && s.stage != AwaitRecycle
    ensures Sound(Fail(s), o)
  {
    DeliveryLeft(s, Fail(s));
    hide Delivery;
  }

  lemma AttemptKeeps(s: Connection, o: Options, e: Event)
    requires Sound(s, o) && Possible(s, e) && (e.TransportReady? || e.InitializeReady?)
    ensures Sound(Next(s, o, e), o)
  {
    DeliveryLeft(s, s.(phase := Handshaking, stage := AwaitInitialize(s.link == Open)));
    DeliveryLeft(s, s.(stage := AwaitNotify(s.link == Open)));
    FailKeeps(s, o);
    hide Delivery, Fail;
  }

  lemma ModesKeep(s: Connection, o: Options, ok: bool, compatible: bool)
    requires Sound(s, o) && s.stage.AwaitModes? && (ok ==> s.stage.sendable)
    ensures Sound(Assessed(s, ok, compatible), o)
  {
    var t := s.(compatibility := Compatibility(Unsupported, false), phase := Incompatible);
    DeliveryLeft(s, t);
    FailKeeps(s, o);
    FailKeeps(t, o);
    DeliveryLeft(s, s.(compatibility := Compatibility(Working, true), phase := Ready, stage := NoAttempt));
    hide Delivery, Fail;
  }

  lemma SmallStepsKeep(s: Connection, o: Options, e: Event)
    requires Sound(s, o) && Possible(s, e) && (e.TransportOpens? || e.InitializeObserved? || e.IssueRaised? || e.RecycleFails?)
    ensures Sound(Next(s, o, e), o)
  {
    DeliveryLeft(s, Next(s, o, e));
    hide Delivery;
  }

  lemma CloseKeeps(s: Connection, o: Options, abandoned: bool)
    requires Sound(s, o)
    ensures Sound(Close(s, o, abandoned), o)
  {
    var t := s.(closedForGood := true);
    DeliveryLeft(s, t.(phase := Closing, link := Leaving));
    ResetKeeps(s, Finish(t, o), o);
    hide Delivery, Finish;
  }

  lemma ReconnectKeeps(s: Connection, o: Options, aborted: bool)
    requires Sound(s, o) && s.stage == NoAttempt
    ensures Sound(Reconnect(s, o, aborted), o)
  {
    RecycledKeeps(s, o, aborted);
    DeliveryLeft(s, s.(phase := Closing, stage := AwaitRecycle, link := Leaving));
    hide Delivery, Recycled;
  }

  /** Every step keeps the invariant. */
  lemma NextKeeps(s: Connection, o: Options, e: Event)
    requires Sound(s, o) && Possible(s, e)
    ensures Sound(Next(s, o, e), o)
  {
    hide Sound, Connect, Notified, Closed, Receive, TransportClosed, Close, Finish, Reconnect, Recycled;
    match e
    case ConnectCall(aborted) => ConnectKeeps(s, o, aborted);
    case Inbound(consumerFails) => ReceiveKeeps(s, o, consumerFails);
    case NotifyReady(ok, failsAt, aborted) => NotifiedKeeps(s, o, ok, failsAt, aborted);
    case CloseReady => ClosedKeeps(s, o);
    case TransportCloses => TransportClosedKeeps(s, o);
    case CloseCall(abandoned) => CloseKeeps(s, o, abandoned);
    case CloseFinished => FinishKeeps(s, o);
    case ReconnectCall(aborted) => ReconnectKeeps(s, o, aborted);
    case RecycleReady(aborted) => RecycledKeeps(s, o, aborted);
    case TransportReady(_) => AttemptKeeps(s, o, e);
    case InitializeReady(_) => AttemptKeeps(s, o, e);
    case ModesReady(ok, compatible) => ModesKeep(s, o, ok, compatible);
    case _ => SmallStepsKeep(s, o, e);
  }

  // ---------------------------------------------------------------- runs

  predicate PossibleRun(s: Connection, o: Options, events: seq<Event>)
    decreases |events|
  {
    hide Next;
    events != [] ==> Possible(s, events[0]) && PossibleRun(Next(s, o, events[0]), o, events[1..])
  }

  function Run(s: Connection, o: Options, events: seq<Event>): Connection
    requires PossibleRun(s, o, events)
    decreases |events|
  {
    hide Next;
    if events == [] then s else Run(Next(s, o, events[0]), o, events[1..])
  }

  lemma {:induction false} RunKeeps(s: Connection, o: Options, events: seq<Event>)
    requires Sound(s, o) && PossibleRun(s, o, events)
    ensures Sound(Run(s, o, events), o)
    decreases |events|
  {
    hide Sound, Next, Possible;
    if events != [] {
      NextKeeps(s, o, events[0]);
      RunKeeps(Next(s, o, events[0]), o, events[1..]);
    }
  }

  // ---------------------------------------------------------------- what consumers and callers can rely on

  lemma PrefixLine(s: seq<nat>, t: seq<nat>, bound: nat)
    requires Line(s + t, bound)
    ensures Line(s, bound)
  {
    LinePrefix(s + t, |s|, bound);
    assert (s + t)[..|s|] == s;
  }

  /**
   In every run: nothing is delivered before the initialized notification was sent; deliveries are in
   arrival order and never repeated; the queue stays within its limit; and a handshake that completed has
   delivered every message it accepted.
   */
  lemma DeliveriesAreOrderly(o: Options, events: seq<Event>)
    requires PossibleRun(Initial(o), o, events)
    ensures var s := Run(Initial(o), o, events);
            && (s.delivered != [] ==> s.initializedSent)
            && Ascending(s.delivered)
            && |s.queue| <= o.queueLimit
            && (s.phase == Ready || s.phase == Degraded ==> s.accepted == s.delivered)
            && (!s.failed && !s.lost ==> s.accepted == s.delivered + s.queue)
  {
    InitialIsSound(o);
    hide PossibleRun, Run, Initial;
    RunKeeps(Initial(o), o, events);
    var s := Run(Initial(o), o, events);
    PrefixLine(s.delivered, s.queue, s.arrivals);
    assert s.queue == [] ==> s.delivered + s.queue == s.delivered;
  }

  lemma InitialIsSound(o: Options)
    ensures Sound(Initial(o), o)
  {
    DeliveryFresh(Initial(o));
    hide Delivery;
  }

  predicate Blocks(e: Event) { e.TransportCloses? || (e.IssueRaised? && e.degraded && !e.late) }

  predicate Succeeds(e: Event) { e.ModesReady? && e.ok && e.compatible }

  lemma BlockedStays(s: Connection, o: Options, e: Event)
    requires Possible(s, e) && !s.compatibility.mutationsAllowed && !Succeeds(e)
    ensures !Next(s, o, e).compatibility.mutationsAllowed
  {
    hide Connect, Fail, Transported, Initialized, Notified, Closed, Receive, ObserveInitializeResponse, Issue, TransportClosed, Finish, Close,
      Recycled, Reconnect;
  }

  lemma BlockingBlocks(s: Connection, o: Options, e: Event)
    requires Sound(s, o) && Possible(s, e) && Blocks(e)
    ensures !Next(s, o, e).compatibility.mutationsAllowed
  {
    hide Staged, Delivery;
  }

  /**
   A degraded issue other than a late response, or a closed transport, shuts the gate, and no run opens it
   again until a handshake completes.
   */
  lemma {:induction false} BlockedUntilConnected(s: Connection, o: Options, e: Event, events: seq<Event>)
    requires Sound(s, o) && Possible(s, e) && Blocks(e) && PossibleRun(Next(s, o, e), o, events)
    requires forall i | 0 <= i < |events| :: !Succeeds(events[i])
    ensures !Gate(Run(Next(s, o, e), o, events))
  {
    BlockingBlocks(s, o, e);
    StillBlocked(Next(s, o, e), o, events);
  }

  lemma {:induction false} StillBlocked(s: Connection, o: Options, events: seq<Event>)
    requires !s.compatibility.mutationsAllowed && PossibleRun(s, o, events)
    requires forall i | 0 <= i < |events| :: !Succeeds(events[i])
    ensures !Gate(Run(s, o, events))
    decreases |events|
  {
    hide Next, Possible;
    if events != [] {
      BlockedStays(s, o, events[0]);
      StillBlocked(Next(s, o, events[0]), o, events[1..]);
    }
  }

  /** The steps of a connection that is left to run. */
  predicate Ordinary(e: Event) {
    || e.Inbound? || e.InitializeObserved? || e.ConnectCall?
    || (e.IssueRaised? && (e.degraded ==> e.late))
  }

  /** Late responses alone, however many, never shut it. */
  lemma {:induction false} LateResponsesNeverBlock(s: Connection, o: Options, events: seq<Event>)
    requires Gate(s) && PossibleRun(s, o, events) && forall i | 0 <= i < |events| :: Ordinary(events[i])
    ensures Gate(Run(s, o, events))
    decreases |events|
  {
    hide Next, Possible;
    if events != [] {
      OrdinaryKeepsGate(s, o, events[0]);
      LateResponsesNeverBlock(Next(s, o, events[0]), o, events[1..]);
    }
  }

  lemma OrdinaryKeepsGate(s: Connection, o: Options, e: Event)
    requires Gate(s) && Possible(s, e) && Ordinary(e)
    ensures Gate(Next(s, o, e))
  {
  }

  /** Everything that shuts an open gate. */
  predicate Shuts(s: Connection, e: Event) {
    match e
    case TransportCloses => true
    case IssueRaised(degraded, late) => degraded && !late
    case CloseCall(_) => !s.closedForGood
    case CloseFinished => true
    case ReconnectCall(aborted) => MayReconnect(s, aborted)
    case _ => false
  }

  /** Whatever happens to a connection whose gate is open, exactly those events shut it. */
  lemma GateShutsIff(s: Connection, o: Options, e: Event)
    requires Sound(s, o) && Gate(s) && Possible(s, e)
    ensures !Gate(Next(s, o, e)) <==> Shuts(s, e)
  {
    if e.TransportCloses? { BlockingBlocks(s, o, e); }
    hide Delivery;
  }

  /**
   Nothing that arrives opens the gate of a connection that is being closed or recycled: no frame passes any
   more. Only the last handshake response does, when it had come before.
   */
  lemma ClosingOpensIff(s: Connection, o: Options, e: Event)
    requires Sound(s, o) && s.phase == Closing && Possible(s, e)
    ensures Gate(Next(s, o, e)) <==> Succeeds(e)
  {
    hide Delivery;
  }

  /** A recycling that awaits the end of its transport. */
  predicate Recycling(s: Connection) { s.stage == AwaitRecycle && s.link != Open && !s.closedForGood }

  /**
   A reconnect that could not close its transport leaves the connection closing exactly when no close event has come
   from the transport in the meantime.
   */
  lemma {:induction false} RecyclingSticksIff(s: Connection, o: Options, events: seq<Event>)
    requires Recycling(s) && s.phase == Closing && PossibleRun(s, o, events + [RecycleFails])
    requires forall i | 0 <= i < |events| :: !events[i].CloseCall? && !events[i].RecycleReady? && !events[i].RecycleFails?
    ensures var t := Run(s, o, events + [RecycleFails]);
            && t.stage == NoAttempt && t.link == Shut && !t.closedForGood
            && (t.phase == Closing <==> forall i | 0 <= i < |events| :: !events[i].TransportCloses?)
  {
    hide Next, Recycling;
    RunSplits(s, o, events, [RecycleFails]);
    RecyclingWaits(s, o, events);
    var u := Run(s, o, events);
    assert PossibleRun(u, o, [RecycleFails]) && Run(u, o, [RecycleFails]) == Next(u, o, RecycleFails);
    RecyclingEnds(u, o);
  }

  lemma RecyclingEnds(s: Connection, o: Options)
    requires Recycling(s) && Possible(s, RecycleFails)
    ensures var t := Next(s, o, RecycleFails); t.phase == s.phase && t.stage == NoAttempt && t.link == Shut && !t.closedForGood
  {
  }

  lemma {:induction false} RecyclingWaits(s: Connection, o: Options, events: seq<Event>)
    requires Recycling(s) && (s.phase == Closing || s.phase == Disconnected) && PossibleRun(s, o, events)
    requires forall i | 0 <= i < |events| :: !events[i].CloseCall? && !events[i].RecycleReady? && !events[i].RecycleFails?
    ensures var t := Run(s, o, events);
            && Recycling(t) && (t.phase == Closing || t.phase == Disconnected)
            && (t.phase == Closing <==> s.phase == Closing && forall i | 0 <= i < |events| :: !events[i].TransportCloses?)
    decreases |events|
  {
    hide Next, Possible, Recycling;
    if events != [] {
      RecyclingStep(s, o, events[0]);
      RecyclingWaits(Next(s, o, events[0]), o, events[1..]);
      assert forall i | 1 <= i < |events| :: events[i] == events[1..][i - 1];
    }
  }

  lemma RecyclingStep(s: Connection, o: Options, e: Event)
    requires Recycling(s) && (s.phase == Closing || s.phase == Disconnected) && Possible(s, e)
    requires !e.CloseCall? && !e.RecycleReady? && !e.RecycleFails?
    ensures var t := Next(s, o, e);
            && Recycling(t) && (t.phase == Closing || t.phase == Disconnected)
            && (t.phase == Closing <==> s.phase == Closing && !e.TransportCloses?)
  {
    hide Connect, Fail, Transported, Initialized, Notified, Assessed, Closed, Receive, Finish, Recycled, Reconnect, Close;
  }

  /** After a recycling that could not close its transport, only a close gets the connection out of closing. */
  lemma {:induction false} FailedRecyclingSticks(s: Connection, o: Options, events: seq<Event>)
    requires s.phase == Closing && s.stage == NoAttempt && s.link == Shut && !s.closedForGood
    requires PossibleRun(s, o, events) && forall i | 0 <= i < |events| :: !events[i].CloseCall?
    ensures var t := Run(s, o, events); t.phase == Closing && t.stage == NoAttempt && t.link == Shut
    decreases |events|
  {
    hide Next, Possible;
    if events != [] {
      StuckStep(s, o, events[0]);
      FailedRecyclingSticks(Next(s, o, events[0]), o, events[1..]);
    }
  }

  lemma StuckStep(s: Connection, o: Options, e: Event)
    requires s.phase == Closing && s.stage == NoAttempt && s.link == Shut && !s.closedForGood && Possible(s, e) && !e.CloseCall?
    ensures var t := Next(s, o, e); t.phase == Closing && t.stage == NoAttempt && t.link == Shut && !t.closedForGood
  {
    hide Fail, Transported, Initialized, Notified, Assessed, Closed, Receive, TransportClosed, Finish, Recycled;
  }

  /** From connecting to an open gate. */
  const HANDSHAKE: seq<Event> := [ConnectCall(false), TransportOpens, TransportReady(true), InitializeObserved, InitializeReady(true),
                                  NotifyReady(true, None, false)]

  /** What a handshake that nothing disturbs leaves before its last response is taken up. */
  function AfterHandshake(o: Options): Connection {
    Connection(Handshaking, Assess(o), true, false, [], false, AwaitModes(true), Open, 0, [], [], true, false, false, 0)
  }

  lemma RunStep(s: Connection, o: Options, e: Event, rest: seq<Event>)
    requires Possible(s, e) && PossibleRun(Next(s, o, e), o, rest)
    ensures PossibleRun(s, o, [e] + rest) && Run(s, o, [e] + rest) == Run(Next(s, o, e), o, rest)
  {
    hide Next, Possible;
    assert ([e] + rest)[1..] == rest;
  }

  lemma HandshakeRuns(o: Options, rest: seq<Event>)
    requires o.versionSupported && PossibleRun(AfterHandshake(o), o, rest)
    ensures PossibleRun(Initial(o), o, HANDSHAKE + rest)
    ensures Run(Initial(o), o, HANDSHAKE + rest) == Run(AfterHandshake(o), o, rest)
  {
    var s1 := Next(Initial(o), o, HANDSHAKE[0]);
    var s2 := Next(s1, o, HANDSHAKE[1]);
    var s3 := Next(s2, o, HANDSHAKE[2]);
    var s4 := Next(s3, o, HANDSHAKE[3]);
    var s5 := Next(s4, o, HANDSHAKE[4]);
    assert Next(s5, o, HANDSHAKE[5]) == AfterHandshake(o);
    hide Next, PossibleRun, Run;
    RunStep(s5, o, HANDSHAKE[5], rest);
    RunStep(s4, o, HANDSHAKE[4], [HANDSHAKE[5]] + rest);
    RunStep(s3, o, HANDSHAKE[3], [HANDSHAKE[4]] + ([HANDSHAKE[5]] + rest));
    RunStep(s2, o, HANDSHAKE[2], [HANDSHAKE[3]] + ([HANDSHAKE[4]] + ([HANDSHAKE[5]] + rest)));
    RunStep(s1, o, HANDSHAKE[1], [HANDSHAKE[2]] + ([HANDSHAKE[3]] + ([HANDSHAKE[4]] + ([HANDSHAKE[5]] + rest))));
    RunStep(Initial(o), o, HANDSHAKE[0], [HANDSHAKE[1]] + ([HANDSHAKE[2]] + ([HANDSHAKE[3]] + ([HANDSHAKE[4]] + ([HANDSHAKE[5]] + rest)))));
    assert HANDSHAKE + rest
        == [HANDSHAKE[0]] + ([HANDSHAKE[1]] + ([HANDSHAKE[2]] + ([HANDSHAKE[3]] + ([HANDSHAKE[4]] + ([HANDSHAKE[5]] + rest)))));
  }

  lemma LastTwo(s: Connection, o: Options, d: Event, e: Event)
    requires Possible(s, d) && Possible(Next(s, o, d), e)
    ensures PossibleRun(s, o, [d, e]) && Run(s, o, [d, e]) == Next(Next(s, o, d), o, e)
  {
    hide Next, Possible;
    RunStep(Next(s, o, d), o, e, []);
    RunStep(s, o, d, [e] + []);
    assert [d] + ([e] + []) == [d, e];
  }

  /**
   Ready does not mean open. From a fresh connection of a supported version: the handshake, a close between
   the last response and the step that waits for it, and that step. The connection is ready, its gate is
   open, and its transport is closed.
   */
  lemma ReadyMayBeClosed(o: Options)
    requires o.versionSupported
    ensures var events := HANDSHAKE + [TransportCloses, ModesReady(true, true)];
            && PossibleRun(Initial(o), o, events)
            && var t := Run(Initial(o), o, events);
               t.phase == Ready && Gate(t) && t.link == Shut && !t.initialized
  {
    LastTwo(AfterHandshake(o), o, TransportCloses, ModesReady(true, true));
    HandshakeRuns(o, [TransportCloses, ModesReady(true, true)]);
    hide PossibleRun, Run, Initial;
  }

  /** Likewise with a close by the owner in the same place: ready with an open gate, while the transport is leaving. */
  lemma ReadyMayBeLeaving(o: Options)
    requires o.versionSupported
    ensures var events := HANDSHAKE + [CloseCall(false), ModesReady(true, true)];
            && PossibleRun(Initial(o), o, events)
            && var t := Run(Initial(o), o, events);
               t.closedForGood && t.phase == Ready && Gate(t) && t.link == Leaving
  {
    LastTwo(AfterHandshake(o), o, CloseCall(false), ModesReady(true, true));
    HandshakeRuns(o, [CloseCall(false), ModesReady(true, true)]);
    hide PossibleRun, Run, Initial;
  }

  /** A reconnect whose transport does not close: the connection is closing, and neither connects nor reconnects again. */
  lemma RecyclingMayFail(o: Options)
    requires o.versionSupported
    ensures var events := HANDSHAKE + [ModesReady(true, true), ReconnectCall(false), RecycleFails];
            && PossibleRun(Initial(o), o, events)
            && var t := Run(Initial(o), o, events);
               t.phase == Closing && t.stage == NoAttempt && t.link == Shut && !t.closedForGood
  {
    var s := AfterHandshake(o);
    var ready := Next(s, o, ModesReady(true, true));
    LastTwo(ready, o, ReconnectCall(false), RecycleFails);
    RunStep(s, o, ModesReady(true, true), [ReconnectCall(false), RecycleFails]);
    assert [ModesReady(true, true)] + [ReconnectCall(false), RecycleFails] == [ModesReady(true, true), ReconnectCall(false), RecycleFails];
    HandshakeRuns(o, [ModesReady(true, true), ReconnectCall(false), RecycleFails]);
    hide PossibleRun, Run, Initial;
  }

  /** What takes an open transport down, or starts to. */
  predicate Severs(e: Event) { e.TransportCloses? || e.CloseCall? || e.CloseFinished? }

  /**
   From the step that sent the initialized notification to the one that makes the connection ready: it is
   ready on an open transport exactly when in between the transport did not close and nobody closed the
   connection.
   */
  lemma ReadyIsOpenIff(s: Connection, o: Options, sent: Event, events: seq<Event>)
    requires sent.NotifyReady? && Possible(s, sent) && Next(s, o, sent).stage.AwaitModes?
    requires PossibleRun(Next(s, o, sent), o, events + [ModesReady(true, true)])
    requires forall i | 0 <= i < |events| :: !events[i].ModesReady?
    ensures var t := Run(Next(s, o, sent), o, events + [ModesReady(true, true)]);
            && t.phase == Ready && Gate(t)
            && (t.link == Open <==> forall i | 0 <= i < |events| :: !Severs(events[i]))
  {
    var v := Next(s, o, sent);
    SentOnOpen(s, o, sent);
    hide Next;
    RunSplits(v, o, events, [ModesReady(true, true)]);
    WaitingKeeps(v, o, events);
    var u := Run(v, o, events);
    assert PossibleRun(u, o, [ModesReady(true, true)]);
    assert Run(u, o, [ModesReady(true, true)]) == Next(u, o, ModesReady(true, true));
    LastStep(u, o);
  }

  lemma SentOnOpen(s: Connection, o: Options, sent: Event)
    requires sent.NotifyReady? && Possible(s, sent) && Next(s, o, sent).stage.AwaitModes?
    ensures var v := Next(s, o, sent); v.stage.sendable == (v.link == Open) && !v.closedForGood
  {
  }

  lemma LastStep(s: Connection, o: Options)
    requires Possible(s, ModesReady(true, true))
    ensures var t := Next(s, o, ModesReady(true, true)); t.phase == Ready && Gate(t) && t.link == s.link && s.stage.sendable
  {
  }

  lemma {:induction false} RunSplits(s: Connection, o: Options, a: seq<Event>, b: seq<Event>)
    requires PossibleRun(s, o, a + b)
    ensures PossibleRun(s, o, a) && PossibleRun(Run(s, o, a), o, b)
    ensures Run(s, o, a + b) == Run(Run(s, o, a), o, b)
    decreases |a|
  {
    hide Next, Possible;
    if a == [] {
      assert a + b == b;
    } else {
      assert (a + b)[1..] == a[1..] + b;
      RunSplits(Next(s, o, a[0]), o, a[1..], b);
    }
  }

  /** While the last response is awaited the attempt stays where it is, and only a severing event changes the transport. */
  lemma {:induction false} WaitingKeeps(s: Connection, o: Options, events: seq<Event>)
    requires s.stage.AwaitModes? && PossibleRun(s, o, events) && (s.link == Open ==> !s.closedForGood)
    requires forall i | 0 <= i < |events| :: !events[i].ModesReady?
    ensures var t := Run(s, o, events);
            && t.stage == s.stage
            && (t.link == Open <==> s.link == Open && forall i | 0 <= i < |events| :: !Severs(events[i]))
    decreases |events|
  {
    hide Next, Possible;
    if events != [] {
      WaitingStep(s, o, events[0]);
      WaitingKeeps(Next(s, o, events[0]), o, events[1..]);
      assert forall i | 1 <= i < |events| :: events[i] == events[1..][i - 1];
    }
  }

  lemma WaitingStep(s: Connection, o: Options, e: Event)
    requires s.stage.AwaitModes? && Possible(s, e) && !e.ModesReady? && (s.link == Open ==> !s.closedForGood)
    ensures var t := Next(s, o, e);
            && t.stage == s.stage
            && (t.link == Open <==> s.link == Open && !Severs(e))
            && (t.link == Open ==> !t.closedForGood)
  {
    hide Connect, Fail, Transported, Initialized, Notified, Assessed, Closed, Recycled, Reconnect, Receive, Close, Finish, TransportClosed, Issue,
      ObserveInitializeResponse;
    ReceivingStays(s, o);
    ClosingStays(s, o);
    IssuesStay(s, o);
  }

  lemma ClosingStays(s: Connection, o: Options)
    ensures forall a :: Close(s, o, a).stage == s.stage && (!s.closedForGood ==> Close(s, o, a).link != Open)
    ensures forall a :: s.closedForGood ==> Close(s, o, a) == s
    ensures Finish(s, o).stage == s.stage && Finish(s, o).link == Shut
    ensures TransportClosed(s, o).stage == s.stage && TransportClosed(s, o).link == Shut
  {
  }

  lemma IssuesStay(s: Connection, o: Options)
    ensures forall d, l :: var v := Issue(s, d, l); v.stage == s.stage && v.link == s.link && v.closedForGood == s.closedForGood
    ensures var v := ObserveInitializeResponse(s); v.stage == s.stage && v.link == s.link && v.closedForGood == s.closedForGood
  {
  }

  lemma ReceivingStays(s: Connection, o: Options)
    ensures forall fails :: var v := Receive(s, o, fails); v.stage == s.stage && v.link == s.link && v.closedForGood == s.closedForGood
  {
  }
}
