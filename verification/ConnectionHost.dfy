/** The connection as it runs: an object whose handlers and continuations are the steps of the state machine. */
module ConnectionHost {
  import opened Common
  import opened C = Connection

  class AppServerConnection {
    const options: Options
    var phase: Phase
    var compatibility: Compatibility
    var initialized: bool
    var responseObserved: bool
    var queue: seq<nat>
    var closedForGood: bool
    // where the running attempt is suspended, and what state the transport is in
    var stage: Stage
    var link: Link
    // callbacks made, and their history
    var delivered: seq<nat>
    var violations: nat
    var arrivals: nat
    ghost var accepted: seq<nat>
    ghost var initializedSent: bool
    ghost var failed: bool
    ghost var lost: bool

    ghost function Now(): C.Connection
      reads this
    {
      C.Connection.Connection(phase, compatibility, initialized, responseObserved, queue, closedForGood, stage, link,
                            arrivals, accepted, delivered, initializedSent, failed, lost, violations)
    }

    ghost predicate Valid()
      reads this
    {
      Sound(Now(), options)
    }

    constructor (o: Options)
      ensures Now() == Initial(o) && options == o
      ensures Valid()
    {
      InitialIsSound(o);
      hide Sound;
      options := o;
      phase, compatibility, initialized, responseObserved, queue := Idle, Assess(o), false, false, [];
      closedForGood, stage, link := false, NoAttempt, Shut;
      delivered, violations, arrivals := [], 0, 0;
      accepted, initializedSent, failed, lost := [], false, false, false;
    }

    method Reset()
      modifies this
      ensures Now() == C.Reset(old(Now()))
    {
      lost := lost || queue != [];
      initialized, responseObserved, queue := false, false, [];
    }

    // -------------------------------------------------------------- connecting

    /** A new attempt starts from a clean slate. */
    method Begin()
      modifies `phase, `stage, `link, `initialized, `responseObserved, `queue, `delivered, `accepted, `initializedSent, `failed, `lost
      ensures phase == Connecting && stage == AwaitTransport(false) && link == Dialing && !initialized && !responseObserved && queue == []
      ensures delivered == [] && accepted == [] && !initializedSent && !failed && !lost
    {
      phase, stage, link := Connecting, AwaitTransport(false), Dialing;
      initialized, responseObserved, queue := false, false, [];
      delivered := [];
      accepted, initializedSent, failed, lost := [], false, false, false;
    }

    /**
     An attempt starts from rest only, with nothing queued, on a supported version, over a transport that is shut,
     and never opens the gate.
     */
    method Connect(aborted: bool)
      modifies this
      ensures Now() == C.Connect(old(Now()), options, aborted)
      ensures phase == Connecting && old(phase) != Connecting ==>
                && (old(phase) == Idle || old(phase) == Disconnected || old(phase) == Incompatible)
                && !old(closedForGood) && !aborted && options.versionSupported
                && stage == AwaitTransport(false) && link == Dialing && queue == [] && !initialized && delivered == []
      ensures old(Valid() && stage == NoAttempt) && link == Dialing ==> old(link) == Shut
      ensures Gate(Now()) ==> Gate(old(Now())) && Now() == old(Now())
      ensures closedForGood == old(closedForGood) && (link == old(link) || link == Dialing)
      ensures old(Valid() && stage == NoAttempt) ==> Valid()
    {
      if Valid() && stage == NoAttempt { ConnectKeeps(Now(), options, aborted); }
      hide Sound;
      if closedForGood || aborted { return; }
      if phase != Idle && phase != Disconnected && phase != Incompatible { return; }
      compatibility := Assess(options);
      if options.versionSupported { Begin(); } else { phase := Incompatible; }
    }

    /** What is still open, or opening, is on its way down from here. */
    method LeaveLink()
      modifies `link
      ensures link == Left(old(link)) && link != Open && link != Dialing
    {
      if link != Shut { link := Leaving; }
    }

    /** The catch of the handshake starts by closing the transport. */
    method Fail()
      modifies this
      ensures Now() == C.Fail(old(Now()))
      ensures stage.AwaitClose? && failed && link != Open && link != Dialing
    {
      stage, failed := AwaitClose(compatibility.level == Unsupported), true;
      LeaveLink();
    }

    method TransportReady(ok: bool)
      modifies this
      ensures Now() == C.Transported(old(Now()), ok)
    {
      if !ok {
        Fail();
        return;
      }
      phase, stage := Handshaking, AwaitInitialize(link == Open);
    }

    method InitializeReady(ok: bool)
      modifies this
      ensures Now() == C.Initialized(old(Now()), ok)
    {
      if ok { stage := AwaitNotify(link == Open); } else { Fail(); }
    }

    /** Hands the queue over, one message after the other; stops where a consumer fails. */
    method Flush(failsAt: Option<nat>) returns (ok: bool)
      modifies this
      ensures ok == !(failsAt.Some? && failsAt.value < |old(queue)|)
      ensures Now() == old(Now()).(queue := [], responseObserved := false,
                delivered := old(delivered) + (if ok then old(queue) else old(queue)[..failsAt.value + 1]),
                lost := old(lost) || (!ok && failsAt.value + 1 < |old(queue)|))
    {
      var queued := queue;
      queue, responseObserved := [], false;
      var i := 0;
      while i < |queued|
        modifies `delivered, `lost
        invariant i <= |queued| && (failsAt.Some? ==> failsAt.value >= i)
        invariant delivered == old(delivered) + queued[..i] && lost == old(lost)
      {
        delivered := delivered + [queued[i]];
        assert old(delivered) + queued[..i + 1] == (old(delivered) + queued[..i]) + [queued[i]];
        if failsAt == Some(i) {
          lost := lost || i + 1 < |queued|;
          assert delivered == old(delivered) + old(queue)[..failsAt.value + 1];
          return false;
        }
        i := i + 1;
      }
      assert queued[..i] == queued;
      assert delivered == old(delivered) + old(queue);
      ok := true;
    }

    /**
     Nothing is delivered here unless the notification went out; what is delivered is the queue from its
     front, and all of it when the attempt goes on.
     */
    method NotifyReady(ok: bool, failsAt: Option<nat>, aborted: bool)
      modifies this
      ensures Now() == C.Notified(old(Now()), ok, failsAt, aborted)
      ensures delivered != old(delivered) ==> ok && initializedSent
      ensures old(delivered) <= delivered <= old(delivered) + old(queue)
      ensures stage.AwaitModes? ==> initialized && delivered == old(delivered) + old(queue) && queue == []
      ensures stage.AwaitModes? || (stage.AwaitClose? && failed)
      ensures old(Valid() && stage.AwaitNotify?) ==> Valid()
    {
      if Valid() && stage.AwaitNotify? { NotifiedKeeps(Now(), options, ok, failsAt, aborted); }
      hide Sound;
      NotifiedEffect(Now(), ok, failsAt, aborted);
      hide C.Fail;
      if !ok {
        initialized := false;
        Fail();
        return;
      }
      initialized, initializedSent := true, true;
      var flushed := Flush(failsAt);
      if !flushed || aborted {
        Fail();
        return;
      }
      stage := AwaitModes(link == Open);
    }

    method ModesReady(ok: bool, compatible: bool)
      modifies this
      ensures Now() == C.Assessed(old(Now()), ok, compatible)
    {
      if !ok {
        Fail();
      } else if !compatible {
        compatibility, phase := Compatibility(Unsupported, false), Incompatible;
        Fail();
      } else {
        compatibility, phase, stage := Compatibility(Working, true), Ready, NoAttempt;
      }
    }

    /** A failed attempt is over: at rest, with the gate and the transport shut and nothing queued. */
    method CloseReady()
      requires stage.AwaitClose?
      modifies this
      ensures Now() == C.Closed(old(Now()), options, old(stage.incompatible))
      ensures phase == Disconnected || phase == Incompatible
      ensures stage == NoAttempt && link == Shut && queue == [] && !initialized && !Gate(Now())
      ensures old(Valid()) ==> !compatibility.mutationsAllowed
      ensures old(Valid()) ==> Valid()
    {
      if Valid() { ClosedKeeps(Now(), options); }
      var incompatible := stage.incompatible;
      if !incompatible { compatibility := Assess(options); }
      Reset();
      phase, stage, link := if incompatible then Incompatible else Disconnected, NoAttempt, Shut;
    }

    // -------------------------------------------------------------- what arrives

    predicate InboundAllowed()
      reads this
    {
      initialized || (phase == Handshaking && responseObserved)
    }

    method Deliver(message: nat, consumerFails: bool)
      modifies this
      ensures Now() == C.Deliver(old(Now()), message, consumerFails)
    {
      delivered, accepted := delivered + [message], accepted + [message];
      if consumerFails { violations := violations + 1; }
    }

    /** Messages that come too early, or too many, end the connection. */
    method Enqueue(message: nat)
      modifies this
      ensures Now() == C.Enqueue(old(Now()), options, message)
    {
      if !InboundAllowed() || |queue| >= options.queueLimit {
        violations := violations + 1;
        return;
      }
      queue, accepted := queue + [message], accepted + [message];
    }

    /** A message is delivered, or queued behind the others, or ends the connection; never two of these. */
    method Receive(consumerFails: bool)
      modifies this
      ensures Now() == C.Receive(old(Now()), options, consumerFails)
      ensures if old(initialized) then delivered == old(delivered) + [old(arrivals)] && queue == old(queue)
              else if old(InboundAllowed()) && |old(queue)| < options.queueLimit then
                delivered == old(delivered) && queue == old(queue) + [old(arrivals)]
              else delivered == old(delivered) && queue == old(queue) && violations == old(violations) + 1
      ensures arrivals == old(arrivals) + 1 && phase == old(phase) && compatibility == old(compatibility)
      ensures old(Valid() && link == Open) ==> Valid()
    {
      if Valid() && link == Open { ReceiveKeeps(Now(), options, consumerFails); }
      hide Sound;
      ReceiveEffect(Now(), options, consumerFails);
      hide C.Deliver, C.Enqueue;
      var message := arrivals;
      arrivals := arrivals + 1;
      if initialized { Deliver(message, consumerFails); } else { Enqueue(message); }
    }

    method ObserveInitializeResponse()
      modifies `responseObserved
      ensures Now() == C.ObserveInitializeResponse(old(Now()))
    {
      if phase == Handshaking { responseObserved := true; }
    }

    /** The policy on mutations only ever gets stricter, and only for a degraded issue that is not a late response. */
    method ReceiveIssue(degraded: bool, late: bool)
      modifies this
      ensures Now() == C.Issue(old(Now()), degraded, late)
      ensures compatibility.mutationsAllowed ==> old(compatibility.mutationsAllowed)
      ensures old(Valid()) && old(compatibility.mutationsAllowed) ==> (compatibility.mutationsAllowed <==> !(degraded && !late))
      ensures old(Valid()) && degraded && old(compatibility.mutationsAllowed) ==> phase == Degraded
      ensures old(Valid() && (degraded ==> link == Open)) ==> Valid()
    {
      if Valid() && (degraded ==> link == Open) { SmallStepsKeep(Now(), options, IssueRaised(degraded, late)); }
      if degraded && (compatibility.level == Impaired || compatibility.level == Working) {
        compatibility := Compatibility(Impaired, late && compatibility.mutationsAllowed);
        phase := Degraded;
      }
    }

    /** The gate is shut, and what was queued is gone. */
    method ReceiveTransportClose()
      modifies this
      ensures Now() == C.TransportClosed(old(Now()), options)
      ensures link == Shut && queue == [] && !initialized && !Gate(Now())
      ensures old(Valid()) ==> !compatibility.mutationsAllowed
      ensures phase == old(phase) || phase == Disconnected
      ensures old(Valid()) ==> Valid()
    {
      if Valid() { TransportClosedKeeps(Now(), options); }
      Reset();
      link := Shut;
      if phase == Incompatible { return; }
      compatibility := Assess(options);
      if phase != Connecting && phase != Handshaking { phase := Disconnected; }
    }

    // -------------------------------------------------------------- closing and recycling

    method FinishClose()
      modifies this
      ensures Now() == C.Finish(old(Now()), options)
    {
      Reset();
      link, compatibility, phase := Shut, Assess(options), Disconnected;
    }

    /** No attempt starts any more, and the first close shuts the gate and takes the transport down. */
    method Close(abandoned: bool)
      modifies this
      ensures Now() == C.Close(old(Now()), options, abandoned)
      ensures closedForGood && forall aborted :: !MayConnect(Now(), aborted) && C.Reconnect(Now(), options, aborted) == Now()
      ensures !old(closedForGood) ==> !Gate(Now()) && link != Open && link != Dialing
      ensures !old(closedForGood) && old(link) != Shut && !abandoned ==> phase == Closing && link == Leaving
      ensures old(Valid()) ==> Valid() && link != Open
    {
      if Valid() { CloseKeeps(Now(), options, abandoned); }
      hide Delivery, Staged, Gated;
      if closedForGood { return; }
      closedForGood := true;
      if link != Shut && !abandoned { phase, link := Closing, Leaving; } else { FinishClose(); }
    }

    method FinishRecycle(aborted: bool)
      modifies this
      ensures Now() == C.Recycled(old(Now()), options, aborted)
    {
      Reset();
      phase, stage, link := Disconnected, NoAttempt, Shut;
      Connect(aborted);
    }

    /** The transport could not be closed: the reconnect ends here, and the connection stays closing. */
    method FailRecycle()
      modifies `stage, `link
      ensures Now() == old(Now()).(stage := NoAttempt, link := Shut)
    {
      stage, link := NoAttempt, Shut;
    }

    /** An open transport is taken down before a new attempt starts, and either way the gate is shut. */
    method Reconnect(aborted: bool)
      modifies this
      ensures Now() == C.Reconnect(old(Now()), options, aborted)
      ensures phase == Connecting && old(phase) != Connecting ==> old(link) == Shut && stage == AwaitTransport(false)
      ensures old(link) == Open ==> Now() == old(Now()) || (phase == Closing && stage == AwaitRecycle && link == Leaving)
      ensures Gate(Now()) ==> Now() == old(Now()) && !MayReconnect(Now(), aborted)
      ensures old(Valid() && stage == NoAttempt) ==> Valid()
    {
      if Valid() && stage == NoAttempt { ReconnectKeeps(Now(), options, aborted); }
      hide Sound;
      if closedForGood || aborted || phase == Closing || phase == Connecting || phase == Handshaking { return; }
      if link == Leaving || link == Dialing { return; }
      if link == Open { phase, stage, link := Closing, AwaitRecycle, Leaving; } else { FinishRecycle(aborted); }
    }

    // -------------------------------------------------------------- one turn of the event loop

    /** Whatever comes next: its handler or continuation runs to completion, and the account stays in order. */
    method Handle(e: Event)
      requires Valid() && Possible(Now(), e)
      modifies this
      ensures Now() == Next(old(Now()), options, e)
      ensures Valid()
    {
      NextKeeps(Now(), options, e);
      hide Sound, C.Connect, C.Transported, C.Initialized, C.Notified, C.Assessed, C.Closed, C.Receive, C.ObserveInitializeResponse, C.Issue,
        C.TransportClosed, C.Close, C.Finish, C.Reconnect, C.Recycled;
      match e {
        case ConnectCall(aborted) => Connect(aborted);
        case TransportOpens => link, stage := Open, AwaitTransport(true);
        case TransportReady(ok) => TransportReady(ok);
        case InitializeObserved => ObserveInitializeResponse();
        case InitializeReady(ok) => InitializeReady(ok);
        case NotifyReady(ok, failsAt, aborted) => NotifyReady(ok, failsAt, aborted);
        case ModesReady(ok, compatible) => ModesReady(ok, compatible);
        case CloseReady => CloseReady();
        case Inbound(consumerFails) => Receive(consumerFails);
        case IssueRaised(degraded, late) => ReceiveIssue(degraded, late);
        case TransportCloses => ReceiveTransportClose();
        case CloseCall(abandoned) => Close(abandoned);
        case CloseFinished => FinishClose();
        case ReconnectCall(aborted) => Reconnect(aborted);
        case RecycleReady(aborted) => FinishRecycle(aborted);
        case RecycleFails => FailRecycle();
      }
    }

    // -------------------------------------------------------------- the gate

    /**
     Requests, responses and rejections are turned away here before they reach the broker. What passes comes
     after a handshake that failed nowhere and has delivered every message it accepted.
     */
    method Admit() returns (ok: bool)
      ensures ok == Gate(Now())
      ensures ok && Valid() ==> !failed && queue == [] && accepted == delivered && (link == Open ==> initialized && initializedSent)
    {
      ok := (phase == Ready || phase == Degraded) && compatibility.mutationsAllowed;
    }
  }
}
