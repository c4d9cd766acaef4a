/** Responses to server requests: at most one per request gets out, and an old one never touches a newer request. */
module BrokerReplies {
  import opened Common
  import opened Broker
  import opened BrokerRequests

  // ---------------------------------------------------------------- the invariant

  /** Entries are known by their tokens; a token is never used again. */
  predicate Tokens(server: map<RequestId, ServerEntry>, replies: seq<Reply>, awaiting: set<nat>, nextToken: nat) {
    && (forall id | id in server :: server[id].token < nextToken)
    && (forall r | r in replies :: r.token < nextToken)
    && (forall a, b | a in server && b in server && server[a].token == server[b].token :: a == b)
    && (forall k | k in awaiting :: k < |replies|)
  }

  /** A later response for the same request is only ever tried after the earlier ones ended without leaving. */
  predicate OneEach(replies: seq<Reply>, awaiting: set<nat>) {
    forall i, j | 0 <= i < j < |replies| && replies[i].token == replies[j].token :: !replies[i].leaves && i !in awaiting
  }

  /** What an entry says about the responses tried so far. */
  predicate Entries(server: map<RequestId, ServerEntry>, replies: seq<Reply>, awaiting: set<nat>) {
    forall id, k | id in server && 0 <= k < |replies| && replies[k].token == server[id].token ::
      if k in awaiting then server[id].responding && replies[k].id == id else !replies[k].leaves
  }

  predicate Orderly(s: State) {
    && Tokens(s.server, s.replies, s.awaiting, s.nextToken)
    && OneEach(s.replies, s.awaiting)
    && Entries(s.server, s.replies, s.awaiting)
  }

  // ---------------------------------------------------------------- steps

  lemma DropKeeps(s: State, v: State)
    requires Orderly(s)
    requires v.replies == s.replies && v.nextToken == s.nextToken && v.awaiting <= s.awaiting
    requires forall id | id in v.server :: id in s.server && v.server[id] == s.server[id]
    requires forall id, k | id in v.server && k in s.awaiting && k !in v.awaiting :: s.replies[k].token != v.server[id].token
    ensures Orderly(v)
  {
  }

  lemma TurnDownKeeps(s: State, id: RequestId, generation: nat, leaves: bool)
    requires Orderly(s)
    ensures Orderly(TurnDown(s, id, generation, leaves))
  {
    var v := TurnDown(s, id, generation, leaves);
    assert forall k | 0 <= k < |s.replies| :: v.replies[k] == s.replies[k] && s.replies[k] in s.replies;
  }

  lemma AcceptKeeps(s: State, id: RequestId, generation: nat)
    requires Orderly(s) && id !in s.server
    ensures Orderly(Accept(s, id, generation))
  {
    var v := Accept(s, id, generation);
    assert forall k | 0 <= k < |s.replies| :: s.replies[k] in s.replies;
  }

  lemma ServerRequestKeeps(s: State, l: Limits, f: Frame, generation: nat)
    requires f.ServerRequest? && Orderly(s)
    ensures Orderly(ReceiveServerRequest(s, l, f, generation))
  {
    TurnDownKeeps(s, f.serverId, generation, f.leaves);
    if f.serverId !in s.server {
      AcceptKeeps(s, f.serverId, generation);
      var s1 := Accept(s, f.serverId, generation);
      DropKeeps(s1, RaiseFatal(s1.(server := s1.server - {f.serverId})));
    }
    hide Tokens, OneEach, Entries, TurnDown, Accept;
  }

  /** Claiming an entry and handing its response to the transport. */
  function Claimed(s: State, id: RequestId, leaves: bool): State
    requires id in s.server
  {
    Claim(s, id).(replies := s.replies + [Reply(id, s.server[id].token, s.server[id].generation, leaves)],
                  awaiting := s.awaiting + {|s.replies|})
  }

  lemma ClaimedKeeps(s: State, id: RequestId, leaves: bool)
    requires Orderly(s) && Claimable(s, id)
    ensures Orderly(Claimed(s, id, leaves))
  {
    var v := Claimed(s, id, leaves);
    var n := |s.replies|;
    assert v.server == s.server[id := s.server[id].(responding := true)];
    assert forall k | 0 <= k < n :: v.replies[k] == s.replies[k] && s.replies[k] in s.replies;
    assert v.replies[n].token == s.server[id].token && v.replies[n].id == id;
    ClaimedTokens(s, v, id);
    ClaimedOneEach(s, v, id);
    ClaimedEntries(s, v, id);
    hide Tokens, OneEach, Entries;
  }

  /** One more response, of this entry, has been tried and is awaited. */
  predicate OneMore(s: State, v: State, id: RequestId) {
    var n := |s.replies|;
    && id in s.server && v.server == s.server[id := s.server[id].(responding := true)]
    && |v.replies| == n + 1 && v.replies[..n] == s.replies && v.replies[n].token == s.server[id].token && v.replies[n].id == id
    && v.awaiting == s.awaiting + {n} && v.nextToken == s.nextToken
  }

  lemma ClaimedTokens(s: State, v: State, id: RequestId)
    requires Orderly(s) && OneMore(s, v, id)
    ensures Tokens(v.server, v.replies, v.awaiting, v.nextToken)
  {
    hide OneEach, Entries;
    forall r | r in v.replies ensures r.token < v.nextToken {
      if r !in s.replies { assert r == v.replies[|s.replies|]; }
    }
  }

  lemma ClaimedOneEach(s: State, v: State, id: RequestId)
    requires Orderly(s) && OneMore(s, v, id) && !s.server[id].responding
    ensures OneEach(v.replies, v.awaiting)
  {
    hide Tokens;
    forall i, j | 0 <= i < j < |v.replies| && v.replies[i].token == v.replies[j].token ensures !v.replies[i].leaves && i !in v.awaiting {
      assert v.replies[i] == s.replies[i];
      if j < |s.replies| { assert v.replies[j] == s.replies[j]; }
    }
  }

  lemma ClaimedEntries(s: State, v: State, id: RequestId)
    requires Orderly(s) && OneMore(s, v, id)
    ensures Entries(v.server, v.replies, v.awaiting)
  {
    hide OneEach;
    forall other, k | other in v.server && 0 <= k < |v.replies| && v.replies[k].token == v.server[other].token
      ensures if k in v.awaiting then v.server[other].responding && v.replies[k].id == other else !v.replies[k].leaves
    {
      assert v.server[other].token == s.server[other].token;
      if k < |s.replies| { assert v.replies[k] == s.replies[k]; } else { assert other == id; }
    }
  }

  lemma FinishKeeps(s: State, k: nat, error: Option<SendError>)
    requires Orderly(s) && k in s.awaiting && k < |s.replies|
    requires error.Some? ==> TruthfulReply(error.value, s.replies[k].leaves)
    ensures Orderly(FinishReply(s, k, error))
  {
    var v := FinishReply(s, k, error);
    var r := s.replies[k];
    if r.id in v.server && r.id in s.server && s.server[r.id].token == r.token {
      assert !r.leaves;
      assert v.server == s.server[r.id := s.server[r.id].(responding := false)];
      OneAwaited(s, k);
    } else {
      FinishDrops(s, k, error);
      hide FinishReply;
      DropKeeps(s, v);
    }
  }

  /** Of the responses to one request at most one is awaited. */
  lemma OneAwaited(s: State, k: nat)
    requires Orderly(s) && k in s.awaiting && k < |s.replies|
    ensures forall i | 0 <= i < |s.replies| && s.replies[i].token == s.replies[k].token && i in s.awaiting :: i == k
  {
    hide Entries;
  }

  lemma FinishDrops(s: State, k: nat, error: Option<SendError>)
    requires Orderly(s) && k in s.awaiting && k < |s.replies|
    requires var r := s.replies[k]; !(r.id in FinishReply(s, k, error).server && r.id in s.server && s.server[r.id].token == r.token)
    ensures var v := FinishReply(s, k, error);
            && v.replies == s.replies && v.nextToken == s.nextToken && v.awaiting == s.awaiting - {k}
            && (forall id | id in v.server :: id in s.server && v.server[id] == s.server[id])
            && forall id | id in v.server :: s.replies[k].token != v.server[id].token
  {
    hide OneEach;
  }

  lemma StartKeeps(s: State, id: RequestId, valid: bool, start: SendStart, leaves: bool)
    requires Orderly(s) && (start.Thrown? ==> TruthfulReply(start.error, leaves))
    ensures Orderly(StartReply(s, id, valid, start, leaves))
  {
    if Claimable(s, id) {
      ClaimedKeeps(s, id, leaves);
      var s1 := Claimed(s, id, leaves);
      if start.Thrown? { FinishKeeps(s1, |s.replies|, Some(start.error)); }
      hide Tokens, OneEach, Entries, FinishReply;
    } else {
      ClaimKeeps(s, id);
      hide Orderly;
    }
  }

  /** A claim that is refused drops the entry at most. */
  lemma ClaimKeeps(s: State, id: RequestId)
    requires Orderly(s) && !Claimable(s, id)
    ensures Orderly(Claim(s, id))
  {
    if id in s.server && s.server[id].generation == s.generation && s.open {
      assert Claim(s, id).server == s.server;
    } else {
      DropKeeps(s, Claim(s, id));
    }
  }

  lemma OtherSteps(s: State, l: Limits, e: Event)
    requires Possible(s, e) && !e.Reject? && !e.ReplyEnds? && !(e.Arrives? && e.frame.ServerRequest?)
    ensures var v := Next(s, l, e);
            v.replies == s.replies && v.awaiting == s.awaiting && v.nextToken == s.nextToken && (v.server == s.server || v.server == map[])
  {
    hide FailPending, ReceiveResponse, ReceiveNotification, Request, SendRejected, Cancel, RaiseFatal;
  }

  /** Every step keeps the order of responses. */
  lemma NextKeepsOrder(s: State, l: Limits, e: Event)
    requires Orderly(s) && Possible(s, e)
    ensures Orderly(Next(s, l, e))
  {
    if e.Reject? { StartKeeps(s, e.serverId, e.optionsValid, e.start, e.leaves); }
    else if e.ReplyEnds? { FinishKeeps(s, e.reply, e.result); }
    else if e.Arrives? && e.frame.ServerRequest? {
      ServerRequestKeeps(s, l, e.frame, e.generation);
      hide Orderly, ReceiveServerRequest;
      FatalKeeps(s);
    } else {
      OtherSteps(s, l, e);
      DropKeeps(s, Next(s, l, e));
    }
  }

  lemma FatalKeeps(s: State)
    requires Orderly(s)
    ensures Orderly(RaiseFatal(s))
  {
  }

  lemma {:induction false} RunKeepsOrder(s: State, l: Limits, events: seq<Event>)
    requires Orderly(s) && PossibleRun(s, l, events)
    ensures Orderly(Run(s, l, events))
    decreases |events|
  {
    hide Orderly, Next, Possible;
    if events != [] {
      NextKeepsOrder(s, l, events[0]);
      RunKeepsOrder(Next(s, l, events[0]), l, events[1..]);
    }
  }

  /**
   In every run at most one response frame of each server request instance gets out, and a second one is
   tried only when every earlier one is known not to have left.
   */
  lemma OneResponsePerRequest(l: Limits, events: seq<Event>)
    requires PossibleRun(INITIAL, l, events)
    ensures var r := Run(INITIAL, l, events).replies;
            && (forall i, j | 0 <= i < |r| && 0 <= j < |r| && i != j && r[i].token == r[j].token :: !(r[i].leaves && r[j].leaves))
            && (forall i, j | 0 <= i < j < |r| && r[i].token == r[j].token :: !r[i].leaves)
  {
    assert Orderly(INITIAL);
    hide Run, PossibleRun, Tokens, Entries, OneEach;
    RunKeepsOrder(INITIAL, l, events);
    OneEachMeans(Run(INITIAL, l, events).replies, Run(INITIAL, l, events).awaiting);
  }

  lemma OneEachMeans(r: seq<Reply>, awaiting: set<nat>)
    requires OneEach(r, awaiting)
    ensures forall i, j | 0 <= i < j < |r| && r[i].token == r[j].token :: !r[i].leaves
    ensures forall i, j | 0 <= i < |r| && 0 <= j < |r| && i != j && r[i].token == r[j].token :: !(r[i].leaves && r[j].leaves)
  {
    forall i, j | 0 <= i < |r| && 0 <= j < |r| && i != j && r[i].token == r[j].token ensures !(r[i].leaves && r[j].leaves) {
      if i < j { assert !r[i].leaves; } else { assert !r[j].leaves; }
    }
  }

  /** The end of a response touches no entry but its own, even when a newer request has the same id. */
  lemma OldResponseTouchesOnlyItsOwn(s: State, k: nat, error: Option<SendError>)
    requires k < |s.replies|
    ensures var v := FinishReply(s, k, error);
            && (forall id | id in s.server && s.server[id].token != s.replies[k].token :: id in v.server && v.server[id] == s.server[id])
            && (forall id | id in v.server :: id in s.server)
  {
  }
}
