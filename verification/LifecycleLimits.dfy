/** Where the protocol does not keep its promise, and exactly when that can happen. */
module LifecycleLimits {
  import opened Common
  import opened SemVer
  import opened Journal
  import opened Lifecycle
  import opened LifecycleSafety
  import opened LifecyclePrepare
  import opened LifecycleInstall
  import opened LifecycleUpgrade
  import opened LifecycleCommands
  import opened LifecycleUninstall
  import opened LifecycleRuns
  import opened LifecycleOutcomes
  import opened LifecycleProgress
  import opened LifecycleReplay

  // ---------------------------------------------------------------- a leftover release with another environment file

  /** Where an install that reuses a leftover release is after its sixth step. */
  function AfterSixSteps(w: World, r: Request): World {
    w.(journal := Some(FreshTransaction(r).(phase := Prepared)), environment := Some(r.environment))
  }

  const SIX: seq<Choice> := [Go, Go, Go, Go, Go, Go]

  /** An install that will use a release an earlier attempt left behind. */
  predicate Reuses(w: World, r: Request) {
    && Inv(w) && Idle(w) && w.current.None? && PublishedReleases(w)
    && ValidPackage(r.package) && Published(w, SelectorOf(r.package))
    && ManifestOf(w, SelectorOf(r.package)).runtime == r.runtime
  }

  lemma BeginReuse(w: World, r: Request)
    requires Reuses(w, r)
    ensures FreshBegin(Cfg(w, SIX), r) == Done(Cfg(w.(journal := Some(FreshTransaction(r).(phase := Prepared))), [Go]))
  {
    IdleInspects(w);
    IdleJournal(w);
    var t := FreshTransaction(r);
    var v := w.(journal := Some(t));
    assert Published(v, t.next) && ManifestOf(v, t.next) == ManifestOf(w, t.next);
    hide Inv, Idle, PublishedReleases, Complete, ReleaseSelector;
    assert SIX[1..] == [Go, Go, Go, Go, Go];
    assert [Go, Go, Go, Go, Go][1..] == [Go, Go, Go, Go];
    assert [Go, Go, Go, Go][1..] == [Go, Go, Go];
    assert [Go, Go, Go][1..] == [Go, Go];
    assert [Go, Go][1..] == [Go];
    assert WriteJournal(Cfg(w, [Go, Go, Go, Go]), t) == Done(Cfg(v, [Go, Go, Go]));
    assert PrepareAndMark(Cfg(v, [Go, Go, Go]), t, RequestManifest(r)) == Done(Cfg(w.(journal := Some(t.(phase := Prepared))), [Go]));
  }

  lemma SixStepsIn(w: World, r: Request)
    requires Reuses(w, r)
    ensures FreshInstall(Cfg(w, SIX), r) == Crashed(AfterSixSteps(w, r))
  {
    BeginReuse(w, r);
    ReusesMeans(w, r);
    hide Inv, Idle, PublishedReleases, Complete, FreshBegin;
    assert [Go][1..] == [];
    var c := Cfg(w.(journal := Some(FreshTransaction(r).(phase := Prepared))), [Go]);
    assert PublishEnvironment(c, r.environment) == Done(Cfg(AfterSixSteps(w, r), []));
  }

  lemma ReusesMeans(w: World, r: Request)
    requires Reuses(w, r)
    ensures ArtifactsAbsent(w) && w.journal.None? && Inv(w) && Idle(w) && w.current.None? && ValidPackage(r.package)
  {
  }

  lemma ReuseBreaks(w: World, r: Request)
    requires Reuses(w, r) && ManifestOf(w, SelectorOf(r.package)).environment != r.environment
    ensures !Inv(FreshInstall(Cfg(w, SIX), r).After())
  {
    hide Reuses, Inv, Idle, FreshInstall, Complete, Mismatched;
    SixStepsIn(w, r);
    SixStepsMismatch(w, r);
    MismatchBreaks(AfterSixSteps(w, r));
  }

  /** A pending install whose environment file is not the one its release was made for. */
  predicate Mismatched(w: World) {
    && w.journal.Some? && w.journal.value.Change? && w.journal.value.previous.None?
    && Published(w, w.journal.value.next)
    && w.environment.Some? && w.environment.value != ManifestOf(w, w.journal.value.next).environment
  }

  lemma SixStepsMismatch(w: World, r: Request)
    requires Reuses(w, r) && ManifestOf(w, SelectorOf(r.package)).environment != r.environment
    ensures Mismatched(AfterSixSteps(w, r))
  {
    assert Published(AfterSixSteps(w, r), SelectorOf(r.package));
    hide Inv, Idle, Complete, PublishedReleases, ReleaseSelector;
  }

  lemma MismatchBreaks(w: World)
    requires Mismatched(w)
    ensures !Inv(w)
  {
    hide Complete, StageFacts, AbsentShape;
  }

  lemma MismatchCannotRecover(w: World, plan: seq<Choice>)
    requires Mismatched(w)
    ensures var o := Recover(Cfg(w, plan));
            !o.Done? && o.After() == w
  {
    hide Complete, Step, UndoUpgrade, DisableIfPresent, RemoveSelector, RemoveAnchors, RemoveEnvironment, Reload, RemoveStaging, RemoveJournal,
      RecoverableBeforePublish;
  }

  lemma MismatchRefuses(w: World, l: Launch)
    requires Mismatched(w)
    ensures var o := Execute(w, l);
            !o.Done? && o.After() == w
  {
    MismatchCannotRecover(w, l.plan);
    assert w.journal.Some? && w.journal.value.Change?;
    hide Mismatched, Recover, Inspect, InstallAgain, FreshInstall, ChangingUpgrade, ChangeRunning, BeginUninstall;
  }

  /** Once that has happened no command gets anywhere again: nothing it can be given changes a thing. */
  lemma {:induction false} MismatchIsForever(w: World, launches: seq<Launch>)
    requires Mismatched(w)
    ensures Run(w, launches) == w
    decreases |launches|
  {
    hide Mismatched, Execute;
    if launches != [] {
      MismatchRefuses(w, launches[0]);
      MismatchIsForever(w, launches[1..]);
    }
  }

  // ---------------------------------------------------------------- a status read that fails after the commit

  /** The end of an upgrade: the last status read, inside the same guard as the commit. */
  function EndUpgrade(c: Cfg, t: Transaction, codexBefore: bool, statusReads: bool): Outcome
    requires t.Change? && t.previous.Some?
  {
    match ReadStatus(c, statusReads)
    case Failed(c1, _) => UpgradeRollback(c1, t, codexBefore)
    case o => o
  }

  /** An upgrade whose status read fails is the same upgrade followed by a rollback that has no journal any more. */
  lemma UnreadStatusRollsBack(c: Cfg, r: Request)
    requires Inspect(c.w) == Coherent && c.w.current.Some?
    requires ChangingUpgrade(c, r.(statusReads := true)).Done?
    ensures var t := UpgradeTransaction(c.w, r);
            ChangingUpgrade(c, r.(statusReads := false))
            == EndUpgrade(ChangingUpgrade(c, r.(statusReads := true)).c, t, c.w.codex, false)
  {
    CoherentMeans(c.w);
    hide UpgradeBegin, UpgradeEnd, EndUpgrade, Inspect, Complete, ReleaseSelector, UpgradeTransaction;
    SameTransaction(c.w, r);
    SameBegin(c, r.(statusReads := true), r.(statusReads := false));
    UnreadEnd(UpgradeBegin(c, r.(statusReads := true)).c, UpgradeTransaction(c.w, r), c.w.codex, r);
  }

  lemma UnreadEnd(c: Cfg, t: Transaction, codexBefore: bool, r: Request)
    requires t.Change? && t.previous.Some? && UpgradeEnd(c, t, codexBefore, r.(statusReads := true)).Done?
    ensures UpgradeEnd(c, t, codexBefore, r.(statusReads := false))
            == EndUpgrade(UpgradeEnd(c, t, codexBefore, r.(statusReads := true)).c, t, codexBefore, false)
  {
    hide UpgradeCommit, UpgradeRollback;
    UnreadCommit(c, t, codexBefore, r);
  }

  lemma SameTransaction(w: World, r: Request)
    requires w.current.Some?
    ensures UpgradeTransaction(w, r.(statusReads := true)) == UpgradeTransaction(w, r) == UpgradeTransaction(w, r.(statusReads := false))
  {
  }

  lemma UnreadCommit(c: Cfg, t: Transaction, codexBefore: bool, r: Request)
    requires t.Change? && t.previous.Some?
    requires UpgradeCommit(c, t, codexBefore, r.(statusReads := true)).Done?
    ensures UpgradeCommit(c, t, codexBefore, r.(statusReads := false))
            == Failed(UpgradeCommit(c, t, codexBefore, r.(statusReads := true)).c, StatusUnread)
  {
    hide SwitchUpgrade, Reactivate, FinishUpgrade;
    var c2 := Reactivate(SwitchUpgrade(c, t).c, t.wasActive, codexBefore).c;
    UnreadFinish(c2, t, r);
  }

  lemma UnreadFinish(c: Cfg, t: Transaction, r: Request)
    requires t.Change? && t.previous.Some?
    requires FinishUpgrade(c, t, r.(statusReads := true)).Done?
    ensures FinishUpgrade(c, t, r.(statusReads := false)) == Failed(FinishUpgrade(c, t, r.(statusReads := true)).c, StatusUnread)
  {
    hide Prune, RemoveJournal;
  }

  lemma SameBegin(c: Cfg, q: Request, r: Request)
    requires Inspect(c.w) == Coherent && q == r.(statusReads := q.statusReads)
    ensures UpgradeBegin(c, q) == UpgradeBegin(c, r)
  {
    hide Step, Check, Prepare, WriteJournal, Newer;
  }

  /**
   After an upgrade has committed, the world stays consistent under every further failure or crash
   exactly when the status read works. When it does not, the rollback moves the selector back without a
   journal, and a crash there leaves the old release selected under the new one's processes.
   */
  lemma CommittedUpgradeStaysIff(w: World, t: Transaction, codexBefore: bool, statusReads: bool)
    requires t.Change? && UpgradeDone(w, t) && t.previous.value != t.next
    ensures (forall plan :: Inv(EndUpgrade(Cfg(w, plan), t, codexBefore, statusReads).After())) <==> statusReads
    ensures !statusReads ==>
      var v := EndUpgrade(Cfg(w, [Go]), t, codexBefore, statusReads).After();
      !Inv(v) && Committed(v) == t.previous && v.hostDefs == Some(t.next) && v.journal.None?
  {
    if !statusReads {
      var v := w.(current := t.previous);
      assert w.hostDefs == Some(t.next);
      hide Inv, Idle, Reload, Reactivate, RemoveJournal;
      assert [Go][1..] == [];
      assert RestoreSelector(Cfg(w, [Go]), t.next, t.previous.value) == Done(Cfg(v, []));
      assert EndUpgrade(Cfg(w, [Go]), t, codexBefore, false) == Crashed(v) by { CrashNow(v); }
      MovedBack(w, v, t);
    }
  }

  lemma CrashNow(w: World)
    ensures Reload(Cfg(w, [])) == Crashed(w)
  {
  }

  lemma MovedBack(w: World, v: World, t: Transaction)
    requires t.Change? && t.previous.Some? && t.previous.value != t.next
    requires w.journal.None? && w.hostDefs == Some(t.next) && v == w.(current := t.previous)
    ensures !Inv(v)
  {
  }

  /** The end of an install, likewise. */
  function EndInstall(c: Cfg, t: Transaction, r: Request): Outcome
    requires t.Change?
  {
    match ReadStatus(c, r.statusReads)
    case Failed(c1, _) => InstallRollback(c1, t, r)
    case o => o
  }

  /** The same for an install: its rollback without a journal takes the service apart step by step. */
  lemma CommittedInstallStaysIff(w: World, t: Transaction, r: Request)
    requires t.Change? && InstallDone(w, t)
    ensures (forall plan :: Inv(EndInstall(Cfg(w, plan), t, r).After())) <==> r.statusReads
  {
    if !r.statusReads {
      var v := AfterReload(w.(enablement := None));
      TakenApart(w, v, t);
      hide Inv, Idle, AfterReload, RemoveSelector, ClearPaths, ReloadToNothing, RemoveJournal;
      assert [Go][1..] == [];
      assert DisableOwned(Cfg(w, [Go]), t.next) == Done(Cfg(v, []));
      SelectorCrash(v, t.next);
      assert EndInstall(Cfg(w, [Go]), t, r) == Crashed(v);
    }
  }

  lemma TakenApart(w: World, v: World, t: Transaction)
    requires t.Change? && InstallDone(w, t) && v == AfterReload(w.(enablement := None))
    ensures !Inv(v) && v.current == Some(t.next) && w.enablement == Some(Canonical)
  {
  }

  lemma SelectorCrash(w: World, s: string)
    requires w.current.Some?
    ensures RemoveSelector(Cfg(w, []), s) == Crashed(w)
  {
  }

  // ---------------------------------------------------------------- exactly when a command is safe

  lemma UnreadInstall(c: Cfg, r: Request)
    requires FreshInstall(c, r.(statusReads := true)).Done?
    ensures FreshInstall(c, r.(statusReads := false))
         == InstallRollback(FreshInstall(c, r.(statusReads := true)).c, FreshTransaction(r), r.(statusReads := false))
  {
    hide FreshBegin, InstallCommit, InstallRollback, ReleaseSelector;
    SameFreshBegin(c, r.(statusReads := true), r.(statusReads := false));
    NeverDone(FreshBegin(c, r.(statusReads := true)).c, r.(statusReads := true));
    UnreadInstallCommit(FreshBegin(c, r.(statusReads := true)).c, FreshTransaction(r), r);
  }

  lemma SameFreshBegin(c: Cfg, q: Request, r: Request)
    requires q == r.(statusReads := q.statusReads)
    ensures FreshBegin(c, q) == FreshBegin(c, r) && FreshTransaction(q) == FreshTransaction(r)
  {
    hide Step, Check, Prepare, WriteJournal, PublishedReleases, NoUnits;
  }

  lemma UnreadInstallCommit(c: Cfg, t: Transaction, r: Request)
    requires t.Change? && InstallCommit(c, t, r.(statusReads := true)).Done?
    ensures InstallCommit(c, t, r.(statusReads := false)) == Failed(InstallCommit(c, t, r.(statusReads := true)).c, StatusUnread)
  {
    hide ActivateInstall, Prune, RemoveJournal;
    SamePlace(c, t, r.(statusReads := true), r.(statusReads := false));
    hide PlaceInstall;
  }

  lemma SamePlace(c: Cfg, t: Transaction, q: Request, r: Request)
    requires t.Change? && q == r.(statusReads := q.statusReads)
    ensures PlaceInstall(c, t, q) == PlaceInstall(c, t, r)
  {
    hide PublishAnchors, Step;
  }

  /** A delivered install under its rollback: after one more step the world is not recoverable. */
  lemma LateInstallBreaks(w: World, r: Request)
    requires InstallDone(w, FreshTransaction(r)) && !r.statusReads
    ensures !Inv(InstallRollback(Cfg(w, [Go]), FreshTransaction(r), r).After())
  {
    var t := FreshTransaction(r);
    var v := AfterReload(w.(enablement := None));
    TakenApart(w, v, t);
    hide Inv, Idle, AfterReload, RemoveSelector, ClearPaths, ReloadToNothing, RemoveJournal, ReleaseSelector;
    assert [Go][1..] == [];
    assert DisableOwned(Cfg(w, [Go]), t.next) == Done(Cfg(v, []));
    SelectorCrash(v, t.next);
  }

  /** An install that can be carried out, with its status read failing, can be cut off where nothing helps any more. */
  lemma UnreadInstallBreaks(w: World, r: Request) returns (plan: seq<Choice>)
    requires Inv(w) && Idle(w) && w.current.None? && ValidRequest(r) && Lists(w, r.listing)
    requires MayInstall(w, r) && SameLeftover(w, SelectorOf(r.package), r.environment) && !r.statusReads
    ensures !Inv(FreshInstall(Cfg(w, plan), r).After())
  {
    var read := r.(statusReads := true);
    CountDecides(w);
    var c := Cfg(w, AllGo(InstallSteps(read)));
    hide Inv, Idle, FreshInstall, InstallRollback, PublishedReleases, UsableLeftover, SameLeftover, Lists, ReleaseSelector, InstallDone;
    FreshInstallCalm(c, read);
    plan := FreshInstallReplay(c, read, [Go]);
    CommittedIsDone(Cfg(w, plan), read);
    UnreadInstall(Cfg(w, plan), r);
    assert read.(statusReads := false) == r;
    LateInstallBreaks(FreshInstall(c, read).c.w, r);
  }

  lemma CommittedIsDone(c: Cfg, r: Request)
    requires Inv(c.w) && Idle(c.w) && c.w.current.None? && ValidRequest(r) && r.statusReads
    requires SameLeftover(c.w, SelectorOf(r.package), r.environment) && FreshInstall(c, r).Done?
    ensures InstallDone(FreshInstall(c, r).c.w, FreshTransaction(r))
  {
    hide Inv, Idle, FreshInstall, Mixed, SameLeftover, LateInstallRollback, ReleaseSelector, ValidRequest;
    FreshInstallSafe(c, r);
  }

  /**
   Where nothing is installed, an install is safe to interrupt at every point exactly when it cannot be carried
   out at all, or when no leftover of its release was made for another environment file and the final state
   can be read.
   */
  lemma InstallIsSafeIff(w: World, r: Request)
    requires Inv(w) && w.journal.None? && w.current.None? && ValidRequest(r) && Lists(w, r.listing)
    ensures (forall plan :: Inv(Install(Cfg(w, plan), r).After()))
            <==> !MayInstall(w, r) || (SameLeftover(w, SelectorOf(r.package), r.environment) && r.statusReads)
  {
    InvIdle(w);
    AbsentMeans(w);
    CountDecides(w);
    hide Inv, Idle, FreshInstall, Inspect, MayInstall, SameLeftover, Lists, ReleaseSelector, Mixed, LateInstallRollback, ValidRequest, Reuses;
    assert forall plan :: Install(Cfg(w, plan), r) == FreshInstall(Cfg(w, plan), r);
    if !MayInstall(w, r) {
      forall plan ensures Inv(Install(Cfg(w, plan), r).After()) { RefusedInstall(Cfg(w, plan), r); }
    } else if !SameLeftover(w, SelectorOf(r.package), r.environment) {
      LeftoverReuses(w, r);
      ReuseBreaks(w, r);
      assert !Inv(Install(Cfg(w, SIX), r).After());
    } else if r.statusReads {
      forall plan ensures Inv(Install(Cfg(w, plan), r).After()) { FreshInstallSafe(Cfg(w, plan), r); }
    } else {
      var plan := UnreadInstallBreaks(w, r);
      assert !Inv(Install(Cfg(w, plan), r).After());
    }
  }

  lemma RefusedInstall(c: Cfg, r: Request)
    requires Inv(c.w) && Idle(c.w) && c.w.current.None? && ValidRequest(r) && !MayInstall(c.w, r)
    ensures Inv(FreshInstall(c, r).After())
  {
    CountDecides(c.w);
    hide Inv, Idle, FreshBegin, UsableLeftover, PublishedReleases, ReleaseSelector, InstallCommit, InstallRollback, ValidRequest;
    FreshBeginSafe(c, r);
    if FreshBegin(c, r).Done? { FreshBeginMust(c, r); }
  }

  lemma LeftoverReuses(w: World, r: Request)
    requires Inv(w) && Idle(w) && w.current.None? && ValidRequest(r) && MayInstall(w, r)
    requires !SameLeftover(w, SelectorOf(r.package), r.environment)
    ensures Reuses(w, r) && ManifestOf(w, SelectorOf(r.package)).environment != r.environment
  {
    CountDecides(w);
    hide Inv, Idle, Complete, ReleaseSelector, PublishedReleases;
  }

  lemma UnreadUpgradeBreaks(w: World, r: Request) returns (plan: seq<Choice>)
    requires Inv(w) && Idle(w) && w.current.Some? && Published(w, w.current.value) && Inspect(w) == Coherent
    requires ValidPackage(r.package) && Lists(w, r.listing) && MayUpgrade(w, r) && !r.statusReads
    ensures !Inv(ChangingUpgrade(Cfg(w, plan), r).After())
  {
    var read := r.(statusReads := true);
    CountDecides(w);
    var c := Cfg(w, AllGo(UpgradeSteps(read)));
    assert MayUpgrade(w, read);
    hide Inv, Idle, ChangingUpgrade, UpgradeRollback, PublishedReleases, MayUpgrade, Lists, ReleaseSelector, UpgradeDone, Inspect, Complete, UpgradeTransaction;
    ChangingUpgradeCalm(c, read);
    plan := ChangingUpgradeReplay(c, read, [Go]);
    var v := ChangingUpgrade(c, read).c.w;
    CommittedIsUpgraded(Cfg(w, plan), read);
    UnreadStatusRollsBack(Cfg(w, plan), r);
    assert r.(statusReads := false) == r;
    SameTransaction(w, r);
    EndIsRollback(Cfg(v, [Go]), UpgradeTransaction(w, r), w.codex);
    LateUpgradeBreaks(v, UpgradeTransaction(w, r), w.codex);
  }

  lemma EndIsRollback(c: Cfg, t: Transaction, codexBefore: bool)
    requires t.Change? && t.previous.Some?
    ensures EndUpgrade(c, t, codexBefore, false) == UpgradeRollback(c, t, codexBefore)
  {
    hide UpgradeRollback;
  }

  lemma LateUpgradeBreaks(w: World, t: Transaction, codexBefore: bool)
    requires t.Change? && t.previous.Some? && UpgradeDone(w, t) && t.previous.value != t.next
    ensures !Inv(UpgradeRollback(Cfg(w, [Go]), t, codexBefore).After())
  {
    hide UpgradeDone, Inv, UpgradeRollback;
    CommittedUpgradeStaysIff(w, t, codexBefore, false);
    EndIsRollback(Cfg(w, [Go]), t, codexBefore);
  }

  lemma CommittedIsUpgraded(c: Cfg, r: Request)
    requires Inv(c.w) && Idle(c.w) && Inspect(c.w) == Coherent && c.w.current.Some? && Published(c.w, c.w.current.value)
    requires ValidPackage(r.package) && r.statusReads && ChangingUpgrade(c, r).Done?
    ensures var t := UpgradeTransaction(c.w, r); UpgradeDone(ChangingUpgrade(c, r).c.w, t) && t.previous.value != t.next
  {
    var v := ChangingUpgrade(c, r).c.w;
    PublishedName(c.w, c.w.current.value);
    hide Inv, Idle, ChangingUpgrade, Inspect, Complete, Newer, ReleaseSelector, LateUpgradeRollback, Committed;
    ChangingUpgradeSafe(c, r);
    NewerIsAnother(r.package, ManifestOf(c.w, c.w.current.value).package);
  }

  /**
   On a coherent, idle installation an upgrade is safe to interrupt at every point exactly when it is to the
   installed package, or cannot be carried out at all, or its final state can be read.
   */
  lemma UpgradeIsSafeIff(w: World, r: Request)
    requires Inv(w) && w.journal.None? && w.current.Some? && Published(w, w.current.value) && Inspect(w) == Coherent
    requires ValidPackage(r.package) && Lists(w, r.listing)
    ensures (forall plan :: Inv(Upgrade(Cfg(w, plan), r).After()))
            <==> r.statusReads || SamePackage(w, r) || !MayUpgrade(w, r)
  {
    InvIdle(w);
    hide Inv, Idle, ChangingUpgrade, Inspect, MayUpgrade, Lists, Complete, SamePackage, LateUpgradeRollback, PublishedReleases, InstalledIdentity, Step,
      Committed, ChangeOnly;
    if SamePackage(w, r) {
      assert forall plan :: Upgrade(Cfg(w, plan), r).After() == w;
    } else {
      assert forall plan :: Upgrade(Cfg(w, plan), r) == ChangingUpgrade(Cfg(w, plan), r);
      if r.statusReads {
        forall plan ensures Inv(Upgrade(Cfg(w, plan), r).After()) { ChangingUpgradeSafe(Cfg(w, plan), r); }
      } else if !MayUpgrade(w, r) {
        forall plan ensures Inv(Upgrade(Cfg(w, plan), r).After()) { RefusedUpgrade(Cfg(w, plan), r); }
      } else {
        var plan := UnreadUpgradeBreaks(w, r);
        assert !Inv(Upgrade(Cfg(w, plan), r).After());
      }
    }
  }

  lemma RefusedUpgrade(c: Cfg, r: Request)
    requires Inv(c.w) && Idle(c.w) && Inspect(c.w) == Coherent && c.w.current.Some? && Published(c.w, c.w.current.value)
    requires ValidPackage(r.package) && !MayUpgrade(c.w, r)
    ensures Inv(ChangingUpgrade(c, r).After())
  {
    hide Inv, Idle, Inspect, MayUpgrade, UpgradeBegin, UpgradeEnd, ReleaseSelector, Complete, Newer;
    UpgradeBeginSafe(c, r);
    if UpgradeBegin(c, r).Done? { UpgradeBeginMust(c, r); }
  }
}
