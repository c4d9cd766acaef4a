/** What happens when nothing fails: recovery and uninstall get to their end, and exactly when. */
module LifecycleOutcomes {
  import opened Common
  import opened SemVer
  import opened Journal
  import opened JournalFacts
  import opened Paths
  import opened Lifecycle
  import opened LifecycleSafety
  import opened LifecycleUninstall

  /** At least `n` more steps go well. */
  predicate Calm(c: Cfg, n: int) {
    && |c.plan| >= n
    && forall i | 0 <= i < |c.plan| :: c.plan[i].Go?
  }

  /** The outcome is this world, with `n` calm steps left. */
  predicate Reaches(o: Outcome, w: World, n: int) { o.Done? && o.c.w == w && Calm(o.c, n) }

  lemma StepCalm(c: Cfg, n: int, allowed: bool, after: World, code: Code)
    requires n >= 1 && Calm(c, n) && allowed
    ensures Reaches(Step(c, allowed, after, code), after, n - 1)
  {
  }

  lemma CheckCalm(c: Cfg, n: int, holds: bool, code: Code)
    requires n >= 1 && Calm(c, n) && holds
    ensures Reaches(Check(c, holds, code), c.w, n - 1)
  {
  }

  lemma CallCalm(c: Cfg, n: int, allowed: bool, after: World, late: World)
    requires n >= 1 && Calm(c, n) && allowed
    ensures Reaches(Call(c, allowed, after, late), after, n - 1)
  {
  }

  lemma FewerCalm(c: Cfg, n: int, m: int)
    requires Calm(c, n) && m <= n
    ensures Calm(c, m)
  {
  }

  // ---------------------------------------------------------------- recovery

  lemma SettleCalm(c: Cfg, t: Transaction, n: int)
    requires n >= 2 && Calm(c, n)
    requires t.Change? && PendingUpgrade(c.w, t) && c.w.current == t.previous && c.w.hostDefs == t.previous
    ensures var o := Settle(c, t.wasActive); o.Done? && Calm(o.c, n - 2)
  {
    assert !NeedsReload(c.w);
    if t.wasActive {
      var v := c.w.(host := c.w.hostDefs, codex := true);
      CallCalm(c, n, c.w.hostDefs.Some?, v, c.w.(host := None));
      assert ReadyToServe(v);
      CheckCalm(Restart(c).c, n - 1, ReadyToServe(v), ReadinessFailed);
    } else {
      CheckCalm(c, n, InstalledIdentity(c.w) && c.w.host.None?, RecoveryRequired);
      FewerCalm(Settle(c, t.wasActive).c, n - 1, n - 2);
    }
  }

  lemma ReloadAndSettleCalm(c: Cfg, t: Transaction, n: int)
    requires n >= 3 && Calm(c, n)
    requires t.Change? && Trees(c.w) && PendingUpgrade(c.w, t) && c.w.current == t.previous
    ensures var o := ReloadAndSettle(c, t.wasActive); o.Done? && Calm(o.c, n - 3)
  {
    CallCalm(c, n, true, AfterReload(c.w), AfterReload(c.w));
    ReloadSafe(c, t);
    hide PendingUpgrade, Trees, Settle, Call, AfterReload;
    SettleCalm(Reload(c).c, t, n - 1);
  }

  lemma UpgradeArtifacts(w: World, t: Transaction)
    requires t.Change? && PendingUpgrade(w, t)
    ensures t.previous.Some? && Published(w, t.previous.value) && ArtifactsExact(w, ManifestOf(w, t.previous.value))
    ensures w.current == t.previous || w.current == Some(t.next)
  {
  }

  lemma UndoUpgradeCalm(c: Cfg, t: Transaction, n: int)
    requires n >= 5 && Calm(c, n)
    requires t.Change? && Trees(c.w) && PendingUpgrade(c.w, t)
    ensures var o := UndoUpgrade(c, t); o.Done? && Calm(o.c, n - 5)
  {
    UpgradeArtifacts(c.w, t);
    hide PendingUpgrade, Trees, ReloadAndSettle, Step, Check, Calm, Published, ArtifactsExact;
    var p := t.previous.value;
    CheckCalm(c, n, Published(c.w, p) && ArtifactsExact(c.w, ManifestOf(c.w, p))
                    && (c.w.current == Some(p) || c.w.current == Some(t.next)), RecoveryRequired);
    var c1 := Check(c, Published(c.w, p) && ArtifactsExact(c.w, ManifestOf(c.w, p))
                       && (c.w.current == Some(p) || c.w.current == Some(t.next)), RecoveryRequired).c;
    if c1.w.current == Some(t.next) {
      StepCalm(c1, n - 1, true, c1.w.(current := Some(p)), Invalid);
      SelectPrevious(c1, t);
      ReloadAndSettleCalm(ReplaceSelector(c1, t.next, p).c, t, n - 2);
    } else if t.phase == Selected || t.phase == ManagerReloaded {
      ReloadAndSettleCalm(c1, t, n - 1);
      FewerCalm(ReloadAndSettle(c1, t.wasActive).c, n - 4, n - 5);
    } else {
      FewerCalm(c1, n - 1, n - 5);
    }
  }

  lemma DisableIfPresentCalm(c: Cfg, n: int)
    requires n >= 2 && Calm(c, n)
    ensures var o := DisableIfPresent(c); o.Done? && Calm(o.c, n - 2)
  {
    if c.w.enablement.None? { FewerCalm(c, n, n - 2); } else {
      var v := AfterReload(c.w.(enablement := None));
      CallCalm(c, n, true, v, v);
      CheckCalm(Disable(c).c, n - 1, v.enablement.None?, RecoveryRequired);
    }
  }

  lemma RemoveAnchorCalm(c: Cfg, a: Anchor, n: int)
    requires n >= 1 && Calm(c, n)
    ensures var o := RemoveAnchor(c, a); o.Done? && Calm(o.c, n - 1)
  {
  }

  lemma RemoveAnchorsCalm(c: Cfg, n: int)
    requires n >= 4 && Calm(c, n)
    ensures var o := RemoveAnchors(c); o.Done? && Calm(o.c, n - 4)
  {
    hide RemoveAnchor, Calm;
    RemoveAnchorCalm(c, HostLink, n);
    var c1 := RemoveAnchor(c, HostLink).c;
    RemoveAnchorCalm(c1, CodexLink, n - 1);
    var c2 := RemoveAnchor(c1, CodexLink).c;
    RemoveAnchorCalm(c2, CommandLink, n - 2);
    RemoveAnchorCalm(RemoveAnchor(c2, CommandLink).c, ManifestLink, n - 3);
  }

  lemma RemoveSelectorCalm(c: Cfg, s: string, n: int)
    requires n >= 1 && Calm(c, n) && (c.w.current.None? || c.w.current == Some(s))
    ensures var o := RemoveSelector(c, s); o.Done? && Calm(o.c, n - 1)
  {
  }

  lemma RemoveEnvironmentCalm(c: Cfg, sha: string, n: int)
    requires n >= 1 && Calm(c, n) && (c.w.environment.None? || c.w.environment == Some(sha))
    ensures var o := RemoveEnvironment(c, sha); o.Done? && Calm(o.c, n - 1)
  {
  }

  lemma InstallArtifacts(w: World, t: Transaction)
    requires t.Change? && PendingInstall(w, t) && Published(w, t.next)
    ensures (w.current.None? || w.current == Some(t.next)) && OptionalArtifactsExact(w, t.next, ManifestOf(w, t.next))
    ensures w.environment.None? || w.environment == Some(ManifestOf(w, t.next).environment)
  {
  }

  lemma UndoInstallCalm(c: Cfg, t: Transaction, n: int)
    requires n >= 10 && Calm(c, n)
    requires t.Change? && Trees(c.w) && PendingInstall(c.w, t) && Published(c.w, t.next)
    ensures var o := UndoInstall(c, t); o.Done? && Calm(o.c, n - 10)
  {
    InstallArtifacts(c.w, t);
    hide PendingInstall, Trees, Step, Check, Calm, Published, DisableIfPresent, RemoveSelector, RemoveAnchors, RemoveEnvironment, Reload,
      OptionalArtifactsExact;
    var m := ManifestOf(c.w, t.next);
    CheckCalm(c, n, (c.w.current.None? || c.w.current == Some(t.next)) && OptionalArtifactsExact(c.w, t.next, m), RecoveryRequired);
    var c1 := Check(c, (c.w.current.None? || c.w.current == Some(t.next)) && OptionalArtifactsExact(c.w, t.next, m), RecoveryRequired).c;
    DisableIfPresentCalm(c1, n - 1);
    DisableEffect(c1);
    UndoArtifactsCalm(DisableIfPresent(c1).c, t.next, m.environment, n - 3);
  }

  lemma UndoArtifactsCalm(c: Cfg, s: string, sha: string, n: int)
    requires n >= 7 && Calm(c, n)
    requires (c.w.current.None? || c.w.current == Some(s)) && (c.w.environment.None? || c.w.environment == Some(sha))
    ensures var o3 := RemoveSelector(c, s);
            && o3.Done? && var o4 := RemoveAnchors(o3.c);
            && o4.Done? && var o5 := RemoveEnvironment(o4.c, sha);
            && o5.Done? && var o6 := Reload(o5.c);
            && o6.Done? && Calm(o6.c, n - 7)
  {
    hide Calm, RemoveSelector, RemoveAnchors, RemoveEnvironment, Reload;
    RemoveSelectorCalm(c, s, n);
    var c3 := RemoveSelector(c, s).c;
    RemoveAnchorsCalm(c3, n - 1);
    var c4 := RemoveAnchors(c3).c;
    RemoveEnvironmentCalm(c4, sha, n - 5);
    ReloadCalm(RemoveEnvironment(c4, sha).c, n - 6);
  }

  lemma ReloadCalm(c: Cfg, n: int)
    requires n >= 1 && Calm(c, n)
    ensures Reaches(Reload(c), AfterReload(c.w), n - 1)
  {
    hide AfterReload;
    CallCalm(c, n, true, AfterReload(c.w), AfterReload(c.w));
  }

  lemma UndoChangeCalm(c: Cfg, t: Transaction, n: int)
    requires n >= 12 && Calm(c, n)
    requires t.Change? && Trees(c.w) && PendingChange(c.w, t)
    ensures var o := UndoChange(c, t); o.Done? && Calm(o.c, n - 12)
  {
    NoTwoCandidates(c.w, t);
    hide PendingInstall, PendingUpgrade, Trees, Step, Check, Calm, UndoInstall, UndoUpgrade, Complete, RecoverableBeforePublish;
    CheckCalm(c, n, !(t.next in c.w.releases && t.staging in c.w.stagings), RecoveryRequired);
    var c1 := Check(c, !(t.next in c.w.releases && t.staging in c.w.stagings), RecoveryRequired).c;
    if t.next !in c.w.releases {
      CheckCalm(c1, n - 1, RecoverableBeforePublish(c1.w, t), RecoveryRequired);
      FewerCalm(Check(c1, RecoverableBeforePublish(c1.w, t), RecoveryRequired).c, n - 2, n - 12);
    } else {
      CheckCalm(c1, n - 1, Published(c1.w, t.next), RecoveryRequired);
      var c2 := Check(c1, Published(c1.w, t.next), RecoveryRequired).c;
      if t.previous.None? {
        UndoInstallCalm(c2, t, n - 2);
      } else {
        UndoUpgradeCalm(c2, t, n - 2);
        FewerCalm(UndoUpgrade(c2, t).c, n - 7, n - 12);
      }
    }
  }

  /** None of recovery's first guards trips. */
  lemma NoTwoCandidates(w: World, t: Transaction)
    requires t.Change? && Trees(w) && PendingChange(w, t)
    ensures !(t.next in w.releases && t.staging in w.stagings)
    ensures t.next in w.releases ==> Published(w, t.next)
    ensures t.next !in w.releases ==> RecoverableBeforePublish(w, t)
  {
  }

  /** The state a completed recovery leaves: the old release, no journal, no staging. */
  predicate RecoveredTo(w: World, v: World) {
    && v.journal.None? && v.stagings == map[] && v.current == Committed(w) && v.releases == w.releases
    && (v.current.None? ==> Inspect(v) == Absent && AbsentShape(v))
    && (v.current.Some? ==> Inspect(v) == Coherent && InstalledAt(v, v.current.value))
  }

  /**
   From every world the protocol can leave behind, whatever was interrupted, recovery whose steps work
   trips none of its guards: the journal and the staging tree are gone and the previous release is back,
   or nothing is installed when there was none. With no journal it changes nothing.
   */
  lemma RecoveryCompletes(c: Cfg)
    requires Inv(c.w) && ChangeOnly(c.w) && Calm(c, 14)
    ensures var o := Recover(c); o.Done? && RecoveredTo(c.w, o.c.w)
    ensures c.w.journal.None? ==> Recover(c).After() == c.w
  {
    RecoverIsDone(c);
    hide Recover, Inv, Idle, Committed, Calm;
    RecoverSafe(c);
    IdleIsRecovered(c.w, Recover(c).c.w);
  }

  lemma IdleIsRecovered(w: World, v: World)
    requires Inv(v) && Idle(v) && v.releases == w.releases && Committed(v) == Committed(w)
    ensures RecoveredTo(w, v)
  {
  }

  lemma RecoverIsDone(c: Cfg)
    requires Inv(c.w) && ChangeOnly(c.w) && Calm(c, 14)
    ensures Recover(c).Done?
  {
    hide PendingChange, Trees, Idle, PendingUninstall, UndoChange, Step, Calm;
    if c.w.journal.Some? {
      var t := c.w.journal.value;
      UndoChangeCalm(c, t, 14);
      var c1 := UndoChange(c, t).c;
      UndoChangeSafe(c, t);
      RemoveStagingCalm(c1, t.staging, 2);
      RemoveJournalCalm(RemoveStaging(c1, t.staging).c, t);
    }
  }

  lemma RemoveStagingCalm(c: Cfg, name: string, n: int)
    requires n >= 1 && Calm(c, n)
    ensures var o := RemoveStaging(c, name); o.Done? && Calm(o.c, n - 1) && o.c.w.journal == c.w.journal
  {
  }

  lemma RemoveJournalCalm(c: Cfg, t: Transaction)
    requires Calm(c, 1) && c.w.journal == Some(t) && Readable(t)
    ensures RemoveJournal(c).Done?
  {
    hide Readable;
  }

  // ---------------------------------------------------------------- uninstall

  lemma AdvanceCalm(c: Cfg, t: Transaction, stage: Stage, n: int)
    requires n >= 1 && Calm(c, n) && t.Uninstall? && Removing(c.w, t) && FitsAtEveryStage(t)
    ensures var o := Advance(c, stage); o.Done? && Calm(o.c, n - 1)
  {
    FitsIsReadable(c.w, t);
    hide Readable, Removing, FitsAtEveryStage;
  }

  lemma FitsIsReadable(w: World, t: Transaction)
    requires t.Uninstall? && Removing(w, t) && FitsAtEveryStage(t)
    ensures w.journal.Some? && w.journal.value.Uninstall? && Readable(w.journal.value)
  {
    var u := w.journal.value;
    hide Render, Bytes, PendingUninstall, Trees;
    StageSize(t, u.stage);
    StageSize(t, Journal.Reloaded);
    StageNames(u.stage);
    FitsMeans(t);
    assert u == t.(stage := u.stage);
  }

  lemma StopUnitsCalm(c: Cfg, t: Transaction, n: int)
    requires n >= 4 && Calm(c, n) && t.Uninstall? && Removing(c.w, t) && FitsAtEveryStage(t)
    ensures var o := StopUnits(c); o.Done? && Calm(o.c, n - 4)
  {
    hide Removing, Advance, ManagerKnown, Call, Step, Calm, Check, FitsAtEveryStage;
    var c1 := if c.w.host.None? then Done(c) else StopHost(c);
    CallCalm(c, n, true, c.w.(host := None), c.w.(host := None));
    FewerCalm(c, n, n - 1);
    StopKeeps(c.w, c1.After(), t);
    var c2 := if c1.c.w.codex then StopCodex(c1.c) else Done(c1.c);
    CallCalm(c1.c, n - 1, true, c1.c.w.(codex := false), c1.c.w.(codex := false));
    FewerCalm(c1.c, n - 1, n - 2);
    StopKeeps(c1.c.w, c2.After(), t);
    KnownManager(c2.c.w, t);
    CheckCalm(c2.c, n - 2, c2.c.w.host.None? && !c2.c.w.codex && ManagerKnown(c2.c.w, StagePassed(c2.c.w, Stopped)), LifecycleFailed);
    var c3 := Check(c2.c, c2.c.w.host.None? && !c2.c.w.codex && ManagerKnown(c2.c.w, StagePassed(c2.c.w, Stopped)), LifecycleFailed);
    AdvanceCalm(c3.c, t, Stopped, n - 3);
  }

  /** Uninstall's manager check never trips while the invariant holds. */
  lemma KnownManager(w: World, t: Transaction)
    requires t.Uninstall? && Removing(w, t)
    ensures ManagerKnown(w, StagePassed(w, Stopped))
  {
  }

  lemma DisableUnitsCalm(c: Cfg, t: Transaction, n: int)
    requires n >= 4 && Calm(c, n) && t.Uninstall? && Removing(c.w, t) && At(c.w, Stopped) && FitsAtEveryStage(t)
    ensures var o := DisableUnits(c); o.Done? && Calm(o.c, n - 4)
  {
    KnownManager(c.w, t);
    hide Removing, Advance, ManagerKnown, Call, Step, Check, OnDisk, Calm, FitsAtEveryStage;
    CheckCalm(c, n, ManagerKnown(c.w, StagePassed(c.w, Stopped)), UninstallInvalid);
    var c1 := Check(c, ManagerKnown(c.w, StagePassed(c.w, Stopped)), UninstallInvalid);
    var v := AfterReload(c1.c.w.(enablement := None));
    DisableKeeps(c1.c.w, v, t);
    CallCalm(c1.c, n - 1, true, v, v);
    FewerCalm(c1.c, n - 1, n - 2);
    var c2 := if c1.c.w.enablement.Some? || c1.c.w.enabled then Disable(c1.c) else Done(c1.c);
    CheckCalm(c2.c, n - 2, c2.c.w.enablement.None? && !c2.c.w.enabled, LifecycleFailed);
    var c3 := Check(c2.c, c2.c.w.enablement.None? && !c2.c.w.enabled, LifecycleFailed);
    AdvanceCalm(c3.c, t, Disabled, n - 3);
  }

  lemma OwnedPaths(w: World, t: Transaction)
    requires t.Uninstall? && Removing(w, t)
    ensures w.current.None? || w.current == t.active
    ensures w.environment.None? || w.environment == t.environment
  {
  }

  lemma ClearOwnedCalm(c: Cfg, t: Transaction, n: int)
    requires n >= 6 && Calm(c, n) && t.Uninstall?
    requires c.w.current.None? || c.w.current == t.active
    requires c.w.environment.None? || c.w.environment == t.environment
    ensures var o := ClearOwned(c, t); o.Done? && Calm(o.c, n - 6)
  {
    hide RemoveAnchors, RemoveSelector, RemoveEnvironment, Step, Check, Calm;
    RemoveAnchorsCalm(c, n);
    var c1 := RemoveAnchors(c).c;
    if t.active.None? { CheckCalm(c1, n - 4, c1.w.current.None?, Invalid); } else { RemoveSelectorCalm(c1, t.active.value, n - 4); }
    var c2 := RemoveOwnedSelector(c1, t.active).c;
    if t.environment.None? { CheckCalm(c2, n - 5, c2.w.environment.None?, Invalid); } else { RemoveEnvironmentCalm(c2, t.environment.value, n - 5); }
  }

  lemma RemoveInstallationCalm(c: Cfg, t: Transaction, n: int)
    requires n >= 8 && Calm(c, n) && t.Uninstall? && Removing(c.w, t) && At(c.w, Disabled) && FitsAtEveryStage(t)
    ensures var o := RemoveInstallation(c, t); o.Done? && Calm(o.c, n - 8)
  {
    hide Removing, Advance, Check, Step, Calm, ClearOwned, FitsAtEveryStage, At;
    AtMeans(c.w, t);
    CheckCalm(c, n, c.w.enablement.None?, Invalid);
    var c1 := Check(c, c.w.enablement.None?, Invalid).c;
    assert c1.w == c.w;
    ClearAndAdvanceCalm(c1, t, n - 1);
  }

  lemma ClearAndAdvanceCalm(c: Cfg, t: Transaction, n: int)
    requires n >= 7 && Calm(c, n) && t.Uninstall? && Removing(c.w, t) && At(c.w, Disabled) && FitsAtEveryStage(t)
    ensures var o2 := ClearOwned(c, t);
            && o2.Done? && var o3 := Advance(o2.c, AnchorsRemoved);
            && o3.Done? && Calm(o3.c, n - 7)
  {
    hide Removing, Advance, Calm, ClearOwned, FitsAtEveryStage, At;
    OwnedPaths(c.w, t);
    ClearOwnedCalm(c, t, n);
    ClearOwnedEffect(c, t);
    var c2 := ClearOwned(c, t).c;
    ClearKeeps(c.w, c2.w, t);
    AdvanceCalm(c2, t, AnchorsRemoved, n - 6);
  }

  lemma {:induction false} RemoveUnretainedCalm(c: Cfg, listing: seq<string>, retained: set<string>, n: int)
    requires n >= |listing| && Calm(c, n) && (forall s | s in c.w.releases :: Published(c.w, s))
    ensures var o := RemoveUnretained(c, listing, retained); o.Done? && Calm(o.c, n - |listing|)
    decreases |listing|
  {
    if listing != [] {
      if listing[0] in retained {
        FewerCalm(c, n, n - 1);
        RemoveUnretainedCalm(c, listing[1..], retained, n - 1);
      } else {
        var c1 := RemoveRelease(c, listing[0]);
        assert c1.Done? && Calm(c1.c, n - 1);
        assert forall s | s in c1.c.w.releases :: Published(c.w, s) && c1.c.w.releases[s] == c.w.releases[s];
        RemoveUnretainedCalm(c1.c, listing[1..], retained, n - 1);
      }
    }
  }

  lemma RemovingTrees(w: World, t: Transaction)
    requires t.Uninstall? && Removing(w, t)
    ensures (forall s | s in w.releases :: Published(w, s)) && w.stagings == map[]
  {
  }

  lemma RemoveReleasesCalm(c: Cfg, t: Transaction, n: int)
    requires t.Uninstall? && n >= |t.selectors| + 2 && Calm(c, n)
    requires Removing(c.w, t) && At(c.w, AnchorsRemoved) && FitsAtEveryStage(t)
    ensures var o := RemoveReleases(c, t); o.Done? && Calm(o.c, n - |t.selectors| - 2)
  {
    RemovingTrees(c.w, t);
    RemoveUnretainedCalm(c, t.selectors, {}, n);
    hide Removing, Advance, RemoveUnretained, Step, Calm, FitsAtEveryStage, Complete;
    var c1 := RemoveUnretained(c, t.selectors, {}).c;
    ReleasesKeep(c.w, c1.w, t);
    AllListed(c1.w, t);
    assert c1.w.releases == map[];
    DirGone(c1.w, t);
    var k := n - |t.selectors|;
    RemoveDirCalm(c1, k);
    AdvanceCalm(RemoveReleasesDir(c1).c, t, ReleasesRemoved, k - 1);
  }

  lemma RemoveDirCalm(c: Cfg, n: int)
    requires n >= 1 && Calm(c, n) && c.w.releases == map[] && c.w.stagings == map[]
    ensures var o := RemoveReleasesDir(c); o.Done? && Calm(o.c, n - 1) && (o.c.w == c.w || o.c.w == c.w.(releasesDir := false))
  {
  }

  lemma ForgetUnitsCalm(c: Cfg, t: Transaction, n: int)
    requires t.Uninstall? && n >= 6 && Calm(c, n)
    requires Removing(c.w, t) && At(c.w, ReleasesRemoved) && FitsAtEveryStage(t)
    ensures ForgetUnits(c).Done?
  {
    hide Removing, Advance, Call, Step, Check, AfterReload, NotFound, Uninstalled, RemoveJournal, At, DataRootEmpty, Calm, FitsAtEveryStage, Readable;
    ForgetKeeps(c.w, t);
    CallCalm(c, n, true, AfterReload(c.w), AfterReload(c.w));
    var c1 := Reload(c).c;
    CheckCalm(c1, n - 1, NotFound(c1.w), LifecycleFailed);
    var c2 := Check(c1, NotFound(c1.w), LifecycleFailed).c;
    AdvanceSafe(c2, t, Journal.Reloaded);
    AdvanceCalm(c2, t, Journal.Reloaded, n - 2);
    var c3 := Advance(c2, Journal.Reloaded).c;
    FitsIsReadable(c3.w, t);
    GoneIsUninstalled(c3.w, t);
    LastJournalCalm(c3, n - 3);
    var c4 := RemoveJournal(c3).c;
    UninstalledChecks(c4.w);
    CheckCalm(c4, n - 4, DataRootEmpty(c4.w), RecoveryRequired);
    CheckCalm(Check(c4, DataRootEmpty(c4.w), RecoveryRequired).c, n - 5, NotFound(c4.w), UninstallInvalid);
  }

  lemma LastJournalCalm(c: Cfg, n: int)
    requires n >= 1 && Calm(c, n) && c.w.journal.Some? && Readable(c.w.journal.value)
    ensures Reaches(RemoveJournal(c), c.w.(journal := None), n - 1)
  {
    hide Readable;
  }

  lemma UninstalledChecks(w: World)
    requires Uninstalled(w)
    ensures DataRootEmpty(w) && NotFound(w)
  {
  }

  lemma ClearAwayCalm(c: Cfg, t: Transaction, n: int)
    requires t.Uninstall? && n >= |t.selectors| + 16 && Calm(c, n)
    requires Removing(c.w, t) && At(c.w, Disabled) && FitsAtEveryStage(t)
    ensures ClearAway(c, t).Done?
  {
    hide Removing, At, RemoveInstallation, RemoveReleases, ForgetUnits, Calm, FitsAtEveryStage;
    RemoveInstallationCalm(c, t, n);
    RemoveInstallationSafe(c, t);
    var c1 := RemoveInstallation(c, t).c;
    RemoveReleasesCalm(c1, t, n - 8);
    RemoveReleasesSafe(c1, t);
    ForgetUnitsCalm(RemoveReleases(c1, t).c, t, n - 10 - |t.selectors|);
  }

  lemma OwnedByItself(w: World, t: Transaction)
    requires t.Uninstall? && Removing(w, t)
    ensures OwnedByTransaction(w, t)
  {
    var u := w.journal.value;
    OwnershipAtStage(w, t, u);
    hide OwnedByTransaction, Trees, StageFacts;
  }

  /** The number of steps an uninstall takes at most. */
  function UninstallSteps(t: Transaction): nat
    requires t.Uninstall?
  {
    |t.selectors| + 26
  }

  lemma ExecuteUninstallCalm(c: Cfg, t: Transaction, r: Removal)
    requires t.Uninstall? && Calm(c, UninstallSteps(t)) && Removing(c.w, t) && PathsSurvive(c.w, r) && FitsAtEveryStage(t)
    ensures ExecuteUninstall(c, t, r).Done?
  {
    var n := UninstallSteps(t);
    KnownManager(c.w, t);
    OwnedByItself(c.w, t);
    hide Removing, At, Step, Check, StopUnits, DisableUnits, ClearAway, OwnedByTransaction, ManagerKnown, PathsSurvive, Calm, FitsAtEveryStage;
    CheckCalm(c, n, OwnedByTransaction(c.w, t) && PathsSurvive(c.w, r), RecoveryRequired);
    var c1 := Check(c, OwnedByTransaction(c.w, t) && PathsSurvive(c.w, r), RecoveryRequired).c;
    CheckCalm(c1, n - 1, ManagerKnown(c1.w, StagePassed(c1.w, Stopped)), UninstallInvalid);
    var c2 := Check(c1, ManagerKnown(c1.w, StagePassed(c1.w, Stopped)), UninstallInvalid).c;
    StopUnitsCalm(c2, t, n - 2);
    StopUnitsSafe(c2, t);
    var c3 := StopUnits(c2).c;
    DisableUnitsCalm(c3, t, n - 6);
    DisableUnitsSafe(c3, t);
    ClearAwayCalm(DisableUnits(c3).c, t, n - 10);
  }

  // ---------------------------------------------------------------- and only then

  lemma LastStageFits(w: World, t: Transaction)
    requires t.Uninstall? && Removing(w, t) && At(w, Journal.Reloaded) && Readable(w.journal.value)
    ensures FitsAtEveryStage(t)
  {
    hide Trees, PendingUninstall, Render, Bytes;
    assert w.journal.value.stage == Journal.Reloaded;
    FitsMeans(t);
  }

  lemma ForgetMustFit(c: Cfg, t: Transaction)
    requires t.Uninstall? && Removing(c.w, t) && At(c.w, ReleasesRemoved) && ForgetUnits(c).Done?
    ensures FitsAtEveryStage(t)
  {
    hide Removing, Advance, Call, Step, Check, AfterReload, NotFound, Uninstalled, At, DataRootEmpty, Readable, FitsAtEveryStage;
    ForgetKeeps(c.w, t);
    var c1 := Reload(c).c;
    var c2 := Check(c1, NotFound(c1.w), LifecycleFailed).c;
    AdvanceSafe(c2, t, Journal.Reloaded);
    var c3 := Advance(c2, Journal.Reloaded).c;
    RemovingIsSafe(c3.w, t);
    AtMeans(c3.w, t);
    RemovedWasReadable(c3);
    LastStageFits(c3.w, t);
  }

  lemma RemovedWasReadable(c: Cfg)
    requires c.w.journal.Some? && RemoveJournal(c).Done?
    ensures Readable(c.w.journal.value)
  {
    hide Readable;
  }

  lemma ExecuteMustFit(c: Cfg, t: Transaction, r: Removal)
    requires t.Uninstall? && Removing(c.w, t) && ExecuteUninstall(c, t, r).Done?
    ensures FitsAtEveryStage(t) && PathsSurvive(c.w, r)
  {
    hide Removing, At, Step, StopUnits, DisableUnits, RemoveInstallation, RemoveReleases, ForgetUnits, OwnedByTransaction, ManagerKnown,
      PathsSurvive, FitsAtEveryStage, Check;
    var c1 := Check(c, OwnedByTransaction(c.w, t) && PathsSurvive(c.w, r), RecoveryRequired).c;
    var c2 := Check(c1, ManagerKnown(c1.w, StagePassed(c1.w, Stopped)), UninstallInvalid).c;
    StopUnitsSafe(c2, t);
    var c3 := StopUnits(c2).c;
    DisableUnitsSafe(c3, t);
    var c4 := DisableUnits(c3).c;
    RemoveInstallationSafe(c4, t);
    var c5 := RemoveInstallation(c4, t).c;
    RemoveReleasesSafe(c5, t);
    ForgetMustFit(RemoveReleases(c5, t).c, t);
  }

  function AllGo(n: nat): (plan: seq<Choice>)
    ensures |plan| == n && forall i | 0 <= i < n :: plan[i].Go?
  {
    seq(n, _ => Go)
  }

  /**
   A pending uninstall, at whatever stage, can be brought to its end exactly when every path that has to
   survive is clear of what it deletes and its journal stays within the size the reader accepts up to the
   last, longest stage name.
   */
  lemma PendingUninstallCompletesIff(w: World, r: Removal)
    requires Inv(w) && w.journal.Some? && w.journal.value.Uninstall?
    ensures (exists plan :: ExecuteUninstall(Cfg(w, plan), w.journal.value, r).Done?)
            <==> PathsSurvive(w, r) && FitsAtEveryStage(w.journal.value)
  {
    hide Inv, PathsSurvive, FitsAtEveryStage, ExecuteUninstall, Removing;
    PendingIsRemoving(w);
    var t := w.journal.value;
    if plan :| ExecuteUninstall(Cfg(w, plan), t, r).Done? { ExecuteMustFit(Cfg(w, plan), t, r); }
    if PathsSurvive(w, r) && FitsAtEveryStage(t) {
      var plan := AllGo(UninstallSteps(t));
      ExecuteUninstallCalm(Cfg(w, plan), t, r);
      assert ExecuteUninstall(Cfg(w, plan), t, r).Done?;
    }
  }

  /** The same for an uninstall that starts on an idle installation. */
  lemma FreshUninstallCompletesIff(w: World, r: Removal)
    requires Inv(w) && w.journal.None? && Lists(w, r.listing)
    ensures (exists plan :: RunUninstall(Cfg(w, plan), r).Done?)
            <==> MayUninstall(w, r) && (HasArtifacts(w) ==> FitsAtEveryStage(UninstallTransaction(w, r)))
  {
    hide Inv, Idle, PathsSurvive, FitsAtEveryStage, BeginUninstall, Removing, MayUninstall, HasArtifacts, Lists;
    InvIdle(w);
    if plan :| RunUninstall(Cfg(w, plan), r).Done? { BeginMust(Cfg(w, plan), r); }
    if MayUninstall(w, r) && (HasArtifacts(w) ==> FitsAtEveryStage(UninstallTransaction(w, r))) {
      var plan := AllGo(UninstallSteps(UninstallTransaction(w, r)) + 2);
      BeginCalm(Cfg(w, plan), r);
      assert RunUninstall(Cfg(w, plan), r).Done?;
    }
  }

  lemma BeginMust(c: Cfg, r: Removal)
    requires Inv(c.w) && Idle(c.w) && Lists(c.w, r.listing) && BeginUninstall(c, r).Done?
    ensures MayUninstall(c.w, r) && (HasArtifacts(c.w) ==> FitsAtEveryStage(UninstallTransaction(c.w, r)))
  {
    hide Check, Step, Inv, Idle, MayUninstall, HasArtifacts, NotFound, ExecuteUninstall, Removing, UninstallTransaction, FitsAtEveryStage, Lists;
    var c1 := Check(c, MayUninstall(c.w, r), UninstallInvalid).c;
    if HasArtifacts(c1.w) {
      BeginsRemoving(c1.w, r);
      UninstallTransactionKind(c1.w, r);
      ExecuteMustFit(WriteJournal(c1, UninstallTransaction(c1.w, r)).c, UninstallTransaction(c1.w, r), r);
    }
  }

  lemma BeginCalm(c: Cfg, r: Removal)
    requires Inv(c.w) && Idle(c.w) && Lists(c.w, r.listing) && MayUninstall(c.w, r)
    requires HasArtifacts(c.w) ==> FitsAtEveryStage(UninstallTransaction(c.w, r))
    requires Calm(c, UninstallSteps(UninstallTransaction(c.w, r)) + 2)
    ensures BeginUninstall(c, r).Done?
  {
    var t := UninstallTransaction(c.w, r);
    var n := UninstallSteps(t) + 2;
    InvIdle(c.w);
    hide Check, Step, Inv, Idle, MayUninstall, HasArtifacts, NotFound, ExecuteUninstall, Removing, FitsAtEveryStage, Lists, Calm, UninstallSteps,
      PathsSurvive, UninstallTransaction;
    UninstallTransactionKind(c.w, r);
    CheckCalm(c, n, MayUninstall(c.w, r), UninstallInvalid);
    var c1 := Check(c, MayUninstall(c.w, r), UninstallInvalid).c;
    if HasArtifacts(c1.w) {
      BeginsRemoving(c1.w, r);
      StepCalm(c1, n - 1, c1.w.journal.None?, c1.w.(journal := Some(t)), RecoveryRequired);
      PathsAllowed(c1.w, c1.w.(journal := Some(t)), r);
      ExecuteUninstallCalm(WriteJournal(c1, t).c, t, r);
    } else {
      NothingToRemove(c1.w);
      UninstalledChecks(c1.w);
      CheckCalm(c1, n - 1, NotFound(c1.w), UninstallInvalid);
    }
  }

  lemma PathsAllowed(w: World, v: World, r: Removal)
    requires MayUninstall(w, r) && v == w.(journal := v.journal)
    ensures PathsSurvive(v, r)
  {
    assert forall s :: Published(v, s) == Published(w, s);
    assert forall s | s in w.releases && Published(w, s) :: ManifestOf(w, s) == ManifestOf(v, s);
    hide Survives;
  }
}
