/** Install and upgrade on an idle machine: exactly when a run exists that gets to the end. */
module LifecycleProgress {
  import opened Common
  import opened SemVer
  import opened Journal
  import opened JournalFacts
  import opened Lifecycle
  import opened LifecycleSafety
  import opened LifecyclePrepare
  import opened LifecycleInstall
  import opened LifecycleUpgrade
  import opened LifecycleCommands
  import opened LifecycleUninstall
  import opened LifecycleOutcomes

  // ---------------------------------------------------------------- preparing

  lemma EditCalm(c: Cfg, t: Transaction, x: Tree, edit: Edit, code: Code, n: int)
    requires n >= 1 && Calm(c, n) && t.Change? && Staged(c.w, t, x)
    ensures Reaches(EditStaging(c, t.staging, edit, code), c.w.(stagings := map[t.staging := Edited(x, edit)]), n - 1)
  {
    EditStagingEffect(c, t, x, edit, code);
  }

  lemma FinishBuildCalm(c: Cfg, t: Transaction, m: Manifest, n: int)
    requires n >= 3 && Calm(c, n) && t.Change? && t.next !in c.w.releases
    requires Staged(c.w, t, Tree(true, Some(m.package), Some(m.runtime), Some(m)))
    ensures var o := FinishBuild(c, t); o.Done? && Calm(o.c, n - 3)
  {
    hide EditStaging, Step, Calm, Check;
    EditCalm(c, t, Tree(true, Some(m.package), Some(m.runtime), Some(m)), MarkerRemoved, Invalid, n);
    var c1 := EditStaging(c, t.staging, MarkerRemoved, Invalid).c;
    StepCalm(c1, n - 1, t.next !in c1.w.releases,
             c1.w.(stagings := c1.w.stagings - {t.staging}, releases := c1.w.releases[t.next := c1.w.stagings[t.staging]]), Invalid);
    var c2 := PublishStaging(c1, t.staging, t.next).c;
    CheckCalm(c2, n - 2, true, Invalid);
  }

  lemma BuildReleaseCalm(c: Cfg, t: Transaction, m: Manifest, n: int)
    requires n >= 6 && Calm(c, n) && t.Change? && t.next !in c.w.releases && Staged(c.w, t, Tree(true, None, None, None))
    ensures var o := BuildRelease(c, t, m); o.Done? && Calm(o.c, n - 6)
  {
    hide EditStaging, FinishBuild, Step, Calm;
    EditCalm(c, t, Tree(true, None, None, None), CopiedPackage(m.package), PackageInvalid, n);
    var c1 := EditStaging(c, t.staging, CopiedPackage(m.package), PackageInvalid).c;
    EditCalm(c1, t, Tree(true, Some(m.package), None, None), WrittenUnits(m.runtime), PackageInvalid, n - 1);
    var c2 := EditStaging(c1, t.staging, WrittenUnits(m.runtime), PackageInvalid).c;
    EditCalm(c2, t, Tree(true, Some(m.package), Some(m.runtime), None), WrittenManifest(m), Invalid, n - 2);
    FinishBuildCalm(EditStaging(c2, t.staging, WrittenManifest(m), Invalid).c, t, m, n - 3);
  }

  lemma OpenStagingCalm(c: Cfg, t: Transaction, n: int)
    requires n >= 3 && Calm(c, n) && t.Change? && c.w.stagings == map[]
    ensures var o := OpenStaging(c, t); o.Done? && Calm(o.c, n - 3)
  {
    hide EditStaging, Step, Calm;
    var v := c.w.(releasesDir := true);
    StepCalm(c, n, true, v, Invalid);
    var c1 := Step(c, true, v, Invalid).c;
    var u := c1.w.(stagings := c1.w.stagings[t.staging := Tree(false, None, None, None)]);
    StepCalm(c1, n - 1, t.staging !in c1.w.stagings, u, RecoveryRequired);
    var c2 := Step(c1, t.staging !in c1.w.stagings, u, RecoveryRequired).c;
    assert Staged(c2.w, t, Tree(false, None, None, None));
    EditCalm(c2, t, Tree(false, None, None, None), MarkerWritten, Invalid, n - 2);
  }

  /** A leftover release can be used again: it was built for the same programs. */
  predicate UsableLeftover(w: World, next: string, runtime: Runtime) {
    next in w.releases && Published(w, next) ==> ManifestOf(w, next).runtime == runtime
  }

  lemma PrepareReleaseCalm(c: Cfg, t: Transaction, m: Manifest, n: int)
    requires n >= 9 && Calm(c, n) && t.Change? && Trees(c.w) && c.w.stagings == map[] && UsableLeftover(c.w, t.next, m.runtime)
    ensures var o := PrepareRelease(c, t, m); o.Done? && Calm(o.c, n - 9)
  {
    if t.next in c.w.releases {
      CheckCalm(c, n, Published(c.w, t.next) && ManifestOf(c.w, t.next).runtime == m.runtime, Invalid);
      FewerCalm(PrepareRelease(c, t, m).c, n - 1, n - 9);
    } else {
      hide Trees, OpenStaging, BuildRelease, Calm, Complete;
      OpenStagingCalm(c, t, n);
      OpenStagingEffect(c, t);
      BuildReleaseCalm(OpenStaging(c, t).c, t, m, n - 3);
    }
  }

  lemma UpdatePhaseCalm(c: Cfg, phase: Phase, n: int)
    requires n >= 1 && Calm(c, n) && c.w.journal.Some? && c.w.journal.value.Change?
    ensures Reaches(UpdatePhase(c, phase), c.w.(journal := Some(c.w.journal.value.(phase := phase))), n - 1)
  {
  }

  lemma PrepareCalm(c: Cfg, t: Transaction, m: Manifest, n: int)
    requires n >= 10 && Calm(c, n) && t.Change? && Trees(c.w) && c.w.stagings == map[] && UsableLeftover(c.w, t.next, m.runtime)
    requires c.w.journal == Some(t)
    ensures var o := Prepare(c, t, m); o.Done? && Calm(o.c, n - 10)
  {
    hide Trees, PrepareRelease, UpdatePhase, Calm, UsableLeftover, PrepMoves;
    PrepareReleaseCalm(c, t, m, n);
    PrepareReleaseEffect(c, t, m);
    UpdatePhaseCalm(PrepareRelease(c, t, m).c, Prepared, n - 9);
  }

  // ---------------------------------------------------------------- pruning

  lemma PruneCalm(c: Cfg, listing: seq<string>, retained: set<string>, n: int)
    requires n >= |listing| + 1 && Calm(c, n) && Trees(c.w) && c.w.stagings == map[]
    requires retained <= c.w.releases.Keys && |retained| <= 2
    requires forall s | s in c.w.releases :: s in listing || s in retained
    ensures var o := Prune(c, listing, retained); o.Done? && Calm(o.c, n - |listing| - 1)
  {
    hide RemoveUnretained, Calm, Step;
    RemoveUnretainedCalm(c, listing, retained, n);
    var c1 := RemoveUnretained(c, listing, retained).c;
    assert c1.w.releases.Keys == retained;
    assert |c1.w.releases| == |c1.w.releases.Keys|;
    assert forall s | s in c1.w.releases :: Published(c.w, s) && c1.w.releases[s] == c.w.releases[s];
    assert PublishedReleases(c1.w);
    CheckCalm(c1, n - |listing|, PublishedReleases(c1.w) && c1.w.releases.Keys == retained, Invalid);
  }

  lemma EndCalm(c: Cfg, t: Transaction, n: int, statusReads: bool)
    requires n >= 1 && Calm(c, n) && c.w.journal.Some? && c.w.journal.value.Change? && statusReads
    ensures var o := RemoveJournal(c); o.Done? && ReadStatus(o.c, statusReads).Done?
  {
  }

  // ---------------------------------------------------------------- install

  lemma PublishAnchorCalm(c: Cfg, a: Anchor, n: int)
    requires n >= 1 && Calm(c, n)
    ensures var o := PublishAnchor(c, a); o.Done? && Calm(o.c, n - 1)
  {
  }

  lemma PublishAnchorsCalm(c: Cfg, n: int)
    requires n >= 4 && Calm(c, n)
    ensures var o := PublishAnchors(c); o.Done? && Calm(o.c, n - 4)
  {
    hide PublishAnchor, Calm;
    PublishAnchorCalm(c, ManifestLink, n);
    var c1 := PublishAnchor(c, ManifestLink).c;
    PublishAnchorCalm(c1, CommandLink, n - 1);
    var c2 := PublishAnchor(c1, CommandLink).c;
    PublishAnchorCalm(c2, CodexLink, n - 2);
    PublishAnchorCalm(PublishAnchor(c2, CodexLink).c, HostLink, n - 3);
  }

  lemma PlaceInstallCalm(c: Cfg, t: Transaction, r: Request, n: int)
    requires n >= 6 && Calm(c, n) && t.Change? && ArtifactsAbsent(c.w)
    ensures var o := PlaceInstall(c, t, r); o.Done? && Calm(o.c, n - 6) && o.c.w.enablement.None?
  {
    hide PublishAnchors, Step, Calm;
    StepCalm(c, n, true, c.w.(environment := Some(r.environment)), Invalid);
    var c1 := PublishEnvironment(c, r.environment).c;
    PublishAnchorsCalm(c1, n - 1);
    var c2 := PublishAnchors(c1).c;
    StepCalm(c2, n - 5, c2.w.current.None?, c2.w.(current := Some(t.next)), Invalid);
  }

  lemma ActivateInstallCalm(c: Cfg, t: Transaction, environment: string, n: int)
    requires n >= 6 && Calm(c, n) && t.Change? && JournalAt(c.w, t) && Placed(c.w, t, environment)
    requires c.w.enablement.None? && t.next in c.w.releases && c.w.host.None? && !c.w.codex
    ensures var o := ActivateInstall(c, t); o.Done? && Calm(o.c, n - 6)
  {
    hide UpdatePhase, Call, Step, Check, Calm;
    UpdatePhaseCalm(c, Selected, n);
    var c1 := UpdatePhase(c, Selected).c;
    var w2 := c1.w.(hostDefs := Some(t.next), codexDefs := Some(t.next), enabled := false);
    assert AfterReload(c1.w) == w2;
    CallCalm(c1, n - 1, true, w2, w2);
    var c2 := Reload(c1).c;
    UpdatePhaseCalm(c2, ManagerReloaded, n - 2);
    var c3 := UpdatePhase(c2, ManagerReloaded).c;
    var w4 := c3.w.(enablement := Some(InRelease(t.next)), enabled := true);
    assert EnabledWorld(c3.w) == w4;
    CallCalm(c3, n - 3, true, w4, w4);
    var c4 := Enable(c3).c;
    StepCalm(c4, n - 4, OwnedEnablement(c4.w, t.next), c4.w.(enablement := Some(Canonical)), Invalid);
    var c5 := Canonicalize(c4, t.next).c;
    assert InstalledStopped(c5.w);
    CheckCalm(c5, n - 5, InstalledStopped(c5.w), LifecycleFailed);
  }

  lemma FinishInstallCalm(c: Cfg, t: Transaction, r: Request, n: int)
    requires n >= |r.listing| + 2 && Calm(c, n) && t.Change? && r.statusReads
    requires Trees(c.w) && c.w.stagings == map[] && t.next in c.w.releases && JournalAt(c.w, t)
    requires forall s | s in c.w.releases :: s in r.listing || s == t.next
    ensures FinishInstall(c, t, r).Done?
  {
    hide Prune, RemoveJournal, ReadStatus, Calm, Trees;
    PruneCalm(c, r.listing, {t.next}, n);
    EndCalm(Prune(c, r.listing, {t.next}).c, t, n - |r.listing| - 1, r.statusReads);
  }

  lemma InstallingParts(w: World, t: Transaction, environment: string)
    requires t.Change? && Installing(w, t, environment)
    ensures JournalAt(w, t) && Trees(w) && w.stagings == map[] && t.next in w.releases && w.host.None? && !w.codex
  {
  }

  /** An install that was prepared on a clean machine gets through its commit. */
  lemma InstallCommitCalm(c: Cfg, t: Transaction, r: Request, n: int)
    requires n >= |r.listing| + 14 && Calm(c, n) && t.Change? && r.statusReads
    requires Installing(c.w, t, r.environment) && ArtifactsAbsent(c.w)
    requires forall s | s in c.w.releases :: s in r.listing || s == t.next
    ensures InstallCommit(c, t, r).Done?
  {
    InstallingParts(c.w, t, r.environment);
    hide PlaceInstall, ActivateInstall, FinishInstall, Installing, InstallMoves, JournalAt, InstalledStopped, Placed, Calm, Trees, ArtifactsAbsent;
    PlaceInstallCalm(c, t, r, n);
    PlaceInstallEffect(c, t, r);
    var c1 := PlaceInstall(c, t, r).c;
    InstallMovesSafe(c.w, c1.w, t, r.environment);
    InstallingParts(c1.w, t, r.environment);
    ActivateInstallCalm(c1, t, r.environment, n - 6);
    ActivateInstallEffect(c1, t, r.environment);
    var c2 := ActivateInstall(c1, t).c;
    InstallMovesSafe(c1.w, c2.w, t, r.environment);
    InstallingParts(c2.w, t, r.environment);
    MovesKeepReleases(c.w, c1.w, t, r.environment);
    MovesKeepReleases(c1.w, c2.w, t, r.environment);
    FinishInstallCalm(c2, t, r, n - 12);
  }

  lemma MovesKeepReleases(w: World, v: World, t: Transaction, environment: string)
    requires t.Change? && InstallMoves(w, v, t, environment)
    ensures v.releases == w.releases
  {
  }

  function InstallSteps(r: Request): nat { |r.listing| + 30 }

  lemma PreparedIsClean(w: World, v: World, t: Transaction, m: Manifest)
    requires t.Change? && t.phase == Preparing && t.previous.None? && Suitable(w, t, m) && PrepMoves(w, v, t, m)
    ensures ArtifactsAbsent(v) && forall s | s in v.releases :: s in w.releases || s == t.next
  {
  }

  lemma FreshBeginCalm(c: Cfg, r: Request, n: int)
    requires Inv(c.w) && Idle(c.w) && c.w.current.None? && ValidRequest(r) && n >= 13 && Calm(c, n)
    requires PublishedReleases(c.w) && UsableLeftover(c.w, SelectorOf(r.package), r.runtime)
    ensures var o := FreshBegin(c, r); var t := FreshTransaction(r);
            && o.Done? && Calm(o.c, n - 13)
            && PrepMoves(c.w.(journal := Some(t)), o.c.w, t, RequestManifest(r))
            && Suitable(c.w.(journal := Some(t)), t, RequestManifest(r))
            && o.c.w.journal == Some(t.(phase := Prepared)) && t.next in o.c.w.releases && Installing(o.c.w, t, r.environment)
  {
    var t, m := FreshTransaction(r), RequestManifest(r);
    FreshIsSuitable(c.w, r);
    IdleJournal(c.w);
    AbsentMeans(c.w);
    hide Check, Step, Prepare, Inv, Idle, Suitable, PrepareEnd, PublishedReleases, NoUnits, Calm, InstallCommit, Installing, PrepMoves, Complete,
      Lists, Trees, ArtifactsAbsent, ReleaseSelector, UsableLeftover, SameLeftover;
    CheckCalm(c, n, PublishedReleases(c.w), Invalid);
    var c1 := Check(c, PublishedReleases(c.w), Invalid).c;
    CheckCalm(c1, n - 1, NoUnits(c1.w), Invalid);
    var c2 := Check(c1, NoUnits(c1.w), Invalid).c;
    StepCalm(c2, n - 2, true, c2.w.(journal := Some(t)), RecoveryRequired);
    var c3 := WriteJournal(c2, t).c;
    SuitableIsClean(c3.w, t, m);
    LeftoverStays(c.w, c3.w, t.next, r.runtime);
    SuitableTrees(c3.w, t, m);
    PrepareCalm(c3, t, m, n - 3);
    PrepareSafe(c3, t, m);
    var c4 := Prepare(c3, t, m).c;
    EndMoves(c3.w, c4.w, t, m);
    PreparedIsInstalling(c3.w, c4.w, t, m);
  }

  lemma FreshInstallCalm(c: Cfg, r: Request)
    requires Inv(c.w) && Idle(c.w) && c.w.current.None? && r.statusReads && Lists(c.w, r.listing)
    requires ValidRequest(r)
    requires PublishedReleases(c.w) && UsableLeftover(c.w, SelectorOf(r.package), r.runtime) && Calm(c, InstallSteps(r))
    ensures FreshInstall(c, r).Done?
  {
    var n, t, m := InstallSteps(r), FreshTransaction(r), RequestManifest(r);
    hide FreshBegin, Inv, Idle, Suitable, PublishedReleases, Calm, InstallCommit, Installing, PrepMoves, Lists, Trees, ArtifactsAbsent, ReleaseSelector,
      UsableLeftover;
    FreshBeginCalm(c, r, n);
    var c4 := FreshBegin(c, r).c;
    PreparedIsClean(c.w.(journal := Some(t)), c4.w, t, m);
    ListsMeans(c.w, r.listing);
    InstallCommitCalm(c4, t, r, n - 13);
  }

  lemma ListsMeans(w: World, listing: seq<string>)
    requires Lists(w, listing)
    ensures forall s | s in w.releases :: s in listing
  {
  }

  lemma SuitableTrees(w: World, t: Transaction, m: Manifest)
    requires t.Change? && Suitable(w, t, m)
    ensures Trees(w)
  {
  }

  lemma EndMoves(w: World, v: World, t: Transaction, m: Manifest)
    requires t.Change? && PrepareEnd(w, v, t, m)
    ensures PrepMoves(w, v, t, m)
  {
  }

  lemma LeftoverStays(w: World, v: World, next: string, runtime: Runtime)
    requires UsableLeftover(w, next, runtime) && v == w.(journal := v.journal)
    ensures UsableLeftover(v, next, runtime)
  {
    if next in v.releases && Published(v, next) { assert Published(w, next); }
  }

  lemma AbsentMeans(w: World)
    requires Inv(w) && Idle(w) && w.current.None?
    ensures NoUnits(w) && Inspect(w) == Absent && w.journal.None?
  {
  }

  lemma FreshBeginMust(c: Cfg, r: Request)
    requires FreshBegin(c, r).Done?
    ensures PublishedReleases(c.w) && UsableLeftover(c.w, SelectorOf(r.package), r.runtime)
  {
    hide PublishedReleases, NoUnits, Step, PrepareAndMark, AbandonStaging, ReleaseSelector, Complete;
    var c1 := Check(c, PublishedReleases(c.w), Invalid).c;
    var c2 := Check(c1, NoUnits(c1.w), Invalid).c;
    var c3 := WriteJournal(c2, FreshTransaction(r)).c;
    assert c3.w == c.w.(journal := Some(FreshTransaction(r)));
    PrepareMust(c3, FreshTransaction(r), RequestManifest(r));
    LeftoverStays(c3.w, c.w, SelectorOf(r.package), r.runtime);
  }

  lemma FreshInstallMust(c: Cfg, r: Request)
    requires FreshInstall(c, r).Done?
    ensures PublishedReleases(c.w) && UsableLeftover(c.w, SelectorOf(r.package), r.runtime) && r.statusReads
  {
    hide PublishedReleases, FreshBegin, PlaceInstall, ActivateInstall, Prune, RemoveJournal, ClearInstall, UsableLeftover, ReleaseSelector;
    FreshBeginMust(c, r);
  }

  lemma PrepareMust(c: Cfg, t: Transaction, m: Manifest)
    requires t.Change? && PrepareAndMark(c, t, m).Done?
    ensures UsableLeftover(c.w, t.next, m.runtime)
  {
    hide OpenStaging, BuildOrClean, UpdatePhase, Complete;
  }

  /** What an install demands of a machine where nothing is installed. */
  predicate MayInstall(w: World, r: Request) {
    |w.releases| <= MAXIMUM_PUBLISHED_RELEASES && UsableLeftover(w, SelectorOf(r.package), r.runtime)
  }

  /**
   On a machine where nothing is installed some run of install gets to the end exactly when the releases
   left there are within the limit, a leftover of the same release was built for the same programs, and the
   final state can be read. (What it then leaves is FreshInstallSafe.)
   */
  lemma InstallCompletesIff(w: World, r: Request)
    requires Inv(w) && w.journal.None? && w.current.None? && Lists(w, r.listing) && ValidRequest(r)
    ensures (exists plan :: Install(Cfg(w, plan), r).Done?) <==> MayInstall(w, r) && r.statusReads
  {
    InvIdle(w);
    AbsentMeans(w);
    CountDecides(w);
    hide Inv, Idle, FreshInstall, Inspect, PublishedReleases, UsableLeftover, Lists, ReleaseSelector;
    if plan :| Install(Cfg(w, plan), r).Done? { FreshInstallMust(Cfg(w, plan), r); }
    if MayInstall(w, r) && r.statusReads {
      var plan := AllGo(InstallSteps(r));
      FreshInstallCalm(Cfg(w, plan), r);
      assert Install(Cfg(w, plan), r).Done?;
    }
  }

  /** On an idle installation only the number of releases can be wrong with them. */
  lemma CountDecides(w: World)
    requires Inv(w) && Idle(w)
    ensures PublishedReleases(w) <==> |w.releases| <= MAXIMUM_PUBLISHED_RELEASES
  {
  }

  // ---------------------------------------------------------------- upgrade

  lemma SwitchUpgradeCalm(c: Cfg, t: Transaction, n: int)
    requires n >= 4 && Calm(c, n) && t.Change? && Upgrading(c.w, t) && c.w.current == t.previous && t.previous.Some?
    ensures var o := SwitchUpgrade(c, t);
            && o.Done? && Calm(o.c, n - 4)
            && o.c.w.host == c.w.host && o.c.w.codex == c.w.codex && o.c.w.releases == c.w.releases
  {
    UpgradingIsSafe(c.w, t);
    hide UpdatePhase, Reload, Upgrading, Step, Calm;
    StepCalm(c, n, c.w.current == Some(t.previous.value), c.w.(current := Some(t.next)), Invalid);
    SelectorMoves(c, t, t.previous.value, t.next);
    var c1 := ReplaceSelector(c, t.previous.value, t.next).c;
    UpgradingIsSafe(c1.w, t);
    UpdatePhaseCalm(c1, Selected, n - 1);
    MarkPhase(c1, t, Selected);
    var c2 := UpdatePhase(c1, Selected).c;
    ReloadCalm(c2, n - 2);
    ManagerReloads(c2, t);
    var c3 := Reload(c2).c;
    UpgradingIsSafe(c3.w, t);
    UpdatePhaseCalm(c3, ManagerReloaded, n - 3);
  }

  lemma ReloadCalm(c: Cfg, n: int)
    requires n >= 1 && Calm(c, n)
    ensures var o := Reload(c); o.Done? && Calm(o.c, n - 1)
  {
    hide AfterReload;
  }

  /** With the manager on the selected release, every identity check passes. */
  lemma SwitchedIdentity(w: World, t: Transaction)
    requires t.Change? && Upgrading(w, t) && w.current == Some(t.next) && w.hostDefs == w.current
    ensures InstalledIdentity(w) && (!t.wasActive ==> w.host.None?)
  {
  }

  lemma ReactivateCalm(c: Cfg, t: Transaction, codexBefore: bool, n: int)
    requires n >= 2 && Calm(c, n) && t.Change? && Upgrading(c.w, t) && c.w.current == Some(t.next) && c.w.hostDefs == c.w.current
    requires c.w.codex == codexBefore
    ensures var o := Reactivate(c, t.wasActive, codexBefore); o.Done? && Calm(o.c, n - 2)
  {
    SwitchedIdentity(c.w, t);
    if t.wasActive {
      var v := c.w.(host := c.w.hostDefs, codex := true);
      assert ReadyToServe(v);
      hide Upgrading, Calm, InstalledIdentity;
      CallCalm(c, n, c.w.hostDefs.Some?, v, c.w.(host := None));
      CheckCalm(Restart(c).c, n - 1, ReadyToServe(v), ReadinessFailed);
    } else {
      hide Upgrading, Calm, InstalledIdentity;
      CheckCalm(c, n, InstalledIdentity(c.w) && c.w.host.None? && c.w.codex == codexBefore, LifecycleFailed);
      FewerCalm(Reactivate(c, false, codexBefore).c, n - 1, n - 2);
    }
  }

  lemma UpgradingParts(w: World, t: Transaction)
    requires t.Change? && Upgrading(w, t)
    ensures JournalAt(w, t) && Trees(w) && w.stagings == map[] && t.previous.Some?
    ensures t.next in w.releases && t.previous.value in w.releases
  {
  }

  lemma FinishUpgradeCalm(c: Cfg, t: Transaction, r: Request, n: int)
    requires n >= |r.listing| + 2 && Calm(c, n) && t.Change? && r.statusReads && Upgrading(c.w, t) && t.previous.Some?
    requires forall s | s in c.w.releases :: s in r.listing || s == t.next
    ensures FinishUpgrade(c, t, r).Done?
  {
    UpgradingParts(c.w, t);
    hide Prune, RemoveJournal, ReadStatus, Calm, Trees, Upgrading;
    PruneCalm(c, r.listing, {t.previous.value, t.next}, n);
    EndCalm(Prune(c, r.listing, {t.previous.value, t.next}).c, t, n - |r.listing| - 1, r.statusReads);
  }

  lemma UpgradeCommitCalm(c: Cfg, t: Transaction, r: Request, n: int)
    requires n >= |r.listing| + 8 && Calm(c, n) && t.Change? && r.statusReads
    requires Upgrading(c.w, t) && c.w.current == t.previous && t.previous.Some?
    requires forall s | s in c.w.releases :: s in r.listing || s == t.next
    ensures UpgradeCommit(c, t, c.w.codex, r).Done?
  {
    hide SwitchUpgrade, Reactivate, FinishUpgrade, Upgrading, Calm;
    SwitchUpgradeCalm(c, t, n);
    SwitchUpgradeEffect(c, t);
    var c1 := SwitchUpgrade(c, t).c;
    ReactivateCalm(c1, t, c.w.codex, n - 4);
    Reactivates(c1, t, c.w.codex);
    FinishUpgradeCalm(Reactivate(c1, t.wasActive, c.w.codex).c, t, r, n - 6);
  }

  /** What an upgrade demands of the running installation before it writes anything. */
  predicate MayUpgrade(w: World, r: Request)
    requires w.current.Some? && Published(w, w.current.value)
  {
    && |w.releases| <= MAXIMUM_PUBLISHED_RELEASES
    && Newer(r.package, ManifestOf(w, w.current.value).package)
    && (w.host.Some? ==> w.codex)
    && UsableLeftover(w, SelectorOf(r.package), ManifestOf(w, w.current.value).runtime)
  }

  lemma UpgradeChecksCalm(c: Cfg, r: Request, n: int)
    requires n >= 3 && Calm(c, n) && Inspect(c.w) == Coherent && PublishedReleases(c.w) && InstalledIdentity(c.w)
    requires c.w.current.Some? && Published(c.w, c.w.current.value) && Newer(r.package, ManifestOf(c.w, c.w.current.value).package)
    requires c.w.host.Some? ==> c.w.codex
    ensures var o := UpgradeChecks(c, r); Reaches(o, c.w, n - 3)
  {
    hide Step, Newer, PublishedReleases, InstalledIdentity, Inspect, Calm, Complete;
    CheckCalm(c, n, PublishedReleases(c.w), Invalid);
    var c1 := Check(c, PublishedReleases(c.w), Invalid).c;
    CheckCalm(c1, n - 1, InstalledIdentity(c1.w), LifecycleFailed);
    var c2 := Check(c1, InstalledIdentity(c1.w), LifecycleFailed).c;
    CheckCalm(c2, n - 2, true, ReadinessFailed);
    FewerCalm(c2, n - 2, n - 3);
  }

  lemma IdleIdentity(w: World)
    requires Inv(w) && Idle(w) && w.current.Some?
    ensures InstalledIdentity(w) && Inspect(w) == Coherent && Published(w, w.current.value) && w.journal.None?
  {
  }

  lemma PreparedIsOnPrevious(w: World, v: World, t: Transaction, m: Manifest)
    requires t.Change? && t.phase == Preparing && t.previous.Some? && Suitable(w, t, m) && PrepMoves(w, v, t, m)
    ensures v.current == t.previous && v.codex == w.codex && forall s | s in v.releases :: s in w.releases || s == t.next
  {
  }

  function UpgradeSteps(r: Request): nat { |r.listing| + 30 }

  lemma ChangingUpgradeCalm(c: Cfg, r: Request)
    requires Inv(c.w) && Idle(c.w) && c.w.current.Some? && Inspect(c.w) == Coherent && Published(c.w, c.w.current.value)
    requires r.statusReads && Lists(c.w, r.listing) && ValidPackage(r.package) && PublishedReleases(c.w)
    requires MayUpgrade(c.w, r) && Calm(c, UpgradeSteps(r))
    ensures ChangingUpgrade(c, r).Done?
  {
    var n, t, m := UpgradeSteps(r), UpgradeTransaction(c.w, r), UpgradeManifest(c.w, r);
    IdleIdentity(c.w);
    UpgradeIsSuitable(c.w, r);
    hide Check, Step, Prepare, Inv, Idle, Suitable, PrepareEnd, PublishedReleases, Calm, UpgradeCommit, Upgrading, PrepMoves, Complete,
      Lists, Trees, Inspect, ReleaseSelector, UsableLeftover, InstalledIdentity, Newer, UpgradeChecks;
    UpgradeChecksCalm(c, r, n);
    var c1 := UpgradeChecks(c, r).c;
    StepCalm(c1, n - 3, true, c1.w.(journal := Some(t)), RecoveryRequired);
    var c2 := WriteJournal(c1, t).c;
    SuitableIsClean(c2.w, t, m);
    LeftoverStays(c.w, c2.w, t.next, m.runtime);
    SuitableTrees(c2.w, t, m);
    PrepareCalm(c2, t, m, n - 4);
    PrepareSafe(c2, t, m);
    var c3 := Prepare(c2, t, m).c;
    EndMoves(c2.w, c3.w, t, m);
    PreparedIsOnPrevious(c2.w, c3.w, t, m);
    PreparedIsUpgrading(c2.w, c3.w, t, m);
    ListsMeans(c.w, r.listing);
    assert c3.w.codex == c.w.codex;
    UpgradeCommitCalm(c3, t, r, n - 14);
  }

  lemma ChangingUpgradeMust(c: Cfg, r: Request)
    requires Inspect(c.w) == Coherent && c.w.current.Some? && Published(c.w, c.w.current.value) && ChangingUpgrade(c, r).Done?
    ensures MayUpgrade(c.w, r) && r.statusReads
  {
    hide UpgradeBegin, SwitchUpgrade, Reactivate, Prune, RemoveJournal, UpgradeRollback, Complete, Inspect, MayUpgrade;
    UpgradeBeginMust(c, r);
  }

  lemma UpgradeBeginMust(c: Cfg, r: Request)
    requires Inspect(c.w) == Coherent && c.w.current.Some? && Published(c.w, c.w.current.value) && UpgradeBegin(c, r).Done?
    ensures MayUpgrade(c.w, r)
  {
    hide UpgradeChecks, Step, PrepareAndMark, AbandonStaging, ReleaseSelector, Complete, Inspect, UsableLeftover, Newer, Check;
    UpgradeChecksMust(c, r);
    var t, m := UpgradeTransaction(c.w, r), UpgradeManifest(c.w, r);
    var c2 := WriteJournal(UpgradeChecks(c, r).c, t).c;
    assert c2.w == c.w.(journal := Some(t));
    PrepareMust(c2, t, m);
    LeftoverStays(c2.w, c.w, SelectorOf(r.package), m.runtime);
  }

  lemma UpgradeChecksMust(c: Cfg, r: Request)
    requires Inspect(c.w) == Coherent && UpgradeChecks(c, r).Done?
    ensures |c.w.releases| <= MAXIMUM_PUBLISHED_RELEASES && (c.w.host.Some? ==> c.w.codex)
    ensures Newer(r.package, ManifestOf(c.w, c.w.current.value).package) && UpgradeChecks(c, r).c.w == c.w
  {
    hide Step, Newer, InstalledIdentity, Complete, OnDisk, NeedsReload;
  }

  /**
   On a coherent, idle installation some run of upgrade to another package gets to the end exactly when
   the package is strictly newer, the releases are within the limit, a running host has its companion,
   a leftover of the next release was built for the installed programs, and the final state can be read.
   */
  lemma UpgradeCompletesIff(w: World, r: Request)
    requires Inv(w) && w.journal.None? && w.current.Some? && Published(w, w.current.value) && Inspect(w) == Coherent
    requires Lists(w, r.listing) && ValidPackage(r.package) && !SamePackage(w, r)
    ensures (exists plan :: Upgrade(Cfg(w, plan), r).Done?) <==> MayUpgrade(w, r) && r.statusReads
  {
    InvIdle(w);
    CountDecides(w);
    var limit := |w.releases| <= MAXIMUM_PUBLISHED_RELEASES;
    assert MayUpgrade(w, r) ==> PublishedReleases(w);
    hide Inv, Idle, ChangingUpgrade, Inspect, PublishedReleases, MayUpgrade, Lists, Complete, SamePackage;
    if plan :| Upgrade(Cfg(w, plan), r).Done? { ChangingUpgradeMust(Cfg(w, plan), r); }
    if MayUpgrade(w, r) && r.statusReads {
      var plan := AllGo(UpgradeSteps(r));
      ChangingUpgradeCalm(Cfg(w, plan), r);
      assert Upgrade(Cfg(w, plan), r).Done?;
    }
  }
}
