/**
 A step looks at the world and at the next answer only. So what a command has done under some plan, it can do
 under a plan that has any given answers left at the end: here its last step can be followed by a chosen one.
 Every lemma returns such a plan.
 */
module LifecycleReplay {
  import opened Common
  import opened Journal
  import opened Lifecycle
  import opened LifecycleCommands

  lemma StepReplay(c: Cfg, allowed: bool, after: World, code: Code, q: seq<Choice>) returns (p: seq<Choice>)
    requires Step(c, allowed, after, code).Done?
    ensures Step(Cfg(c.w, p), allowed, after, code) == Done(Cfg(after, q))
    ensures p == [Go] + q
  {
    p := [Go] + q;
    assert p[1..] == q;
  }

  lemma CallReplay(c: Cfg, allowed: bool, after: World, late: World, q: seq<Choice>) returns (p: seq<Choice>)
    requires Call(c, allowed, after, late).Done?
    ensures Call(Cfg(c.w, p), allowed, after, late) == Done(Cfg(after, q))
    ensures p == [Go] + q
  {
    p := [Go] + q;
    assert p[1..] == q;
  }

  lemma ReloadReplay(c: Cfg, q: seq<Choice>) returns (p: seq<Choice>)
    requires Reload(c).Done?
    ensures Reload(Cfg(c.w, p)) == Done(Cfg(Reload(c).c.w, q))
  {
    hide AfterReload;
    p := CallReplay(c, true, AfterReload(c.w), AfterReload(c.w), q);
  }

  lemma UpdatePhaseReplay(c: Cfg, phase: Phase, q: seq<Choice>) returns (p: seq<Choice>)
    requires UpdatePhase(c, phase).Done?
    ensures UpdatePhase(Cfg(c.w, p), phase) == Done(Cfg(UpdatePhase(c, phase).c.w, q))
  {
    p := StepReplay(c, true, UpdatePhase(c, phase).c.w, Invalid, q);
  }

  lemma RemoveJournalReplay(c: Cfg, q: seq<Choice>) returns (p: seq<Choice>)
    requires RemoveJournal(c).Done?
    ensures RemoveJournal(Cfg(c.w, p)) == Done(Cfg(RemoveJournal(c).c.w, q))
  {
    hide Readable;
    p := if c.w.journal.None? then q else [Go] + q;
    assert ([Go] + q)[1..] == q;
  }

  // ---------------------------------------------------------------- preparing

  lemma EditReplay(c: Cfg, name: string, edit: Edit, code: Code, q: seq<Choice>) returns (p: seq<Choice>)
    requires EditStaging(c, name, edit, code).Done?
    ensures EditStaging(Cfg(c.w, p), name, edit, code) == Done(Cfg(EditStaging(c, name, edit, code).c.w, q))
  {
    hide Edited;
    p := [Go] + q;
    assert p[1..] == q;
  }

  lemma PublishReplay(c: Cfg, name: string, selector: string, q: seq<Choice>) returns (p: seq<Choice>)
    requires PublishStaging(c, name, selector).Done?
    ensures PublishStaging(Cfg(c.w, p), name, selector) == Done(Cfg(PublishStaging(c, name, selector).c.w, q))
  {
    p := [Go] + q;
    assert p[1..] == q;
  }

  lemma OpenStagingReplay(c: Cfg, t: Transaction, q: seq<Choice>) returns (p: seq<Choice>)
    requires t.Change? && OpenStaging(c, t).Done?
    ensures OpenStaging(Cfg(c.w, p), t) == Done(Cfg(OpenStaging(c, t).c.w, q))
  {
    hide EditStaging, Step;
    var c1 := Step(c, true, c.w.(releasesDir := true), Invalid).c;
    var u := c1.w.(stagings := c1.w.stagings[t.staging := Tree(false, None, None, None)]);
    var c2 := Step(c1, t.staging !in c1.w.stagings, u, RecoveryRequired).c;
    var p3 := EditReplay(c2, t.staging, MarkerWritten, Invalid, q);
    var p2 := StepReplay(c1, t.staging !in c1.w.stagings, u, RecoveryRequired, p3);
    p := StepReplay(c, true, c.w.(releasesDir := true), Invalid, p2);
  }

  lemma FinishBuildReplay(c: Cfg, t: Transaction, q: seq<Choice>) returns (p: seq<Choice>)
    requires t.Change? && FinishBuild(c, t).Done?
    ensures FinishBuild(Cfg(c.w, p), t) == Done(Cfg(FinishBuild(c, t).c.w, q))
  {
    hide EditStaging, PublishStaging, Step;
    var c1 := EditStaging(c, t.staging, MarkerRemoved, Invalid).c;
    var c2 := PublishStaging(c1, t.staging, t.next).c;
    var p3 := StepReplay(c2, true, c2.w, Invalid, q);
    var p2 := PublishReplay(c1, t.staging, t.next, p3);
    p := EditReplay(c, t.staging, MarkerRemoved, Invalid, p2);
  }

  lemma BuildReleaseReplay(c: Cfg, t: Transaction, m: Manifest, q: seq<Choice>) returns (p: seq<Choice>)
    requires t.Change? && BuildRelease(c, t, m).Done?
    ensures BuildRelease(Cfg(c.w, p), t, m) == Done(Cfg(BuildRelease(c, t, m).c.w, q))
  {
    hide EditStaging, FinishBuild;
    var c1 := EditStaging(c, t.staging, CopiedPackage(m.package), PackageInvalid).c;
    var c2 := EditStaging(c1, t.staging, WrittenUnits(m.runtime), PackageInvalid).c;
    var c3 := EditStaging(c2, t.staging, WrittenManifest(m), Invalid).c;
    var p4 := FinishBuildReplay(c3, t, q);
    var p3 := EditReplay(c2, t.staging, WrittenManifest(m), Invalid, p4);
    var p2 := EditReplay(c1, t.staging, WrittenUnits(m.runtime), PackageInvalid, p3);
    p := EditReplay(c, t.staging, CopiedPackage(m.package), PackageInvalid, p2);
  }

  lemma PrepareReleaseReplay(c: Cfg, t: Transaction, m: Manifest, q: seq<Choice>) returns (p: seq<Choice>)
    requires t.Change? && PrepareRelease(c, t, m).Done?
    ensures PrepareRelease(Cfg(c.w, p), t, m) == Done(Cfg(PrepareRelease(c, t, m).c.w, q))
  {
    hide OpenStaging, BuildRelease, RemoveStaging, Step, Complete;
    if t.next in c.w.releases {
      p := StepReplay(c, Published(c.w, t.next) && ManifestOf(c.w, t.next).runtime == m.runtime, c.w, Invalid, q);
    } else {
      var c1 := OpenStaging(c, t).c;
      var p2 := BuildReleaseReplay(c1, t, m, q);
      p := OpenStagingReplay(c, t, p2);
    }
  }

  lemma PrepareReplay(c: Cfg, t: Transaction, m: Manifest, q: seq<Choice>) returns (p: seq<Choice>)
    requires t.Change? && Prepare(c, t, m).Done?
    ensures Prepare(Cfg(c.w, p), t, m) == Done(Cfg(Prepare(c, t, m).c.w, q))
  {
    hide PrepareRelease, UpdatePhase, AbandonStaging;
    var c1 := PrepareRelease(c, t, m).c;
    var p2 := UpdatePhaseReplay(c1, Prepared, q);
    p := PrepareReleaseReplay(c, t, m, p2);
  }

  // ---------------------------------------------------------------- pruning

  lemma RemoveReleaseReplay(c: Cfg, s: string, q: seq<Choice>) returns (p: seq<Choice>)
    requires RemoveRelease(c, s).Done?
    ensures RemoveRelease(Cfg(c.w, p), s) == Done(Cfg(RemoveRelease(c, s).c.w, q))
  {
    hide Complete;
    p := if s !in c.w.releases then q else [Go] + q;
    assert ([Go] + q)[1..] == q;
  }

  lemma {:induction false} RemoveUnretainedReplay(c: Cfg, listing: seq<string>, retained: set<string>, q: seq<Choice>) returns (p: seq<Choice>)
    requires RemoveUnretained(c, listing, retained).Done?
    ensures RemoveUnretained(Cfg(c.w, p), listing, retained) == Done(Cfg(RemoveUnretained(c, listing, retained).c.w, q))
    decreases |listing|
  {
    hide RemoveRelease;
    if listing == [] {
      p := q;
    } else if listing[0] in retained {
      p := RemoveUnretainedReplay(c, listing[1..], retained, q);
    } else {
      var c1 := RemoveRelease(c, listing[0]).c;
      var p2 := RemoveUnretainedReplay(c1, listing[1..], retained, q);
      p := RemoveReleaseReplay(c, listing[0], p2);
    }
  }

  lemma PruneReplay(c: Cfg, listing: seq<string>, retained: set<string>, q: seq<Choice>) returns (p: seq<Choice>)
    requires Prune(c, listing, retained).Done?
    ensures Prune(Cfg(c.w, p), listing, retained) == Done(Cfg(Prune(c, listing, retained).c.w, q))
  {
    hide RemoveUnretained, Step, PublishedReleases;
    var c1 := RemoveUnretained(c, listing, retained).c;
    var p2 := StepReplay(c1, PublishedReleases(c1.w) && c1.w.releases.Keys == retained, c1.w, Invalid, q);
    p := RemoveUnretainedReplay(c, listing, retained, p2);
  }

  // ---------------------------------------------------------------- install

  lemma PublishAnchorReplay(c: Cfg, a: Anchor, q: seq<Choice>) returns (p: seq<Choice>)
    requires PublishAnchor(c, a).Done?
    ensures PublishAnchor(Cfg(c.w, p), a) == Done(Cfg(PublishAnchor(c, a).c.w, q))
  {
    p := if a in c.w.anchors then q else [Go] + q;
    assert ([Go] + q)[1..] == q;
  }

  lemma PublishAnchorsReplay(c: Cfg, q: seq<Choice>) returns (p: seq<Choice>)
    requires PublishAnchors(c).Done?
    ensures PublishAnchors(Cfg(c.w, p)) == Done(Cfg(PublishAnchors(c).c.w, q))
  {
    hide PublishAnchor;
    var c1 := PublishAnchor(c, ManifestLink).c;
    var c2 := PublishAnchor(c1, CommandLink).c;
    var c3 := PublishAnchor(c2, CodexLink).c;
    var p4 := PublishAnchorReplay(c3, HostLink, q);
    var p3 := PublishAnchorReplay(c2, CodexLink, p4);
    var p2 := PublishAnchorReplay(c1, CommandLink, p3);
    p := PublishAnchorReplay(c, ManifestLink, p2);
  }

  lemma PublishEnvironmentReplay(c: Cfg, sha: string, q: seq<Choice>) returns (p: seq<Choice>)
    requires PublishEnvironment(c, sha).Done?
    ensures PublishEnvironment(Cfg(c.w, p), sha) == Done(Cfg(PublishEnvironment(c, sha).c.w, q))
  {
    p := [Go] + q;
    assert p[1..] == q;
  }

  lemma PlaceInstallReplay(c: Cfg, t: Transaction, r: Request, q: seq<Choice>) returns (p: seq<Choice>)
    requires t.Change? && PlaceInstall(c, t, r).Done?
    ensures PlaceInstall(Cfg(c.w, p), t, r) == Done(Cfg(PlaceInstall(c, t, r).c.w, q))
  {
    hide PublishEnvironment, PublishAnchors, Step;
    var c1 := PublishEnvironment(c, r.environment).c;
    var c2 := PublishAnchors(c1).c;
    var p3 := StepReplay(c2, c2.w.current.None?, c2.w.(current := Some(t.next)), Invalid, q);
    var p2 := PublishAnchorsReplay(c1, p3);
    p := PublishEnvironmentReplay(c, r.environment, p2);
  }

  lemma EnableReplay(c: Cfg, q: seq<Choice>) returns (p: seq<Choice>)
    requires Enable(c).Done?
    ensures Enable(Cfg(c.w, p)) == Done(Cfg(Enable(c).c.w, q))
  {
    hide EnabledWorld;
    p := CallReplay(c, c.w.hostDefs.Some?, EnabledWorld(c.w), EnabledWorld(c.w), q);
  }

  lemma ActivateInstallReplay(c: Cfg, t: Transaction, q: seq<Choice>) returns (p: seq<Choice>)
    requires t.Change? && ActivateInstall(c, t).Done?
    ensures ActivateInstall(Cfg(c.w, p), t) == Done(Cfg(ActivateInstall(c, t).c.w, q))
  {
    hide UpdatePhase, Reload, Enable, Step, InstalledStopped;
    var c1 := UpdatePhase(c, Selected).c;
    var c2 := Reload(c1).c;
    var c3 := UpdatePhase(c2, ManagerReloaded).c;
    var c4 := Enable(c3).c;
    var c5 := Canonicalize(c4, t.next).c;
    var p6 := StepReplay(c5, InstalledStopped(c5.w), c5.w, LifecycleFailed, q);
    var p5 := StepReplay(c4, OwnedEnablement(c4.w, t.next), c4.w.(enablement := Some(Canonical)), Invalid, p6);
    var p4 := EnableReplay(c3, p5);
    var p3 := UpdatePhaseReplay(c2, ManagerReloaded, p4);
    var p2 := ReloadReplay(c1, p3);
    p := UpdatePhaseReplay(c, Selected, p2);
  }

  lemma FinishInstallReplay(c: Cfg, t: Transaction, r: Request, q: seq<Choice>) returns (p: seq<Choice>)
    requires t.Change? && FinishInstall(c, t, r).Done?
    ensures FinishInstall(Cfg(c.w, p), t, r) == Done(Cfg(FinishInstall(c, t, r).c.w, q))
  {
    hide Prune, RemoveJournal;
    var c1 := Prune(c, r.listing, {t.next}).c;
    var p2 := RemoveJournalReplay(c1, q);
    p := PruneReplay(c, r.listing, {t.next}, p2);
  }

  lemma InstallCommitReplay(c: Cfg, t: Transaction, r: Request, q: seq<Choice>) returns (p: seq<Choice>)
    requires t.Change? && InstallCommit(c, t, r).Done?
    ensures InstallCommit(Cfg(c.w, p), t, r) == Done(Cfg(InstallCommit(c, t, r).c.w, q))
  {
    hide PlaceInstall, ActivateInstall, FinishInstall;
    var c1 := PlaceInstall(c, t, r).c;
    var c2 := ActivateInstall(c1, t).c;
    var p3 := FinishInstallReplay(c2, t, r, q);
    var p2 := ActivateInstallReplay(c1, t, p3);
    p := PlaceInstallReplay(c, t, r, p2);
  }

  lemma FreshBeginReplay(c: Cfg, r: Request, q: seq<Choice>) returns (p: seq<Choice>)
    requires FreshBegin(c, r).Done?
    ensures FreshBegin(Cfg(c.w, p), r) == Done(Cfg(FreshBegin(c, r).c.w, q))
  {
    hide Prepare, Step, PublishedReleases, NoUnits, ReleaseSelector;
    var t := FreshTransaction(r);
    var c1 := Check(c, PublishedReleases(c.w), Invalid).c;
    var c2 := Check(c1, NoUnits(c1.w), Invalid).c;
    var c3 := WriteJournal(c2, t).c;
    var p4 := PrepareReplay(c3, t, RequestManifest(r), q);
    var p3 := StepReplay(c2, c2.w.journal.None?, c2.w.(journal := Some(t)), RecoveryRequired, p4);
    var p2 := StepReplay(c1, NoUnits(c1.w), c1.w, Invalid, p3);
    p := StepReplay(c, PublishedReleases(c.w), c.w, Invalid, p2);
  }

  lemma FreshInstallReplay(c: Cfg, r: Request, q: seq<Choice>) returns (p: seq<Choice>)
    requires FreshInstall(c, r).Done?
    ensures FreshInstall(Cfg(c.w, p), r) == Done(Cfg(FreshInstall(c, r).c.w, q))
  {
    hide FreshBegin, InstallCommit, InstallRollback, ReleaseSelector;
    NeverDone(FreshBegin(c, r).c, r);
    var c1 := FreshBegin(c, r).c;
    var p2 := InstallCommitReplay(c1, FreshTransaction(r), r, q);
    p := FreshBeginReplay(c, r, p2);
  }

  lemma NeverDone(c: Cfg, r: Request)
    ensures var o := InstallCommit(c, FreshTransaction(r), r); o.Failed? ==> !InstallRollback(o.c, FreshTransaction(r), r).Done?
  {
    hide InstallCommit, ClearInstall, RemoveJournal;
  }

  // ---------------------------------------------------------------- upgrade

  lemma ReactivateReplay(c: Cfg, active: bool, codexBefore: bool, q: seq<Choice>) returns (p: seq<Choice>)
    requires Reactivate(c, active, codexBefore).Done?
    ensures Reactivate(Cfg(c.w, p), active, codexBefore) == Done(Cfg(Reactivate(c, active, codexBefore).c.w, q))
  {
    hide Call, Step, InstalledIdentity;
    if active {
      var c1 := Restart(c).c;
      var p2 := StepReplay(c1, ReadyToServe(c1.w), c1.w, ReadinessFailed, q);
      p := CallReplay(c, c.w.hostDefs.Some?, c.w.(host := c.w.hostDefs, codex := true), c.w.(host := None), p2);
    } else {
      p := StepReplay(c, InstalledIdentity(c.w) && c.w.host.None? && c.w.codex == codexBefore, c.w, LifecycleFailed, q);
    }
  }

  lemma SwitchUpgradeReplay(c: Cfg, t: Transaction, q: seq<Choice>) returns (p: seq<Choice>)
    requires t.Change? && t.previous.Some? && SwitchUpgrade(c, t).Done?
    ensures SwitchUpgrade(Cfg(c.w, p), t) == Done(Cfg(SwitchUpgrade(c, t).c.w, q))
  {
    hide Step, UpdatePhase, Reload;
    var from, to := t.previous.value, t.next;
    var c1 := ReplaceSelector(c, from, to).c;
    var c2 := UpdatePhase(c1, Selected).c;
    var c3 := Reload(c2).c;
    var p4 := UpdatePhaseReplay(c3, ManagerReloaded, q);
    var p3 := ReloadReplay(c2, p4);
    var p2 := UpdatePhaseReplay(c1, Selected, p3);
    p := StepReplay(c, c.w.current == Some(from), c.w.(current := Some(to)), Invalid, p2);
  }

  lemma FinishUpgradeReplay(c: Cfg, t: Transaction, r: Request, q: seq<Choice>) returns (p: seq<Choice>)
    requires t.Change? && t.previous.Some? && FinishUpgrade(c, t, r).Done?
    ensures FinishUpgrade(Cfg(c.w, p), t, r) == Done(Cfg(FinishUpgrade(c, t, r).c.w, q))
  {
    hide Prune, RemoveJournal;
    var c1 := Prune(c, r.listing, {t.previous.value, t.next}).c;
    var p2 := RemoveJournalReplay(c1, q);
    p := PruneReplay(c, r.listing, {t.previous.value, t.next}, p2);
  }

  lemma UpgradeCommitReplay(c: Cfg, t: Transaction, codexBefore: bool, r: Request, q: seq<Choice>) returns (p: seq<Choice>)
    requires t.Change? && t.previous.Some? && UpgradeCommit(c, t, codexBefore, r).Done?
    ensures UpgradeCommit(Cfg(c.w, p), t, codexBefore, r) == Done(Cfg(UpgradeCommit(c, t, codexBefore, r).c.w, q))
  {
    hide SwitchUpgrade, Reactivate, FinishUpgrade;
    var c1 := SwitchUpgrade(c, t).c;
    var c2 := Reactivate(c1, t.wasActive, codexBefore).c;
    var p3 := FinishUpgradeReplay(c2, t, r, q);
    var p2 := ReactivateReplay(c1, t.wasActive, codexBefore, p3);
    p := SwitchUpgradeReplay(c, t, p2);
  }

  lemma UpgradeChecksReplay(c: Cfg, r: Request, q: seq<Choice>) returns (p: seq<Choice>)
    requires Inspect(c.w) == Coherent && UpgradeChecks(c, r).Done?
    ensures UpgradeChecks(Cfg(c.w, p), r) == Done(Cfg(UpgradeChecks(c, r).c.w, q))
  {
    CoherentMeans(c.w);
    hide Step, Newer, PublishedReleases, InstalledIdentity, Inspect, Complete;
    var c1 := Check(c, PublishedReleases(c.w), Invalid).c;
    var c2 := Check(c1, InstalledIdentity(c1.w), LifecycleFailed).c;
    var p3 := q;
    if c2.w.host.Some? { p3 := StepReplay(c2, true, c2.w, ReadinessFailed, q); }
    var p2 := StepReplay(c1, InstalledIdentity(c1.w), c1.w, LifecycleFailed, p3);
    p := StepReplay(c, PublishedReleases(c.w), c.w, Invalid, p2);
  }

  lemma UpgradeBeginReplay(c: Cfg, r: Request, q: seq<Choice>) returns (p: seq<Choice>)
    requires Inspect(c.w) == Coherent && UpgradeBegin(c, r).Done?
    ensures UpgradeBegin(Cfg(c.w, p), r) == Done(Cfg(UpgradeBegin(c, r).c.w, q))
  {
    CoherentMeans(c.w);
    UpgradeChecksEffect(c, r);
    hide Step, UpgradeChecks, Prepare, Inspect, Complete, ReleaseSelector;
    var t, m := UpgradeTransaction(c.w, r), UpgradeManifest(c.w, r);
    var c1 := UpgradeChecks(c, r).c;
    var c2 := WriteJournal(c1, t).c;
    var p3 := PrepareReplay(c2, t, m, q);
    var p2 := StepReplay(c1, c1.w.journal.None?, c1.w.(journal := Some(t)), RecoveryRequired, p3);
    p := UpgradeChecksReplay(c, r, p2);
  }

  lemma ChangingUpgradeReplay(c: Cfg, r: Request, q: seq<Choice>) returns (p: seq<Choice>)
    requires Inspect(c.w) == Coherent && ChangingUpgrade(c, r).Done?
    ensures ChangingUpgrade(Cfg(c.w, p), r) == Done(Cfg(ChangingUpgrade(c, r).c.w, q))
  {
    CoherentMeans(c.w);
    hide UpgradeBegin, UpgradeCommit, UpgradeRollback, Inspect, Complete, ReleaseSelector;
    var t := UpgradeTransaction(c.w, r);
    var c1 := UpgradeBegin(c, r).c;
    var p2 := UpgradeCommitReplay(c1, t, c.w.codex, r, q);
    p := UpgradeBeginReplay(c, r, p2);
  }

  // ---------------------------------------------------------------- recovery

  lemma RemoveStagingReplay(c: Cfg, name: string, q: seq<Choice>) returns (p: seq<Choice>)
    requires RemoveStaging(c, name).Done?
    ensures RemoveStaging(Cfg(c.w, p), name) == Done(Cfg(RemoveStaging(c, name).c.w, q))
  {
    p := if name !in c.w.stagings then q else [Go] + q;
    assert ([Go] + q)[1..] == q;
  }

  lemma RemoveAnchorReplay(c: Cfg, a: Anchor, q: seq<Choice>) returns (p: seq<Choice>)
    requires RemoveAnchor(c, a).Done?
    ensures RemoveAnchor(Cfg(c.w, p), a) == Done(Cfg(RemoveAnchor(c, a).c.w, q))
  {
    p := if a !in c.w.anchors then q else [Go] + q;
    assert ([Go] + q)[1..] == q;
  }

  lemma RemoveAnchorsReplay(c: Cfg, q: seq<Choice>) returns (p: seq<Choice>)
    requires RemoveAnchors(c).Done?
    ensures RemoveAnchors(Cfg(c.w, p)) == Done(Cfg(RemoveAnchors(c).c.w, q))
  {
    hide RemoveAnchor;
    var c1 := RemoveAnchor(c, HostLink).c;
    var c2 := RemoveAnchor(c1, CodexLink).c;
    var c3 := RemoveAnchor(c2, CommandLink).c;
    var p4 := RemoveAnchorReplay(c3, ManifestLink, q);
    var p3 := RemoveAnchorReplay(c2, CommandLink, p4);
    var p2 := RemoveAnchorReplay(c1, CodexLink, p3);
    p := RemoveAnchorReplay(c, HostLink, p2);
  }

  lemma RemoveSelectorReplay(c: Cfg, s: string, q: seq<Choice>) returns (p: seq<Choice>)
    requires RemoveSelector(c, s).Done?
    ensures RemoveSelector(Cfg(c.w, p), s) == Done(Cfg(RemoveSelector(c, s).c.w, q))
  {
    p := if c.w.current.None? then q else [Go] + q;
    assert ([Go] + q)[1..] == q;
  }

  lemma RemoveEnvironmentReplay(c: Cfg, sha: string, q: seq<Choice>) returns (p: seq<Choice>)
    requires RemoveEnvironment(c, sha).Done?
    ensures RemoveEnvironment(Cfg(c.w, p), sha) == Done(Cfg(RemoveEnvironment(c, sha).c.w, q))
  {
    p := if c.w.environment.None? then q else [Go] + q;
    assert ([Go] + q)[1..] == q;
  }

  lemma DisableIfPresentReplay(c: Cfg, q: seq<Choice>) returns (p: seq<Choice>)
    requires DisableIfPresent(c).Done?
    ensures DisableIfPresent(Cfg(c.w, p)) == Done(Cfg(DisableIfPresent(c).c.w, q))
  {
    hide Call, Step, AfterReload;
    if c.w.enablement.None? {
      p := q;
    } else {
      var v := AfterReload(c.w.(enablement := None));
      var c1 := Disable(c).c;
      var p2 := StepReplay(c1, c1.w.enablement.None?, c1.w, RecoveryRequired, q);
      p := CallReplay(c, true, v, v, p2);
    }
  }

  lemma UndoInstallReplay(c: Cfg, t: Transaction, q: seq<Choice>) returns (p: seq<Choice>)
    requires t.Change? && Published(c.w, t.next) && UndoInstall(c, t).Done?
    ensures UndoInstall(Cfg(c.w, p), t) == Done(Cfg(UndoInstall(c, t).c.w, q))
  {
    hide Step, DisableIfPresent, RemoveSelector, RemoveAnchors, RemoveEnvironment, Reload, OptionalArtifactsExact, Complete;
    var m := ManifestOf(c.w, t.next);
    var fits := (c.w.current.None? || c.w.current == Some(t.next)) && OptionalArtifactsExact(c.w, t.next, m);
    var c1 := Check(c, fits, RecoveryRequired).c;
    var c2 := DisableIfPresent(c1).c;
    var c3 := RemoveSelector(c2, t.next).c;
    var c4 := RemoveAnchors(c3).c;
    var c5 := RemoveEnvironment(c4, m.environment).c;
    var p6 := ReloadReplay(c5, q);
    var p5 := RemoveEnvironmentReplay(c4, m.environment, p6);
    var p4 := RemoveAnchorsReplay(c3, p5);
    var p3 := RemoveSelectorReplay(c2, t.next, p4);
    var p2 := DisableIfPresentReplay(c1, p3);
    p := StepReplay(c, fits, c.w, RecoveryRequired, p2);
  }

  lemma SettleReplay(c: Cfg, active: bool, q: seq<Choice>) returns (p: seq<Choice>)
    requires Settle(c, active).Done?
    ensures Settle(Cfg(c.w, p), active) == Done(Cfg(Settle(c, active).c.w, q))
  {
    hide Call, Step, InstalledIdentity;
    if active {
      var c1 := Restart(c).c;
      var p2 := StepReplay(c1, ReadyToServe(c1.w), c1.w, ReadinessFailed, q);
      p := CallReplay(c, c.w.hostDefs.Some?, c.w.(host := c.w.hostDefs, codex := true), c.w.(host := None), p2);
    } else {
      p := StepReplay(c, InstalledIdentity(c.w) && c.w.host.None?, c.w, RecoveryRequired, q);
    }
  }

  lemma ReloadAndSettleReplay(c: Cfg, active: bool, q: seq<Choice>) returns (p: seq<Choice>)
    requires ReloadAndSettle(c, active).Done?
    ensures ReloadAndSettle(Cfg(c.w, p), active) == Done(Cfg(ReloadAndSettle(c, active).c.w, q))
  {
    hide Reload, Settle;
    var p2 := SettleReplay(Reload(c).c, active, q);
    p := ReloadReplay(c, p2);
  }

  lemma UndoUpgradeReplay(c: Cfg, t: Transaction, q: seq<Choice>) returns (p: seq<Choice>)
    requires t.Change? && t.previous.Some? && UndoUpgrade(c, t).Done?
    ensures UndoUpgrade(Cfg(c.w, p), t) == Done(Cfg(UndoUpgrade(c, t).c.w, q))
  {
    hide Step, ReloadAndSettle, Complete, ArtifactsExact;
    var before := t.previous.value;
    var fits := Published(c.w, before) && ArtifactsExact(c.w, ManifestOf(c.w, before)) && (c.w.current == Some(before) || c.w.current == Some(t.next));
    var c1 := Check(c, fits, RecoveryRequired).c;
    var p2 := q;
    if c1.w.current == Some(t.next) {
      var c2 := ReplaceSelector(c1, t.next, before).c;
      var p3 := ReloadAndSettleReplay(c2, t.wasActive, q);
      p2 := StepReplay(c1, c1.w.current == Some(t.next), c1.w.(current := Some(before)), Invalid, p3);
    } else if t.phase == Selected || t.phase == ManagerReloaded {
      p2 := ReloadAndSettleReplay(c1, t.wasActive, q);
    }
    p := StepReplay(c, fits, c.w, RecoveryRequired, p2);
  }

  lemma UndoChangeReplay(c: Cfg, t: Transaction, q: seq<Choice>) returns (p: seq<Choice>)
    requires t.Change? && UndoChange(c, t).Done?
    ensures UndoChange(Cfg(c.w, p), t) == Done(Cfg(UndoChange(c, t).c.w, q))
  {
    hide Step, UndoInstall, UndoUpgrade, Complete, RecoverableBeforePublish;
    var single := !(t.next in c.w.releases && t.staging in c.w.stagings);
    var c1 := Check(c, single, RecoveryRequired).c;
    var p2: seq<Choice>;
    if t.next !in c1.w.releases {
      p2 := StepReplay(c1, RecoverableBeforePublish(c1.w, t), c1.w, RecoveryRequired, q);
    } else {
      var c2 := Check(c1, Published(c1.w, t.next), RecoveryRequired).c;
      var p3: seq<Choice>;
      if t.previous.None? { p3 := UndoInstallReplay(c2, t, q); } else { p3 := UndoUpgradeReplay(c2, t, q); }
      p2 := StepReplay(c1, Published(c1.w, t.next), c1.w, RecoveryRequired, p3);
    }
    p := StepReplay(c, single, c.w, RecoveryRequired, p2);
  }

  lemma RecoverReplay(c: Cfg, q: seq<Choice>) returns (p: seq<Choice>)
    requires Recover(c).Done?
    ensures Recover(Cfg(c.w, p)) == Done(Cfg(Recover(c).c.w, q))
  {
    hide UndoChange, RemoveStaging, RemoveJournal;
    if c.w.journal.None? {
      p := q;
    } else {
      var t := c.w.journal.value;
      var c1 := UndoChange(c, t).c;
      var c2 := RemoveStaging(c1, t.staging).c;
      var p3 := RemoveJournalReplay(c2, q);
      var p2 := RemoveStagingReplay(c1, t.staging, p3);
      p := UndoChangeReplay(c, t, p2);
    }
  }
}
