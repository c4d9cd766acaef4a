/** Uninstall rolls forward: it can be resumed from every point, and its stage never moves back. */
module LifecycleUninstall {
  import opened Common
  import opened SemVer
  import opened Journal
  import opened Paths
  import opened Lifecycle
  import opened LifecycleSafety

  /** An uninstall under way, at the stage of `t` or a later one. */
  predicate Removing(w: World, t: Transaction)
    requires t.Uninstall?
  {
    && w.journal.Some? && w.journal.value.Uninstall?
    && w.journal.value == t.(stage := w.journal.value.stage)
    && StageIndex(w.journal.value.stage) >= StageIndex(t.stage)
    && Trees(w) && PendingUninstall(w, w.journal.value)
  }

  lemma RemovingIsSafe(w: World, t: Transaction)
    requires t.Uninstall? && Removing(w, t)
    ensures Inv(w) && Committed(w) == t.active
  {
  }

  predicate Uninstalled(w: World) {
    && w.journal.None? && AbsentShape(w) && w.releases == map[] && w.stagings == map[] && !w.releasesDir
  }

  lemma UninstalledIsSafe(w: World)
    requires Uninstalled(w)
    ensures Inv(w) && Idle(w) && Committed(w).None?
  {
  }

  /** Removing has at least reached this stage. */
  predicate At(w: World, stage: Stage) {
    w.journal.Some? && w.journal.value.Uninstall? && StageIndex(w.journal.value.stage) >= StageIndex(stage)
  }

  lemma AtMeans(w: World, t: Transaction)
    requires t.Uninstall? && Removing(w, t)
    ensures At(w, Stopped) ==> w.host.None? && !w.codex
    ensures At(w, Disabled) ==> w.enablement.None? && !w.enabled
    ensures At(w, AnchorsRemoved) ==> ArtifactsAbsent(w)
    ensures At(w, ReleasesRemoved) ==> !w.releasesDir && w.releases == map[] && w.stagings == map[]
    ensures At(w, Journal.Reloaded) ==> NotFound(w)
    ensures w.journal.Some? && w.journal.value.Uninstall?
    ensures w.stagings == map[]
  {
  }

  /** Advancing the stage keeps everything else; each stage may be claimed once its work is done. */
  predicate MayClaim(w: World, stage: Stage) {
    match stage
    case Ready => true
    case Stopped => w.host.None? && !w.codex
    case Disabled => At(w, Stopped) && w.enablement.None? && !w.enabled
    case AnchorsRemoved => At(w, Disabled) && ArtifactsAbsent(w)
    case ReleasesRemoved => At(w, AnchorsRemoved) && !w.releasesDir
    case Reloaded => At(w, ReleasesRemoved) && NotFound(w)
  }

  /** Releases that stay, or go, without changing. */
  predicate Keeps(w: World, v: World) {
    && v.stagings == w.stagings && v.releasesDir == w.releasesDir
    && forall s | s in v.releases :: s in w.releases && v.releases[s] == w.releases[s]
  }

  /** What an uninstall owns it still owns after the selector, the environment file or the link went. */
  lemma OwnershipKeeps(w: World, v: World, t: Transaction)
    requires t.Uninstall? && OwnedByTransaction(w, t) && Trees(w) && Keeps(w, v)
    requires v.current.None? || v.current == w.current
    requires v.environment.None? || v.environment == w.environment
    requires v.enablement.None? || (v.enablement == w.enablement && v.releases == w.releases)
    ensures OwnedByTransaction(v, t) && Trees(v)
  {
    FewerReleases(w.releases, v.releases);
    forall s | s in v.releases ensures Published(v, s) && ManifestOf(v, s) == ManifestOf(w, s) { assert Published(w, s); }
  }

  lemma ClaimFacts(w: World, v: World, n: nat, stage: Stage)
    requires StageFacts(w, n) && n < StageIndex(stage) && MayClaim(w, stage) && v == w.(journal := v.journal)
    requires w.journal.Some? && w.journal.value.Uninstall? && StageIndex(w.journal.value.stage) == n
    ensures StageFacts(v, StageIndex(stage))
  {
    assert NeedsReload(w) == NeedsReload(v);
    hide NeedsReload;
  }

  lemma ClaimKeeps(w: World, v: World, t: Transaction, stage: Stage)
    requires t.Uninstall? && Removing(w, t) && MayClaim(w, stage) && !At(w, stage)
    requires v == w.(journal := Some(w.journal.value.(stage := stage)))
    ensures Removing(v, t) && At(v, stage)
  {
    OwnershipKeeps(w, v, w.journal.value);
    hide OwnedByTransaction, Trees, StageFacts, MayClaim;
    OwnershipAtStage(v, w.journal.value, v.journal.value);
    ClaimFacts(w, v, StageIndex(w.journal.value.stage), stage);
  }

  lemma OwnershipAtStage(w: World, t: Transaction, u: Transaction)
    requires t.Uninstall? && u.Uninstall? && u == t.(stage := u.stage)
    ensures OwnedByTransaction(w, t) == OwnedByTransaction(w, u)
  {
  }

  lemma AdvanceSafe(c: Cfg, t: Transaction, stage: Stage)
    requires t.Uninstall? && Removing(c.w, t) && MayClaim(c.w, stage)
    ensures var o := Advance(c, stage); var v := o.After();
            && Removing(v, t) && v == c.w.(journal := v.journal)
            && (o.Done? ==> At(v, stage))
            && StageIndex(StageOf(v)) >= StageIndex(StageOf(c.w))
  {
    var u := c.w.(journal := Some(c.w.journal.value.(stage := stage)));
    if !At(c.w, stage) { ClaimKeeps(c.w, u, t, stage); }
    hide Step, PendingUninstall, Trees, MayClaim;
  }

  /** Stopping units keeps an uninstall resumable. */
  lemma StopKeeps(w: World, v: World, t: Transaction)
    requires t.Uninstall? && Removing(w, t)
    requires v == w.(host := v.host, codex := v.codex)
    requires (v.host.None? || v.host == w.host) && (v.codex ==> w.codex)
    ensures Removing(v, t)
  {
    var u := w.journal.value;
    OwnershipKeeps(w, v, u);
    hide OwnedByTransaction, Trees, StageFacts;
    StopStage(w, v, StageIndex(u.stage));
  }

  lemma StopStage(w: World, v: World, n: nat)
    requires StageFacts(w, n) && v == w.(host := v.host, codex := v.codex)
    requires (v.host.None? || v.host == w.host) && (v.codex ==> w.codex)
    ensures StageFacts(v, n)
  {
    assert NeedsReload(w) == NeedsReload(v);
    hide NeedsReload;
  }

  lemma StopUnitsSafe(c: Cfg, t: Transaction)
    requires t.Uninstall? && Removing(c.w, t)
    ensures var o := StopUnits(c); var v := o.After();
            && Removing(v, t) && (o.Done? ==> At(v, Stopped))
  {
    hide Removing, Advance, ManagerKnown, Call, Step;
    var c1 := if c.w.host.None? then Done(c) else StopHost(c);
    StopKeeps(c.w, c1.After(), t);
    if c1.Done? {
      var c2 := if c1.c.w.codex then StopCodex(c1.c) else Done(c1.c);
      StopKeeps(c1.c.w, c2.After(), t);
      if c2.Done? {
        var c3 := Check(c2.c, c2.c.w.host.None? && !c2.c.w.codex && ManagerKnown(c2.c.w, StagePassed(c2.c.w, Stopped)), LifecycleFailed);
        if c3.Done? { AdvanceSafe(c3.c, t, Stopped); }
      }
    }
  }

  lemma DisableKeeps(w: World, v: World, t: Transaction)
    requires t.Uninstall? && Removing(w, t) && At(w, Stopped)
    requires v == AfterReload(w.(enablement := None))
    ensures Removing(v, t)
  {
    var u := w.journal.value;
    hide AfterReload, StageFacts, OwnedByTransaction, Trees;
    DisabledOnly(w);
    OwnershipKeeps(w, v, u);
    DisableStage(w, v, StageIndex(u.stage));
  }

  lemma DisabledOnly(w: World)
    ensures var v := AfterReload(w.(enablement := None));
            v == w.(enablement := None, hostDefs := v.hostDefs, codexDefs := v.codexDefs, enabled := false)
  {
  }

  lemma DisableStage(w: World, v: World, n: nat)
    requires n >= 1 && StageFacts(w, n) && v == AfterReload(w.(enablement := None))
    ensures StageFacts(v, n)
  {
  }

  lemma DisableUnitsSafe(c: Cfg, t: Transaction)
    requires t.Uninstall? && Removing(c.w, t) && At(c.w, Stopped)
    ensures var o := DisableUnits(c); var v := o.After();
            && Removing(v, t) && At(v, Stopped) && (o.Done? ==> At(v, Disabled))
  {
    hide Removing, Advance, ManagerKnown, Call, Step, Check, OnDisk;
    var c1 := Check(c, ManagerKnown(c.w, StagePassed(c.w, Stopped)), UninstallInvalid);
    if c1.Done? {
      DisableKeeps(c1.c.w, AfterReload(c1.c.w.(enablement := None)), t);
      var c2 := if c1.c.w.enablement.Some? || c1.c.w.enabled then Disable(c1.c) else Done(c1.c);
      if c2.Done? {
        var c3 := Check(c2.c, c2.c.w.enablement.None? && !c2.c.w.enabled, LifecycleFailed);
        if c3.Done? { AdvanceSafe(c3.c, t, Disabled); }
      }
    }
  }

  lemma ClearKeeps(w: World, v: World, t: Transaction)
    requires t.Uninstall? && Removing(w, t) && At(w, Disabled)
    requires v == w.(anchors := v.anchors, current := v.current, environment := v.environment)
    requires v.anchors <= w.anchors
    requires (v.current.None? || v.current == w.current) && (v.environment.None? || v.environment == w.environment)
    ensures Removing(v, t)
  {
    var u := w.journal.value;
    OwnershipKeeps(w, v, u);
    hide OwnedByTransaction, Trees, StageFacts;
    ClearStage(w, v, StageIndex(u.stage));
  }

  lemma ClearStage(w: World, v: World, n: nat)
    requires n >= 2 && StageFacts(w, n) && v == w.(anchors := v.anchors, current := v.current, environment := v.environment)
    requires v.anchors <= w.anchors && (v.current.None? || v.current == w.current) && (v.environment.None? || v.environment == w.environment)
    ensures StageFacts(v, n)
  {
    hide NeedsReload;
  }

  lemma ClearOwnedEffect(c: Cfg, t: Transaction)
    requires t.Uninstall?
    ensures var o := ClearOwned(c, t); var v := o.After();
            && v == c.w.(anchors := v.anchors, current := v.current, environment := v.environment)
            && v.anchors <= c.w.anchors
            && (v.current.None? || v.current == c.w.current) && (v.environment.None? || v.environment == c.w.environment)
            && (o.Done? ==> v.anchors == {} && v.current.None? && v.environment.None?)
  {
    hide RemoveAnchors, RemoveOwnedSelector, RemoveOwnedEnvironment;
    var c1 := RemoveAnchors(c);
    if c1.Done? { NoAnchorsLeft(c1.c.w.anchors); }
  }

  lemma RemoveInstallationSafe(c: Cfg, t: Transaction)
    requires t.Uninstall? && Removing(c.w, t) && At(c.w, Disabled)
    ensures var o := RemoveInstallation(c, t); var v := o.After();
            && Removing(v, t) && At(v, Disabled) && (o.Done? ==> At(v, AnchorsRemoved))
  {
    AtMeans(c.w, t);
    hide Removing, Advance, Check, Step, ClearOwned, At, MayClaim, StageIndex, StageOf;
    var c1 := Check(c, c.w.enablement.None?, Invalid);
    if c1.Done? {
      ClearOwnedEffect(c1.c, t);
      var c2 := ClearOwned(c1.c, t);
      ClearKeeps(c1.c.w, c2.After(), t);
      SameJournalSameStage(c.w, c2.After(), Disabled);
      if c2.Done? {
        MayClaimCleared(c2.c.w);
        AdvanceSafe(c2.c, t, AnchorsRemoved);
        LaterStage(c2.c.w, Advance(c2.c, AnchorsRemoved).After(), t, Disabled);
      }
    }
  }

  lemma SameJournalSameStage(w: World, v: World, stage: Stage)
    requires v.journal == w.journal
    ensures At(w, stage) == At(v, stage)
  {
  }

  lemma LaterStage(w: World, v: World, t: Transaction, stage: Stage)
    requires t.Uninstall? && Removing(w, t) && Removing(v, t) && StageIndex(StageOf(v)) >= StageIndex(StageOf(w))
    ensures At(w, stage) ==> At(v, stage)
  {
    hide Trees, PendingUninstall;
  }

  lemma MayClaimCleared(w: World)
    requires At(w, Disabled) && ArtifactsAbsent(w)
    ensures MayClaim(w, AnchorsRemoved)
  {
  }

  lemma FewerReleases(m: map<string, Tree>, n: map<string, Tree>)
    requires forall s | s in n :: s in m
    ensures |n| <= |m|
  {
    assert n.Keys <= m.Keys;
    SubsetSize(n.Keys, m.Keys);
  }

  lemma SubsetSize(a: set<string>, b: set<string>)
    requires a <= b
    ensures |a| <= |b|
  {
    assert b == a + (b - a);
  }

  lemma ReleasesKeep(w: World, v: World, t: Transaction)
    requires t.Uninstall? && Removing(w, t) && At(w, AnchorsRemoved)
    requires v == w.(releases := v.releases)
    requires forall s | s in v.releases :: s in w.releases && v.releases[s] == w.releases[s]
    ensures Removing(v, t)
  {
    AtMeans(w, t);
    OwnershipKeeps(w, v, w.journal.value);
    hide OwnedByTransaction, Trees;
  }

  lemma DirGone(w: World, t: Transaction)
    requires t.Uninstall? && Removing(w, t) && At(w, AnchorsRemoved) && w.releases == map[]
    ensures Removing(w.(releasesDir := false), t)
  {
    AtMeans(w, t);
  }

  lemma AllListed(w: World, t: Transaction)
    requires t.Uninstall? && Removing(w, t)
    ensures forall s | s in w.releases :: s in t.selectors
  {
  }

  lemma RemoveReleasesSafe(c: Cfg, t: Transaction)
    requires t.Uninstall? && Removing(c.w, t) && At(c.w, AnchorsRemoved)
    ensures var o := RemoveReleases(c, t); var v := o.After();
            && Removing(v, t) && At(v, AnchorsRemoved) && (o.Done? ==> At(v, ReleasesRemoved))
  {
    hide Removing, Advance, RemoveUnretained, Step;
    var c1 := RemoveUnretained(c, t.selectors, {});
    ReleasesKeep(c.w, c1.After(), t);
    if c1.Done? {
      AllListed(c1.c.w, t);
      assert c1.c.w.releases == map[];
      DirGone(c1.c.w, t);
      var c2 := RemoveReleasesDir(c1.c);
      if c2.Done? { AdvanceSafe(c2.c, t, ReleasesRemoved); }
    }
  }

  lemma ForgetKeeps(w: World, t: Transaction)
    requires t.Uninstall? && Removing(w, t) && At(w, ReleasesRemoved)
    ensures Removing(AfterReload(w), t) && NotFound(AfterReload(w)) && At(AfterReload(w), ReleasesRemoved)
  {
    AtMeans(w, t);
  }

  lemma GoneIsUninstalled(w: World, t: Transaction)
    requires t.Uninstall? && Removing(w, t) && At(w, Journal.Reloaded)
    ensures Uninstalled(w.(journal := None))
  {
    AtMeans(w, t);
  }

  lemma ForgetUnitsSafe(c: Cfg, t: Transaction)
    requires t.Uninstall? && Removing(c.w, t) && At(c.w, ReleasesRemoved)
    ensures var o := ForgetUnits(c); var v := o.After();
            (Removing(v, t) || Uninstalled(v)) && (o.Done? ==> Uninstalled(v))
  {
    hide Removing, Advance, Call, Step, Check, AfterReload, NotFound, Uninstalled, RemoveJournal, At, DataRootEmpty;
    ForgetKeeps(c.w, t);
    var c1 := Reload(c);
    if c1.Done? {
      var c2 := Check(c1.c, NotFound(c1.c.w), LifecycleFailed);
      if c2.Done? {
        AdvanceSafe(c2.c, t, Journal.Reloaded);
        var c3 := Advance(c2.c, Journal.Reloaded);
        if c3.Done? {
          GoneIsUninstalled(c3.c.w, t);
          var c4 := RemoveJournal(c3.c);
        }
      }
    }
  }

  /** From any stage, uninstalling goes on: it ends with nothing left, or stops at the same stage or a later one. */
  lemma ExecuteUninstallSafe(c: Cfg, t: Transaction, r: Removal)
    requires t.Uninstall? && Removing(c.w, t)
    ensures var o := ExecuteUninstall(c, t, r); var v := o.After();
            && (Removing(v, t) || Uninstalled(v)) && (o.Done? ==> Uninstalled(v))
            && (!PathsSurvive(c.w, r) ==> v == c.w)
  {
    hide Removing, At, Step, Check, StopUnits, DisableUnits, RemoveInstallation, RemoveReleases, ForgetUnits, Uninstalled,
      OwnedByTransaction, ManagerKnown, PathsSurvive, ClearAway;
    var c1 := Check(c, OwnedByTransaction(c.w, t) && PathsSurvive(c.w, r), RecoveryRequired);
    if c1.Done? {
      var c2 := Check(c1.c, ManagerKnown(c1.c.w, StagePassed(c1.c.w, Stopped)), UninstallInvalid);
      if c2.Done? {
        StopUnitsSafe(c2.c, t);
        var c3 := StopUnits(c2.c);
        if c3.Done? {
          DisableUnitsSafe(c3.c, t);
          var c4 := DisableUnits(c3.c);
          if c4.Done? { ClearAwaySafe(c4.c, t); }
        }
      }
    }
  }

  lemma ClearAwaySafe(c: Cfg, t: Transaction)
    requires t.Uninstall? && Removing(c.w, t) && At(c.w, Disabled)
    ensures var o := ClearAway(c, t);
            (Removing(o.After(), t) || Uninstalled(o.After())) && (o.Done? ==> Uninstalled(o.After()))
  {
    hide Removing, At, RemoveInstallation, RemoveReleases, ForgetUnits, Uninstalled;
    RemoveInstallationSafe(c, t);
    var c1 := RemoveInstallation(c, t);
    if c1.Done? {
      RemoveReleasesSafe(c1.c, t);
      var c2 := RemoveReleases(c1.c, t);
      if c2.Done? { ForgetUnitsSafe(c2.c, t); }
    }
  }

  /** The directory listing names exactly the releases there are, sorted. */
  predicate Lists(w: World, listing: seq<string>) {
    && StrictlySorted(listing)
    && (forall s | s in w.releases :: s in listing) && (forall s | s in listing :: s in w.releases)
  }

  lemma BeginsRemoving(w: World, r: Removal)
    requires Inv(w) && Idle(w) && Lists(w, r.listing) && MayUninstall(w, r)
    ensures Removing(w.(journal := Some(UninstallTransaction(w, r))), UninstallTransaction(w, r))
  {
    var v := w.(journal := Some(UninstallTransaction(w, r)));
    IgnoreJournal(w, v);
    IgnoreJournalFurther(w, v, r);
    hide Idle, PathsSurvive, Trees, PublishedReleases;
  }

  lemma IgnoreJournalFurther(w: World, v: World, r: Removal)
    requires v == w.(journal := v.journal)
    ensures PublishedReleases(w) == PublishedReleases(v)
    ensures forall e :: EnvironmentsAgree(w, e) == EnvironmentsAgree(v, e)
    ensures NeedsReload(w) == NeedsReload(v)
  {
    assert forall s :: Published(v, s) == Published(w, s);
    forall e ensures EnvironmentsAgree(w, e) == EnvironmentsAgree(v, e) {
      assert forall s | s in w.releases && Published(w, s) :: ManifestOf(w, s) == ManifestOf(v, s);
    }
  }

  lemma NothingToRemove(w: World)
    requires Inv(w) && Idle(w) && !HasArtifacts(w)
    ensures Uninstalled(w)
  {
  }

  lemma BeginUninstallSafe(c: Cfg, r: Removal)
    requires Inv(c.w) && Idle(c.w) && Lists(c.w, r.listing)
    ensures var o := BeginUninstall(c, r); var v := o.After();
            && (v == c.w || Removing(v, UninstallTransaction(c.w, r)) || Uninstalled(v))
            && (o.Done? ==> Uninstalled(v))
  {
    hide Check, Step, Inv, Idle, MayUninstall, HasArtifacts, NotFound, ExecuteUninstall, Removing, Uninstalled, UninstallTransaction;
    var c1 := Check(c, MayUninstall(c.w, r), UninstallInvalid);
    if c1.Done? {
      if !HasArtifacts(c1.c.w) { NothingToRemove(c.w); } else {
        BeginsRemoving(c1.c.w, r);
        UninstallTransactionKind(c1.c.w, r);
        var c2 := WriteJournal(c1.c, UninstallTransaction(c1.c.w, r));
        if c2.Done? { ExecuteUninstallSafe(c2.c, UninstallTransaction(c1.c.w, r), r); }
      }
    }
  }

  lemma UninstallTransactionKind(w: World, r: Removal)
    ensures UninstallTransaction(w, r).Uninstall? && UninstallTransaction(w, r).active == w.current
  {
  }

  lemma PendingIsRemoving(w: World)
    requires Inv(w) && w.journal.Some? && w.journal.value.Uninstall?
    ensures Removing(w, w.journal.value)
  {
  }

  /**
   An uninstall, fresh or resumed, ends with nothing left or can be resumed again, and it never falls
   back behind the stage it was resumed at.
   */
  lemma UninstallSafe(c: Cfg, r: Removal)
    requires Inv(c.w) && Lists(c.w, r.listing)
    ensures var o := RunUninstall(c, r); var v := o.After();
            && Inv(v) && (o.Done? ==> Uninstalled(v))
            && (c.w.journal.Some? && c.w.journal.value.Uninstall? ==> Removing(v, c.w.journal.value) || Uninstalled(v))
            && (Committed(v) == Committed(c.w) || Uninstalled(v))
  {
    hide Recover, Idle, Inv, Removing, Uninstalled, BeginUninstall, ExecuteUninstall, Readable, UninstallTransaction;
    if c.w.journal.None? {
      InvIdle(c.w);
      BeginUninstallSafe(c, r);
      EndsSafe(c.w, BeginUninstall(c, r).After(), r);
    } else if c.w.journal.value.Change? {
      RecoverSafe(c);
      var c1 := Recover(c);
      if c1.Done? {
        InvIdle(c1.c.w);
        BeginUninstallSafe(c1.c, r);
        EndsSafe(c1.c.w, BeginUninstall(c1.c, r).After(), r);
      }
    } else {
      PendingIsRemoving(c.w);
      var t := c.w.journal.value;
      if Readable(t) {
        ExecuteUninstallSafe(c, t, r);
        var v := ExecuteUninstall(c, t, r).After();
        if Removing(v, t) { RemovingIsSafe(v, t); } else { UninstalledIsSafe(v); }
      }
    }
  }

  lemma InvIdle(w: World)
    requires Inv(w)
    ensures w.journal.None? ==> Idle(w)
    ensures Idle(w) ==> w.journal.None? && Committed(w) == w.current
  {
  }

  lemma EndsSafe(w: World, v: World, r: Removal)
    requires Inv(w) && Committed(w) == w.current
    requires v == w || Removing(v, UninstallTransaction(w, r)) || Uninstalled(v)
    ensures Inv(v) && (Committed(v) == Committed(w) || Uninstalled(v))
  {
    hide Removing, Inv, Uninstalled, UninstallTransaction;
    UninstallTransactionKind(w, r);
    if Removing(v, UninstallTransaction(w, r)) { RemovingIsSafe(v, UninstallTransaction(w, r)); }
    else if Uninstalled(v) { UninstalledIsSafe(v); }
  }
}
