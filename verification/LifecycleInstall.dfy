/** The commit of an install and its rollback. */
module LifecycleInstall {
  import opened Common
  import opened SemVer
  import opened Journal
  import opened Lifecycle
  import opened LifecycleSafety
  import opened LifecyclePrepare

  /** A prepared install under way: only its own artifacts are there, and the environment file it was asked for. */
  predicate Installing(w: World, t: Transaction, environment: string)
    requires t.Change?
  {
    && JournalAt(w, t) && t.previous.None?
    && Trees(w) && PendingRelease(w, w.journal.value) && Published(w, t.next)
    && (w.current.Some? ==> w.current == Some(t.next))
    && (w.enablement.Some? ==> OwnedEnablement(w, t.next))
    && (w.environment.Some? ==> w.environment == Some(environment))
    && w.host.None? && !w.codex
  }

  /** It is recoverable unless the environment file is there and the release was made for another one. */
  lemma InstallingIsSafe(w: World, t: Transaction, environment: string)
    requires t.Change? && Installing(w, t, environment)
    ensures Committed(w).None? && ChangeOnly(w)
    ensures SameLeftover(w, t.next, environment) || w.environment.None? ==> Inv(w)
  {
  }

  /** Changes to the install's own artifacts, the journal phase and the manager's definitions. */
  predicate InstallMoves(w: World, v: World, t: Transaction, environment: string)
    requires t.Change?
  {
    && SameReleases(w, v) && JournalAt(v, t)
    && v.host == w.host && v.codex == w.codex
    && (v.current.None? || v.current == w.current || v.current == Some(t.next))
    && (v.enablement.None? || v.enablement == w.enablement || OwnedEnablement(v, t.next))
    && (v.environment.None? || v.environment == w.environment || v.environment == Some(environment))
  }

  lemma InstallMovesSafe(w: World, v: World, t: Transaction, environment: string)
    requires t.Change? && Installing(w, t, environment) && InstallMoves(w, v, t, environment)
    ensures Installing(v, t, environment)
    ensures SameLeftover(w, t.next, environment) ==> SameLeftover(v, t.next, environment)
  {
    assert forall s :: Published(v, s) == Published(w, s);
    assert ManifestOf(v, t.next) == ManifestOf(w, t.next);
  }

  /** The stable paths all show release `t.next`. */
  predicate Placed(w: World, t: Transaction, environment: string)
    requires t.Change?
  {
    w.current == Some(t.next) && w.anchors == ALL_ANCHORS && w.environment == Some(environment)
  }

  lemma AllAnchors(anchors: set<Anchor>)
    requires ALL_ANCHORS <= anchors
    ensures anchors == ALL_ANCHORS
  {
    forall a | a in anchors ensures a in ALL_ANCHORS {
      match a
      case ManifestLink => case CommandLink => case CodexLink => case HostLink =>
    }
  }

  lemma PlaceInstallEffect(c: Cfg, t: Transaction, r: Request)
    requires t.Change? && JournalAt(c.w, t)
    ensures var o := PlaceInstall(c, t, r);
            && InstallMoves(c.w, o.After(), t, r.environment)
            && (o.Failed? ==> o.code == Invalid)
            && (o.Done? ==> Placed(o.After(), t, r.environment))
  {
    hide Step, PublishAnchors;
    var c1 := PublishEnvironment(c, r.environment);
    if c1.Done? {
      var c2 := PublishAnchors(c1.c);
      if c2.Done? { AllAnchors(c2.c.w.anchors); }
    }
  }

  lemma ActivateInstallEffect(c: Cfg, t: Transaction, environment: string)
    requires t.Change? && JournalAt(c.w, t) && Placed(c.w, t, environment)
    ensures var o := ActivateInstall(c, t);
            && InstallMoves(c.w, o.After(), t, environment) && Placed(o.After(), t, environment)
            && (o.Failed? ==> o.code != StatusUnread)
            && (o.Done? ==> InstalledStopped(o.After()))
  {
    hide Step, Check, Call, UpdatePhase, OnDisk, NeedsReload;
    var c1 := UpdatePhase(c, Selected);
    if c1.Done? {
      var c2 := Reload(c1.c);
      if c2.Done? {
        var c3 := UpdatePhase(c2.c, ManagerReloaded);
        if c3.Done? {
          var c4 := Enable(c3.c);
          if c4.Done? {
            var c5 := Canonicalize(c4.c, t.next);
          }
        }
      }
    }
  }

  lemma PruneKeepsInstalling(w: World, v: World, t: Transaction, environment: string)
    requires t.Change? && Installing(w, t, environment)
    requires v == w.(releases := v.releases)
    requires forall s | s in v.releases :: s in w.releases && v.releases[s] == w.releases[s]
    requires t.next in v.releases
    ensures Installing(v, t, environment)
    ensures SameLeftover(w, t.next, environment) ==> SameLeftover(v, t.next, environment)
  {
    forall s | s in v.releases ensures Published(v, s) { assert Published(w, s); }
    assert ManifestOf(v, t.next) == ManifestOf(w, t.next);
    assert v.releasesDir;
  }

  /** A committed install: it alone is left, selected, loaded, enabled and stopped. */
  predicate Delivered(w: World, t: Transaction, environment: string)
    requires t.Change?
  {
    && w.journal.None? && w.stagings == map[] && w.releases.Keys == {t.next} && w.releasesDir && Published(w, t.next)
    && w.current == Some(t.next) && w.anchors == ALL_ANCHORS && w.enablement == Some(Canonical) && w.environment == Some(environment)
    && w.hostDefs == Some(t.next) && w.codexDefs == Some(t.next) && w.enabled && w.host.None? && !w.codex
  }

  /** A committed install on which everything agrees. */
  predicate InstallDone(w: World, t: Transaction)
    requires t.Change?
  {
    Inv(w) && Idle(w) && w.current == Some(t.next) && w.releases.Keys == {t.next}
  }

  lemma DeliveredIsDone(w: World, t: Transaction, environment: string)
    requires t.Change? && Delivered(w, t, environment) && SameLeftover(w, t.next, environment)
    ensures InstallDone(w, t)
  {
    assert forall s | s in w.releases :: s in w.releases.Keys;
    assert SameEnvironment(w, environment);
  }

  lemma CommittedInstall(w: World, v: World, t: Transaction, environment: string)
    requires t.Change? && Installing(w, t, environment) && Placed(w, t, environment) && InstalledStopped(w)
    requires v == w.(journal := None) && w.releases.Keys == {t.next}
    ensures Delivered(v, t, environment)
    ensures SameLeftover(w, t.next, environment) ==> SameLeftover(v, t.next, environment)
  {
    assert forall s :: Published(v, s) == Published(w, s);
    assert w.stagings == map[];
    assert Published(v, t.next) && ManifestOf(v, t.next) == ManifestOf(w, t.next);
    assert OnDisk(v, HostLink) == Some(t.next) && OnDisk(v, CodexLink) == Some(t.next);
  }

  /** How a commit ends: with the install delivered, whether its state could be read or not, or with it under way. */
  predicate CommitEnd(w: World, o: Outcome, t: Transaction, r: Request)
    requires t.Change?
  {
    && (if o.Done? || (o.Failed? && o.code == StatusUnread) then Delivered(o.After(), t, r.environment)
        else Installing(o.After(), t, r.environment))
    && (o.Failed? && o.code == StatusUnread ==> !r.statusReads)
    && (SameLeftover(w, t.next, r.environment) ==> SameLeftover(o.After(), t.next, r.environment))
  }

  lemma FinishInstallEffect(c: Cfg, t: Transaction, r: Request)
    requires t.Change? && Installing(c.w, t, r.environment) && Placed(c.w, t, r.environment) && InstalledStopped(c.w)
    ensures CommitEnd(c.w, FinishInstall(c, t, r), t, r)
  {
    hide Prune, RemoveJournal, Installing, Delivered, SameLeftover, Placed, InstalledStopped;
    PruneEffect(c, t, r);
    var c1 := Prune(c, r.listing, {t.next});
    if c1.Done? { DropJournalEffect(c1.c, t, r); }
  }

  lemma PruneEffect(c: Cfg, t: Transaction, r: Request)
    requires t.Change? && Installing(c.w, t, r.environment) && Placed(c.w, t, r.environment) && InstalledStopped(c.w)
    ensures var o := Prune(c, r.listing, {t.next}); var v := o.After();
            && Installing(v, t, r.environment)
            && (SameLeftover(c.w, t.next, r.environment) ==> SameLeftover(v, t.next, r.environment))
            && (o.Done? ==> Placed(v, t, r.environment) && InstalledStopped(v) && v.releases.Keys == {t.next})
            && (o.Failed? ==> o.code == Invalid)
  {
    assert t.next in c.w.releases && t.next in {t.next};
    assert c.w.current == Some(t.next);
    var v := Prune(c, r.listing, {t.next}).After();
    hide Prune, PublishedReleases;
    PruneKeepsInstalling(c.w, v, t, r.environment);
    hide Installing, SameLeftover, Placed, InstalledStopped;
    StillStopped(c.w, v);
    StillPlaced(c.w, v, t, r.environment);
  }

  lemma DropJournalEffect(c: Cfg, t: Transaction, r: Request)
    requires t.Change? && Installing(c.w, t, r.environment) && Placed(c.w, t, r.environment) && InstalledStopped(c.w)
    requires c.w.releases.Keys == {t.next}
    ensures var o := RemoveJournal(c);
            && (o.Done? ==> Delivered(o.c.w, t, r.environment))
            && (!o.Done? ==> Installing(o.After(), t, r.environment) && (o.Failed? ==> o.code == Invalid))
            && (SameLeftover(c.w, t.next, r.environment) ==> SameLeftover(o.After(), t.next, r.environment))
  {
    hide RemoveJournal, Installing, Delivered, SameLeftover, Placed, InstalledStopped;
    var o := RemoveJournal(c);
    if o.After().journal.None? { CommittedInstall(c.w, c.w.(journal := None), t, r.environment); }
    InstallingJournalIsThere(c.w, t, r.environment);
  }

  lemma InstallingJournalIsThere(w: World, t: Transaction, environment: string)
    requires t.Change? && Installing(w, t, environment)
    ensures w.journal.Some?
  {
  }

  lemma StillPlaced(w: World, v: World, t: Transaction, environment: string)
    requires t.Change? && Placed(w, t, environment) && v == w.(releases := v.releases)
    ensures Placed(v, t, environment)
  {
  }

  /** Removing releases the selector does not name leaves the manager's view current. */
  lemma StillStopped(w: World, v: World)
    requires InstalledStopped(w) && v == w.(releases := v.releases)
    requires w.current.Some? ==> (w.current.value in w.releases ==> w.current.value in v.releases)
    requires w.current.Some? && w.current.value in w.releases
    ensures InstalledStopped(v)
  {
  }

  /** However the commit ends: the install is delivered, or still under way and can be taken back. */
  lemma InstallCommitSafe(c: Cfg, t: Transaction, r: Request)
    requires t.Change? && Installing(c.w, t, r.environment)
    ensures CommitEnd(c.w, InstallCommit(c, t, r), t, r)
  {
    InstallingJournal(c.w, t, r.environment);
    hide PlaceInstall, ActivateInstall, FinishInstall, Installing, InstallMoves, Delivered, JournalAt, InstalledStopped, Placed, SameLeftover;
    PlaceInstallEffect(c, t, r);
    var c1 := PlaceInstall(c, t, r);
    InstallMovesSafe(c.w, c1.After(), t, r.environment);
    if c1.Done? { PlacedCommitSafe(c1.c, t, r); }
  }

  lemma PlacedCommitSafe(c: Cfg, t: Transaction, r: Request)
    requires t.Change? && Installing(c.w, t, r.environment) && Placed(c.w, t, r.environment)
    ensures var o := ActivateInstall(c, t);
            CommitEnd(c.w, if o.Done? then FinishInstall(o.c, t, r) else o, t, r)
  {
    InstallingJournal(c.w, t, r.environment);
    hide ActivateInstall, FinishInstall, Installing, InstallMoves, Delivered, JournalAt, InstalledStopped, Placed, SameLeftover;
    ActivateInstallEffect(c, t, r.environment);
    var c2 := ActivateInstall(c, t);
    InstallMovesSafe(c.w, c2.After(), t, r.environment);
    if c2.Done? { FinishInstallEffect(c2.c, t, r); }
  }

  lemma InstallingJournal(w: World, t: Transaction, environment: string)
    requires t.Change? && Installing(w, t, environment)
    ensures JournalAt(w, t)
  {
  }

  // ---------------------------------------------------------------- rollback

  lemma DisableOwnedEffect(c: Cfg, s: string)
    ensures var o := DisableOwned(c, s);
            && UninstallMoves(c.w, o.After()) && o.After().anchors == c.w.anchors
            && (o.Done? ==> o.After().enablement.None?)
  {
    hide OnDisk;
  }

  lemma ClearSelectionEffect(c: Cfg, t: Transaction)
    requires t.Change?
    ensures var o := ClearSelection(c, t);
            && UninstallMoves(c.w, o.After())
            && (o.Cleaned? && o.ok ==> o.c.w.enablement.None? && o.c.w.current.None?)
  {
    hide Step, Call, Check, DisableOwned;
    DisableOwnedEffect(c, t.next);
  }

  lemma ClearPathsEffect(c: Cfg, r: Request)
    ensures var o := ClearPaths(c, r);
            && o.After() == c.w.(anchors := o.After().anchors, environment := o.After().environment)
            && UninstallMoves(c.w, o.After())
            && (o.Cleaned? && o.ok ==> o.c.w.anchors == {} && o.c.w.environment.None?)
  {
    hide Step, RemoveAnchors;
    var c1 := RemoveAnchors(c);
    if c1.Done? { NoAnchorsLeft(c1.c.w.anchors); }
  }

  lemma ClearInstallEffect(c: Cfg, t: Transaction, r: Request)
    requires t.Change?
    ensures var o := ClearInstall(c, t, r); var v := o.After();
            && UninstallMoves(c.w, v)
            && (o.Cleaned? && o.ok ==> ArtifactsAbsent(v) && v.hostDefs.None? && v.codexDefs.None? && !v.enabled)
  {
    hide Step, Check, Call, ClearSelection, ClearPaths;
    ClearSelectionEffect(c, t);
    var c1 := ClearSelection(c, t);
    if c1.Cleaned? { ClearPathsEffect(c1.c, r); }
  }

  /** Rolling an install back leaves nothing installed, or the install under way with its journal. */
  lemma InstallRollbackSafe(c: Cfg, t: Transaction, r: Request)
    requires t.Change? && Installing(c.w, t, r.environment)
    ensures var o := InstallRollback(c, t, r); var v := o.After();
            && !o.Done? && Committed(v).None? && ChangeOnly(v)
            && (v.journal.None? ==> Inv(v) && Idle(v) && AbsentShape(v))
            && (v.journal.Some? ==> Installing(v, t, r.environment))
            && (SameLeftover(c.w, t.next, r.environment) ==> SameLeftover(v, t.next, r.environment))
            && (o.Failed? && o.code == RolledBack ==> v.journal.None?)
  {
    ClearInstallEffect(c, t, r);
    var d := ClearInstall(c, t, r);
    InstallingJournal(c.w, t, r.environment);
    assert InstallMoves(c.w, d.After(), t, r.environment);
    InstallMovesSafe(c.w, d.After(), t, r.environment);
    InstallingIsSafe(d.After(), t, r.environment);
    InstallingStopped(d.After(), t, r.environment);
    hide ClearInstall, Installing, Inv, RemoveJournal, Step, UninstallMoves, InstallMoves, SameLeftover;
    if d.Cleaned? && d.ok {
      var o := RemoveJournal(d.c);
      if o.After().journal.None? { ClearedIsIdle(d.c.w, o.After(), t, r.environment); }
    }
  }

  lemma InstallingStopped(w: World, t: Transaction, environment: string)
    requires t.Change? && Installing(w, t, environment)
    ensures w.host.None? && !w.codex && w.stagings == map[] && w.journal.Some?
  {
  }

  lemma ClearedIsIdle(w: World, v: World, t: Transaction, environment: string)
    requires t.Change? && Installing(w, t, environment) && v == w.(journal := None)
    requires ArtifactsAbsent(w) && w.hostDefs.None? && w.codexDefs.None? && !w.enabled
    ensures Inv(v) && Idle(v) && AbsentShape(v) && Committed(v).None?
    ensures SameLeftover(w, t.next, environment) ==> SameLeftover(v, t.next, environment)
  {
    IgnoreJournal(w, v);
  }
}
