/**
 What holds of the files in every run without exception: also with leftovers for another environment file and
 with status reads that fail, where the service manager and the files may part (see LifecycleLimits).
 */
module LifecycleFiles {
  import opened Common
  import opened SemVer
  import opened Journal
  import opened Lifecycle
  import opened LifecycleSafety
  import opened LifecyclePrepare
  import opened LifecycleInstall
  import opened LifecycleCommands
  import opened LifecycleRuns

  predicate PendingFiles(w: World, t: Transaction)
    requires t.Change?
  {
    && PendingRelease(w, t)
    && (t.previous.Some? ==> t.previous.value in w.releases && t.previous.value != t.next)
    && (w.current == t.previous || w.current == Some(t.next))
  }

  /**
   Every published release is complete, the selector names one of them, a staging tree is there only while the
   journal of a change names it, and the release that a change goes back to is there.
   */
  predicate Files(w: World) {
    && Trees(w)
    && (w.current.Some? ==> w.current.value in w.releases)
    && match w.journal
       case None => w.stagings == map[]
       case Some(t) => if t.Uninstall? then w.stagings == map[] else PendingFiles(w, t)
  }

  lemma Untouched(w: World, v: World)
    requires Files(w) && SameReleases(w, v) && v.journal == w.journal && v.current == w.current
    ensures Files(v)
  {
    assert forall s :: Published(v, s) == Published(w, s);
  }

  // ---------------------------------------------------------------- from the published release on

  predicate JournalFits(w: World, t: Transaction)
    requires t.Change?
  {
    w.journal.None? || JournalAt(w, t)
  }

  /** The new release is published: on the way to it, on the way back, or past the end of either. */
  predicate Committing(w: World, t: Transaction)
    requires t.Change?
  {
    && Trees(w) && w.stagings == map[] && t.next in w.releases
    && (t.previous.Some? ==> t.previous.value in w.releases && t.previous.value != t.next)
    && (w.current == t.previous || w.current == Some(t.next))
    && JournalFits(w, t)
  }

  lemma CommittingFiles(w: World, t: Transaction)
    requires t.Change? && Committing(w, t)
    ensures Files(w)
  {
  }

  /** What these steps may do to files: move the selector between the two releases, and move the journal on. */
  predicate Moves(w: World, v: World, t: Transaction)
    requires t.Change?
  {
    && SameReleases(w, v)
    && (JournalFits(w, t) ==> JournalFits(v, t))
    && (v.current == w.current || v.current == Some(t.next) || v.current == t.previous)
  }

  lemma MovesKeep(w: World, v: World, t: Transaction)
    requires t.Change? && Committing(w, t) && Moves(w, v, t)
    ensures Committing(v, t)
  {
    assert forall s :: Published(v, s) == Published(w, s);
  }

  lemma PruneMoves(c: Cfg, listing: seq<string>, retained: set<string>, t: Transaction)
    requires t.Change? && Committing(c.w, t) && t.next in retained && (t.previous.Some? ==> t.previous.value in retained)
    ensures Committing(Prune(c, listing, retained).After(), t)
  {
    var v := Prune(c, listing, retained).After();
    hide Prune;
    assert c.w.releasesDir;
    forall s | s in v.releases ensures Published(v, s) { assert Published(c.w, s); }
  }

  lemma EndMoves(c: Cfg, t: Transaction, statusReads: bool)
    requires t.Change?
    ensures Moves(c.w, RemoveJournal(c).After(), t)
    ensures ReadStatus(c, statusReads).After() == c.w
  {
    hide Step;
  }

  lemma PhaseMoves(c: Cfg, t: Transaction, phase: Phase)
    requires t.Change?
    ensures Moves(c.w, UpdatePhase(c, phase).After(), t)
  {
    hide UpdatePhase;
  }

  lemma CallMoves(c: Cfg, t: Transaction)
    requires t.Change?
    ensures Moves(c.w, Reload(c).After(), t) && Moves(c.w, Enable(c).After(), t) && Moves(c.w, Restart(c).After(), t)
    ensures Moves(c.w, Disable(c).After(), t)
  {
    hide OnDisk;
  }

  // ---------------------------------------------------------------- install

  lemma PlaceMoves(c: Cfg, t: Transaction, r: Request)
    requires t.Change? && Committing(c.w, t)
    ensures Committing(PlaceInstall(c, t, r).After(), t)
  {
    hide Step, PublishAnchors, Committing;
    MovesKeep(c.w, PlaceInstall(c, t, r).After(), t);
  }

  lemma ActivateMoves(c: Cfg, t: Transaction)
    requires t.Change? && Committing(c.w, t)
    ensures Committing(ActivateInstall(c, t).After(), t)
  {
    hide Step, Check, Call, UpdatePhase, Reload, Enable, Committing, Moves;
    PhaseMoves(c, t, Selected);
    var c1 := UpdatePhase(c, Selected);
    MovesKeep(c.w, c1.After(), t);
    if c1.Done? {
      CallMoves(c1.c, t);
      var c2 := Reload(c1.c);
      MovesKeep(c1.c.w, c2.After(), t);
      if c2.Done? {
        PhaseMoves(c2.c, t, ManagerReloaded);
        var c3 := UpdatePhase(c2.c, ManagerReloaded);
        MovesKeep(c2.c.w, c3.After(), t);
        if c3.Done? {
          CallMoves(c3.c, t);
          var c4 := Enable(c3.c);
          MovesKeep(c3.c.w, c4.After(), t);
          if c4.Done? { CanonicalMoves(c4.c, t); }
        }
      }
    }
  }

  lemma CanonicalMoves(c: Cfg, t: Transaction)
    requires t.Change? && Committing(c.w, t)
    ensures Committing(Canonicalize(c, t.next).After(), t)
  {
    MovesKeep(c.w, Canonicalize(c, t.next).After(), t);
  }

  lemma InstallCommitFiles(c: Cfg, t: Transaction, r: Request)
    requires t.Change? && t.previous.None? && Committing(c.w, t)
    ensures Committing(InstallCommit(c, t, r).After(), t)
  {
    hide PlaceInstall, ActivateInstall, Prune, RemoveJournal, Committing, Moves;
    PlaceMoves(c, t, r);
    var c1 := PlaceInstall(c, t, r);
    if c1.Done? {
      ActivateMoves(c1.c, t);
      var c2 := ActivateInstall(c1.c, t);
      if c2.Done? {
        PruneMoves(c2.c, r.listing, {t.next}, t);
        var c3 := Prune(c2.c, r.listing, {t.next});
        if c3.Done? {
          EndMoves(c3.c, t, r.statusReads);
          MovesKeep(c3.c.w, RemoveJournal(c3.c).After(), t);
        }
      }
    }
  }

  /** With a journal or without one. */
  lemma InstallRollbackFiles(c: Cfg, t: Transaction, r: Request)
    requires t.Change? && t.previous.None? && Committing(c.w, t)
    ensures Committing(InstallRollback(c, t, r).After(), t)
  {
    ClearInstallEffect(c, t, r);
    var d := ClearInstall(c, t, r);
    MovesKeep(c.w, d.After(), t);
    hide ClearInstall, RemoveJournal, Committing, Moves;
    if d.Cleaned? && d.ok {
      EndMoves(d.c, t, true);
      MovesKeep(d.c.w, RemoveJournal(d.c).After(), t);
    }
  }

  // ---------------------------------------------------------------- upgrade

  lemma SelectorMoves(c: Cfg, t: Transaction, from: string, to: string)
    requires t.Change? && Committing(c.w, t) && (to == t.next || Some(to) == t.previous)
    ensures Committing(ReplaceSelector(c, from, to).After(), t)
  {
    MovesKeep(c.w, ReplaceSelector(c, from, to).After(), t);
  }

  lemma ReactivateMoves(c: Cfg, t: Transaction, codexBefore: bool)
    requires t.Change? && Committing(c.w, t)
    ensures Committing(Reactivate(c, t.wasActive, codexBefore).After(), t)
  {
    hide Check, InstalledIdentity;
    MovesKeep(c.w, Reactivate(c, t.wasActive, codexBefore).After(), t);
  }

  lemma ReloadMoves(c: Cfg, t: Transaction)
    requires t.Change? && Committing(c.w, t)
    ensures Committing(Reload(c).After(), t)
  {
    CallMoves(c, t);
    MovesKeep(c.w, Reload(c).After(), t);
  }

  lemma PhaseKeeps(c: Cfg, t: Transaction, phase: Phase)
    requires t.Change? && Committing(c.w, t)
    ensures Committing(UpdatePhase(c, phase).After(), t)
  {
    PhaseMoves(c, t, phase);
    MovesKeep(c.w, UpdatePhase(c, phase).After(), t);
  }

  lemma JournalKeeps(c: Cfg, t: Transaction)
    requires t.Change? && Committing(c.w, t)
    ensures Committing(RemoveJournal(c).After(), t)
  {
    EndMoves(c, t, true);
    MovesKeep(c.w, RemoveJournal(c).After(), t);
  }

  lemma UpgradeCommitFiles(c: Cfg, t: Transaction, codexBefore: bool, r: Request)
    requires t.Change? && t.previous.Some? && Committing(c.w, t)
    ensures Committing(UpgradeCommit(c, t, codexBefore, r).After(), t)
  {
    hide ReplaceSelector, UpdatePhase, Reload, Reactivate, Prune, RemoveJournal, Committing;
    SelectorMoves(c, t, t.previous.value, t.next);
    var c1 := ReplaceSelector(c, t.previous.value, t.next);
    if c1.Done? {
      PhaseKeeps(c1.c, t, Selected);
      var c2 := UpdatePhase(c1.c, Selected);
      if c2.Done? {
        ReloadMoves(c2.c, t);
        var c3 := Reload(c2.c);
        if c3.Done? {
          PhaseKeeps(c3.c, t, ManagerReloaded);
          var c4 := UpdatePhase(c3.c, ManagerReloaded);
          if c4.Done? { UpgradeTailFiles(c4.c, t, codexBefore, r); }
        }
      }
    }
  }

  lemma UpgradeTailFiles(c: Cfg, t: Transaction, codexBefore: bool, r: Request)
    requires t.Change? && t.previous.Some? && Committing(c.w, t)
    ensures Committing(Reactivate(c, t.wasActive, codexBefore).After(), t)
    ensures var o := Reactivate(c, t.wasActive, codexBefore); o.Done? ==> Committing(FinishUpgrade(o.c, t, r).After(), t)
  {
    hide Reactivate, Prune, RemoveJournal, Committing;
    ReactivateMoves(c, t, codexBefore);
    var c1 := Reactivate(c, t.wasActive, codexBefore);
    if c1.Done? {
      PruneMoves(c1.c, r.listing, {t.previous.value, t.next}, t);
      var c2 := Prune(c1.c, r.listing, {t.previous.value, t.next});
      if c2.Done? { JournalKeeps(c2.c, t); }
    }
  }

  /** With a journal or without one. */
  lemma UpgradeRollbackFiles(c: Cfg, t: Transaction, codexBefore: bool)
    requires t.Change? && t.previous.Some? && Committing(c.w, t)
    ensures Committing(UpgradeRollback(c, t, codexBefore).After(), t)
  {
    hide ReplaceSelector, Reload, Reactivate, RemoveJournal, Committing;
    SelectorMoves(c, t, t.next, t.previous.value);
    var c1 := RestoreSelector(c, t.next, t.previous.value);
    if c1.Done? {
      ReloadMoves(c1.c, t);
      var c2 := Reload(c1.c);
      if c2.Done? {
        ReactivateMoves(c2.c, t, codexBefore);
        var c3 := Reactivate(c2.c, t.wasActive, codexBefore);
        if c3.Done? { JournalKeeps(c3.c, t); }
      }
    }
  }

  // ---------------------------------------------------------------- preparing

  /** A change about to be prepared. */
  predicate Begun(w: World, t: Transaction, m: Manifest)
    requires t.Change?
  {
    && Files(w) && w.journal == Some(t) && t.phase == Preparing && w.stagings == map[] && w.current == t.previous
    && ValidManifest(m) && SelectorOf(m.package) == t.next
  }

  /** Every release is one of before, or the one that was built. */
  lemma PreparedTrees(w: World, v: World, t: Transaction, m: Manifest)
    requires t.Change? && Begun(w, t, m) && PrepMoves(w, v, t, m)
    ensures Trees(v) && (forall s | s in w.releases :: s in v.releases) && v.current == w.current
  {
    forall s | s in v.releases ensures Published(v, s) { if s in w.releases { assert Published(w, s); } }
  }

  lemma PreparingFiles(w: World, v: World, t: Transaction, m: Manifest)
    requires t.Change? && Begun(w, t, m) && PrepMoves(w, v, t, m) && v.journal == Some(t)
    ensures Files(v)
    ensures t.next in v.releases && v.stagings == map[] ==> Committing(v, t)
  {
    PreparedTrees(w, v, t, m);
    hide Trees, Complete;
  }

  lemma PreparedFiles(w: World, v: World, t: Transaction, m: Manifest)
    requires t.Change? && Begun(w, t, m) && PrepMoves(w, v, t, m) && t.next in v.releases && v.stagings == map[]
    requires v.journal == Some(t.(phase := Prepared))
    ensures Committing(v, t) && Files(v)
  {
    PreparedTrees(w, v, t, m);
    hide Trees, Complete;
  }

  lemma AbandonedFiles(w: World, v: World, t: Transaction, m: Manifest)
    requires t.Change? && Begun(w, t, m) && PrepMoves(w, v, t, m) && v.stagings == map[] && v.journal.None?
    ensures Files(v)
  {
    PreparedTrees(w, v, t, m);
    hide Trees, Complete;
  }

  lemma BegunIsClean(w: World, t: Transaction, m: Manifest)
    requires t.Change? && Begun(w, t, m)
    ensures w.stagings == map[] && w.journal == Some(t)
  {
  }

  lemma PrepareFiles(c: Cfg, t: Transaction, m: Manifest)
    requires t.Change? && Begun(c.w, t, m)
    ensures var o := Prepare(c, t, m); Files(o.After()) && (o.Done? ==> Committing(o.After(), t))
  {
    BegunIsClean(c.w, t, m);
    hide PrepareRelease, UpdatePhase, RemoveStaging, RemoveJournal, Files, Committing, Begun, PrepMoves;
    PrepareReleaseEffect(c, t, m);
    var c1 := PrepareRelease(c, t, m);
    PreparingFiles(c.w, c1.After(), t, m);
    if c1.Done? {
      MarkedFiles(c.w, c1.c, t, m);
    } else if c1.Failed? && c1.code != RecoveryRequired {
      AbandonFiles(c.w, c1.c, t, m);
    }
  }

  lemma MarkedFiles(w: World, c: Cfg, t: Transaction, m: Manifest)
    requires t.Change? && Begun(w, t, m) && PrepMoves(w, c.w, t, m) && c.w.journal == Some(t)
    requires t.next in c.w.releases && c.w.stagings == map[]
    ensures var o := UpdatePhase(c, Prepared);
            && Files(o.After()) && (o.Done? ==> Committing(o.After(), t))
            && (o.Failed? ==> Files(AbandonStaging(o.c, t).After()))
  {
    hide UpdatePhase, RemoveStaging, RemoveJournal, Files, Committing, Begun;
    var o := UpdatePhase(c, Prepared);
    if o.Done? {
      PreparedFiles(w, o.c.w, t, m);
    } else {
      PreparingFiles(w, c.w, t, m);
      if o.Failed? { AbandonFiles(w, o.c, t, m); }
    }
  }

  lemma AbandonFiles(w: World, c: Cfg, t: Transaction, m: Manifest)
    requires t.Change? && Begun(w, t, m) && PrepMoves(w, c.w, t, m) && c.w.journal == Some(t)
    ensures Files(AbandonStaging(c, t).After())
  {
    hide RemoveStaging, RemoveJournal, Files, Committing, Begun, PrepMoves;
    StagingGone(w, c, t, m);
    var c1 := RemoveStaging(c, t.staging);
    PreparingFiles(w, c1.After(), t, m);
    if c1.Done? {
      JournalGone(w, c1.c, t, m);
      var c2 := RemoveJournal(c1.c);
      if c2.After().journal.None? { AbandonedFiles(w, c2.After(), t, m); }
    }
  }

  lemma StagingGone(w: World, c: Cfg, t: Transaction, m: Manifest)
    requires t.Change? && PrepMoves(w, c.w, t, m)
    ensures var o := RemoveStaging(c, t.staging);
            && PrepMoves(w, o.After(), t, m) && o.After().journal == c.w.journal
            && (o.Done? ==> o.After().stagings == map[])
  {
    hide RemoveStaging;
  }

  lemma JournalGone(w: World, c: Cfg, t: Transaction, m: Manifest)
    requires t.Change? && PrepMoves(w, c.w, t, m) && c.w.stagings == map[]
    ensures var v := RemoveJournal(c).After();
            PrepMoves(w, v, t, m) && v.stagings == map[] && (v.journal.None? || v == c.w)
  {
    hide RemoveJournal;
  }

  // ---------------------------------------------------------------- recovery

  lemma UndoUpgradeMoves(c: Cfg, t: Transaction)
    requires t.Change? && t.previous.Some? && Committing(c.w, t)
    ensures Committing(UndoUpgrade(c, t).After(), t)
  {
    hide Check, Step, Committing, ReplaceSelector, ReloadAndSettle, Complete, ArtifactsExact;
    var p := t.previous.value;
    var c1 := Check(c, Published(c.w, p) && ArtifactsExact(c.w, ManifestOf(c.w, p))
                       && (c.w.current == Some(p) || c.w.current == Some(t.next)), RecoveryRequired);
    if c1.Done? {
      SettleMoves(c1.c, t);
      if c1.c.w.current == Some(t.next) {
        SelectorMoves(c1.c, t, t.next, p);
        var c2 := ReplaceSelector(c1.c, t.next, p);
        if c2.Done? { SettleMoves(c2.c, t); }
      }
    }
  }

  lemma SettleMoves(c: Cfg, t: Transaction)
    requires t.Change? && Committing(c.w, t)
    ensures Committing(ReloadAndSettle(c, t.wasActive).After(), t)
  {
    hide Reload, Committing, Check, InstalledIdentity;
    ReloadMoves(c, t);
    var c1 := Reload(c);
    if c1.Done? { RestartMoves(c1.c, t); }
  }

  lemma RestartMoves(c: Cfg, t: Transaction)
    requires t.Change? && Committing(c.w, t)
    ensures Committing(Restart(c).After(), t)
  {
    CallMoves(c, t);
    MovesKeep(c.w, Restart(c).After(), t);
  }

  lemma UndoPublishedFiles(c: Cfg, t: Transaction)
    requires t.Change? && t.next in c.w.releases && Committing(c.w, t)
    ensures Committing(UndoChange(c, t).After(), t)
  {
    hide Check, Step, Committing, UndoInstall, UndoUpgrade, Complete;
    var c1 := Check(c, !(t.next in c.w.releases && t.staging in c.w.stagings), RecoveryRequired);
    if c1.Done? {
      var c2 := Check(c1.c, Published(c1.c.w, t.next), RecoveryRequired);
      if c2.Done? {
        if t.previous.None? { UndoInstallMoves(c2.c, t); } else { UndoUpgradeMoves(c2.c, t); }
      }
    }
  }

  lemma UndoInstallMoves(c: Cfg, t: Transaction)
    requires t.Change? && t.previous.None? && Published(c.w, t.next) && Committing(c.w, t)
    ensures Committing(UndoInstall(c, t).After(), t)
  {
    UndoInstallEffect(c, t);
    hide UndoInstall, Complete;
    MovesKeep(c.w, UndoInstall(c, t).After(), t);
  }

  /** The staging tree goes, and then the journal. */
  lemma ClearChangeFiles(c: Cfg, t: Transaction)
    requires t.Change? && c.w.journal == Some(t) && Files(c.w)
    ensures var o := RemoveStaging(c, t.staging);
            Files(o.After()) && (o.Done? ==> Files(RemoveJournal(o.c).After()))
  {
    var o := RemoveStaging(c, t.staging);
    hide RemoveStaging, RemoveJournal, Files;
    WithoutStaging(c.w, o.After(), t);
    if o.Done? { WithoutJournal(o.c.w, RemoveJournal(o.c).After(), t); }
  }

  lemma WithoutStaging(w: World, v: World, t: Transaction)
    requires t.Change? && w.journal == Some(t) && Files(w) && (v == w || v == w.(stagings := w.stagings - {t.staging}))
    ensures Files(v) && (t.staging !in v.stagings ==> v.stagings == map[])
  {
    assert forall s :: Published(v, s) == Published(w, s);
    hide Complete;
  }

  lemma WithoutJournal(w: World, v: World, t: Transaction)
    requires t.Change? && w.journal == Some(t) && Files(w) && w.stagings == map[] && (v == w || v == w.(journal := None))
    ensures Files(v)
  {
    assert forall s :: Published(v, s) == Published(w, s);
    hide Complete;
  }

  lemma PendingIsCommitting(w: World, t: Transaction)
    requires t.Change? && w.journal == Some(t) && Files(w) && t.next in w.releases
    ensures Committing(w, t)
  {
  }

  lemma RecoverFiles(c: Cfg)
    requires Files(c.w)
    ensures Files(Recover(c).After())
  {
    hide UndoChange, RemoveStaging, RemoveJournal, Files, Committing;
    if c.w.journal.Some? && c.w.journal.value.Change? {
      var t := c.w.journal.value;
      UndoKeepsJournal(c, t);
      var c1 := UndoChange(c, t);
      if t.next in c.w.releases {
        PendingIsCommitting(c.w, t);
        UndoPublishedFiles(c, t);
        CommittingFiles(c1.After(), t);
      } else {
        UndoNothing(c, t);
      }
      if c1.Done? { ClearChangeFiles(c1.c, t); }
    }
  }

  lemma UndoNothing(c: Cfg, t: Transaction)
    requires t.Change? && t.next !in c.w.releases
    ensures UndoChange(c, t).After() == c.w
  {
    hide Step, RecoverableBeforePublish;
  }

  lemma UndoKeepsJournal(c: Cfg, t: Transaction)
    requires t.Change?
    ensures UndoChange(c, t).After().journal == c.w.journal
  {
    hide Check, Step, UndoInstall, UndoUpgrade, Complete, RecoverableBeforePublish;
    var c1 := Check(c, !(t.next in c.w.releases && t.staging in c.w.stagings), RecoveryRequired);
    if c1.Done? && t.next in c1.c.w.releases {
      var c2 := Check(c1.c, Published(c1.c.w, t.next), RecoveryRequired);
      if c2.Done? {
        if t.previous.None? { UndoInstallEffect(c2.c, t); } else { UndoUpgradeKeepsJournal(c2.c, t); }
      }
    }
  }

  lemma UndoUpgradeKeepsJournal(c: Cfg, t: Transaction)
    requires t.Change? && t.previous.Some?
    ensures UndoUpgrade(c, t).After().journal == c.w.journal
  {
    hide Check, Step, Complete, ArtifactsExact, ReplaceSelector, ReloadAndSettle;
    var p := t.previous.value;
    var c1 := Check(c, Published(c.w, p) && ArtifactsExact(c.w, ManifestOf(c.w, p))
                       && (c.w.current == Some(p) || c.w.current == Some(t.next)), RecoveryRequired);
    if c1.Done? {
      SettlingKeepsJournal(c1.c, t.wasActive);
      SelectingKeepsJournal(c1.c, t.next, p);
      var c2 := ReplaceSelector(c1.c, t.next, p);
      if c2.Done? { SettlingKeepsJournal(c2.c, t.wasActive); }
    }
  }

  lemma SelectingKeepsJournal(c: Cfg, from: string, to: string)
    ensures ReplaceSelector(c, from, to).After().journal == c.w.journal
  {
  }

  lemma SettlingKeepsJournal(c: Cfg, active: bool)
    ensures ReloadAndSettle(c, active).After().journal == c.w.journal
  {
    hide Check, OnDisk, InstalledIdentity;
  }

  // ---------------------------------------------------------------- the commands

  lemma FreshInstallFiles(c: Cfg, r: Request)
    requires Files(c.w) && c.w.journal.None? && c.w.current.None? && ValidRequest(r)
    ensures Files(FreshInstall(c, r).After())
  {
    var t, m := FreshTransaction(r), RequestManifest(r);
    hide Check, Prepare, InstallCommit, InstallRollback, PublishedReleases, NoUnits, Files, Committing, Begun, ReleaseSelector;
    FreshBeginFiles(c, r);
    var c1 := FreshBegin(c, r);
    if c1.Done? {
      InstallCommitFiles(c1.c, t, r);
      var o := InstallCommit(c1.c, t, r);
      CommittingFiles(o.After(), t);
      if o.Failed? {
        InstallRollbackFiles(o.c, t, r);
        CommittingFiles(InstallRollback(o.c, t, r).After(), t);
      }
    }
  }

  lemma FreshBeginFiles(c: Cfg, r: Request)
    requires Files(c.w) && c.w.journal.None? && c.w.current.None? && ValidRequest(r)
    ensures var o := FreshBegin(c, r); Files(o.After()) && (o.Done? ==> Committing(o.After(), FreshTransaction(r)))
  {
    var t, m := FreshTransaction(r), RequestManifest(r);
    BeginFiles(c.w, t, m);
    hide Check, Step, Prepare, PublishedReleases, NoUnits, Files, Committing, Begun, ReleaseSelector;
    var c1 := Check(c, PublishedReleases(c.w), Invalid);
    if c1.Done? {
      var c2 := Check(c1.c, NoUnits(c1.c.w), Invalid);
      if c2.Done? {
        var c3 := WriteJournal(c2.c, t);
        if c3.Done? { PrepareFiles(c3.c, t, m); }
      }
    }
  }

  lemma BeginFiles(w: World, t: Transaction, m: Manifest)
    requires t.Change? && t.phase == Preparing && Files(w) && w.journal.None? && w.current == t.previous
    requires t.previous.Some? ==> t.previous.value != t.next
    requires ValidManifest(m) && SelectorOf(m.package) == t.next
    ensures Begun(w.(journal := Some(t)), t, m)
  {
    assert forall s :: Published(w.(journal := Some(t)), s) == Published(w, s);
  }

  /** Only the manager and the enablement link can have changed. */
  predicate Quiet(w: World, v: World) { SameReleases(w, v) && v.journal == w.journal && v.current == w.current }

  lemma QuietCalls(c: Cfg, s: string)
    ensures Quiet(c.w, Reload(c).After()) && Quiet(c.w, Enable(c).After()) && Quiet(c.w, Canonicalize(c, s).After())
  {
    hide OnDisk;
  }

  lemma InstallAgainFiles(c: Cfg, r: Request)
    requires Files(c.w) && c.w.current.Some? && Published(c.w, c.w.current.value)
    ensures Files(InstallAgain(c, r).After())
  {
    hide Check, Files, InstalledIdentity, UnenabledIdentity, InstalledStopped, Reload, Enable, Canonicalize, Complete;
    var s := c.w.current.value;
    var c1 := Check(c, UnenabledIdentity(c.w), Invalid);
    if c1.Done? {
      QuietCalls(c1.c, s);
      var c2 := Reload(c1.c);
      Untouched(c1.c.w, c2.After());
      if c2.Done? {
        QuietCalls(c2.c, s);
        var c3 := Enable(c2.c);
        Untouched(c2.c.w, c3.After());
        if c3.Done? {
          QuietCalls(c3.c, s);
          Untouched(c3.c.w, Canonicalize(c3.c, s).After());
        }
      }
    }
  }

  lemma InstallFiles(c: Cfg, r: Request)
    requires Files(c.w) && ValidRequest(r)
    ensures Files(Install(c, r).After())
  {
    hide Recover, FreshInstall, InstallAgain, Files, Complete, ValidRequest;
    RecoverFiles(c);
    var c1 := Recover(c);
    if c1.Done? {
      if Inspect(c1.c.w) == Absent { FreshInstallFiles(c1.c, r); }
      else if Inspect(c1.c.w) == Coherent || Inspect(c1.c.w) == Unenabled { InstallAgainFiles(c1.c, r); }
    }
  }

  lemma ChangingUpgradeFiles(c: Cfg, r: Request)
    requires Files(c.w) && Inspect(c.w) == Coherent && ValidPackage(r.package)
    ensures Files(ChangingUpgrade(c, r).After())
  {
    CoherentMeans(c.w);
    hide UpgradeBegin, UpgradeEnd, Files, Committing, Inspect, ReleaseSelector, Complete;
    UpgradeBeginFiles(c, r);
    var c1 := UpgradeBegin(c, r);
    if c1.Done? { UpgradeEndFiles(c1.c, UpgradeTransaction(c.w, r), c.w.codex, r); }
  }

  lemma UpgradeEndFiles(c: Cfg, t: Transaction, codexBefore: bool, r: Request)
    requires t.Change? && t.previous.Some? && Committing(c.w, t)
    ensures Files(UpgradeEnd(c, t, codexBefore, r).After())
  {
    hide UpgradeCommit, UpgradeRollback, Files, Committing;
    UpgradeCommitFiles(c, t, codexBefore, r);
    var o := UpgradeCommit(c, t, codexBefore, r);
    CommittingFiles(o.After(), t);
    if o.Failed? {
      UpgradeRollbackFiles(o.c, t, codexBefore);
      CommittingFiles(UpgradeRollback(o.c, t, codexBefore).After(), t);
    }
  }

  lemma UpgradeBeginFiles(c: Cfg, r: Request)
    requires Files(c.w) && Inspect(c.w) == Coherent && ValidPackage(r.package)
    ensures var o := UpgradeBegin(c, r); Files(o.After()) && (o.Done? ==> Committing(o.After(), UpgradeTransaction(c.w, r)))
  {
    CoherentMeans(c.w);
    UpgradeChecksEffect(c, r);
    PublishedName(c.w, c.w.current.value);
    var t, m := UpgradeTransaction(c.w, r), UpgradeManifest(c.w, r);
    var c1 := UpgradeChecks(c, r);
    if c1.Done? {
      NewerIsAnother(r.package, ManifestOf(c.w, c.w.current.value).package);
      CoherentJournal(c.w);
      BeginFiles(c.w, t, m);
      hide UpgradeChecks, Step, Prepare, Files, Committing, Begun, ReleaseSelector, Complete, Inspect, Newer;
      var c2 := WriteJournal(c1.c, t);
      if c2.Done? { PrepareFiles(c2.c, t, m); }
    }
  }

  lemma CoherentJournal(w: World)
    requires Inspect(w) == Coherent
    ensures w.journal.None?
  {
  }

  lemma UpgradeFiles(c: Cfg, r: Request)
    requires Files(c.w) && ValidPackage(r.package)
    ensures Files(Upgrade(c, r).After())
  {
    hide Recover, ChangingUpgrade, Files, Inspect, PublishedReleases, InstalledIdentity, Step, SamePackage, Complete;
    RecoverFiles(c);
    var c1 := Recover(c);
    if c1.Done? && Inspect(c1.c.w) == Coherent { ChangingUpgradeFiles(c1.c, r); }
  }

  lemma SetRunningFiles(c: Cfg, wanted: Wanted, statusReads: bool)
    requires Files(c.w)
    ensures Files(SetRunning(c, wanted, statusReads).After())
  {
    hide Recover, ChangeRunning, Files, Inspect, InstalledIdentity, Step;
    RecoverFiles(c);
    var c1 := Recover(c);
    if c1.Done? && Inspect(c1.c.w) == Coherent {
      var c2 := Check(c1.c, InstalledIdentity(c1.c.w), LifecycleFailed);
      if c2.Done? {
        RunningMoves(c2.c, wanted);
        Untouched(c2.c.w, ChangeRunning(c2.c, wanted).After());
      }
    }
  }

  // ---------------------------------------------------------------- uninstall

  /** An uninstall under way, before and after it has let go of the selector. */
  predicate RemovingFiles(w: World, cleared: bool) {
    Files(w) && w.journal.Some? && w.journal.value.Uninstall? && (cleared ==> w.current.None?)
  }

  lemma AdvanceFiles(c: Cfg, stage: Stage, cleared: bool)
    requires RemovingFiles(c.w, cleared)
    ensures RemovingFiles(Advance(c, stage).After(), cleared)
  {
    hide Readable;
    assert forall v: World | v == c.w.(journal := v.journal) :: forall s :: Published(v, s) == Published(c.w, s);
  }

  lemma ManagerFiles(w: World, v: World, cleared: bool)
    requires RemovingFiles(w, cleared)
    requires SameReleases(w, v) && v.journal == w.journal && (v.current == w.current || v.current.None?)
    ensures RemovingFiles(v, cleared)
  {
    assert forall s :: Published(v, s) == Published(w, s);
  }

  lemma StopUnitsFiles(c: Cfg)
    requires RemovingFiles(c.w, false)
    ensures RemovingFiles(StopUnits(c).After(), false)
  {
    hide RemovingFiles, Advance, ManagerKnown, Check;
    var c1 := if c.w.host.None? then Done(c) else StopHost(c);
    ManagerFiles(c.w, c1.After(), false);
    if c1.Done? {
      var c2 := if c1.c.w.codex then StopCodex(c1.c) else Done(c1.c);
      ManagerFiles(c1.c.w, c2.After(), false);
      if c2.Done? {
        var c3 := Check(c2.c, c2.c.w.host.None? && !c2.c.w.codex && ManagerKnown(c2.c.w, StagePassed(c2.c.w, Stopped)), LifecycleFailed);
        if c3.Done? { AdvanceFiles(c3.c, Stopped, false); }
      }
    }
  }

  lemma DisableUnitsFiles(c: Cfg)
    requires RemovingFiles(c.w, false)
    ensures RemovingFiles(DisableUnits(c).After(), false)
  {
    hide RemovingFiles, Advance, ManagerKnown, Check, OnDisk;
    var c1 := Check(c, ManagerKnown(c.w, StagePassed(c.w, Stopped)), UninstallInvalid);
    if c1.Done? {
      var c2 := if c1.c.w.enablement.Some? || c1.c.w.enabled then Disable(c1.c) else Done(c1.c);
      ManagerFiles(c1.c.w, c2.After(), false);
      if c2.Done? {
        var c3 := Check(c2.c, c2.c.w.enablement.None? && !c2.c.w.enabled, LifecycleFailed);
        if c3.Done? { AdvanceFiles(c3.c, Disabled, false); }
      }
    }
  }

  lemma RemoveInstallationFiles(c: Cfg, t: Transaction)
    requires t.Uninstall? && RemovingFiles(c.w, false)
    ensures var o := RemoveInstallation(c, t);
            RemovingFiles(o.After(), false) && (o.Done? ==> RemovingFiles(o.After(), true))
  {
    hide RemovingFiles, Advance, ClearOwned, Check;
    var c1 := Check(c, c.w.enablement.None?, Invalid);
    if c1.Done? {
      ClearedFiles(c1.c, t);
      var c2 := ClearOwned(c1.c, t);
      if c2.Done? {
        AdvanceFiles(c2.c, AnchorsRemoved, true);
        ClearedWeakens(Advance(c2.c, AnchorsRemoved).After());
      }
    }
  }

  lemma ClearedWeakens(w: World)
    requires RemovingFiles(w, true)
    ensures RemovingFiles(w, false)
  {
  }

  lemma ClearedFiles(c: Cfg, t: Transaction)
    requires t.Uninstall? && RemovingFiles(c.w, false)
    ensures var o := ClearOwned(c, t);
            RemovingFiles(o.After(), false) && (o.Done? ==> RemovingFiles(o.After(), true))
  {
    LifecycleUninstall.ClearOwnedEffect(c, t);
    hide ClearOwned;
    ManagerFiles(c.w, ClearOwned(c, t).After(), false);
  }

  lemma RemoveReleasesFiles(c: Cfg, t: Transaction)
    requires t.Uninstall? && RemovingFiles(c.w, true)
    ensures RemovingFiles(RemoveReleases(c, t).After(), true)
  {
    hide RemovingFiles, Advance, RemoveUnretained, RemoveReleasesDir;
    var c1 := RemoveUnretained(c, t.selectors, {});
    FewerFiles(c.w, c1.After());
    if c1.Done? {
      DirFiles(c1.c);
      var c2 := RemoveReleasesDir(c1.c);
      if c2.Done? { AdvanceFiles(c2.c, ReleasesRemoved, true); }
    }
  }

  lemma FewerFiles(w: World, v: World)
    requires RemovingFiles(w, true) && v == w.(releases := v.releases)
    requires forall s | s in v.releases :: s in w.releases && v.releases[s] == w.releases[s]
    ensures RemovingFiles(v, true)
  {
    forall s | s in v.releases ensures Published(v, s) { assert Published(w, s); }
    assert !w.releasesDir ==> v.releases == map[];
  }

  lemma DirFiles(c: Cfg)
    requires RemovingFiles(c.w, true)
    ensures RemovingFiles(RemoveReleasesDir(c).After(), true)
  {
    assert forall v: World | v.releases == c.w.releases :: forall s :: Published(v, s) == Published(c.w, s);
  }

  lemma ForgetFiles(c: Cfg)
    requires RemovingFiles(c.w, true)
    ensures Files(ForgetUnits(c).After())
  {
    hide RemovingFiles, Files, Advance, Check, Reload, RemoveJournal, NotFound, DataRootEmpty;
    ReloadFiles(c);
    var c1 := Reload(c);
    RemovingIsFiles(c1.After());
    if c1.Done? {
      AdvanceAndForget(Check(c1.c, NotFound(c1.c.w), LifecycleFailed));
    }
  }

  lemma ReloadFiles(c: Cfg)
    requires RemovingFiles(c.w, true)
    ensures RemovingFiles(Reload(c).After(), true)
  {
    hide RemovingFiles, OnDisk;
    ManagerFiles(c.w, Reload(c).After(), true);
  }

  lemma RemovingIsFiles(w: World)
    requires RemovingFiles(w, true)
    ensures Files(w)
  {
  }

  lemma AdvanceAndForget(o: Outcome)
    requires RemovingFiles(o.After(), true)
    ensures o.Done? ==>
              var c := Advance(o.c, Journal.Reloaded);
              Files(c.After()) && (c.Done? ==> Files(RemoveJournal(c.c).After()))
  {
    hide RemovingFiles, Files, Advance, RemoveJournal;
    if o.Done? {
      AdvanceFiles(o.c, Journal.Reloaded, true);
      var c := Advance(o.c, Journal.Reloaded);
      RemovingIsFiles(c.After());
      if c.Done? { LastJournalFiles(c.c); }
    }
  }

  lemma LastJournalFiles(c: Cfg)
    requires RemovingFiles(c.w, true)
    ensures Files(RemoveJournal(c).After())
  {
    var v := RemoveJournal(c).After();
    hide RemoveJournal;
    assert forall s :: Published(v, s) == Published(c.w, s);
  }

  lemma ExecuteFiles(c: Cfg, t: Transaction, r: Removal)
    requires t.Uninstall? && RemovingFiles(c.w, false)
    ensures Files(ExecuteUninstall(c, t, r).After())
  {
    hide RemovingFiles, Files, Check, StopUnits, DisableUnits, ClearAway, OwnedByTransaction, ManagerKnown, PathsSurvive;
    RemovingBefore(c.w);
    var c1 := Check(c, OwnedByTransaction(c.w, t) && PathsSurvive(c.w, r), RecoveryRequired);
    if c1.Done? {
      var c2 := Check(c1.c, ManagerKnown(c1.c.w, StagePassed(c1.c.w, Stopped)), UninstallInvalid);
      if c2.Done? {
        StopUnitsFiles(c2.c);
        var c3 := StopUnits(c2.c);
        RemovingBefore(c3.After());
        if c3.Done? {
          DisableUnitsFiles(c3.c);
          var c4 := DisableUnits(c3.c);
          RemovingBefore(c4.After());
          if c4.Done? { ClearAwayFiles(c4.c, t); }
        }
      }
    }
  }

  lemma RemovingBefore(w: World)
    requires RemovingFiles(w, false)
    ensures Files(w)
  {
  }

  lemma ClearAwayFiles(c: Cfg, t: Transaction)
    requires t.Uninstall? && RemovingFiles(c.w, false)
    ensures Files(ClearAway(c, t).After())
  {
    hide RemovingFiles, Files, RemoveInstallation, RemoveReleases, ForgetUnits;
    RemoveInstallationFiles(c, t);
    var c1 := RemoveInstallation(c, t);
    RemovingBefore(c1.After());
    if c1.Done? {
      RemoveReleasesFiles(c1.c, t);
      var c2 := RemoveReleases(c1.c, t);
      RemovingIsFiles(c2.After());
      if c2.Done? { ForgetFiles(c2.c); }
    }
  }

  lemma BeginUninstallFiles(c: Cfg, r: Removal)
    requires Files(c.w) && c.w.journal.None?
    ensures Files(BeginUninstall(c, r).After())
  {
    hide Files, Check, Step, MayUninstall, HasArtifacts, NotFound, ExecuteUninstall, CommonEnvironment;
    var c1 := Check(c, MayUninstall(c.w, r), UninstallInvalid);
    if c1.Done? && HasArtifacts(c1.c.w) {
      var c2 := WriteJournal(c1.c, UninstallTransaction(c1.c.w, r));
      if c2.Done? {
        StartedFiles(c1.c.w, UninstallTransaction(c1.c.w, r));
        ExecuteFiles(c2.c, UninstallTransaction(c1.c.w, r), r);
      }
    }
  }

  lemma StartedFiles(w: World, t: Transaction)
    requires Files(w) && w.journal.None? && t.Uninstall?
    ensures RemovingFiles(w.(journal := Some(t)), false)
  {
    assert forall s :: Published(w.(journal := Some(t)), s) == Published(w, s);
  }

  lemma UninstallFiles(c: Cfg, r: Removal)
    requires Files(c.w)
    ensures Files(RunUninstall(c, r).After())
  {
    hide Recover, BeginUninstall, ExecuteUninstall, Readable;
    if c.w.journal.None? {
      BeginUninstallFiles(c, r);
    } else if c.w.journal.value.Change? {
      RecoverFiles(c);
      var c1 := Recover(c);
      if c1.Done? {
        RecoveredHasNoJournal(c);
        BeginUninstallFiles(c1.c, r);
      }
    } else if Readable(c.w.journal.value) {
      ExecuteFiles(c, c.w.journal.value, r);
    }
  }

  lemma RecoveredHasNoJournal(c: Cfg)
    requires c.w.journal.Some? && c.w.journal.value.Change? && Recover(c).Done?
    ensures Recover(c).c.w.journal.None?
  {
    hide UndoChange, RemoveStaging, RemoveJournal;
  }

  // ---------------------------------------------------------------- runs

  /** The package is one that the verifier accepts; nothing else is asked of a command. */
  predicate Verified(c: Command) {
    match c
    case InstallCommand(r) => ValidRequest(r)
    case UpgradeCommand(r) => ValidPackage(r.package)
    case _ => true
  }

  lemma LaunchFiles(w: World, l: Launch)
    requires Files(w) && Verified(l.command)
    ensures Files(Execute(w, l).After())
  {
    hide Files, Install, Upgrade, RunUninstall, SetRunning;
    match l.command
    case InstallCommand(r) => InstallFiles(Cfg(w, l.plan), r);
    case UpgradeCommand(r) => UpgradeFiles(Cfg(w, l.plan), r);
    case UninstallCommand(r) => UninstallFiles(Cfg(w, l.plan), r);
    case RunCommand(wanted, status) => SetRunningFiles(Cfg(w, l.plan), wanted, status);
  }

  lemma {:induction false} RunFiles(w: World, launches: seq<Launch>)
    requires Files(w) && forall i | 0 <= i < |launches| :: Verified(launches[i].command)
    ensures Files(Run(w, launches))
    decreases |launches|
  {
    hide Files, Execute, Verified;
    if launches != [] {
      LaunchFiles(w, launches[0]);
      RunFiles(Execute(w, launches[0]).After(), launches[1..]);
    }
  }

  /** The same, as a reader of the disk sees it. */
  predicate SoundFiles(w: World) {
    && (forall s | s in w.releases :: Published(w, s))
    && (w.current.Some? ==> Published(w, w.current.value))
    && (forall name | name in w.stagings :: w.journal.Some? && w.journal.value.Change? && name == w.journal.value.staging)
    && (w.journal.Some? && w.journal.value.Change? && w.journal.value.previous.Some? ==> Published(w, w.journal.value.previous.value))
    && (w.journal.Some? && w.journal.value.Change? ==> w.current == w.journal.value.previous || w.current == Some(w.journal.value.next))
  }

  /**
   In every run from an empty machine, whatever fails, dies, is left over or cannot be read: every published
   release and the selected one are complete, staging is named by the journal, and the release that a live
   journal goes back to is never pruned.
   */
  lemma EveryRunKeepsFiles(launches: seq<Launch>)
    requires forall i | 0 <= i < |launches| :: Verified(launches[i].command)
    ensures SoundFiles(Run(EMPTY, launches))
  {
    hide Run, Verified, Files, SoundFiles;
    EmptyFiles();
    RunFiles(EMPTY, launches);
    FilesAreSound(Run(EMPTY, launches));
  }

  lemma EmptyFiles()
    ensures Files(EMPTY)
  {
  }

  lemma FilesAreSound(w: World)
    requires Files(w)
    ensures SoundFiles(w)
  {
    hide Complete;
  }
}
