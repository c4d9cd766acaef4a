/** The invariant of the installer, and that every command keeps it under every plan. */
module LifecycleSafety {
  import opened Common
  import opened SemVer
  import opened Journal
  import opened JournalFacts
  import opened Lifecycle

  // ---------------------------------------------------------------- the invariant

  predicate Trees(w: World) {
    && (forall s | s in w.releases :: Published(w, s))
    && (!w.releasesDir ==> w.releases == map[] && w.stagings == map[])
  }

  predicate SameEnvironment(w: World, e: string) {
    forall s | s in w.releases :: Published(w, s) && ManifestOf(w, s).environment == e
  }

  /** Nothing is installed; complete releases may have been left behind. */
  predicate AbsentShape(w: World) { ArtifactsAbsent(w) && NoUnits(w) && !w.enabled }

  /** Everything that belongs to release `s` except the selector and the manager's definitions. */
  predicate InstalledShape(w: World, s: string) {
    && Published(w, s)
    && ArtifactsExact(w, ManifestOf(w, s))
    && w.enabled
    && SameEnvironment(w, ManifestOf(w, s).environment)
  }

  predicate InstalledAt(w: World, s: string) {
    && InstalledShape(w, s)
    && w.current == Some(s) && w.hostDefs == Some(s) && w.codexDefs == Some(s)
    && (w.host.Some? ==> w.host == Some(s))
  }

  predicate Idle(w: World) {
    && w.journal.None? && w.stagings == map[]
    && (AbsentShape(w) || (w.current.Some? && InstalledAt(w, w.current.value)))
  }

  /** What every pending change keeps about staging and about the release it is preparing. */
  predicate PendingRelease(w: World, t: Transaction)
    requires t.Change?
  {
    && (forall name | name in w.stagings :: name == t.staging)
    && (t.next in w.releases ==> w.stagings == map[])
    && (t.phase != Preparing ==> t.next in w.releases)
  }

  predicate PendingInstall(w: World, t: Transaction)
    requires t.Change?
  {
    && t.previous.None?
    && PendingRelease(w, t)
    && (t.next !in w.releases ==> AbsentShape(w))
    && (w.current.Some? ==> w.current == Some(t.next))
    && (w.enablement.Some? ==> OwnedEnablement(w, t.next))
    && (w.environment.Some? ==> Published(w, t.next) && w.environment == Some(ManifestOf(w, t.next).environment))
    && w.host.None? && !w.codex
  }

  predicate PendingUpgrade(w: World, t: Transaction)
    requires t.Change?
  {
    && t.previous.Some? && t.previous.value != t.next
    && PendingRelease(w, t)
    && InstalledShape(w, t.previous.value)
    && (w.current == t.previous || (w.current == Some(t.next) && t.next in w.releases))
    && (w.hostDefs == t.previous || w.hostDefs == Some(t.next)) && w.codexDefs == w.hostDefs
    // the manager knows the next release only in these two phases
    && (w.hostDefs == Some(t.next) ==> t.phase == Selected || t.phase == ManagerReloaded)
    && (w.host.Some? ==> w.host == t.previous || w.host == Some(t.next))
    && (w.host == Some(t.next) ==> t.phase == Selected || t.phase == ManagerReloaded)
    && (!t.wasActive ==> w.host.None?)
  }

  predicate PendingChange(w: World, t: Transaction)
    requires t.Change?
  {
    if t.previous.None? then PendingInstall(w, t) else PendingUpgrade(w, t)
  }

  predicate PendingUninstall(w: World, t: Transaction)
    requires t.Uninstall?
  {
    && OwnedByTransaction(w, t)
    && (w.current.Some? ==> w.current.value in w.releases)
    && StageFacts(w, StageIndex(t.stage))
  }

  /** What is already gone once uninstall has passed this many stages. */
  predicate StageFacts(w: World, n: nat) {
    && ManagerKnown(w, n >= 1)
    && (n >= 1 ==> w.host.None? && !w.codex)
    && (n >= 2 ==> w.enablement.None? && !w.enabled)
    && (n >= 3 ==> ArtifactsAbsent(w))
    && (n >= 4 ==> !w.releasesDir)
    && (n >= 5 ==> NotFound(w))
  }

  predicate Inv(w: World) {
    && Trees(w)
    && match w.journal
       case None => Idle(w)
       case Some(t) =>
         if t.Uninstall? then PendingUninstall(w, t) else PendingChange(w, t)
  }

  /** No uninstall is pending. */
  predicate ChangeOnly(w: World) { w.journal.Some? ==> w.journal.value.Change? }

  /** The release the installation is committed to: what recovery of a pending change goes back to. */
  function Committed(w: World): Option<string> {
    match w.journal
    case None => w.current
    case Some(t) => if t.Change? then t.previous else t.active
  }

  // ---------------------------------------------------------------- edits that keep the invariant

  predicate SameReleases(w: World, v: World) {
    v.releases == w.releases && v.stagings == w.stagings && v.releasesDir == w.releasesDir
  }

  /** A pending install survives any change to its own artifacts, and any state of the manager's definitions. */
  lemma KeepInstall(w: World, v: World, t: Transaction)
    requires t.Change? && Trees(w) && PendingInstall(w, t) && t.next in w.releases
    requires SameReleases(w, v)
    requires v.current.None? || v.current == w.current || v.current == Some(t.next)
    requires v.enablement.None? || v.enablement == w.enablement || OwnedEnablement(v, t.next)
    requires v.environment.None? || v.environment == w.environment || v.environment == Some(ManifestOf(w, t.next).environment)
    requires v.host == w.host && v.codex == w.codex
    ensures Trees(v) && PendingInstall(v, t)
  {
    assert Published(v, t.next);
    assert ManifestOf(v, t.next) == ManifestOf(w, t.next);
  }

  lemma SameShape(w: World, v: World, s: string)
    requires SameReleases(w, v)
    requires v.anchors == w.anchors && v.environment == w.environment && v.enablement == w.enablement && v.enabled == w.enabled
    ensures Trees(w) ==> Trees(v)
    ensures InstalledShape(w, s) ==> InstalledShape(v, s)
  {
    if Trees(w) {
      forall r | r in v.releases ensures Published(v, r) { assert Published(w, r); }
    }
    if InstalledShape(w, s) {
      forall r | r in v.releases ensures Published(v, r) && ManifestOf(v, r).environment == ManifestOf(v, s).environment {
        assert Published(w, r);
      }
    }
  }

  /** The part of a pending upgrade that its steps move. */
  predicate UpgradeMoves(w: World, t: Transaction)
    requires t.Change?
  {
    && t.previous.Some?
    && (w.current == t.previous || (w.current == Some(t.next) && t.next in w.releases))
    && (w.hostDefs == t.previous || w.hostDefs == Some(t.next)) && w.codexDefs == w.hostDefs
    && (w.hostDefs == Some(t.next) ==> t.phase == Selected || t.phase == ManagerReloaded)
    && (w.host.Some? ==> w.host == t.previous || w.host == Some(t.next))
    && (w.host == Some(t.next) ==> t.phase == Selected || t.phase == ManagerReloaded)
    && (!t.wasActive ==> w.host.None?)
  }

  lemma KeepUpgrade(w: World, v: World, t: Transaction, u: Transaction)
    requires t.Change? && Trees(w) && PendingUpgrade(w, t)
    requires SameReleases(w, v)
    requires v.anchors == w.anchors && v.environment == w.environment && v.enablement == w.enablement && v.enabled == w.enabled
    requires u.Change? && u == t.(phase := u.phase) && (u.phase != Preparing ==> t.next in w.releases)
    requires UpgradeMoves(v, u)
    ensures Trees(v) && PendingUpgrade(v, u)
  {
    SameShape(w, v, t.previous.value);
  }

  /** With all anchors in place a reload loads exactly the selected release. */
  lemma ReloadLoadsCurrent(w: World, s: string)
    requires InstalledShape(w, s) && w.current.Some? && w.current.value in w.releases
    ensures AfterReload(w) == w.(hostDefs := w.current, codexDefs := w.current)
    ensures !NeedsReload(AfterReload(w))
  {
  }

  // ---------------------------------------------------------------- recovery

  lemma NoAnchorsLeft(anchors: set<Anchor>)
    requires anchors !! ALL_ANCHORS
    ensures anchors == {}
  {
    forall a | a in anchors ensures a in ALL_ANCHORS {
      match a
      case ManifestLink => case CommandLink => case CodexLink => case HostLink =>
    }
  }

  /** What undoing an install may touch, for good or while failing. */
  predicate UninstallMoves(w: World, v: World) {
    && SameReleases(w, v) && v.journal == w.journal && v.host == w.host && v.codex == w.codex
    && (v.current.None? || v.current == w.current)
    && (v.enablement.None? || v.enablement == w.enablement)
    && (v.environment.None? || v.environment == w.environment)
  }

  lemma DisableEffect(c: Cfg)
    ensures var o := DisableIfPresent(c);
            && UninstallMoves(c.w, o.After())
            && (o.Done? ==> o.After().enablement.None?)
  {
    hide OnDisk;
  }

  lemma ReloadNothing(c: Cfg)
    requires ArtifactsAbsent(c.w)
    ensures var o := Reload(c);
            && (o.After() == c.w || o.After() == c.w.(hostDefs := None, codexDefs := None, enabled := false))
            && (o.Done? ==> o.After() == c.w.(hostDefs := None, codexDefs := None, enabled := false))
  {
    assert AfterReload(c.w) == c.w.(hostDefs := None, codexDefs := None, enabled := false);
    hide AfterReload;
  }

  lemma UndoInstallEffect(c: Cfg, t: Transaction)
    requires t.Change? && Published(c.w, t.next)
    ensures var o := UndoInstall(c, t);
            && UninstallMoves(c.w, o.After())
            && (o.Done? ==> ArtifactsAbsent(o.After()) && o.After().hostDefs.None? && o.After().codexDefs.None? && !o.After().enabled)
  {
    hide Complete, Step, Check, RemoveAnchors, RemoveSelector, RemoveEnvironment, DisableIfPresent, Reload, OptionalArtifactsExact;
    var m := ManifestOf(c.w, t.next);
    var c1 := Check(c, (c.w.current.None? || c.w.current == Some(t.next)) && OptionalArtifactsExact(c.w, t.next, m), RecoveryRequired);
    if c1.Done? {
      DisableEffect(c1.c);
      var c2 := DisableIfPresent(c1.c);
      if c2.Done? {
        var c3 := RemoveSelector(c2.c, t.next);
        if c3.Done? {
          var c4 := RemoveAnchors(c3.c);
          if c4.Done? {
            NoAnchorsLeft(c4.c.w.anchors);
            var c5 := RemoveEnvironment(c4.c, m.environment);
            if c5.Done? { ReloadNothing(c5.c); }
          }
        }
      }
    }
  }

  lemma UndoInstallSafe(c: Cfg, t: Transaction)
    requires t.Change? && t.next in c.w.releases && Published(c.w, t.next)
    requires Trees(c.w) && PendingInstall(c.w, t)
    ensures var o := UndoInstall(c, t);
            && Trees(o.After()) && PendingInstall(o.After(), t) && SameReleases(c.w, o.After()) && o.After().journal == c.w.journal
            && (o.Done? ==> AbsentShape(o.After()))
  {
    var v := UndoInstall(c, t).After();
    assert c.w.host.None? && !c.w.codex;
    hide Trees, PendingInstall, Published, UndoInstall;
    UndoInstallEffect(c, t);
    KeepInstall(c.w, v, t);
  }

  lemma SettleSafe(c: Cfg, t: Transaction)
    requires t.Change? && Trees(c.w) && PendingUpgrade(c.w, t)
    requires c.w.current == t.previous && c.w.hostDefs == t.previous
    ensures var o := Settle(c, t.wasActive);
            && Trees(o.After()) && PendingUpgrade(o.After(), t) && SameReleases(c.w, o.After()) && o.After().journal == c.w.journal
            && (o.Done? ==> InstalledAt(o.After(), t.previous.value))
  {
    var v := Settle(c, t.wasActive).After();
    assert UpgradeMoves(v, t);
    KeepUpgrade(c.w, v, t, t);
  }

  /** With all anchors in place a reload brings the manager to the selected release, or leaves it alone. */
  lemma ReloadSafe(c: Cfg, t: Transaction)
    requires t.Change? && Trees(c.w) && PendingUpgrade(c.w, t)
    requires c.w.current == t.previous || t.phase == Selected || t.phase == ManagerReloaded
    ensures var o := Reload(c);
            && Trees(o.After()) && PendingUpgrade(o.After(), t)
            && (o.After() == c.w || o.After() == c.w.(hostDefs := c.w.current, codexDefs := c.w.current))
            && (o.Done? ==> o.After() == c.w.(hostDefs := c.w.current, codexDefs := c.w.current))
  {
    UpgradeSelection(c.w, t);
    ReloadLoadsCurrent(c.w, t.previous.value);
    var v := Reload(c).After();
    hide Call, AfterReload, InstalledShape, PendingUpgrade, UpgradeMoves, Trees;
    ReloadedMoves(c.w, v, t);
    KeepUpgrade(c.w, v, t, t);
  }

  lemma ReloadedMoves(w: World, v: World, t: Transaction)
    requires t.Change? && PendingUpgrade(w, t) && (w.current == t.previous || t.phase == Selected || t.phase == ManagerReloaded)
    requires v == w || v == w.(hostDefs := w.current, codexDefs := w.current)
    ensures UpgradeMoves(v, t)
  {
    hide InstalledShape, PendingRelease;
  }

  lemma UpgradeSelection(w: World, t: Transaction)
    requires t.Change? && Trees(w) && PendingUpgrade(w, t)
    ensures t.previous.Some? && InstalledShape(w, t.previous.value) && w.current.Some? && w.current.value in w.releases
  {
  }

  lemma SelectPrevious(c: Cfg, t: Transaction)
    requires t.Change? && Trees(c.w) && PendingUpgrade(c.w, t)
    ensures var o := ReplaceSelector(c, t.next, t.previous.value);
            && Trees(o.After()) && PendingUpgrade(o.After(), t)
            && (o.After() == c.w || o.After() == c.w.(current := t.previous))
            && (o.Done? ==> o.After().current == t.previous)
  {
    var v := ReplaceSelector(c, t.next, t.previous.value).After();
    assert UpgradeMoves(v, t);
    KeepUpgrade(c.w, v, t, t);
  }

  lemma ReloadAndSettleSafe(c: Cfg, t: Transaction)
    requires t.Change? && Trees(c.w) && PendingUpgrade(c.w, t) && c.w.current == t.previous
    ensures var o := ReloadAndSettle(c, t.wasActive);
            && Trees(o.After()) && PendingUpgrade(o.After(), t) && SameReleases(c.w, o.After()) && o.After().journal == c.w.journal
            && (o.Done? ==> InstalledAt(o.After(), t.previous.value))
  {
    hide PendingUpgrade, Trees, Reload, Settle, InstalledAt;
    ReloadSafe(c, t);
    var c1 := Reload(c);
    if c1.Done? { SettleSafe(c1.c, t); }
  }

  lemma UndoUpgradeSafe(c: Cfg, t: Transaction)
    requires t.Change? && Trees(c.w) && PendingUpgrade(c.w, t)
    ensures var o := UndoUpgrade(c, t);
            && Trees(o.After()) && PendingUpgrade(o.After(), t) && SameReleases(c.w, o.After()) && o.After().journal == c.w.journal
            && (o.Done? ==> InstalledAt(o.After(), t.previous.value))
  {
    var p := t.previous.value;
    var c1 := Check(c, Published(c.w, p) && ArtifactsExact(c.w, ManifestOf(c.w, p))
                       && (c.w.current == Some(p) || c.w.current == Some(t.next)), RecoveryRequired);
    UntouchedManager(c.w, t);
    hide Check, ReloadAndSettle, ReplaceSelector, InstalledShape, InstalledAt, PendingUpgrade, Trees, Published, ArtifactsExact;
    if c1.Done? {
      if c.w.current == Some(t.next) {
        SelectPrevious(c1.c, t);
        var c2 := ReplaceSelector(c1.c, t.next, p);
        if c2.Done? { ReloadAndSettleSafe(c2.c, t); }
      } else if t.phase == Selected || t.phase == ManagerReloaded {
        ReloadAndSettleSafe(c1.c, t);
      }
    }
  }

  /**
   Recovery may skip the reload: before the selector moved, the manager can only know the previous release.
   */
  lemma UntouchedManager(w: World, t: Transaction)
    requires t.Change? && PendingUpgrade(w, t)
    ensures w.current == t.previous && t.phase != Selected && t.phase != ManagerReloaded ==> InstalledAt(w, t.previous.value)
  {
  }

  predicate Restored(w: World, t: Transaction)
    requires t.Change?
  {
    if t.previous.None? then AbsentShape(w) else InstalledAt(w, t.previous.value)
  }

  /** Before the release is published nothing else has changed yet. */
  lemma BeforePublish(w: World, t: Transaction)
    requires t.Change? && PendingChange(w, t) && t.next !in w.releases
    ensures Restored(w, t)
  {
  }

  lemma UndoChangeSafe(c: Cfg, t: Transaction)
    requires t.Change? && Trees(c.w) && PendingChange(c.w, t)
    ensures var o := UndoChange(c, t);
            && Trees(o.After()) && PendingChange(o.After(), t) && SameReleases(c.w, o.After()) && o.After().journal == c.w.journal
            && (o.Done? ==> Restored(o.After(), t))
  {
    if t.next in c.w.releases {
      assert Published(c.w, t.next);
      hide *;
      UndoPublishedSafe(c, t);
    } else {
      BeforePublish(c.w, t);
      hide Step, Trees, PendingChange, RecoverableBeforePublish, Restored;
    }
  }

  lemma UndoPublishedSafe(c: Cfg, t: Transaction)
    requires t.Change? && Trees(c.w) && PendingChange(c.w, t) && Published(c.w, t.next)
    ensures var o := UndoChange(c, t);
            && Trees(o.After()) && PendingChange(o.After(), t) && SameReleases(c.w, o.After()) && o.After().journal == c.w.journal
            && (o.Done? ==> Restored(o.After(), t))
  {
    hide Step, Check, Trees, PendingInstall, PendingUpgrade, UndoInstall, UndoUpgrade, Complete, SameReleases, AbsentShape, InstalledAt;
    var c1 := Check(c, !(t.next in c.w.releases && t.staging in c.w.stagings), RecoveryRequired);
    if c1.Done? {
      var c2 := Check(c1.c, Published(c1.c.w, t.next), RecoveryRequired);
      if c2.Done? {
        if t.previous.None? { UndoInstallSafe(c2.c, t); } else { UndoUpgradeSafe(c2.c, t); }
      }
    }
    SameReleasesSelf(c.w);
  }

  lemma SameReleasesSelf(w: World)
    ensures SameReleases(w, w)
  {
  }

  lemma RemoveStagingSafe(c: Cfg, t: Transaction)
    requires t.Change? && Trees(c.w) && PendingChange(c.w, t)
    ensures var o := RemoveStaging(c, t.staging);
            && Trees(o.After()) && PendingChange(o.After(), t)
            && (Restored(c.w, t) ==> Restored(o.After(), t))
            && (o.Done? ==> o.After().stagings == map[])
  {
    var o := RemoveStaging(c, t.staging);
    var v := o.After();
    hide RemoveStaging;
    assert v.releases == c.w.releases;
    assert forall s :: Published(v, s) == Published(c.w, s);
    if o.Done? { assert v.stagings == map[]; }
  }

  lemma RemoveJournalSafe(c: Cfg, t: Transaction)
    requires c.w.journal == Some(t) && t.Change? && Trees(c.w) && PendingChange(c.w, t)
    requires Restored(c.w, t) && c.w.stagings == map[]
    ensures var o := RemoveJournal(c);
            && Inv(o.After()) && o.After().releases == c.w.releases && Committed(o.After()) == t.previous
            && ChangeOnly(o.After()) && (o.Done? ==> Idle(o.After()) && Restored(o.After(), t))
  {
    var o := RemoveJournal(c);
    var v := o.After();
    hide RemoveJournal, Step;
    if v.journal.None? {
      IgnoreJournal(c.w, v);
      hide InstalledAt, AbsentShape;
      RestoredCurrent(c.w, t);
    }
  }

  lemma RestoredCurrent(w: World, t: Transaction)
    requires t.Change? && Restored(w, t)
    ensures w.current == t.previous
  {
  }

  lemma IgnoreJournal(w: World, v: World)
    requires v == w.(journal := v.journal)
    ensures Trees(w) == Trees(v) && AbsentShape(w) == AbsentShape(v)
    ensures forall s :: Published(w, s) == Published(v, s)
    ensures forall s :: InstalledAt(w, s) == InstalledAt(v, s)
  {
    assert forall s :: Published(w, s) == Published(v, s);
    forall s ensures InstalledAt(w, s) == InstalledAt(v, s) {
      SameShape(w, v, s);
      SameShape(v, w, s);
    }
  }

  lemma RecoverChangeSafe(c: Cfg, t: Transaction)
    requires c.w.journal == Some(t) && t.Change? && Trees(c.w) && PendingChange(c.w, t)
    ensures var o := RecoverChange(c, t);
            && Inv(o.After()) && o.After().releases == c.w.releases && Committed(o.After()) == t.previous
            && ChangeOnly(o.After()) && (o.Done? ==> Idle(o.After()) && Restored(o.After(), t))
  {
    hide Trees, PendingChange, UndoChange, RemoveStaging, RemoveJournal, Idle, Restored, PendingUninstall;
    UndoChangeSafe(c, t);
    var c1 := UndoChange(c, t);
    if c1.Done? {
      RemoveStagingSafe(c1.c, t);
      var c2 := RemoveStaging(c1.c, t.staging);
      if c2.Done? { RemoveJournalSafe(c2.c, t); }
    }
  }

  /**
   Recovery is restartable: wherever it stops, the invariant holds again, no release is lost and the
   installation is committed to the same release. When it returns, nothing is pending.
   */
  lemma RecoverSafe(c: Cfg)
    requires Inv(c.w)
    ensures var o := Recover(c);
            && Inv(o.After())
            && o.After().releases == c.w.releases
            && Committed(o.After()) == Committed(c.w)
            && (ChangeOnly(c.w) ==> ChangeOnly(o.After()))
            && (o.Done? ==> Idle(o.After()))
  {
    hide Trees, PendingChange, RecoverChange, Idle, Restored, PendingUninstall;
    if c.w.journal.Some? && c.w.journal.value.Change? {
      RecoverChangeSafe(c, c.w.journal.value);
    }
  }
}
