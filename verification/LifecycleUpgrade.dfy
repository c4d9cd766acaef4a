/** The commit of an upgrade and its rollback. */
module LifecycleUpgrade {
  import opened Common
  import opened SemVer
  import opened Journal
  import opened Lifecycle
  import opened LifecycleSafety
  import opened LifecyclePrepare

  /** A prepared upgrade under way, in either direction. */
  predicate Upgrading(w: World, t: Transaction)
    requires t.Change?
  {
    && JournalAt(w, t) && t.previous.Some?
    && Trees(w) && PendingUpgrade(w, w.journal.value)
    && t.next in w.releases
  }

  lemma UpgradingIsSafe(w: World, t: Transaction)
    requires t.Change? && Upgrading(w, t)
    ensures Inv(w) && Committed(w) == t.previous && t.previous.Some? && JournalAt(w, t) && ChangeOnly(w)
  {
  }

  /** Steps that leave the artifacts and releases alone. */
  lemma UpgradingMoves(w: World, v: World, t: Transaction)
    requires t.Change? && Upgrading(w, t) && JournalAt(v, t)
    requires SameReleases(w, v)
    requires v.anchors == w.anchors && v.environment == w.environment && v.enablement == w.enablement && v.enabled == w.enabled
    requires UpgradeMoves(v, v.journal.value)
    ensures Upgrading(v, t)
  {
    hide PendingUpgrade, Trees, UpgradeMoves, InstalledShape;
    KeepUpgrade(w, v, w.journal.value, v.journal.value);
  }

  lemma MarkPhase(c: Cfg, t: Transaction, phase: Phase)
    requires t.Change? && Upgrading(c.w, t) && (phase == Selected || phase == ManagerReloaded)
    ensures var o := UpdatePhase(c, phase); var v := o.After();
            && Upgrading(v, t) && v == c.w.(journal := v.journal)
            && (o.Done? ==> v.journal.Some? && v.journal.value.Change? && v.journal.value.phase == phase)
            && (o.Failed? ==> o.code != StatusUnread)
  {
    var o := UpdatePhase(c, phase);
    hide UpdatePhase, InstalledShape, Trees;
    if o.Done? { UpgradingMoves(c.w, o.After(), t); }
  }

  lemma SelectorMoves(c: Cfg, t: Transaction, from: string, to: string)
    requires t.Change? && Upgrading(c.w, t) && (to == t.next || Some(to) == t.previous)
    ensures var o := ReplaceSelector(c, from, to); var v := o.After();
            && Upgrading(v, t) && v == c.w.(current := v.current)
            && (o.Done? ==> v.current == Some(to))
            && (o.Failed? ==> o.code != StatusUnread)
  {
    var o := ReplaceSelector(c, from, to);
    hide Step, InstalledShape, Trees;
    if o.Done? { UpgradingMoves(c.w, o.After(), t); }
  }

  lemma ManagerReloads(c: Cfg, t: Transaction)
    requires t.Change? && Upgrading(c.w, t)
    requires c.w.current == t.previous || c.w.journal.value.phase == Selected || c.w.journal.value.phase == ManagerReloaded
    ensures var o := Reload(c); var v := o.After();
            && Upgrading(v, t) && v == c.w.(hostDefs := v.hostDefs, codexDefs := v.codexDefs)
            && (o.Done? ==> v.hostDefs == c.w.current)
            && (o.Failed? ==> o.code != StatusUnread)
  {
    hide Call, AfterReload, PendingUpgrade, Trees;
    ReloadSafe(c, c.w.journal.value);
  }

  lemma Reactivates(c: Cfg, t: Transaction, codexBefore: bool)
    requires t.Change? && Upgrading(c.w, t)
    requires c.w.hostDefs == c.w.current
    ensures var o := Reactivate(c, t.wasActive, codexBefore); var v := o.After();
            && Upgrading(v, t) && v == c.w.(host := v.host, codex := v.codex)
            && (o.Done? ==> v.host.None? || v.host == v.hostDefs)
            && (o.Failed? ==> o.code != StatusUnread)
  {
    var o := Reactivate(c, t.wasActive, codexBefore);
    var v := o.After();
    hide InstalledShape, Trees, InstalledIdentity;
    assert UpgradeMoves(v, v.journal.value);
    UpgradingMoves(c.w, v, t);
  }

  // ---------------------------------------------------------------- commit

  lemma SwitchUpgradeEffect(c: Cfg, t: Transaction)
    requires t.Change? && Upgrading(c.w, t)
    ensures var o := SwitchUpgrade(c, t); var v := o.After();
            && Upgrading(v, t)
            && (o.Done? ==> v.current == Some(t.next) && v.hostDefs == v.current)
            && (o.Failed? ==> o.code != StatusUnread)
  {
    UpgradingIsSafe(c.w, t);
    hide ReplaceSelector, UpdatePhase, Reload, Upgrading;
    SelectorMoves(c, t, t.previous.value, t.next);
    var c1 := ReplaceSelector(c, t.previous.value, t.next);
    if c1.Done? {
      MarkPhase(c1.c, t, Selected);
      var c2 := UpdatePhase(c1.c, Selected);
      if c2.Done? {
        ManagerReloads(c2.c, t);
        var c3 := Reload(c2.c);
        if c3.Done? { MarkPhase(c3.c, t, ManagerReloaded); }
      }
    }
  }

  /** A committed upgrade: the new release runs, the old one is kept beside it, nothing else is. */
  predicate UpgradeDone(w: World, t: Transaction)
    requires t.Change?
  {
    && Inv(w) && Idle(w) && w.current == Some(t.next)
    && t.previous.Some? && w.releases.Keys == {t.previous.value, t.next}
  }

  lemma PruneKeepsUpgrading(w: World, v: World, t: Transaction)
    requires t.Change? && Upgrading(w, t)
    requires v == w.(releases := v.releases)
    requires forall s | s in v.releases :: s in w.releases && v.releases[s] == w.releases[s]
    requires t.next in v.releases && t.previous.value in v.releases
    ensures Upgrading(v, t)
  {
    forall s | s in v.releases ensures Published(v, s) && ManifestOf(v, s) == ManifestOf(w, s) { assert Published(w, s); }
    assert v.releasesDir;
  }

  lemma UpgradingPrevious(w: World, t: Transaction)
    requires t.Change? && Upgrading(w, t)
    ensures t.previous.Some? && t.previous.value in w.releases && t.next in w.releases
  {
  }

  lemma CommittedUpgrade(w: World, v: World, t: Transaction)
    requires t.Change? && Upgrading(w, t) && w.current == Some(t.next) && w.hostDefs == w.current
    requires w.host.None? || w.host == w.hostDefs
    requires v == w.(journal := None) && w.releases.Keys == {t.previous.value, t.next}
    ensures UpgradeDone(v, t)
  {
    assert InstalledAt(w, t.next) by {
      assert Published(w, t.next);
      assert ManifestOf(w, t.next).environment == ManifestOf(w, t.previous.value).environment;
    }
    IgnoreJournal(w, v);
  }

  lemma FinishUpgradeEffect(c: Cfg, t: Transaction, r: Request)
    requires t.Change? && Upgrading(c.w, t) && c.w.current == Some(t.next) && c.w.hostDefs == c.w.current
    requires c.w.host.None? || c.w.host == c.w.hostDefs
    ensures var o := FinishUpgrade(c, t, r);
            && (o.Done? || (o.Failed? && o.code == StatusUnread) ==> UpgradeDone(o.After(), t))
            && (o.Done? || (o.Failed? && o.code == StatusUnread) || Upgrading(o.After(), t))
            && (o.Failed? && o.code == StatusUnread ==> !r.statusReads)
            && (o.Crashed? ==> Upgrading(o.After(), t))
  {
    hide Prune, RemoveJournal, Upgrading, UpgradeDone, Step;
    UpgradingPrevious(c.w, t);
    var c1 := Prune(c, r.listing, {t.previous.value, t.next});
    assert t.next in {t.previous.value, t.next} && t.previous.value in {t.previous.value, t.next};
    PruneKeepsUpgrading(c.w, c1.After(), t);
    if c1.Done? {
      var c2 := RemoveJournal(c1.c);
      if c2.After().journal.None? { CommittedUpgrade(c1.c.w, c2.After(), t); }
    }
  }

  /** However the commit ends: done, or still recoverable to the previous release. */
  lemma UpgradeCommitSafe(c: Cfg, t: Transaction, codexBefore: bool, r: Request)
    requires t.Change? && Upgrading(c.w, t)
    ensures var o := UpgradeCommit(c, t, codexBefore, r);
            && (o.Done? || (o.Failed? && o.code == StatusUnread) ==> UpgradeDone(o.After(), t))
            && (o.Done? || (o.Failed? && o.code == StatusUnread) || Upgrading(o.After(), t))
            && (o.Failed? && o.code == StatusUnread ==> !r.statusReads)
            && (o.Crashed? ==> Upgrading(o.After(), t))
  {
    UpgradingIsSafe(c.w, t);
    hide SwitchUpgrade, Reactivate, FinishUpgrade, Upgrading, UpgradeDone;
    SwitchUpgradeEffect(c, t);
    var c1 := SwitchUpgrade(c, t);
    if c1.Done? {
      Reactivates(c1.c, t, codexBefore);
      var c2 := Reactivate(c1.c, t.wasActive, codexBefore);
      if c2.Done? { FinishUpgradeEffect(c2.c, t, r); }
    }
  }

  // ---------------------------------------------------------------- rollback

  lemma RolledBackUpgrade(w: World, v: World, t: Transaction)
    requires t.Change? && Upgrading(w, t) && w.current == t.previous && w.hostDefs == w.current
    requires w.host.None? || w.host == w.hostDefs
    requires v == w.(journal := None)
    ensures Inv(v) && Idle(v) && v.current == t.previous
  {
    assert InstalledAt(w, t.previous.value);
    IgnoreJournal(w, v);
  }

  lemma RestoresSelector(c: Cfg, t: Transaction)
    requires t.Change? && Upgrading(c.w, t) && t.previous.Some?
    ensures var o := RestoreSelector(c, t.next, t.previous.value);
            && Upgrading(o.After(), t)
            && (o.Done? ==> o.After().current == t.previous)
  {
    hide ReplaceSelector, Upgrading;
    SelectorMoves(c, t, t.next, t.previous.value);
  }

  /** Rolling back keeps the journal until the previous release runs again, and then nothing is pending. */
  lemma RollbackStepsSafe(c: Cfg, t: Transaction, codexBefore: bool)
    requires t.Change? && Upgrading(c.w, t) && t.previous.Some?
    ensures var o := RollbackSteps(c, t, codexBefore); var v := o.After();
            && Inv(v) && Committed(v) == t.previous && ChangeOnly(v) && (o.Done? ==> Idle(v))
            && (v.journal.Some? ==> Upgrading(v, t))
  {
    hide RestoreSelector, Reload, Reactivate, RemoveJournal, Upgrading, Inv, Idle;
    RestoresSelector(c, t);
    var c1 := RestoreSelector(c, t.next, t.previous.value);
    UpgradingIsSafe(c1.After(), t);
    if c1.Done? {
      ManagerReloads(c1.c, t);
      var c2 := Reload(c1.c);
      UpgradingIsSafe(c2.After(), t);
      if c2.Done? {
        Reactivates(c2.c, t, codexBefore);
        var c3 := Reactivate(c2.c, t.wasActive, codexBefore);
        UpgradingIsSafe(c3.After(), t);
        if c3.Done? {
          var c4 := RemoveJournal(c3.c);
          if c4.After().journal.None? { RolledBackUpgrade(c3.c.w, c4.After(), t); }
        }
      }
    }
  }
}
