/** Preparing a release: what is on disk at every point of it, and that the invariant holds there. */
module LifecyclePrepare {
  import opened Common
  import opened SemVer
  import opened Journal
  import opened Lifecycle
  import opened LifecycleSafety

  /** The tree a successful build publishes. */
  function Built(m: Manifest): (t: Tree)
    ensures ValidManifest(m) ==> Complete(t, SelectorOf(m.package))
  {
    Tree(false, Some(m.package), Some(m.runtime), Some(m))
  }

  /** Still building: no release has been added. */
  predicate Building(w: World, v: World, t: Transaction)
    requires t.Change?
  {
    && v == w.(journal := v.journal, stagings := v.stagings, releasesDir := v.releasesDir)
    && (forall name | name in v.stagings :: name == t.staging)
    && (t.next in w.releases ==> v.stagings == map[])
    && (w.releasesDir || v.stagings != map[] ==> v.releasesDir)
  }

  /** The release has been added, complete, and nothing of the staging area is left. */
  predicate BuiltAs(w: World, v: World, t: Transaction, m: Manifest)
    requires t.Change?
  {
    && t.next !in w.releases
    && v == w.(journal := v.journal, stagings := map[], releasesDir := true, releases := w.releases[t.next := Built(m)])
  }

  predicate PrepMoves(w: World, v: World, t: Transaction, m: Manifest)
    requires t.Change?
  {
    Building(w, v, t) || BuiltAs(w, v, t, m)
  }

  /** The release, if it is there already, was made for this environment file. */
  predicate SameLeftover(w: World, next: string, environment: string) {
    next in w.releases && Published(w, next) ==> ManifestOf(w, next).environment == environment
  }

  /** A transaction and manifest that the change on an idle installation would use. */
  predicate Suitable(w: World, t: Transaction, m: Manifest)
    requires t.Change?
  {
    && Trees(w) && w.stagings == map[] && Restored(w, t)
    && ValidManifest(m) && SelectorOf(m.package) == t.next
    && (t.previous.Some? ==> t.previous.value != t.next && m.environment == ManifestOf(w, t.previous.value).environment)
    && t.wasActive == w.host.Some?
  }

  lemma BuildingKeepsShape(w: World, v: World, t: Transaction, m: Manifest)
    requires t.Change? && Suitable(w, t, m) && Building(w, v, t)
    ensures Trees(v) && Restored(v, t)
  {
    assert forall s :: Published(v, s) == Published(w, s);
  }

  lemma BuiltKeepsShape(w: World, v: World, t: Transaction, m: Manifest)
    requires t.Change? && Suitable(w, t, m) && BuiltAs(w, v, t, m)
    ensures Trees(v) && Restored(v, t) && Published(v, t.next) && ManifestOf(v, t.next) == m
  {
    assert Published(v, t.next);
    forall s | s in v.releases ensures Published(v, s) && (s != t.next ==> ManifestOf(v, s) == ManifestOf(w, s)) {
      if s != t.next { assert Published(w, s); }
    }
  }

  /** Whatever point preparation reached, the pending change is recoverable. */
  lemma PreparationIsPending(w: World, v: World, t: Transaction, u: Transaction, m: Manifest)
    requires t.Change? && t.phase == Preparing && Suitable(w, t, m) && PrepMoves(w, v, t, m)
    requires u == t || (u == t.(phase := Prepared) && t.next in v.releases)
    ensures Trees(v) && PendingChange(v, u) && Restored(v, t)
    ensures t.next in v.releases ==> Published(v, t.next)
    ensures SameLeftover(w, t.next, m.environment) ==> SameLeftover(v, t.next, m.environment)
  {
    if Building(w, v, t) {
      BuildingKeepsShape(w, v, t, m);
      if t.next in v.releases { assert Published(w, t.next); }
    } else {
      BuiltKeepsShape(w, v, t, m);
    }
  }

  // ---------------------------------------------------------------- the build

  /** A staging area that holds just this tree. */
  predicate Staged(w: World, t: Transaction, x: Tree)
    requires t.Change?
  {
    w.stagings == map[t.staging := x]
  }

  lemma EditStagingEffect(c: Cfg, t: Transaction, x: Tree, edit: Edit, code: Code)
    requires t.Change? && Staged(c.w, t, x)
    ensures var o := EditStaging(c, t.staging, edit, code);
            && (o.Done? ==> o.c.w == c.w.(stagings := map[t.staging := Edited(x, edit)]))
            && (!o.Done? ==> o.After() == c.w)
            && (o.Failed? ==> o.code == code)
  {
    assert c.w.stagings[t.staging := Edited(x, edit)] == map[t.staging := Edited(x, edit)];
  }

  lemma PublishStagingEffect(c: Cfg, t: Transaction, x: Tree)
    requires t.Change? && Staged(c.w, t, x)
    ensures var o := PublishStaging(c, t.staging, t.next);
            && (o.Done? ==> t.next !in c.w.releases && o.c.w == c.w.(stagings := map[], releases := c.w.releases[t.next := x]))
            && (!o.Done? ==> o.After() == c.w)
            && (o.Failed? ==> o.code == Invalid)
  {
    assert c.w.stagings - {t.staging} == map[];
  }

  /** The build either leaves one staging tree and the releases as they were, or the finished release. */
  lemma BuildReleaseEffect(c: Cfg, t: Transaction, m: Manifest)
    requires t.Change? && Staged(c.w, t, Tree(true, None, None, None)) && t.next !in c.w.releases
    ensures var o := BuildRelease(c, t, m); var v := o.After();
            && ((v == c.w.(stagings := v.stagings) && v.stagings.Keys == {t.staging})
                || v == c.w.(stagings := map[], releases := c.w.releases[t.next := Built(m)]))
            && (o.Done? ==> t.next in v.releases)
            && (o.Failed? ==> o.code != RecoveryRequired)
  {
    hide EditStaging, PublishStaging, Check, Step;
    var o := BuildRelease(c, t, m);
    EditStagingEffect(c, t, Tree(true, None, None, None), CopiedPackage(m.package), PackageInvalid);
    var c1 := EditStaging(c, t.staging, CopiedPackage(m.package), PackageInvalid);
    if c1.Done? {
      EditStagingEffect(c1.c, t, Tree(true, Some(m.package), None, None), WrittenUnits(m.runtime), PackageInvalid);
      var c2 := EditStaging(c1.c, t.staging, WrittenUnits(m.runtime), PackageInvalid);
      if c2.Done? {
        EditStagingEffect(c2.c, t, Tree(true, Some(m.package), Some(m.runtime), None), WrittenManifest(m), Invalid);
        var c3 := EditStaging(c2.c, t.staging, WrittenManifest(m), Invalid);
        if c3.Done? { FinishBuildEffect(c3.c, t, m); }
      }
    }
  }

  lemma FinishBuildEffect(c: Cfg, t: Transaction, m: Manifest)
    requires t.Change? && Staged(c.w, t, Tree(true, Some(m.package), Some(m.runtime), Some(m))) && t.next !in c.w.releases
    ensures var o := FinishBuild(c, t); var v := o.After();
            && ((v == c.w.(stagings := v.stagings) && v.stagings.Keys == {t.staging})
                || v == c.w.(stagings := map[], releases := c.w.releases[t.next := Built(m)]))
            && (o.Done? ==> t.next in v.releases)
            && (o.Failed? ==> o.code == Invalid)
  {
    hide EditStaging, PublishStaging, Check, Step;
    EditStagingEffect(c, t, Tree(true, Some(m.package), Some(m.runtime), Some(m)), MarkerRemoved, Invalid);
    var c4 := EditStaging(c, t.staging, MarkerRemoved, Invalid);
    if c4.Done? { PublishStagingEffect(c4.c, t, Built(m)); }
  }

  lemma OpenStagingEffect(c: Cfg, t: Transaction)
    requires t.Change? && c.w.stagings == map[] && t.next !in c.w.releases
    ensures var o := OpenStaging(c, t); var v := o.After();
            && v == c.w.(stagings := v.stagings, releasesDir := v.releasesDir)
            && (forall name | name in v.stagings :: name == t.staging)
            && (c.w.releasesDir || v.stagings != map[] ==> v.releasesDir)
            && (o.Done? ==> Staged(v, t, Tree(true, None, None, None)) && v.releasesDir)
  {
    hide Step, EditStaging;
    var c1 := Step(c, true, c.w.(releasesDir := true), Invalid);
    if c1.Done? {
      var empty := c1.c.w.(stagings := c1.c.w.stagings[t.staging := Tree(false, None, None, None)]);
      assert Staged(empty, t, Tree(false, None, None, None));
      var c2 := Step(c1.c, t.staging !in c1.c.w.stagings, empty, RecoveryRequired);
      if c2.Done? { EditStagingEffect(c2.c, t, Tree(false, None, None, None), MarkerWritten, Invalid); }
    }
  }

  lemma BuildOrCleanEffect(c: Cfg, t: Transaction, m: Manifest)
    requires t.Change? && Staged(c.w, t, Tree(true, None, None, None)) && t.next !in c.w.releases
    ensures var o := BuildOrClean(c, t, m); var v := o.After();
            && ((v == c.w.(stagings := v.stagings) && (forall name | name in v.stagings :: name == t.staging))
                || v == c.w.(stagings := map[], releases := c.w.releases[t.next := Built(m)]))
            && (o.Done? ==> t.next in v.releases)
            && (o.Failed? && t.next in v.releases ==> o.code == RecoveryRequired)
  {
    hide BuildRelease;
    BuildReleaseEffect(c, t, m);
  }

  /** Every outcome of preparing a release from a clean staging area. */
  lemma PrepareReleaseEffect(c: Cfg, t: Transaction, m: Manifest)
    requires t.Change? && c.w.stagings == map[]
    ensures var o := PrepareRelease(c, t, m); var v := o.After();
            && PrepMoves(c.w, v, t, m) && v.journal == c.w.journal
            && (o.Done? ==> t.next in v.releases && v.stagings == map[])
            && (o.Failed? && o.code != RecoveryRequired ==> Building(c.w, v, t))
  {
    hide Step, OpenStaging, BuildOrClean, Published;
    if t.next !in c.w.releases {
      OpenStagingEffect(c, t);
      var c1 := OpenStaging(c, t);
      if c1.Done? { BuildOrCleanEffect(c1.c, t, m); }
    }
  }

  // ---------------------------------------------------------------- with the journal

  /** The transaction as the journal has it now: only the phase moves. */
  predicate JournalAt(w: World, t: Transaction)
    requires t.Change?
  {
    && w.journal.Some? && w.journal.value.Change?
    && w.journal.value == t.(phase := w.journal.value.phase)
  }

  /** What is true however preparation ends. */
  predicate PrepareEnd(w: World, v: World, t: Transaction, m: Manifest)
    requires t.Change?
  {
    && PrepMoves(w, v, t, m) && Inv(v)
    && (v.journal.Some? ==> JournalAt(v, t))
    && Committed(v) == t.previous
  }

  lemma PrepareEndPending(w: World, v: World, t: Transaction, m: Manifest)
    requires t.Change? && t.phase == Preparing && Suitable(w, t, m) && PrepMoves(w, v, t, m)
    requires v.journal == Some(t) || (v.journal == Some(t.(phase := Prepared)) && t.next in v.releases)
    ensures PrepareEnd(w, v, t, m)
  {
    hide Trees, PendingChange, PrepMoves, Suitable, Restored;
    PreparationIsPending(w, v, t, v.journal.value, m);
  }

  lemma PrepareEndIdle(w: World, v: World, t: Transaction, m: Manifest)
    requires t.Change? && t.phase == Preparing && Suitable(w, t, m) && PrepMoves(w, v, t, m)
    requires v.journal.None? && v.stagings == map[]
    ensures PrepareEnd(w, v, t, m) && Idle(v)
  {
    PreparationIsPending(w, v, t, t, m);
    RestoredCurrent(v, t);
    hide Trees, PendingChange, PrepMoves, Suitable, InstalledAt;
  }

  lemma PrepareAndMarkEffect(c: Cfg, t: Transaction, m: Manifest)
    requires t.Change? && t.phase == Preparing && c.w.journal == Some(t) && Suitable(c.w, t, m)
    ensures var o := PrepareAndMark(c, t, m); var v := o.After();
            && PrepareEnd(c.w, v, t, m) && v.journal.Some?
            && (o.Done? ==> v.journal == Some(t.(phase := Prepared)) && t.next in v.releases)
            && (o.Failed? && o.code != RecoveryRequired ==> v.journal == Some(t))
  {
    hide PrepareRelease, UpdatePhase, PrepareEnd, Suitable;
    assert c.w.stagings == map[] by { assert Suitable(c.w, t, m); SuitableIsClean(c.w, t, m); }
    PrepareReleaseEffect(c, t, m);
    PrepareEndPending(c.w, PrepareAndMark(c, t, m).After(), t, m);
  }

  lemma SuitableIsClean(w: World, t: Transaction, m: Manifest)
    requires t.Change? && Suitable(w, t, m)
    ensures w.stagings == map[]
  {
  }

  lemma StagingMoves(w: World, v: World, u: World, t: Transaction, m: Manifest)
    requires t.Change? && PrepMoves(w, v, t, m) && (u == v || u == v.(stagings := v.stagings - {t.staging}))
    ensures PrepMoves(w, u, t, m) && (t.staging !in u.stagings ==> u.stagings == map[])
  {
  }

  lemma JournalMoves(w: World, v: World, u: World, t: Transaction, m: Manifest)
    requires t.Change? && PrepMoves(w, v, t, m) && (u == v || u == v.(journal := None))
    ensures PrepMoves(w, u, t, m)
  {
  }

  lemma AbandonStagingEffect(w: World, c: Cfg, t: Transaction, m: Manifest)
    requires t.Change? && t.phase == Preparing && Suitable(w, t, m) && PrepMoves(w, c.w, t, m) && c.w.journal == Some(t)
    ensures var o := AbandonStaging(c, t); var v := o.After();
            && PrepareEnd(w, v, t, m)
            && (o.Done? ==> v.journal.None? && Idle(v))
  {
    hide Step, RemoveStaging, RemoveJournal, PrepareEnd, PrepMoves, Suitable, Trees, Restored, Idle;
    var c1 := RemoveStaging(c, t.staging);
    StagingMoves(w, c.w, c1.After(), t, m);
    if c1.Done? {
      var c2 := RemoveJournal(c1.c);
      JournalMoves(w, c1.c.w, c2.After(), t, m);
      if c2.After().journal.None? { PrepareEndIdle(w, c2.After(), t, m); } else { PrepareEndPending(w, c2.After(), t, m); }
    } else {
      PrepareEndPending(w, c1.After(), t, m);
    }
  }

  /** Preparation ends with the release complete and marked, or with a world recovery accepts. */
  lemma PrepareSafe(c: Cfg, t: Transaction, m: Manifest)
    requires t.Change? && t.phase == Preparing && c.w.journal == Some(t) && Suitable(c.w, t, m)
    ensures var o := Prepare(c, t, m); var v := o.After();
            && PrepareEnd(c.w, v, t, m)
            && (o.Done? ==> v.journal == Some(t.(phase := Prepared)) && t.next in v.releases)
  {
    hide PrepareAndMark, AbandonStaging, Suitable, Inv, PrepMoves;
    PrepareAndMarkEffect(c, t, m);
    match PrepareAndMark(c, t, m)
    case Failed(c1, code) => if code != RecoveryRequired { AbandonStagingEffect(c.w, c1, t, m); }
    case _ =>
  }
}
