/** Install, upgrade, start, stop and restart keep the invariant, whatever fails and wherever they stop. */
module LifecycleCommands {
  import opened Common
  import opened SemVer
  import opened Journal
  import opened JournalFacts
  import opened Lifecycle
  import opened LifecycleSafety
  import opened LifecyclePrepare
  import opened LifecycleInstall
  import opened LifecycleUpgrade

  lemma IdleInspects(w: World)
    requires Inv(w) && Idle(w)
    ensures Inspect(w) == if w.current.None? then Absent else Coherent
    ensures w.current.None? ==> AbsentShape(w)
    ensures w.current.Some? ==> InstalledAt(w, w.current.value) && Published(w, w.current.value)
  {
  }

  // ---------------------------------------------------------------- install

  lemma FreshIsSuitable(w: World, r: Request)
    requires Inv(w) && Idle(w) && w.current.None?
    requires ValidRequest(r)
    ensures Suitable(w.(journal := Some(FreshTransaction(r))), FreshTransaction(r), RequestManifest(r))
  {
    IgnoreJournal(w, w.(journal := Some(FreshTransaction(r))));
  }

  lemma PreparedIsInstalling(w: World, v: World, t: Transaction, m: Manifest)
    requires t.Change? && t.phase == Preparing && t.previous.None? && Suitable(w, t, m)
    requires PrepareEnd(w, v, t, m) && v.journal == Some(t.(phase := Prepared)) && t.next in v.releases
    ensures Installing(v, t, m.environment)
    ensures SameLeftover(w, t.next, m.environment) ==> SameLeftover(v, t.next, m.environment)
  {
    PreparationIsPending(w, v, t, t.(phase := Prepared), m);
  }

  lemma FreshBeginSafe(c: Cfg, r: Request)
    requires Inv(c.w) && Idle(c.w) && c.w.current.None? && ValidRequest(r)
    ensures var o := FreshBegin(c, r); var t := FreshTransaction(r);
            && Inv(o.After()) && Committed(o.After()).None? && ChangeOnly(o.After())
            && (o.Done? ==>
                  && Installing(o.After(), t, r.environment)
                  && (SameLeftover(c.w, t.next, r.environment) ==> SameLeftover(o.After(), t.next, r.environment)))
  {
    hide Check, Step, Prepare, Inv, Installing, Suitable, PrepareEnd, SameLeftover;
    FreshIsSuitable(c.w, r);
    var t := FreshTransaction(r);
    var c1 := Check(c, PublishedReleases(c.w), Invalid);
    if c1.Done? {
      var c2 := Check(c1.c, NoUnits(c1.c.w), Invalid);
      if c2.Done? {
        var c3 := WriteJournal(c2.c, t);
        if c3.Done? {
          PrepareSafe(c3.c, t, RequestManifest(r));
          var c4 := Prepare(c3.c, t, RequestManifest(r));
          EndIsSafe(c3.c.w, c4.After(), t, RequestManifest(r));
          if c4.Done? {
            SameLeftoverStays(c.w, c3.c.w, t.next, r.environment);
            PreparedIsInstalling(c3.c.w, c4.After(), t, RequestManifest(r));
          }
        }
      }
    }
  }

  lemma SameLeftoverStays(w: World, v: World, s: string, environment: string)
    requires v.releases == w.releases
    ensures SameLeftover(w, s, environment) <==> SameLeftover(v, s, environment)
  {
    assert Published(w, s) == Published(v, s);
  }

  lemma EndIsSafe(w: World, v: World, t: Transaction, m: Manifest)
    requires t.Change? && PrepareEnd(w, v, t, m)
    ensures Inv(v) && Committed(v) == t.previous && ChangeOnly(v)
  {
  }

  /** All or nothing: nothing is committed, or exactly the requested release is, and no other is left. */
  predicate AllOrNothing(v: World, r: Request) {
    && Inv(v) && ChangeOnly(v)
    && (Committed(v).None? || (Committed(v) == Some(SelectorOf(r.package)) && v.releases.Keys == {SelectorOf(r.package)}))
  }

  /** The rollback of an install that was delivered already: its journal is gone. */
  ghost predicate LateInstallRollback(o: Outcome, r: Request) {
    exists d: Cfg :: Delivered(d.w, FreshTransaction(r), r.environment) && o == InstallRollback(d, FreshTransaction(r), r)
  }

  /** The environment file of the request beside a release that was made for another one. */
  predicate Mixed(v: World, r: Request) {
    var s := SelectorOf(r.package);
    Published(v, s) && ManifestOf(v, s).environment != r.environment && v.environment == Some(r.environment)
  }

  /**
   A fresh install under every plan is all or nothing, but for two ends: the late rollback after a status read
   that failed, and the mixture with a leftover release that was made for another environment file.
   */
  predicate FreshInstallEnd(w: World, o: Outcome, r: Request) {
    var s := SelectorOf(r.package);
    && (o.Done? ==> o.c.w.journal.None? && o.c.w.current == Some(s) && o.c.w.releases.Keys == {s})
    && (SameLeftover(w, s, r.environment) ==> !Mixed(o.After(), r))
    && (o.Done? && SameLeftover(w, s, r.environment) ==> Idle(o.c.w))
  }

  lemma FreshInstallSafe(c: Cfg, r: Request)
    requires Inv(c.w) && Idle(c.w) && c.w.current.None? && ValidRequest(r)
    ensures var o := FreshInstall(c, r);
            && FreshInstallEnd(c.w, o, r)
            && (AllOrNothing(o.After(), r) || Mixed(o.After(), r) || (!r.statusReads && LateInstallRollback(o, r)))
  {
    var t := FreshTransaction(r);
    hide FreshBegin, InstallCommit, InstallRollback, Inv, Idle, Installing, Delivered, SameLeftover, Mixed, ReleaseSelector, ValidRequest;
    FreshBeginSafe(c, r);
    var c1 := FreshBegin(c, r);
    if c1.Done? {
      InstallCommitSafe(c1.c, t, r);
      var o := InstallCommit(c1.c, t, r);
      if o.Done? || (o.Failed? && o.code == StatusUnread) {
        DeliveredEnds(o.After(), r);
        if o.Failed? {
          LateIsNotMixed(c.w, o.c, r);
          assert FreshInstall(c, r) == InstallRollback(o.c, t, r);
        }
      } else {
        InstallingEnds(o.After(), r);
        if o.Failed? {
          InstallRollbackSafe(o.c, t, r);
          RollbackEnds(InstallRollback(o.c, t, r).After(), r);
        }
      }
    } else {
      BegunEnds(c, r);
    }
  }

  lemma BegunEnds(c: Cfg, r: Request)
    requires Inv(c.w) && Idle(c.w) && c.w.current.None? && ValidRequest(r)
    ensures var o := FreshBegin(c, r); !o.Done? ==> !Mixed(o.After(), r)
  {
    IdleInspects(c.w);
    FreshBeginKeeps(c, r);
    hide FreshBegin, Inv, Idle, Complete, ReleaseSelector;
  }

  lemma FreshBeginKeeps(c: Cfg, r: Request)
    ensures OnlyReleases(c.w, FreshBegin(c, r).After())
  {
    hide Prepare, Step, Check, PublishedReleases, NoUnits, ReleaseSelector;
  }

  lemma DeliveredEnds(w: World, r: Request)
    requires Delivered(w, FreshTransaction(r), r.environment)
    ensures SameLeftover(w, SelectorOf(r.package), r.environment) ==> AllOrNothing(w, r) && !Mixed(w, r) && Idle(w)
    ensures AllOrNothing(w, r) || Mixed(w, r)
    ensures w.journal.None? && w.current == Some(SelectorOf(r.package)) && w.releases.Keys == {SelectorOf(r.package)}
  {
    var t := FreshTransaction(r);
    if SameLeftover(w, t.next, r.environment) { DeliveredIsDone(w, t, r.environment); }
    hide Inv, Idle, Complete, ReleaseSelector;
  }

  lemma InstallingEnds(w: World, r: Request)
    requires Installing(w, FreshTransaction(r), r.environment)
    ensures SameLeftover(w, SelectorOf(r.package), r.environment) ==> AllOrNothing(w, r) && !Mixed(w, r)
    ensures AllOrNothing(w, r) || Mixed(w, r)
  {
    InstallingIsSafe(w, FreshTransaction(r), r.environment);
    hide Inv, Complete, ReleaseSelector, JournalAt;
  }

  lemma RollbackEnds(w: World, r: Request)
    requires Committed(w).None? && ChangeOnly(w) && (w.journal.None? ==> Inv(w) && AbsentShape(w))
    requires w.journal.Some? ==> Installing(w, FreshTransaction(r), r.environment)
    ensures SameLeftover(w, SelectorOf(r.package), r.environment) ==> AllOrNothing(w, r) && !Mixed(w, r)
    ensures AllOrNothing(w, r) || Mixed(w, r)
  {
    if w.journal.Some? { InstallingEnds(w, r); }
    hide Inv, Installing, ReleaseSelector, Complete;
  }

  lemma LateIsNotMixed(w: World, c: Cfg, r: Request)
    requires Delivered(c.w, FreshTransaction(r), r.environment)
    requires SameLeftover(w, SelectorOf(r.package), r.environment) ==> SameLeftover(c.w, SelectorOf(r.package), r.environment)
    ensures SameLeftover(w, SelectorOf(r.package), r.environment) ==> !Mixed(InstallRollback(c, FreshTransaction(r), r).After(), r)
    ensures !InstallRollback(c, FreshTransaction(r), r).Done?
  {
    ClearInstallEffect(c, FreshTransaction(r), r);
    hide ClearInstall, ReleaseSelector, Complete;
  }

  /** Install on a coherent installation only looks. */
  lemma InstallAgainSafe(c: Cfg, r: Request)
    requires Inv(c.w) && Idle(c.w) && c.w.current.Some? && Published(c.w, c.w.current.value)
    ensures var o := InstallAgain(c, r);
            && o.After() == c.w
            && (o.Done? ==> ManifestOf(c.w, c.w.current.value).package.version == r.package.version
                            && ManifestOf(c.w, c.w.current.value).package.manifestSha == r.package.manifestSha)
  {
    IdleInspects(c.w);
    hide Check, Step, Call, Inv, Idle;
  }

  /** It commits to exactly the requested release, or leaves the installation committed to what it was. */
  predicate InstallKeeps(w: World, v: World, r: Request) {
    && Inv(v) && (ChangeOnly(w) ==> ChangeOnly(v))
    && (Committed(v) == Committed(w)
        || (Committed(w).None? && Committed(v) == Some(SelectorOf(r.package)) && v.releases.Keys == {SelectorOf(r.package)}))
  }

  /**
   Whatever fails and wherever it stops, an install from any reachable world keeps the invariant and is all or
   nothing, but for the late rollback and the mixture; the one needs a status read that fails, the other a
   leftover of the same release that was made for another environment file.
   */
  lemma InstallSafe(c: Cfg, r: Request)
    requires Inv(c.w) && ValidRequest(r)
    ensures var o := Install(c, r); var s := SelectorOf(r.package);
            && (InstallKeeps(c.w, o.After(), r)
                || (!r.statusReads && LateInstallRollback(o, r))
                || (!SameLeftover(c.w, s, r.environment) && Mixed(o.After(), r)))
            && (o.Done? ==> o.c.w.journal.None? && o.c.w.current == Some(s))
            && (o.Done? && SameLeftover(c.w, s, r.environment) ==> Idle(o.c.w))
  {
    hide Recover, Inspect, FreshInstall, InstallAgain, Inv, Idle, Complete, SameLeftover, Mixed, LateInstallRollback;
    RecoverSafe(c);
    var c1 := Recover(c);
    if c1.Done? {
      IdleInspects(c1.c.w);
      IdleJournal(c1.c.w);
      if c1.c.w.current.None? {
        SameLeftoverStays(c.w, c1.c.w, SelectorOf(r.package), r.environment);
        FreshInstallSafe(c1.c, r);
      } else {
        InstallAgainSafe(c1.c, r);
        PublishedName(c1.c.w, c1.c.w.current.value);
      }
    }
  }

  lemma IdleJournal(w: World)
    requires Idle(w)
    ensures w.journal.None? && Committed(w) == w.current && ChangeOnly(w)
  {
  }

  lemma PublishedName(w: World, s: string)
    requires Published(w, s)
    ensures SelectorOf(ManifestOf(w, s).package) == s && ValidPackage(ManifestOf(w, s).package) && IsSha256(ManifestOf(w, s).environment)
  {
  }

  // ---------------------------------------------------------------- upgrade

  /** A newer version has another selector: version plus fixed-length hash is injective. */
  lemma NewerIsAnother(p: Package, q: Package)
    requires ValidPackage(p) && ValidPackage(q) && Newer(p, q)
    ensures SelectorOf(p) != SelectorOf(q)
  {
    CompareVersionsIsPrecedence(p.version, q.version);
    if SelectorOf(p) == SelectorOf(q) { SelectorInjective(p.version, p.manifestSha, q.version, q.manifestSha); }
  }

  function UpgradeManifest(w: World, r: Request): Manifest
    requires w.current.Some? && Published(w, w.current.value)
  {
    var m := ManifestOf(w, w.current.value);
    Manifest(r.package, m.environment, m.runtime)
  }

  lemma UpgradeIsSuitable(w: World, r: Request)
    requires Inv(w) && Idle(w) && w.current.Some? && Published(w, w.current.value)
    requires ValidPackage(r.package) && Newer(r.package, ManifestOf(w, w.current.value).package)
    ensures Suitable(w.(journal := Some(UpgradeTransaction(w, r))), UpgradeTransaction(w, r), UpgradeManifest(w, r))
  {
    var v := w.(journal := Some(UpgradeTransaction(w, r)));
    IgnoreJournal(w, v);
    NewerIsAnother(r.package, ManifestOf(w, w.current.value).package);
    IdleInspects(w);
    hide Newer, ReleaseSelector;
  }

  lemma PreparedIsUpgrading(w: World, v: World, t: Transaction, m: Manifest)
    requires t.Change? && t.phase == Preparing && t.previous.Some? && Suitable(w, t, m)
    requires PrepareEnd(w, v, t, m) && v.journal == Some(t.(phase := Prepared)) && t.next in v.releases
    ensures Upgrading(v, t)
  {
    PreparationIsPending(w, v, t, t.(phase := Prepared), m);
  }

  lemma UpgradeChecksEffect(c: Cfg, r: Request)
    requires Inspect(c.w) == Coherent
    ensures var o := UpgradeChecks(c, r);
            && o.After() == c.w
            && (o.Done? ==> Newer(r.package, ManifestOf(c.w, c.w.current.value).package))
  {
    hide Step, Check, Newer, PublishedReleases, InstalledIdentity;
  }

  lemma UpgradeBeginSafe(c: Cfg, r: Request)
    requires Inv(c.w) && Idle(c.w) && Inspect(c.w) == Coherent && ValidPackage(r.package)
    ensures var o := UpgradeBegin(c, r);
            && Inv(o.After()) && Committed(o.After()) == c.w.current && ChangeOnly(o.After())
            && (o.After() == c.w || Newer(r.package, ManifestOf(c.w, c.w.current.value).package))
            && (o.Done? ==> Upgrading(o.After(), UpgradeTransaction(c.w, r)) && Newer(r.package, ManifestOf(c.w, c.w.current.value).package))
  {
    UpgradeChecksEffect(c, r);
    IdleJournal(c.w);
    var t := UpgradeTransaction(c.w, r);
    var c1 := UpgradeChecks(c, r);
    if c1.Done? { UpgradeIsSuitable(c.w, r); }
    hide UpgradeChecks, Newer, Step, Prepare, Inv, Idle, Upgrading, Suitable, PrepareEnd;
    if c1.Done? {
      var c2 := WriteJournal(c1.c, t);
      if c2.Done? {
        PrepareSafe(c2.c, t, UpgradeManifest(c.w, r));
        var c3 := Prepare(c2.c, t, UpgradeManifest(c.w, r));
        EndIsSafe(c2.c.w, c3.After(), t, UpgradeManifest(c.w, r));
        if c3.Done? { PreparedIsUpgrading(c2.c.w, c3.After(), t, UpgradeManifest(c.w, r)); }
      }
    }
  }

  lemma UpgradeDoneIsSafe(w: World, t: Transaction)
    requires t.Change? && UpgradeDone(w, t)
    ensures Inv(w) && Idle(w) && w.journal.None? && Committed(w) == Some(t.next) && w.current == Some(t.next) && ChangeOnly(w)
    ensures t.previous.Some? && w.releases.Keys == {t.previous.value, t.next}
  {
  }

  /** What an upgrade from release `s` may commit to: strictly newer, kept beside its predecessor and nothing else. */
  predicate UpgradedTo(releases: map<string, Tree>, s: string, v: World, r: Request) {
    && s in releases && Complete(releases[s], s)
    && Newer(r.package, releases[s].manifest.value.package)
    && Committed(v) == Some(SelectorOf(r.package))
    && v.releases.Keys == {s, SelectorOf(r.package)}
  }

  lemma UpgradeRollbackSafe(c: Cfg, t: Transaction, codexBefore: bool)
    requires t.Change? && Upgrading(c.w, t) && t.previous.Some?
    ensures var o := UpgradeRollback(c, t, codexBefore);
            !o.Done? && Inv(o.After()) && Committed(o.After()) == t.previous && ChangeOnly(o.After())
  {
    hide RollbackSteps, Upgrading, Inv;
    RollbackStepsSafe(c, t, codexBefore);
  }

  lemma CoherentMeans(w: World)
    requires Inspect(w) == Coherent
    ensures w.current.Some? && Published(w, w.current.value)
  {
  }

  /** The rollback of an upgrade that was committed already: its journal is gone. */
  ghost predicate LateUpgradeRollback(o: Outcome, previous: Option<string>, next: string) {
    exists d: Cfg, t: Transaction, codexBefore: bool |
      t.Change? && t.previous == previous && t.previous.Some? && t.next == next && UpgradeDone(d.w, t) ::
      o == UpgradeRollback(d, t, codexBefore)
  }

  lemma ChangingUpgradeSafe(c: Cfg, r: Request)
    requires Inv(c.w) && Idle(c.w) && Inspect(c.w) == Coherent && ValidPackage(r.package)
    ensures var o := ChangingUpgrade(c, r); var v := o.After();
            && ((Inv(v) && ChangeOnly(v) && (Committed(v) == c.w.current || UpgradedTo(c.w.releases, c.w.current.value, v, r)))
                || (!r.statusReads && LateUpgradeRollback(o, c.w.current, SelectorOf(r.package))))
            && (o.Done? ==> Idle(v) && v.journal.None? && v.current == Some(SelectorOf(r.package)) && UpgradedTo(c.w.releases, c.w.current.value, v, r))
  {
    CoherentMeans(c.w);
    hide UpgradeBegin, UpgradeEnd, Inv, Idle, Inspect, Upgrading, Newer, Complete, Committed, ChangeOnly, UpgradedTo, ReleaseSelector,
      LateUpgradeRollback;
    UpgradeBeginSafe(c, r);
    IdleJournal(c.w);
    var c1 := UpgradeBegin(c, r);
    if c1.Done? { UpgradeEndSafe(c1.c, UpgradeTransaction(c.w, r), c.w.codex, r, c.w.releases); }
  }

  /** The commit of a prepared upgrade together with its rollback. */
  lemma UpgradeEndSafe(c: Cfg, t: Transaction, codexBefore: bool, r: Request, releases: map<string, Tree>)
    requires t.Change? && Upgrading(c.w, t) && t.previous.Some? && t.next == SelectorOf(r.package)
    requires var s := t.previous.value; s in releases && Complete(releases[s], s) && Newer(r.package, releases[s].manifest.value.package)
    ensures var o := UpgradeEnd(c, t, codexBefore, r); var v := o.After();
            && ((Inv(v) && ChangeOnly(v) && (Committed(v) == t.previous || UpgradedTo(releases, t.previous.value, v, r)))
                || (!r.statusReads && LateUpgradeRollback(o, t.previous, t.next)))
            && (o.Done? ==> Idle(v) && v.journal.None? && v.current == Some(SelectorOf(r.package)) && UpgradedTo(releases, t.previous.value, v, r))
  {
    hide UpgradeCommit, UpgradeRollback, Inv, Idle, Upgrading, UpgradeDone, Newer, Complete, Committed, ChangeOnly, ReleaseSelector;
    UpgradeCommitSafe(c, t, codexBefore, r);
    match UpgradeCommit(c, t, codexBefore, r)
    case Done(c2) => UpgradeDoneIsSafe(c2.w, t);
    case Failed(c2, code) =>
      if code == StatusUnread {
        assert UpgradeEnd(c, t, codexBefore, r) == UpgradeRollback(c2, t, codexBefore);
      } else {
        UpgradeRollbackSafe(c2, t, codexBefore);
      }
    case Crashed(w) => UpgradingIsSafe(w, t);
  }

  /** It commits to the requested release only when that is strictly newer; otherwise the installation stays as it was. */
  predicate UpgradeKeeps(w: World, v: World, r: Request) {
    && Inv(v) && (ChangeOnly(w) ==> ChangeOnly(v))
    && (Committed(v) == Committed(w) || (Committed(w).Some? && UpgradedTo(w.releases, Committed(w).value, v, r)))
  }

  /**
   Whatever fails and wherever it stops, an upgrade from any reachable world keeps the invariant and moves the
   commitment only to a strictly newer release, but for the late rollback after a status read that failed.
   */
  lemma UpgradeSafe(c: Cfg, r: Request)
    requires Inv(c.w) && ValidPackage(r.package)
    ensures var o := Upgrade(c, r);
            && (UpgradeKeeps(c.w, o.After(), r)
                || (!r.statusReads && LateUpgradeRollback(o, Committed(c.w), SelectorOf(r.package))))
            && (o.Done? ==> Idle(o.c.w) && o.c.w.journal.None? && o.c.w.current == Some(SelectorOf(r.package)))
  {
    hide Recover, Inspect, ChangingUpgrade, Inv, Idle, Complete, UpgradedTo, PublishedReleases, InstalledIdentity, Step, Check, ChangeOnly, Committed,
      LateUpgradeRollback;
    RecoverSafe(c);
    var c1 := Recover(c);
    if c1.Done? {
      IdleInspects(c1.c.w);
      IdleJournal(c1.c.w);
      if c1.c.w.current.Some? {
        PublishedName(c1.c.w, c1.c.w.current.value);
        ChangingUpgradeSafe(c1.c, r);
      }
    }
  }

  // ---------------------------------------------------------------- start, stop, restart

  /** What the command was asked for: the host of the selected release ready with its companion, or both stopped. */
  predicate Running(w: World, wanted: Wanted) {
    && w.current.Some? && InstalledIdentity(w) && w.hostDefs == w.current
    && if wanted.Stop? then w.host.None? && !w.codex else w.host == w.current && w.codex
  }

  lemma ChangeRunningSafe(c: Cfg, wanted: Wanted)
    requires Inv(c.w) && Idle(c.w) && c.w.current.Some?
    ensures var o := ChangeRunning(c, wanted); var v := o.After();
            && Inv(v) && Idle(v) && v == c.w.(host := v.host, codex := v.codex)
            && (o.Done? ==> Running(v, wanted))
  {
    IdleInspects(c.w);
    var s := c.w.current.value;
    var v := ChangeRunning(c, wanted).After();
    RunningMoves(c, wanted);
    assert SameReleases(c.w, v);
    SameShape(c.w, v, s);
    hide ChangeRunning, InstalledShape, Trees;
  }

  lemma RunningMoves(c: Cfg, wanted: Wanted)
    ensures var o := ChangeRunning(c, wanted); var v := o.After();
            && v == c.w.(host := v.host, codex := v.codex)
            && (v.host.None? || v.host == c.w.host || v.host == c.w.hostDefs)
            && (o.Done? ==> if wanted.Stop? then InstalledStopped(v) else ReadyToServe(v))
  {
    hide InstalledIdentity;
  }

  /**
   Start, stop and restart keep the invariant, the releases and the commitment wherever they stop; when they
   return, the selected release is running or stopped as it was asked for.
   */
  lemma SetRunningSafe(c: Cfg, wanted: Wanted, statusReads: bool)
    requires Inv(c.w)
    ensures var o := SetRunning(c, wanted, statusReads); var v := o.After();
            && Inv(v) && Committed(v) == Committed(c.w) && v.releases == c.w.releases && (ChangeOnly(c.w) ==> ChangeOnly(v))
            && (o.Done? ==> Idle(v) && v.current == Committed(c.w) && Running(v, wanted))
  {
    hide Running, Recover, Inspect, ChangeRunning, Inv, Idle, InstalledIdentity, Step, Check, Committed, ChangeOnly, Complete;
    RecoverSafe(c);
    var c1 := Recover(c);
    if c1.Done? {
      IdleInspects(c1.c.w);
      IdleJournal(c1.c.w);
      if c1.c.w.current.Some? {
        var c2 := Check(c1.c, InstalledIdentity(c1.c.w), LifecycleFailed);
        if c2.Done? {
          ChangeRunningSafe(c2.c, wanted);
          IdleJournal(ChangeRunning(c2.c, wanted).After());
        }
      }
    }
  }
}
