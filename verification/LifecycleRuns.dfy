/** Whole runs: any sequence of launches, each of which may fail or be cut off at any step. */
module LifecycleRuns {
  import opened Common
  import opened SemVer
  import opened Journal
  import opened JournalFacts
  import opened Lifecycle
  import opened LifecycleSafety
  import opened LifecyclePrepare
  import opened LifecycleCommands
  import opened LifecycleUninstall

  datatype Command =
    | InstallCommand(request: Request)
    | UpgradeCommand(request: Request)
    | UninstallCommand(removal: Removal)
    | RunCommand(wanted: Wanted, statusReads: bool)

  /** One start of the program, with the environment's answers up to its end or its death. */
  datatype Launch = Launch(command: Command, plan: seq<Choice>)

  function Execute(w: World, l: Launch): Outcome {
    match l.command
    case InstallCommand(r) => Install(Cfg(w, l.plan), r)
    case UpgradeCommand(r) => Upgrade(Cfg(w, l.plan), r)
    case UninstallCommand(r) => RunUninstall(Cfg(w, l.plan), r)
    case RunCommand(wanted, status) => SetRunning(Cfg(w, l.plan), wanted, status)
  }

  /** The package is one that the verifier accepts, and the listing is what is in the directory. */
  predicate Proper(w: World, c: Command) {
    match c
    case InstallCommand(r) => ValidRequest(r)
    case UpgradeCommand(r) => ValidPackage(r.package)
    case UninstallCommand(r) => Lists(w, r.listing)
    case RunCommand(_, _) => true
  }

  /**
   The launch ended in one of the two ways the protocol does not provide for: a rollback after the commit, or a
   release beside an environment file it was not made for. LifecycleLimits says exactly when that can happen.
   */
  ghost predicate Spoils(w: World, l: Launch) {
    match l.command
    case InstallCommand(r) =>
      || (!r.statusReads && LateInstallRollback(Execute(w, l), r))
      || (!SameLeftover(w, SelectorOf(r.package), r.environment) && Mixed(Execute(w, l).After(), r))
    case UpgradeCommand(r) => !r.statusReads && LateUpgradeRollback(Execute(w, l), Committed(w), SelectorOf(r.package))
    case _ => false
  }

  function Run(w: World, launches: seq<Launch>): World
    decreases |launches|
  {
    hide Execute;
    if launches == [] then w else Run(Execute(w, launches[0]).After(), launches[1..])
  }

  predicate ProperRun(w: World, launches: seq<Launch>)
    decreases |launches|
  {
    hide Execute, Proper;
    launches != [] ==> Proper(w, launches[0].command) && ProperRun(Execute(w, launches[0]).After(), launches[1..])
  }

  /** Some launch of the run ended in one of those two ways. */
  ghost predicate Spoilt(w: World, launches: seq<Launch>)
    decreases |launches|
  {
    hide Execute, Spoils;
    launches != [] && (Spoils(w, launches[0]) || Spoilt(Execute(w, launches[0]).After(), launches[1..]))
  }

  /** A machine on which the service was never installed. */
  const EMPTY: World := World(None, None, {}, None, None, false, map[], map[], None, None, false, None, false)

  lemma LaunchKeepsInv(w: World, l: Launch)
    requires Inv(w) && Proper(w, l.command)
    ensures Inv(Execute(w, l).After()) || Spoils(w, l)
  {
    hide Inv, Install, Upgrade, RunUninstall, SetRunning, SameLeftover, Lists, Mixed, LateInstallRollback, LateUpgradeRollback;
    match l.command
    case InstallCommand(r) => InstallSafe(Cfg(w, l.plan), r);
    case UpgradeCommand(r) => UpgradeSafe(Cfg(w, l.plan), r);
    case UninstallCommand(r) => UninstallSafe(Cfg(w, l.plan), r);
    case RunCommand(wanted, status) => SetRunningSafe(Cfg(w, l.plan), wanted, status);
  }

  /**
   Wherever its launches failed or died, every run leaves the installation recoverable, or one of them ended in
   one of those two ways.
   */
  lemma {:induction false} RunKeepsInv(w: World, launches: seq<Launch>)
    requires Inv(w) && ProperRun(w, launches)
    ensures Inv(Run(w, launches)) || Spoilt(w, launches)
    decreases |launches|
  {
    hide Inv, Execute, Proper, Spoils;
    if launches != [] {
      LaunchKeepsInv(w, launches[0]);
      if !Spoils(w, launches[0]) { RunKeepsInv(Execute(w, launches[0]).After(), launches[1..]); }
    }
  }

  // ---------------------------------------------------------------- what the invariant means

  /** What anyone can see on disk and in the manager in a world the protocol can reach. */
  predicate Sound(w: World) {
    // every published release is complete, and so is the one the selector names
    && (forall s | s in w.releases :: Published(w, s))
    && (w.current.Some? ==> Published(w, w.current.value))
    // a staging tree is only there while the journal names it
    && (forall name | name in w.stagings :: w.journal.Some? && w.journal.value.Change? && name == w.journal.value.staging)
    // the release a live journal goes back to is there
    && (Committed(w).Some? && (w.journal.None? || w.journal.value.Change?) ==> Published(w, Committed(w).value))
    // during an upgrade the manager knows the next release only in the phases after the switch
    && (w.journal.Some? && w.journal.value.Change? && w.journal.value.previous.Some? && w.hostDefs != w.journal.value.previous ==>
          w.hostDefs == Some(w.journal.value.next) && (w.journal.value.phase == Selected || w.journal.value.phase == ManagerReloaded))
    // without a journal the manager runs what the selector names
    && (w.journal.None? ==> w.hostDefs == w.current && w.codexDefs == w.current && (w.host.Some? ==> w.host == w.current))
  }

  lemma InvIsSound(w: World)
    requires Inv(w)
    ensures Sound(w)
  {
    hide *;
    if w.journal.None? {
      IdleIsSound(w);
    } else if w.journal.value.Uninstall? {
      UninstallIsSound(w);
    } else if w.journal.value.previous.None? {
      InstallIsSound(w);
    } else {
      UpgradeIsSound(w);
    }
  }

  lemma UninstallIsSound(w: World)
    requires Inv(w) && w.journal.Some? && w.journal.value.Uninstall?
    ensures Sound(w)
  {
    hide Complete, ManagerKnown, EnvironmentsAgree, EnablementKnown, PendingChange;
  }

  lemma InstallIsSound(w: World)
    requires Inv(w) && w.journal.Some? && w.journal.value.Change? && w.journal.value.previous.None?
    ensures Sound(w)
  {
    hide Complete, PendingUpgrade, PendingUninstall, AbsentShape;
    InstallCurrent(w, w.journal.value);
  }

  lemma UpgradeIsSound(w: World)
    requires Inv(w) && w.journal.Some? && w.journal.value.Change? && w.journal.value.previous.Some?
    ensures Sound(w)
  {
    hide Complete, PendingInstall, PendingUninstall, SameEnvironment, ArtifactsExact;
  }

  lemma IdleIsSound(w: World)
    requires Inv(w) && w.journal.None?
    ensures Sound(w)
  {
    hide Complete, PendingChange, PendingUninstall, SameEnvironment, ArtifactsExact;
  }

  lemma InstallCurrent(w: World, t: Transaction)
    requires t.Change? && PendingInstall(w, t)
    ensures w.current.Some? ==> w.current.value in w.releases
  {
  }

  lemma EveryRunIsSound(launches: seq<Launch>)
    requires ProperRun(EMPTY, launches)
    ensures Sound(Run(EMPTY, launches)) || Spoilt(EMPTY, launches)
  {
    hide ProperRun, Run, Sound, Spoilt;
    assert Inv(EMPTY);
    hide Inv;
    RunKeepsInv(EMPTY, launches);
    if Inv(Run(EMPTY, launches)) { InvIsSound(Run(EMPTY, launches)); }
  }

  // ---------------------------------------------------------------- versions

  /** The version a world is committed to. */
  function CommittedVersion(w: World): Option<string> {
    if Committed(w).Some? && Published(w, Committed(w).value) then Some(ManifestOf(w, Committed(w).value).package.version) else None
  }

  /** Nothing, then the same release, or a strictly newer one. */
  predicate Advances(w: World, v: World) {
    Committed(w).Some? ==>
      && Committed(v).Some? && CommittedVersion(w).Some? && CommittedVersion(v).Some?
      && IsSupported(CommittedVersion(w).value) && IsSupported(CommittedVersion(v).value)
      && CompareVersions(CommittedVersion(v).value, CommittedVersion(w).value).value >= 0
      && (Committed(v) != Committed(w) ==> CompareVersions(CommittedVersion(v).value, CommittedVersion(w).value).value > 0)
  }

  lemma CommittedIsPublished(w: World)
    requires Inv(w) && ChangeOnly(w) && Committed(w).Some?
    ensures Published(w, Committed(w).value)
  {
  }

  /** The same committed release is the same version, in whatever two worlds it is published. */
  lemma SameCommitted(w: World, v: World)
    requires Committed(w).Some? && Committed(v) == Committed(w)
    requires Published(w, Committed(w).value) && Published(v, Committed(v).value)
    ensures Advances(w, v)
  {
    var s := Committed(w).value;
    PublishedName(w, s);
    PublishedName(v, s);
    var p, q := ManifestOf(w, s).package, ManifestOf(v, s).package;
    SelectorInjective(p.version, p.manifestSha, q.version, q.manifestSha);
    CompareVersionsIsPrecedence(p.version, p.version);
  }

  lemma UpgradeAdvances(w: World, v: World, r: Request)
    requires Committed(w).Some? && UpgradedTo(w.releases, Committed(w).value, v, r) && ValidPackage(r.package)
    requires Published(v, SelectorOf(r.package))
    ensures Advances(w, v)
  {
    var s := Committed(w).value;
    assert Published(w, s);
    PublishedName(w, s);
    PublishedName(v, SelectorOf(r.package));
    var q := ManifestOf(v, SelectorOf(r.package)).package;
    SelectorInjective(q.version, q.manifestSha, r.package.version, r.package.manifestSha);
  }

  lemma LaunchKeepsKind(w: World, l: Launch)
    requires Inv(w) && Proper(w, l.command) && ChangeOnly(w) && !l.command.UninstallCommand? && !Spoils(w, l)
    ensures ChangeOnly(Execute(w, l).After())
  {
    hide Inv, Install, Upgrade, SetRunning, SameLeftover, Lists, ChangeOnly, Mixed, LateInstallRollback, LateUpgradeRollback;
    match l.command
    case InstallCommand(r) => InstallSafe(Cfg(w, l.plan), r);
    case UpgradeCommand(r) => UpgradeSafe(Cfg(w, l.plan), r);
    case RunCommand(wanted, status) => SetRunningSafe(Cfg(w, l.plan), wanted, status);
  }

  lemma LaunchAdvances(w: World, l: Launch)
    requires Inv(w) && Proper(w, l.command) && ChangeOnly(w) && !l.command.UninstallCommand? && !Spoils(w, l)
    ensures Advances(w, Execute(w, l).After()) && ChangeOnly(Execute(w, l).After())
  {
    hide Inv, Install, Upgrade, SetRunning, SameLeftover, Advances, UpgradedTo, Complete, Committed, ChangeOnly, Mixed, LateInstallRollback,
      LateUpgradeRollback;
    var v := Execute(w, l).After();
    LaunchKeepsInv(w, l);
    LaunchKeepsKind(w, l);
    if Committed(w).Some? {
      match l.command
      case InstallCommand(r) => InstallSafe(Cfg(w, l.plan), r); SameAdvances(w, v);
      case UpgradeCommand(r) =>
        UpgradeSafe(Cfg(w, l.plan), r);
        if Committed(v) == Committed(w) { SameAdvances(w, v); } else {
          UpgradedIsCommitted(w, v, r);
          CommittedIsPublished(v);
          UpgradeAdvances(w, v, r);
        }
      case RunCommand(wanted, status) => SetRunningSafe(Cfg(w, l.plan), wanted, status); SameAdvances(w, v);
    } else {
      NothingAdvances(w, v);
    }
  }

  lemma SameAdvances(w: World, v: World)
    requires Inv(w) && ChangeOnly(w) && Inv(v) && ChangeOnly(v) && Committed(w).Some? && Committed(v) == Committed(w)
    ensures Advances(w, v)
  {
    hide Inv, ChangeOnly, Committed, Advances, Complete;
    CommittedIsPublished(w);
    CommittedIsPublished(v);
    SameCommitted(w, v);
  }

  lemma NothingAdvances(w: World, v: World)
    requires Committed(w).None?
    ensures Advances(w, v)
  {
  }

  lemma UpgradedIsCommitted(w: World, v: World, r: Request)
    requires Committed(w).Some? && UpgradedTo(w.releases, Committed(w).value, v, r)
    ensures Committed(v) == Some(SelectorOf(r.package))
  {
  }

  lemma AdvancesSelf(w: World)
    requires Inv(w) && ChangeOnly(w)
    ensures Advances(w, w)
  {
    if Committed(w).Some? {
      CommittedIsPublished(w);
      SameCommitted(w, w);
    }
  }

  lemma AdvancesTransitively(u: World, v: World, w: World)
    requires Advances(u, v) && Advances(v, w)
    ensures Advances(u, w)
  {
    if Committed(u).Some? {
      var a, b, c := CommittedVersion(u).value, CommittedVersion(v).value, CommittedVersion(w).value;
      CompareVersionsTransitive(c, b, a);
      CompareVersionsIsPrecedence(a, c);
      CompareVersionsIsPrecedence(a, b);
      CompareVersionsIsPrecedence(b, c);
    }
  }

  /**
   Without an uninstall the committed version never goes down, and it goes up whenever the release changes, or
   some launch ended in one of those two ways.
   */
  lemma {:induction false} RunAdvances(w: World, launches: seq<Launch>)
    requires Inv(w) && ProperRun(w, launches) && ChangeOnly(w)
    requires forall i | 0 <= i < |launches| :: !launches[i].command.UninstallCommand?
    ensures Advances(w, Run(w, launches)) || Spoilt(w, launches)
    decreases |launches|
  {
    hide Inv, Execute, Proper, Advances, Spoils;
    if launches == [] {
      AdvancesSelf(w);
    } else if !Spoils(w, launches[0]) {
      var v := Execute(w, launches[0]).After();
      LaunchKeepsInv(w, launches[0]);
      LaunchAdvances(w, launches[0]);
      RunAdvances(v, launches[1..]);
      if Advances(v, Run(v, launches[1..])) { AdvancesTransitively(w, v, Run(v, launches[1..])); }
    }
  }
}
