/**
 The crash-safe service installer as a protocol of atomic steps.

 A run is driven by a plan, the environment's answer to each atomic step in turn. A plan that ends
 early is a crash: the process dies just before the next step, and the world stays as it is. So
 "every plan" is every combination of failing steps and every crash point.
 */
module Lifecycle {
  import opened Common
  import opened SemVer
  import opened Journal
  import opened Paths

  // ---------------------------------------------------------------- the world

  datatype Package = Package(version: string, manifestSha: string, contentSha: string)

  datatype Runtime = Runtime(codexBin: string, nodeBin: string)

  /** The install manifest of a release, as far as recovery and upgrade look at it. */
  datatype Manifest = Manifest(package: Package, environment: string, runtime: Runtime)

  /** A release directory while it is built and after it is published. */
  datatype Tree = Tree(marker: bool, package: Option<Package>, units: Option<Runtime>, manifest: Option<Manifest>)

  datatype Anchor = ManifestLink | CommandLink | CodexLink | HostLink

  const ALL_ANCHORS: set<Anchor> := {ManifestLink, CommandLink, CodexLink, HostLink}

  /** Where the enablement link points: at the stable unit path, or where systemd resolved it to. */
  datatype Target = Canonical | InRelease(selector: string)

  datatype World = World(
    // files
    journal: Option<Transaction>,
    current: Option<string>,
    anchors: set<Anchor>,
    environment: Option<string>,
    enablement: Option<Target>,
    releasesDir: bool,
    stagings: map<string, Tree>,
    releases: map<string, Tree>,
    // the service manager: loaded unit definitions, as of its last reload, and running processes
    hostDefs: Option<string>,
    codexDefs: Option<string>,
    enabled: bool,
    host: Option<string>,
    codex: bool)

  function SelectorOf(p: Package): string { ReleaseSelector(p.version, p.manifestSha) }

  predicate ValidPackage(p: Package) {
    IsSupported(p.version) && IsSha256(p.manifestSha)
  }

  /** The environment is named by the hash of its file. */
  predicate ValidManifest(m: Manifest) { ValidPackage(m.package) && IsSha256(m.environment) }

  /** No marker, and every part agrees with the manifest and with the directory's own name. */
  predicate Complete(t: Tree, selector: string) {
    && !t.marker
    && t.manifest.Some?
    && t.package == Some(t.manifest.value.package)
    && t.units == Some(t.manifest.value.runtime)
    && ValidManifest(t.manifest.value)
    && SelectorOf(t.manifest.value.package) == selector
  }

  predicate Published(w: World, s: string) { s in w.releases && Complete(w.releases[s], s) }

  function ManifestOf(w: World, s: string): Manifest
    requires Published(w, s)
  {
    w.releases[s].manifest.value
  }

  /** What the manager would load for a unit now. */
  function OnDisk(w: World, link: Anchor): Option<string> {
    if link in w.anchors && w.current.Some? && w.current.value in w.releases then w.current else None
  }

  function AfterReload(w: World): World {
    w.(hostDefs := OnDisk(w, HostLink), codexDefs := OnDisk(w, CodexLink), enabled := w.enablement.Some?)
  }

  // ---------------------------------------------------------------- atomic steps

  /** The environment's answer to a step: it works, it fails without effect, or it takes effect and still reports failure. */
  datatype Choice = Go | Fail | Late

  datatype Code =
    | Invalid | AlreadyInstalled | PackageInvalid | ReadinessFailed | RecoveryRequired | LifecycleFailed
    | RolledBack | RollbackFailed | UpgradeInvalid | UninstallInvalid | StatusUnread

  datatype Cfg = Cfg(w: World, plan: seq<Choice>)

  datatype Outcome = Done(c: Cfg) | Failed(c: Cfg, code: Code) | Crashed(w: World) {
    predicate IsFailure() { !Done? }

    function PropagateFailure(): Outcome
      requires IsFailure()
    {
      this
    }

    function Extract(): Cfg
      requires Done?
    {
      c
    }

    /** The world left behind. */
    function After(): World { if Crashed? then w else c.w }
  }

  /** A step on files, or a check: `after` when it is allowed and the environment lets it through. */
  function Step(c: Cfg, allowed: bool, after: World, code: Code): (o: Outcome)
    ensures o.Done? ==> allowed && o.c.w == after
    ensures !o.Done? ==> o.After() == c.w
    ensures o.Failed? ==> o.code == code
  {
    if c.plan == [] then Crashed(c.w)
    else if c.plan[0].Go? && allowed then Done(Cfg(after, c.plan[1..]))
    else Failed(Cfg(c.w, c.plan[1..]), code)
  }

  function Check(c: Cfg, holds: bool, code: Code): (o: Outcome)
    ensures o.Done? ==> holds
    ensures o.After() == c.w
    ensures o.Failed? ==> o.code == code
  {
    Step(c, holds, c.w, code)
  }

  /** A call to the service manager, which may take effect and still report failure. */
  function Call(c: Cfg, allowed: bool, after: World, late: World): (o: Outcome)
    ensures o.Done? ==> allowed && o.c.w == after
    ensures o.Crashed? ==> o.w == c.w
    ensures o.Failed? ==> o.c.w == c.w || (allowed && o.c.w == late)
    ensures o.Failed? ==> o.code == LifecycleFailed
  {
    if c.plan == [] then Crashed(c.w)
    else if !allowed || c.plan[0].Fail? then Failed(Cfg(c.w, c.plan[1..]), LifecycleFailed)
    else if c.plan[0].Late? then Failed(Cfg(late, c.plan[1..]), LifecycleFailed)
    else Done(Cfg(after, c.plan[1..]))
  }

  function Reload(c: Cfg): Outcome { Call(c, true, AfterReload(c.w), AfterReload(c.w)) }

  function EnabledWorld(w: World): World {
    AfterReload(w.(enablement := if w.enablement.None? && w.current.Some? then Some(InRelease(w.current.value)) else w.enablement))
  }

  function Enable(c: Cfg): Outcome { Call(c, c.w.hostDefs.Some?, EnabledWorld(c.w), EnabledWorld(c.w)) }

  function Disable(c: Cfg): Outcome {
    var w := AfterReload(c.w.(enablement := None));
    Call(c, true, w, w)
  }

  /** A restart that reports failure may leave the host stopped. */
  function Restart(c: Cfg): Outcome {
    Call(c, c.w.hostDefs.Some?, c.w.(host := c.w.hostDefs, codex := true), c.w.(host := None))
  }

  function StartUnits(c: Cfg): Outcome {
    var w := c.w.(host := if c.w.host.None? then c.w.hostDefs else c.w.host, codex := true);
    Call(c, c.w.hostDefs.Some?, w, w)
  }

  function StopHost(c: Cfg): Outcome { Call(c, true, c.w.(host := None), c.w.(host := None)) }

  function StopCodex(c: Cfg): Outcome { Call(c, true, c.w.(codex := false), c.w.(codex := false)) }

  // ---------------------------------------------------------------- what the checks look at

  /** A loaded unit whose file on disk has moved on. */
  predicate NeedsReload(w: World) {
    || (w.hostDefs.Some? && w.hostDefs != OnDisk(w, HostLink))
    || (w.codexDefs.Some? && w.codexDefs != OnDisk(w, CodexLink))
  }

  predicate InstalledIdentity(w: World) {
    && w.hostDefs.Some? && w.codexDefs.Some? && w.enabled
    && !NeedsReload(w)
    && w.enablement == Some(Canonical)
  }

  predicate UnenabledIdentity(w: World) {
    && w.hostDefs.Some? && w.codexDefs.Some? && !w.enabled
    && !NeedsReload(w)
    && w.enablement.None?
    && w.host.None? && !w.codex
  }

  predicate NoUnits(w: World) { w.hostDefs.None? && w.codexDefs.None? && w.host.None? && !w.codex }

  predicate ReadyToServe(w: World) { InstalledIdentity(w) && w.host.Some? && w.codex }

  predicate InstalledStopped(w: World) { InstalledIdentity(w) && w.host.None? && !w.codex }

  predicate ArtifactsAbsent(w: World) {
    w.current.None? && w.anchors == {} && w.environment.None? && w.enablement.None?
  }

  predicate ArtifactsExact(w: World, m: Manifest) {
    w.anchors == ALL_ANCHORS && w.enablement == Some(Canonical) && w.environment == Some(m.environment)
  }

  predicate OwnedEnablement(w: World, s: string) {
    w.enablement == Some(Canonical) || w.enablement == Some(InRelease(s))
  }

  predicate OptionalArtifactsExact(w: World, s: string, m: Manifest) {
    && (w.enablement.Some? ==> OwnedEnablement(w, s))
    && (w.environment.Some? ==> w.environment == Some(m.environment))
  }

  datatype Inspection = Pending | Absent | Partial | Unenabled | Corrupt | Coherent

  function Inspect(w: World): Inspection {
    if w.journal.Some? then Pending
    else if w.current.None? && w.anchors == {} && w.environment.None? then (if w.enablement.Some? then Partial else Absent)
    else if w.current.None? || w.anchors != ALL_ANCHORS || w.environment.None? then Partial
    else if !Published(w, w.current.value) then Corrupt
    else if w.environment != Some(ManifestOf(w, w.current.value).environment) then Corrupt
    else if w.enablement.None? then Unenabled
    else if w.enablement == Some(Canonical) then Coherent
    else Corrupt
  }

  predicate PublishedReleases(w: World) {
    && w.stagings == map[]
    && |w.releases| <= MAXIMUM_PUBLISHED_RELEASES
    && forall s | s in w.releases :: Published(w, s)
  }

  // ---------------------------------------------------------------- the journal

  /** Change journals always read back (JournalFacts.ChangeJournalAlwaysReads); an uninstall journal may be too long. */
  predicate Readable(t: Transaction) {
    t.Uninstall? ==> Bytes(Render(t)) <= MAXIMUM_TRANSACTION_BYTES
  }

  function WriteJournal(c: Cfg, t: Transaction): Outcome {
    Step(c, c.w.journal.None?, c.w.(journal := Some(t)), RecoveryRequired)
  }

  function UpdatePhase(c: Cfg, phase: Phase): (o: Outcome)
    ensures o.Done? ==> c.w.journal.Some? && c.w.journal.value.Change?
                        && o.After() == c.w.(journal := Some(c.w.journal.value.(phase := phase)))
    ensures !o.Done? ==> o.After() == c.w
    ensures o.Failed? ==> o.code == Invalid
  {
    if c.w.journal.Some? && c.w.journal.value.Change? then
      Step(c, true, c.w.(journal := Some(c.w.journal.value.(phase := phase))), Invalid)
    else Check(c, false, Invalid)
  }

  function RemoveJournal(c: Cfg): (o: Outcome)
    ensures o.After() == c.w.(journal := None) || o.After() == c.w
    ensures o.Done? ==> o.After().journal.None?
    ensures !o.Done? ==> o.After() == c.w
    ensures o.Failed? ==> o.code == Invalid
  {
    if c.w.journal.None? then Done(c)
    else Step(c, Readable(c.w.journal.value), c.w.(journal := None), Invalid)
  }

  function RemoveStaging(c: Cfg, name: string): (o: Outcome)
    ensures o.After() == c.w.(stagings := c.w.stagings - {name}) || o.After() == c.w
    ensures o.Done? ==> name !in o.After().stagings
    ensures !o.Done? ==> o.After() == c.w
    ensures o.Failed? ==> o.code == Invalid
  {
    if name !in c.w.stagings then Done(c)
    else Step(c, true, c.w.(stagings := c.w.stagings - {name}), Invalid)
  }

  // ---------------------------------------------------------------- preparing a release

  /** Preparation touches the journal and the releases directory, nothing else. */
  predicate OnlyReleases(w: World, v: World) {
    v == w.(journal := v.journal, stagings := v.stagings, releases := v.releases, releasesDir := v.releasesDir)
  }

  /** One thing done to a staging tree. */
  datatype Edit = MarkerWritten | CopiedPackage(package: Package) | WrittenUnits(runtime: Runtime) | WrittenManifest(manifest: Manifest) | MarkerRemoved

  function Edited(x: Tree, edit: Edit): Tree {
    match edit
    case MarkerWritten => x.(marker := true)
    case CopiedPackage(p) => x.(package := Some(p))
    case WrittenUnits(r) => x.(units := Some(r))
    case WrittenManifest(m) => x.(manifest := Some(m))
    case MarkerRemoved => x.(marker := false)
  }

  /** The build of a fresh staging tree, up to the rename that publishes it and the directory sync after it. */
  function BuildRelease(c: Cfg, t: Transaction, m: Manifest): (o: Outcome)
    requires t.Change?
    ensures OnlyReleases(c.w, o.After())
  {
    var c1 :- EditStaging(c, t.staging, CopiedPackage(m.package), PackageInvalid);
    var c2 :- EditStaging(c1, t.staging, WrittenUnits(m.runtime), PackageInvalid);
    var c3 :- EditStaging(c2, t.staging, WrittenManifest(m), Invalid);
    FinishBuild(c3, t)
  }

  function FinishBuild(c: Cfg, t: Transaction): (o: Outcome)
    requires t.Change?
    ensures OnlyReleases(c.w, o.After())
  {
    var c1 :- EditStaging(c, t.staging, MarkerRemoved, Invalid);
    var c2 :- PublishStaging(c1, t.staging, t.next);
    Check(c2, true, Invalid)
  }

  function EditStaging(c: Cfg, name: string, edit: Edit, code: Code): (o: Outcome)
    ensures OnlyReleases(c.w, o.After())
  {
    if name !in c.w.stagings then Check(c, false, code)
    else Step(c, true, c.w.(stagings := c.w.stagings[name := Edited(c.w.stagings[name], edit)]), code)
  }

  function PublishStaging(c: Cfg, name: string, selector: string): (o: Outcome)
    ensures OnlyReleases(c.w, o.After())
  {
    if name !in c.w.stagings then Check(c, false, Invalid)
    else Step(c, selector !in c.w.releases,
              c.w.(stagings := c.w.stagings - {name}, releases := c.w.releases[selector := c.w.stagings[name]]), Invalid)
  }

  /** The staging directory and its marker. */
  function OpenStaging(c: Cfg, t: Transaction): (o: Outcome)
    requires t.Change?
    ensures OnlyReleases(c.w, o.After())
  {
    var c1 :- Step(c, true, c.w.(releasesDir := true), Invalid);
    var c2 :- Step(c1, t.staging !in c1.w.stagings,
                   c1.w.(stagings := c1.w.stagings[t.staging := Tree(false, None, None, None)]), RecoveryRequired);
    EditStaging(c2, t.staging, MarkerWritten, Invalid)
  }

  /** A failed build removes its staging tree, unless the release is already published. */
  function BuildOrClean(c: Cfg, t: Transaction, m: Manifest): (o: Outcome)
    requires t.Change?
    ensures OnlyReleases(c.w, o.After())
  {
    match BuildRelease(c, t, m)
    case Failed(c1, code) =>
      if t.next in c1.w.releases then Failed(c1, RecoveryRequired)
      else (var c2 :- RemoveStaging(c1, t.staging); Failed(c2, code))
    case o => o
  }

  function PrepareRelease(c: Cfg, t: Transaction, m: Manifest): (o: Outcome)
    requires t.Change?
    ensures OnlyReleases(c.w, o.After())
  {
    if t.next in c.w.releases then
      // a release left by an earlier transaction is used again if its units are the ones generated now
      Check(c, Published(c.w, t.next) && ManifestOf(c.w, t.next).runtime == m.runtime, Invalid)
    else
      var c1 :- OpenStaging(c, t);
      BuildOrClean(c1, t, m)
  }

  function PrepareAndMark(c: Cfg, t: Transaction, m: Manifest): (o: Outcome)
    requires t.Change?
    ensures OnlyReleases(c.w, o.After())
  {
    var c1 :- PrepareRelease(c, t, m);
    UpdatePhase(c1, Prepared)
  }

  function AbandonStaging(c: Cfg, t: Transaction): (o: Outcome)
    requires t.Change?
    ensures OnlyReleases(c.w, o.After())
  {
    var c1 :- RemoveStaging(c, t.staging);
    RemoveJournal(c1)
  }

  /** Preparation with its own cleanup: what fails before anything is selected leaves no journal. */
  function Prepare(c: Cfg, t: Transaction, m: Manifest): (o: Outcome)
    requires t.Change?
    ensures OnlyReleases(c.w, o.After())
  {
    match PrepareAndMark(c, t, m)
    case Failed(c1, code) =>
      if code == RecoveryRequired then Failed(c1, code)
      else
        (match AbandonStaging(c1, t)
         case Done(c2) => Failed(c2, code)
         case Failed(c2, _) => Failed(c2, RollbackFailed)
         case Crashed(w) => Crashed(w))
    case o => o
  }

  // ---------------------------------------------------------------- pruning old releases

  function RemoveRelease(c: Cfg, s: string): (o: Outcome)
    ensures o.After() == c.w.(releases := o.After().releases)
    ensures o.After().releases == c.w.releases || o.After().releases == c.w.releases - {s}
    ensures o.Done? ==> s !in o.After().releases
    ensures o.Failed? ==> o.code == Invalid
  {
    if s !in c.w.releases then Done(c)
    else Step(c, Published(c.w, s), c.w.(releases := c.w.releases - {s}), Invalid)
  }

  function RemoveUnretained(c: Cfg, listing: seq<string>, retained: set<string>): (o: Outcome)
    ensures o.After() == c.w.(releases := o.After().releases)
    ensures forall s | s in o.After().releases :: s in c.w.releases && o.After().releases[s] == c.w.releases[s]
    ensures forall s | s in c.w.releases && s in retained :: s in o.After().releases
    ensures o.Done? ==> forall s | s in o.After().releases && s in listing :: s in retained
    ensures o.Failed? ==> o.code == Invalid
    decreases |listing|
  {
    if listing == [] then Done(c)
    else if listing[0] in retained then RemoveUnretained(c, listing[1..], retained)
    else
      var c1 :- RemoveRelease(c, listing[0]);
      RemoveUnretained(c1, listing[1..], retained)
  }

  /** `listing` is the releases directory as read before the transaction began. */
  function Prune(c: Cfg, listing: seq<string>, retained: set<string>): (o: Outcome)
    ensures o.After() == c.w.(releases := o.After().releases)
    ensures forall s | s in o.After().releases :: s in c.w.releases && o.After().releases[s] == c.w.releases[s]
    ensures forall s | s in c.w.releases && s in retained :: s in o.After().releases
    ensures o.Done? ==> PublishedReleases(o.After()) && o.After().releases.Keys == retained
    ensures o.Failed? ==> o.code == Invalid
  {
    var c1 :- RemoveUnretained(c, listing, retained);
    Check(c1, PublishedReleases(c1.w) && c1.w.releases.Keys == retained, Invalid)
  }

  // ---------------------------------------------------------------- install

  /** `listing` is the releases directory as read up front; `statusReads` whether the manager answers the last status query. */
  datatype Request = Request(package: Package, environment: string, runtime: Runtime, staging: string, listing: seq<string>,
                             statusReads: bool)

  function RequestManifest(r: Request): Manifest { Manifest(r.package, r.environment, r.runtime) }

  predicate ValidRequest(r: Request) { ValidManifest(RequestManifest(r)) }

  function PublishAnchor(c: Cfg, a: Anchor): (o: Outcome)
    ensures o.After() == c.w.(anchors := o.After().anchors)
    ensures o.Done? ==> o.After().anchors == c.w.anchors + {a}
    ensures c.w.anchors <= o.After().anchors <= c.w.anchors + {a}
    ensures o.Failed? ==> o.code == Invalid
  {
    if a in c.w.anchors then Done(c) else Step(c, true, c.w.(anchors := c.w.anchors + {a}), Invalid)
  }

  function PublishAnchors(c: Cfg): (o: Outcome)
    ensures o.After() == c.w.(anchors := o.After().anchors)
    ensures o.Done? ==> ALL_ANCHORS <= o.After().anchors
    ensures c.w.anchors <= o.After().anchors <= c.w.anchors + ALL_ANCHORS
    ensures o.Failed? ==> o.code == Invalid
  {
    var c1 :- PublishAnchor(c, ManifestLink);
    var c2 :- PublishAnchor(c1, CommandLink);
    var c3 :- PublishAnchor(c2, CodexLink);
    PublishAnchor(c3, HostLink)
  }

  function RemoveAnchor(c: Cfg, a: Anchor): (o: Outcome)
    ensures o.After() == c.w.(anchors := o.After().anchors)
    ensures o.Done? ==> o.After().anchors == c.w.anchors - {a}
    ensures o.After().anchors <= c.w.anchors
    ensures o.Failed? ==> o.code == Invalid
  {
    if a !in c.w.anchors then Done(c) else Step(c, true, c.w.(anchors := c.w.anchors - {a}), Invalid)
  }

  function RemoveAnchors(c: Cfg): (o: Outcome)
    ensures o.After() == c.w.(anchors := o.After().anchors)
    ensures o.Done? ==> o.After().anchors !! ALL_ANCHORS
    ensures o.After().anchors <= c.w.anchors
    ensures o.Failed? ==> o.code == Invalid
  {
    var c1 :- RemoveAnchor(c, HostLink);
    var c2 :- RemoveAnchor(c1, CodexLink);
    var c3 :- RemoveAnchor(c2, CommandLink);
    RemoveAnchor(c3, ManifestLink)
  }

  function PublishEnvironment(c: Cfg, sha: string): Outcome {
    if c.w.environment.Some? then Check(c, c.w.environment == Some(sha), Invalid)
    else Step(c, true, c.w.(environment := Some(sha)), Invalid)
  }

  function Canonicalize(c: Cfg, s: string): Outcome {
    Step(c, OwnedEnablement(c.w, s), c.w.(enablement := Some(Canonical)), Invalid)
  }

  /** The report of the final state. */
  function ReadStatus(c: Cfg, answers: bool): Outcome {
    if answers then Done(c) else Failed(c, StatusUnread)
  }

  /** Everything the stable paths show, selector last. */
  function PlaceInstall(c: Cfg, t: Transaction, r: Request): Outcome
    requires t.Change?
  {
    var c1 :- PublishEnvironment(c, r.environment);
    var c2 :- PublishAnchors(c1);
    Step(c2, c2.w.current.None?, c2.w.(current := Some(t.next)), Invalid)
  }

  /** The manager learns the new units, and the host is enabled. */
  function ActivateInstall(c: Cfg, t: Transaction): Outcome
    requires t.Change?
  {
    var c1 :- UpdatePhase(c, Selected);
    var c2 :- Reload(c1);
    var c3 :- UpdatePhase(c2, ManagerReloaded);
    var c4 :- Enable(c3);
    var c5 :- Canonicalize(c4, t.next);
    Check(c5, InstalledStopped(c5.w), LifecycleFailed)
  }

  function FinishInstall(c: Cfg, t: Transaction, r: Request): Outcome
    requires t.Change?
  {
    var c1 :- Prune(c, r.listing, {t.next});
    var c2 :- RemoveJournal(c1);
    ReadStatus(c2, r.statusReads)
  }

  function InstallCommit(c: Cfg, t: Transaction, r: Request): Outcome
    requires t.Change?
  {
    var c1 :- PlaceInstall(c, t, r);
    var c2 :- ActivateInstall(c1, t);
    FinishInstall(c2, t, r)
  }

  /** One cleanup action of a rollback: its failure is remembered and the next action still runs. */
  datatype Cleanup = Cleaned(c: Cfg, ok: bool) | CleanupCrashed(w: World) {
    predicate IsFailure() { CleanupCrashed? }

    function PropagateFailure(): Cleanup
      requires IsFailure()
    {
      this
    }

    function Extract(): (Cfg, bool)
      requires !IsFailure()
    {
      (c, ok)
    }

    function After(): World { if Cleaned? then c.w else w }
  }

  function Tolerate(o: Outcome): Cleanup {
    match o
    case Done(c) => Cleaned(c, true)
    case Failed(c, _) => Cleaned(c, false)
    case Crashed(w) => CleanupCrashed(w)
  }

  /** Disabling counts by its effect: a reported failure is forgiven when the link is gone. */
  function DisableOwned(c: Cfg, s: string): Outcome {
    if c.w.enablement.None? then Done(c)
    else if !OwnedEnablement(c.w, s) then Failed(c, LifecycleFailed)
    else
      match Disable(c)
      case Crashed(w) => Crashed(w)
      case o => if o.c.w.enablement.Some? then Failed(o.c, LifecycleFailed) else Done(o.c)
  }

  function RemoveSelector(c: Cfg, s: string): (o: Outcome)
    ensures var v := o.After(); v == c.w.(current := v.current) && (v.current.None? || v == c.w)
    ensures o.Done? ==> o.After().current.None?
    ensures o.Failed? ==> o.code == Invalid
  {
    if c.w.current.None? then Done(c)
    else Step(c, c.w.current == Some(s), c.w.(current := None), Invalid)
  }

  function RemoveEnvironment(c: Cfg, sha: string): (o: Outcome)
    ensures var v := o.After(); v == c.w.(environment := v.environment) && (v.environment.None? || v == c.w)
    ensures o.Done? ==> o.After().environment.None?
    ensures o.Failed? ==> o.code == Invalid
  {
    if c.w.environment.None? then Done(c)
    else Step(c, c.w.environment == Some(sha), c.w.(environment := None), Invalid)
  }

  function ReloadToNothing(c: Cfg): Outcome {
    var c1 :- Reload(c);
    Check(c1, NoUnits(c1.w), Invalid)
  }

  function ClearSelection(c: Cfg, t: Transaction): Cleanup
    requires t.Change?
  {
    var (c1, ok1) :- Tolerate(DisableOwned(c, t.next));
    var (c2, ok2) :- Tolerate(RemoveSelector(c1, t.next));
    Cleaned(c2, ok1 && ok2)
  }

  function ClearPaths(c: Cfg, r: Request): Cleanup {
    var (c1, ok1) :- Tolerate(RemoveAnchors(c));
    var (c2, ok2) :- Tolerate(RemoveEnvironment(c1, r.environment));
    Cleaned(c2, ok1 && ok2)
  }

  function ClearInstall(c: Cfg, t: Transaction, r: Request): Cleanup
    requires t.Change?
  {
    var (c1, ok1) :- ClearSelection(c, t);
    var (c2, ok2) :- ClearPaths(c1, r);
    var (c3, ok3) :- Tolerate(ReloadToNothing(c2));
    Cleaned(c3, ok1 && ok2 && ok3)
  }

  function InstallRollback(c: Cfg, t: Transaction, r: Request): Outcome
    requires t.Change?
  {
    match ClearInstall(c, t, r)
    case CleanupCrashed(w) => Crashed(w)
    case Cleaned(c1, ok) =>
      if !ok then Failed(c1, RollbackFailed)
      else (var c2 :- RemoveJournal(c1); Failed(c2, RolledBack))
  }

  function FreshTransaction(r: Request): (t: Transaction)
    ensures t.Change? && t.previous.None?
  {
    Change(SelectorOf(r.package), None, Preparing, r.staging, false)
  }

  function FreshBegin(c: Cfg, r: Request): Outcome {
    var c1 :- Check(c, PublishedReleases(c.w), Invalid);
    var c2 :- Check(c1, NoUnits(c1.w), Invalid);
    var c3 :- WriteJournal(c2, FreshTransaction(r));
    Prepare(c3, FreshTransaction(r), RequestManifest(r))
  }

  function FreshInstall(c: Cfg, r: Request): Outcome {
    var c1 :- FreshBegin(c, r);
    match InstallCommit(c1, FreshTransaction(r), r)
    case Failed(c2, _) => InstallRollback(c2, FreshTransaction(r), r)
    case o => o
  }

  /** Installing what is installed: nothing to do, or only the enablement to restore. */
  function InstallAgain(c: Cfg, r: Request): Outcome
    requires c.w.current.Some? && Published(c.w, c.w.current.value)
  {
    var s := c.w.current.value;
    var m := ManifestOf(c.w, s);
    if m.package.version != r.package.version || m.package.manifestSha != r.package.manifestSha then Failed(c, AlreadyInstalled)
    else if m.environment != r.environment then Failed(c, Invalid)
    else if c.w.enablement.Some? then
      var c1 :- Check(c, InstalledIdentity(c.w), LifecycleFailed);
      ReadStatus(c1, r.statusReads)
    else
      var c1 :- Check(c, UnenabledIdentity(c.w), Invalid);
      var c2 :- Reload(c1);
      var c3 :- Enable(c2);
      var c4 :- Canonicalize(c3, s);
      var c5 :- Check(c4, InstalledStopped(c4.w), LifecycleFailed);
      ReadStatus(c5, r.statusReads)
  }

  function Install(c: Cfg, r: Request): Outcome {
    var c1 :- Recover(c);
    match Inspect(c1.w)
    case Coherent => InstallAgain(c1, r)
    case Unenabled => InstallAgain(c1, r)
    case Absent => FreshInstall(c1, r)
    case _ => Failed(c1, Invalid)
  }

  // ---------------------------------------------------------------- upgrade

  function ReplaceSelector(c: Cfg, from: string, to: string): Outcome {
    Step(c, c.w.current == Some(from), c.w.(current := Some(to)), Invalid)
  }

  /** An active service must come back ready; an inactive one must be untouched. */
  function Reactivate(c: Cfg, active: bool, codexBefore: bool): Outcome {
    if active then
      var c1 :- Restart(c);
      Check(c1, ReadyToServe(c1.w), ReadinessFailed)
    else Check(c, InstalledIdentity(c.w) && c.w.host.None? && c.w.codex == codexBefore, LifecycleFailed)
  }

  /** The selector moves, then the manager learns the next release. */
  function SwitchUpgrade(c: Cfg, t: Transaction): Outcome
    requires t.Change? && t.previous.Some?
  {
    var c1 :- ReplaceSelector(c, t.previous.value, t.next);
    var c2 :- UpdatePhase(c1, Selected);
    var c3 :- Reload(c2);
    UpdatePhase(c3, ManagerReloaded)
  }

  function FinishUpgrade(c: Cfg, t: Transaction, r: Request): Outcome
    requires t.Change? && t.previous.Some?
  {
    var c1 :- Prune(c, r.listing, {t.previous.value, t.next});
    var c2 :- RemoveJournal(c1);
    ReadStatus(c2, r.statusReads)
  }

  function UpgradeCommit(c: Cfg, t: Transaction, codexBefore: bool, r: Request): Outcome
    requires t.Change? && t.previous.Some?
  {
    var c1 :- SwitchUpgrade(c, t);
    var c2 :- Reactivate(c1, t.wasActive, codexBefore);
    FinishUpgrade(c2, t, r)
  }

  function RestoreSelector(c: Cfg, failed: string, previous: string): Outcome {
    if c.w.current == Some(previous) then Done(c) else ReplaceSelector(c, failed, previous)
  }

  function RollbackSteps(c: Cfg, t: Transaction, codexBefore: bool): Outcome
    requires t.Change? && t.previous.Some?
  {
    var c1 :- RestoreSelector(c, t.next, t.previous.value);
    var c2 :- Reload(c1);
    var c3 :- Reactivate(c2, t.wasActive, codexBefore);
    RemoveJournal(c3)
  }

  function UpgradeRollback(c: Cfg, t: Transaction, codexBefore: bool): (o: Outcome)
    requires t.Change? && t.previous.Some?
    ensures !o.Done?
  {
    match RollbackSteps(c, t, codexBefore)
    case Done(c1) => Failed(c1, RolledBack)
    case Failed(c1, _) => Failed(c1, RollbackFailed)
    case Crashed(w) => Crashed(w)
  }

  function UpgradeTransaction(w: World, r: Request): (t: Transaction)
    requires w.current.Some?
    ensures t.Change? && t.previous.Some?
  {
    Change(SelectorOf(r.package), w.current, Preparing, r.staging, w.host.Some?)
  }

  predicate Newer(p: Package, than: Package) {
    CompareVersions(p.version, than.version).Some? && CompareVersions(p.version, than.version).value > 0
  }

  /** The checks on a coherent installation before an upgrade writes anything. */
  function UpgradeChecks(c: Cfg, r: Request): Outcome
    requires Inspect(c.w) == Coherent
  {
    var m := ManifestOf(c.w, c.w.current.value);
    var c1 :- Check(c, PublishedReleases(c.w), Invalid);
    var c2 :- Check(c1, InstalledIdentity(c1.w), LifecycleFailed);
    if !Newer(r.package, m.package) then Failed(c2, UpgradeInvalid)
    else if c2.w.host.Some? && !c2.w.codex then Failed(c2, UpgradeInvalid)
    else if c2.w.host.Some? then Check(c2, true, ReadinessFailed)
    else Done(c2)
  }

  predicate SamePackage(w: World, r: Request)
    requires Inspect(w) == Coherent
  {
    var m := ManifestOf(w, w.current.value);
    m.package.version == r.package.version && m.package.manifestSha == r.package.manifestSha
  }

  function UpgradeBegin(c: Cfg, r: Request): Outcome
    requires Inspect(c.w) == Coherent
  {
    var m := ManifestOf(c.w, c.w.current.value);
    var t := UpgradeTransaction(c.w, r);
    var c1 :- UpgradeChecks(c, r);
    var c2 :- WriteJournal(c1, t);
    Prepare(c2, t, Manifest(r.package, m.environment, m.runtime))
  }

  function UpgradeEnd(c: Cfg, t: Transaction, codexBefore: bool, r: Request): Outcome
    requires t.Change? && t.previous.Some?
  {
    match UpgradeCommit(c, t, codexBefore, r)
    case Failed(c1, _) => UpgradeRollback(c1, t, codexBefore)
    case o => o
  }

  function ChangingUpgrade(c: Cfg, r: Request): Outcome
    requires Inspect(c.w) == Coherent
  {
    var c1 :- UpgradeBegin(c, r);
    UpgradeEnd(c1, UpgradeTransaction(c.w, r), c.w.codex, r)
  }

  function Upgrade(c: Cfg, r: Request): Outcome {
    var c1 :- Recover(c);
    if Inspect(c1.w) != Coherent then Failed(c1, Invalid)
    else if SamePackage(c1.w, r) then
      var c2 :- Check(c1, PublishedReleases(c1.w) && InstalledIdentity(c1.w), LifecycleFailed);
      ReadStatus(c2, r.statusReads)
    else ChangingUpgrade(c1, r)
  }

  // ---------------------------------------------------------------- recovery

  predicate RecoverableBeforePublish(w: World, t: Transaction)
    requires t.Change?
  {
    && t.phase == Preparing
    && (t.previous.None? ==> ArtifactsAbsent(w))
    && (t.previous.Some? ==> w.current == t.previous && Published(w, t.previous.value)
                             && ArtifactsExact(w, ManifestOf(w, t.previous.value)))
  }

  function UndoInstall(c: Cfg, t: Transaction): Outcome
    requires t.Change? && Published(c.w, t.next)
  {
    var m := ManifestOf(c.w, t.next);
    var c1 :- Check(c, (c.w.current.None? || c.w.current == Some(t.next)) && OptionalArtifactsExact(c.w, t.next, m), RecoveryRequired);
    var c2 :- DisableIfPresent(c1);
    var c3 :- RemoveSelector(c2, t.next);
    var c4 :- RemoveAnchors(c3);
    var c5 :- RemoveEnvironment(c4, m.environment);
    Reload(c5)
  }

  function DisableIfPresent(c: Cfg): Outcome {
    if c.w.enablement.None? then Done(c)
    else
      var c1 :- Disable(c);
      Check(c1, c1.w.enablement.None?, RecoveryRequired)
  }

  /** After recovery an active service is restarted; an inactive one must be stopped, its companion in either state. */
  function Settle(c: Cfg, active: bool): Outcome {
    if active then
      var c1 :- Restart(c);
      Check(c1, ReadyToServe(c1.w), ReadinessFailed)
    else Check(c, InstalledIdentity(c.w) && c.w.host.None?, RecoveryRequired)
  }

  function ReloadAndSettle(c: Cfg, active: bool): Outcome {
    var c1 :- Reload(c);
    Settle(c1, active)
  }

  function UndoUpgrade(c: Cfg, t: Transaction): Outcome
    requires t.Change? && t.previous.Some?
  {
    var p := t.previous.value;
    var c1 :- Check(c, Published(c.w, p) && ArtifactsExact(c.w, ManifestOf(c.w, p))
                       && (c.w.current == Some(p) || c.w.current == Some(t.next)), RecoveryRequired);
    if c1.w.current == Some(t.next) then
      var c2 :- ReplaceSelector(c1, t.next, p);
      ReloadAndSettle(c2, t.wasActive)
    else if t.phase == Selected || t.phase == ManagerReloaded then
      ReloadAndSettle(c1, t.wasActive)
    else Done(c1)
  }

  function UndoChange(c: Cfg, t: Transaction): Outcome
    requires t.Change?
  {
    var c1 :- Check(c, !(t.next in c.w.releases && t.staging in c.w.stagings), RecoveryRequired);
    if t.next !in c1.w.releases then Check(c1, RecoverableBeforePublish(c1.w, t), RecoveryRequired)
    else
      var c2 :- Check(c1, Published(c1.w, t.next), RecoveryRequired);
      if t.previous.None? then UndoInstall(c2, t) else UndoUpgrade(c2, t)
  }

  function RecoverChange(c: Cfg, t: Transaction): Outcome
    requires t.Change?
  {
    var c1 :- UndoChange(c, t);
    var c2 :- RemoveStaging(c1, t.staging);
    RemoveJournal(c2)
  }

  function Recover(c: Cfg): Outcome {
    if c.w.journal.None? then Done(c)
    else if c.w.journal.value.Uninstall? then Failed(c, RecoveryRequired)
    else
      match RecoverChange(c, c.w.journal.value)
      case Failed(c1, _) => Failed(c1, RecoveryRequired)
      case o => o
  }

  // ---------------------------------------------------------------- start, stop, restart

  function SetRunning(c: Cfg, wanted: Wanted, statusReads: bool): Outcome {
    var c1 :- Recover(c);
    if Inspect(c1.w) != Coherent then Failed(c1, Invalid)
    else
      var c2 :- Check(c1, InstalledIdentity(c1.w), LifecycleFailed);
      var c3 :- ChangeRunning(c2, wanted);
      ReadStatus(c3, statusReads)
  }

  datatype Wanted = Start | Stop | RestartHost

  function ChangeRunning(c: Cfg, wanted: Wanted): Outcome {
    match wanted
    case Start =>
      var c1 :- if c.w.host.Some? && c.w.codex then Done(c) else StartUnits(c);
      Check(c1, ReadyToServe(c1.w), ReadinessFailed)
    case Stop =>
      if c.w.host.None? && !c.w.codex then Check(c, InstalledStopped(c.w), LifecycleFailed)
      else
        var c1 :- StopHost(c);
        var c2 :- StopCodex(c1);
        Check(c2, InstalledStopped(c2.w), LifecycleFailed)
    case RestartHost =>
      var c1 :- Restart(c);
      Check(c1, ReadyToServe(c1.w), ReadinessFailed)
  }

  // ---------------------------------------------------------------- uninstall

  /** `listing` is the releases directory, sorted; `preserved` the paths that have to survive. */
  datatype Removal = Removal(layout: Layout, preserved: seq<string>, listing: seq<string>)

  predicate PathsSurvive(w: World, r: Removal) {
    && (forall i | 0 <= i < |r.preserved| :: Survives(r.preserved[i], r.layout))
    && (forall s | s in w.releases && Published(w, s) ::
          Survives(ManifestOf(w, s).runtime.codexBin, r.layout) && Survives(ManifestOf(w, s).runtime.nodeBin, r.layout))
  }

  function CommonEnvironment(w: World, listing: seq<string>): Option<string> {
    if listing != [] && Published(w, listing[0]) then Some(ManifestOf(w, listing[0]).environment) else None
  }

  predicate EnvironmentsAgree(w: World, e: Option<string>) {
    forall s | s in w.releases && Published(w, s) :: e == Some(ManifestOf(w, s).environment)
  }

  predicate EnablementKnown(w: World) {
    w.enablement.Some? && w.enablement.value.InRelease? ==> w.enablement.value.selector in w.releases
  }

  predicate OptionalAnchors(w: World, e: Option<string>) {
    && (w.current.Some? ==> w.current.value in w.releases)
    && (w.environment.Some? ==> w.environment == e)
    && EnablementKnown(w)
  }

  predicate OwnedByTransaction(w: World, t: Transaction)
    requires t.Uninstall?
  {
    && PublishedReleases(w)
    && (forall s | s in w.releases :: s in t.selectors)
    && (t.environment.Some? ==> EnvironmentsAgree(w, t.environment))
    && (w.current.Some? ==> w.current == t.active)
    && (w.environment.Some? ==> w.environment == t.environment)
    && EnablementKnown(w)
  }

  /** Which manager states uninstall accepts; a pending reload is accepted once the units were stopped. */
  predicate ManagerKnown(w: World, reloadAllowed: bool) {
    && (w.hostDefs.None? ==> w.host.None? && !w.enabled)
    && (w.codexDefs.None? ==> !w.codex)
    && (reloadAllowed || !NeedsReload(w))
  }

  predicate NotFound(w: World) { NoUnits(w) && !w.enabled }

  predicate HasArtifacts(w: World) {
    || w.releases != map[] || w.releasesDir
    || !ArtifactsAbsent(w)
    || w.hostDefs.Some? || w.codexDefs.Some?
  }

  function Advance(c: Cfg, stage: Stage): Outcome {
    if c.w.journal.None? || !c.w.journal.value.Uninstall? then Check(c, false, Invalid)
    else if StageIndex(c.w.journal.value.stage) >= StageIndex(stage) then Done(c)
    else Step(c, Readable(c.w.journal.value), c.w.(journal := Some(c.w.journal.value.(stage := stage))), Invalid)
  }

  function StageOf(w: World): Stage {
    if w.journal.Some? && w.journal.value.Uninstall? then w.journal.value.stage else Ready
  }

  predicate StagePassed(w: World, stage: Stage) { StageIndex(StageOf(w)) >= StageIndex(stage) }

  function StopUnits(c: Cfg): Outcome {
    var c1 :- if c.w.host.None? then Done(c) else StopHost(c);
    var c2 :- if c1.w.codex then StopCodex(c1) else Done(c1);
    var c3 :- Check(c2, c2.w.host.None? && !c2.w.codex && ManagerKnown(c2.w, StagePassed(c2.w, Stopped)), LifecycleFailed);
    Advance(c3, Stopped)
  }

  function DisableUnits(c: Cfg): Outcome {
    var c1 :- Check(c, ManagerKnown(c.w, StagePassed(c.w, Stopped)), UninstallInvalid);
    var c2 :- if c1.w.enablement.Some? || c1.w.enabled then Disable(c1) else Done(c1);
    var c3 :- Check(c2, c2.w.enablement.None? && !c2.w.enabled, LifecycleFailed);
    Advance(c3, Disabled)
  }

  function RemoveOwnedSelector(c: Cfg, active: Option<string>): (o: Outcome)
    ensures var v := o.After(); v == c.w.(current := v.current) && (v.current.None? || v == c.w)
    ensures o.Done? ==> o.After().current.None?
    ensures o.Failed? ==> o.code == Invalid
  {
    if active.None? then Check(c, c.w.current.None?, Invalid) else RemoveSelector(c, active.value)
  }

  function RemoveOwnedEnvironment(c: Cfg, sha: Option<string>): (o: Outcome)
    ensures var v := o.After(); v == c.w.(environment := v.environment) && (v.environment.None? || v == c.w)
    ensures o.Done? ==> o.After().environment.None?
    ensures o.Failed? ==> o.code == Invalid
  {
    if sha.None? then Check(c, c.w.environment.None?, Invalid) else RemoveEnvironment(c, sha.value)
  }

  function ClearOwned(c: Cfg, t: Transaction): Outcome
    requires t.Uninstall?
  {
    var c1 :- RemoveAnchors(c);
    var c2 :- RemoveOwnedSelector(c1, t.active);
    RemoveOwnedEnvironment(c2, t.environment)
  }

  function RemoveInstallation(c: Cfg, t: Transaction): Outcome
    requires t.Uninstall?
  {
    var c1 :- Check(c, c.w.enablement.None?, Invalid);
    var c2 :- ClearOwned(c1, t);
    Advance(c2, AnchorsRemoved)
  }

  function RemoveReleasesDir(c: Cfg): Outcome {
    if !c.w.releasesDir then Done(c)
    else Step(c, c.w.releases == map[] && c.w.stagings == map[], c.w.(releasesDir := false), RecoveryRequired)
  }

  function RemoveReleases(c: Cfg, t: Transaction): Outcome
    requires t.Uninstall?
  {
    var c1 :- RemoveUnretained(c, t.selectors, {});
    var c2 :- RemoveReleasesDir(c1);
    Advance(c2, ReleasesRemoved)
  }

  /** Only the lifecycle lock is left in the data root. */
  predicate DataRootEmpty(w: World) {
    w.journal.None? && w.current.None? && ManifestLink !in w.anchors && !w.releasesDir
  }

  function ForgetUnits(c: Cfg): Outcome {
    var c1 :- Reload(c);
    var c2 :- Check(c1, NotFound(c1.w), LifecycleFailed);
    var c3 :- Advance(c2, Journal.Reloaded);
    var c4 :- RemoveJournal(c3);
    var c5 :- Check(c4, DataRootEmpty(c4.w), RecoveryRequired);
    Check(c5, NotFound(c5.w), UninstallInvalid)
  }

  function ClearAway(c: Cfg, t: Transaction): Outcome
    requires t.Uninstall?
  {
    var c1 :- RemoveInstallation(c, t);
    var c2 :- RemoveReleases(c1, t);
    ForgetUnits(c2)
  }

  function ExecuteUninstall(c: Cfg, t: Transaction, r: Removal): Outcome
    requires t.Uninstall?
  {
    var c1 :- Check(c, OwnedByTransaction(c.w, t) && PathsSurvive(c.w, r), RecoveryRequired);
    var c2 :- Check(c1, ManagerKnown(c1.w, StagePassed(c1.w, Stopped)), UninstallInvalid);
    var c3 :- StopUnits(c2);
    var c4 :- DisableUnits(c3);
    ClearAway(c4, t)
  }

  function UninstallTransaction(w: World, r: Removal): Transaction {
    Uninstall(w.current, CommonEnvironment(w, r.listing), Ready, r.listing)
  }

  predicate MayUninstall(w: World, r: Removal) {
    var e := CommonEnvironment(w, r.listing);
    && PublishedReleases(w)
    && EnvironmentsAgree(w, e)
    && OptionalAnchors(w, e)
    && PathsSurvive(w, r)
    && ManagerKnown(w, false)
  }

  function BeginUninstall(c: Cfg, r: Removal): Outcome {
    var c1 :- Check(c, MayUninstall(c.w, r), UninstallInvalid);
    if !HasArtifacts(c1.w) then Check(c1, NotFound(c1.w), UninstallInvalid)
    else
      var c2 :- WriteJournal(c1, UninstallTransaction(c1.w, r));
      ExecuteUninstall(c2, UninstallTransaction(c1.w, r), r)
  }

  function RunUninstall(c: Cfg, r: Removal): Outcome {
    if c.w.journal.None? then BeginUninstall(c, r)
    else if c.w.journal.value.Change? then
      var c1 :- Recover(c);
      BeginUninstall(c1, r)
    else if !Readable(c.w.journal.value) then Failed(c, RecoveryRequired)
    else ExecuteUninstall(c, c.w.journal.value, r)
  }
}
