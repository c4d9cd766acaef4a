/** What uninstall deletes, as paths: nothing that has to survive is equal to, above or below any of it. */
module LifecyclePaths {
  import opened Common
  import opened SemVer
  import opened Journal
  import opened JournalFacts
  import opened Paths
  import opened Lifecycle
  import opened LifecycleSafety
  import opened LifecycleCommands
  import opened LifecycleUninstall
  import opened LifecycleJournals
  import opened LifecycleOutcomes
  import opened LifecycleReplay

  // ---------------------------------------------------------------- the things on disk and where they are

  datatype Item =
    | JournalItem
    | SelectorItem
    | AnchorItem(anchor: Anchor)
    | EnvironmentItem
    | EnablementItem
    | ReleasesItem
    | ReleaseItem(selector: string)
    | StagingItem(name: string)

  predicate Has(w: World, i: Item) {
    match i
    case JournalItem => w.journal.Some?
    case SelectorItem => w.current.Some?
    case AnchorItem(a) => a in w.anchors
    case EnvironmentItem => w.environment.Some?
    case EnablementItem => w.enablement.Some?
    case ReleasesItem => w.releasesDir
    case ReleaseItem(s) => s in w.releases
    case StagingItem(n) => n in w.stagings
  }

  function AnchorPath(l: Layout, a: Anchor): string {
    match a
    case ManifestLink => ManifestPath(l)
    case CommandLink => CommandPath(l)
    case CodexLink => CodexUnit(l)
    case HostLink => HostUnit(l)
  }

  function PathOf(l: Layout, i: Item): string {
    match i
    case JournalItem => TransactionFile(l)
    case SelectorItem => CurrentLink(l)
    case AnchorItem(a) => AnchorPath(l, a)
    case EnvironmentItem => EnvironmentFile(l)
    case EnablementItem => EnablementLink(l)
    case ReleasesItem => ReleasesDir(l)
    case ReleaseItem(s) => Under(DataRoot(l), s)
    case StagingItem(n) => Under(ReleasesDir(l), n)
  }

  lemma ReleaseName(s: string) returns (id: string)
    requires IsPackageSelector(s)
    ensures PlainName(id) && s == "releases" + ("/" + id)
  {
    var v, h :| IsSupported(v) && IsSha256(h) && s == ReleaseSelector(v, h);
    id := v + "-" + h;
    VersionShape(v);
    SelectorChars(v, h);
    hide IsSupported, IsVersionChar;
    assert |id| > 2;
  }

  /** A release of an accepted package is one directory below the releases directory. */
  lemma ReleasePath(l: Layout, s: string)
    requires WellFormedLayout(l) && IsPackageSelector(s)
    ensures IsCanonical(Under(DataRoot(l), s)) && Place(ReleasesDir(l)) < Place(Under(DataRoot(l), s))
  {
    hide IsPackageSelector, Under, Place, IsCanonical, WellFormedLayout, DataRoot;
    var id := ReleaseName(s);
    DataPlaces(l);
    UnderTwice(DataRoot(l), "releases", id);
    CanonicalEnds(ReleasesDir(l));
    UnderPlace(ReleasesDir(l), id);
    Longer(Place(ReleasesDir(l)), id);
  }

  lemma Longer(a: seq<string>, name: string)
    ensures a < a + [name]
  {
  }

  lemma UnderTwice(root: string, a: string, b: string)
    requires IsCanonical(root) && PlainName(a)
    ensures Under(root, a + ("/" + b)) == Under(Under(root, a), b)
  {
    CanonicalEnds(root);
    UnderPlace(root, a);
    CanonicalEnds(Under(root, a));
    hide Place;
  }

  lemma FixedPath(l: Layout, i: Item)
    requires WellFormedLayout(l) && !i.ReleaseItem? && !i.StagingItem?
    ensures IsCanonical(PathOf(l, i)) && PathOf(l, i) in RemovedPaths(l)
  {
    RemovedIndex(l);
    hide Under, Place, IsCanonical, RemovedPaths, TransactionFile, CurrentLink, ManifestPath, EnvironmentFile, CommandPath, EnablementLink, CodexUnit,
      HostUnit, ReleasesDir;
    AllCanonical(l);
  }

  /** Outside a change everything there is, is something the check knows about. */
  lemma ItemIsDeletable(w: World, l: Layout, i: Item)
    requires Trees(w) && w.stagings == map[] && WellFormedLayout(l) && Has(w, i)
    ensures IsCanonical(PathOf(l, i)) && Deletable(PathOf(l, i), l)
  {
    if i.ReleaseItem? {
      PublishedIsPackage(w, i.selector);
      ReleasePath(l, i.selector);
    } else {
      FixedPath(l, i);
    }
    hide Under, Place, IsCanonical, RemovedPaths, Complete, ReleasesDir;
  }

  // ---------------------------------------------------------------- what is spared

  /** The path is clear of everything that was there and is gone. */
  ghost predicate Spares(w: World, v: World, l: Layout, preserved: string) {
    forall i | Has(w, i) && !Has(v, i) :: Clear(preserved, PathOf(l, i))
  }

  /** The paths that an uninstall of this world has to leave alone. */
  predicate HasToSurvive(w: World, r: Removal, path: string) {
    || path in r.preserved
    || exists s | s in w.releases :: Published(w, s) && (path == ManifestOf(w, s).runtime.codexBin || path == ManifestOf(w, s).runtime.nodeBin)
  }

  lemma SurvivorSurvives(w: World, r: Removal, path: string)
    requires PathsSurvive(w, r) && HasToSurvive(w, r, path)
    ensures Survives(path, r.layout)
  {
    hide Survives, Complete;
  }

  lemma SurvivorIsSpared(w: World, v: World, r: Removal, path: string)
    requires Trees(w) && w.stagings == map[] && WellFormedLayout(r.layout)
    requires PathsSurvive(w, r) && HasToSurvive(w, r, path) && IsAccepted(path) && !Respells(path, r.layout)
    ensures Spares(w, v, r.layout, path)
  {
    SurvivorSurvives(w, r, path);
    SurvivesIffClear(path, r.layout);
    forall i | Has(w, i) && !Has(v, i) ensures Clear(path, PathOf(r.layout, i)) { ItemIsDeletable(w, r.layout, i); }
  }

  lemma SameIsSpared(w: World, l: Layout, path: string)
    ensures Spares(w, w, l, path)
  {
  }

  lemma InvTrees(w: World)
    requires Inv(w) && !(w.journal.Some? && w.journal.value.Change?)
    ensures Trees(w) && w.stagings == map[]
  {
  }

  lemma RefusedChangesNothing(c: Cfg, r: Removal)
    requires Inv(c.w) && Lists(c.w, r.listing) && !PathsSurvive(c.w, r) && !(c.w.journal.Some? && c.w.journal.value.Change?)
    ensures RunUninstall(c, r).After() == c.w
  {
    hide Inv, PathsSurvive, Step, Check, ExecuteUninstall, WriteJournal, Readable, Removing;
    if c.w.journal.Some? {
      PendingIsRemoving(c.w);
      ExecuteUninstallSafe(c, c.w.journal.value, r);
    }
  }

  /**
   A fresh or resumed uninstall, under every plan: whatever is gone afterwards, no path that has to survive is
   equal to it, contains it or lies under it. Only another spelling of a removed path is not covered.
   */
  lemma UninstallSpares(c: Cfg, r: Removal, path: string)
    requires Inv(c.w) && Lists(c.w, r.listing) && !(c.w.journal.Some? && c.w.journal.value.Change?)
    requires WellFormedLayout(r.layout) && HasToSurvive(c.w, r, path) && IsAccepted(path) && !Respells(path, r.layout)
    ensures Spares(c.w, RunUninstall(c, r).After(), r.layout, path)
  {
    hide Inv, PathsSurvive, RunUninstall, Respells, Spares, HasToSurvive, IsAccepted, WellFormedLayout, Trees;
    if PathsSurvive(c.w, r) {
      InvTrees(c.w);
      SurvivorIsSpared(c.w, RunUninstall(c, r).After(), r, path);
    } else {
      RefusedChangesNothing(c, r);
      SameIsSpared(c.w, r.layout, path);
    }
  }

  /** Where another spelling is there to be deleted, a completed uninstall deletes it; so the exception is exact. */
  lemma SparedIff(w: World, r: Removal, path: string)
    requires Inv(w) && w.journal.None? && Lists(w, r.listing) && WellFormedLayout(r.layout)
    requires MayUninstall(w, r) && (HasArtifacts(w) ==> FitsAtEveryStage(UninstallTransaction(w, r)))
    requires HasToSurvive(w, r, path) && IsAccepted(path)
    ensures (forall plan :: Spares(w, RunUninstall(Cfg(w, plan), r).After(), r.layout, path))
            <==> forall i | Has(w, i) :: Place(path) != Place(PathOf(r.layout, i))
  {
    InvTrees(w);
    MayMeans(w, r);
    SurvivorSurvives(w, r, path);
    hide Inv, PathsSurvive, RunUninstall, HasToSurvive, IsAccepted, WellFormedLayout, Trees, MayUninstall, FitsAtEveryStage, HasArtifacts, Has, PathOf,
      Survives, Place, Lists, Uninstalled;
    if forall i | Has(w, i) :: Place(path) != Place(PathOf(r.layout, i)) {
      forall i | Has(w, i) ensures Clear(path, PathOf(r.layout, i)) { SurvivorMissesItem(w, r.layout, path, i); }
      forall plan ensures Spares(w, RunUninstall(Cfg(w, plan), r).After(), r.layout, path) {
      }
    } else {
      var i :| Has(w, i) && Place(path) == Place(PathOf(r.layout, i));
      FreshUninstallCompletesIff(w, r);
      var plan :| RunUninstall(Cfg(w, plan), r).Done?;
      UninstallSafe(Cfg(w, plan), r);
      NothingIsLeft(RunUninstall(Cfg(w, plan), r).After(), i);
      assert !Spares(w, RunUninstall(Cfg(w, plan), r).After(), r.layout, path);
    }
  }

  lemma MayMeans(w: World, r: Removal)
    requires MayUninstall(w, r)
    ensures PathsSurvive(w, r)
  {
  }

  lemma SurvivorMissesItem(w: World, l: Layout, path: string, i: Item)
    requires Trees(w) && w.stagings == map[] && WellFormedLayout(l) && Has(w, i)
    requires IsAccepted(path) && Survives(path, l) && forall j | Has(w, j) :: Place(path) != Place(PathOf(l, j))
    ensures Clear(path, PathOf(l, i))
  {
    hide Place, IsDescendant, IsAccepted, RemovedPaths, ReleasesDir, IsCanonical, Under, Survives, Complete, WellFormedLayout, DataRoot;
    if i.ReleaseItem? {
      assert Has(w, ReleasesItem);
      SurvivorMissesFixed(w, l, path, ReleasesItem);
      PublishedIsPackage(w, i.selector);
      ReleasePath(l, i.selector);
      BelowOneOfTwo(Place(path), Place(ReleasesDir(l)), Place(PathOf(l, i)));
    } else {
      SurvivorMissesFixed(w, l, path, i);
    }
  }

  lemma SurvivorMissesFixed(w: World, l: Layout, path: string, i: Item)
    requires WellFormedLayout(l) && !i.ReleaseItem? && !i.StagingItem?
    requires IsAccepted(path) && Survives(path, l) && Place(path) != Place(PathOf(l, i))
    ensures Clear(path, PathOf(l, i))
  {
    hide Place, IsDescendant, RemovedPaths, IsCanonical, PathOf, Apart, WellFormedLayout;
    FixedPath(l, i);
    var k :| 0 <= k < |RemovedPaths(l)| && RemovedPaths(l)[k] == PathOf(l, i);
    RemovedAreCanonical(l, k);
    ApartIff(path, PathOf(l, i));
  }

  lemma NothingIsLeft(w: World, i: Item)
    requires Uninstalled(w)
    ensures !Has(w, i)
  {
  }

  // ---------------------------------------------------------------- with a change pending

  /**
   With an install or upgrade pending, uninstall recovers from it first; what goes after that is held to the
   same test.
   */
  lemma UninstallSparesAfterRecovery(c: Cfg, r: Removal, path: string)
    requires Inv(c.w) && Lists(c.w, r.listing) && c.w.journal.Some? && c.w.journal.value.Change?
    requires WellFormedLayout(r.layout) && HasToSurvive(c.w, r, path) && IsAccepted(path) && !Respells(path, r.layout)
    ensures Spares(Recover(c).After(), RunUninstall(c, r).After(), r.layout, path)
  {
    hide Inv, Idle, Recover, BeginUninstall, Respells, Spares, IsAccepted, WellFormedLayout, HasToSurvive, Lists;
    RecoverSafe(c);
    var c1 := Recover(c);
    if c1.Done? {
      InvIdle(c1.c.w);
      SameSurvivors(c.w, c1.c.w, r, path);
      SameListing(c.w, c1.c.w, r.listing);
      UninstallSpares(c1.c, r, path);
    } else {
      SameIsSpared(c1.After(), r.layout, path);
    }
  }

  lemma SameSurvivors(w: World, v: World, r: Removal, path: string)
    requires HasToSurvive(w, r, path) && v.releases == w.releases
    ensures HasToSurvive(v, r, path)
  {
    assert forall s :: Published(w, s) == Published(v, s);
    if path !in r.preserved {
      var s :| s in w.releases && Published(w, s) && (path == ManifestOf(w, s).runtime.codexBin || path == ManifestOf(w, s).runtime.nodeBin);
      assert Published(v, s) && ManifestOf(v, s) == ManifestOf(w, s);
    }
  }

  lemma SameListing(w: World, v: World, listing: seq<string>)
    requires Lists(w, listing) && v.releases == w.releases
    ensures Lists(v, listing)
  {
    hide StrictlySorted;
  }

  /** What recovery takes away before any check of paths: journal, staging tree, and what an install has set up. */
  predicate Taken(w: World, i: Item) {
    && Has(w, i) && w.journal.Some? && w.journal.value.Change?
    && match i
       case JournalItem => true
       case StagingItem(_) => true
       case ReleasesItem => false
       case ReleaseItem(_) => false
       case _ => w.journal.value.previous.None?
  }

  /** Whatever the releases directory is, recovery leaves it; and until it is over it leaves the journal. */
  lemma RecoveryFrame(c: Cfg)
    requires Inv(c.w) && c.w.journal.Some? && c.w.journal.value.Change?
    ensures var o := Recover(c); o.After().releasesDir == c.w.releasesDir && (!o.Done? ==> o.After().journal == c.w.journal)
  {
    hide Trees, PendingChange, RecoverChange, Idle;
    RecoverChangeFrame(c, c.w.journal.value);
  }

  lemma RecoverChangeFrame(c: Cfg, t: Transaction)
    requires t.Change? && Trees(c.w) && PendingChange(c.w, t)
    ensures var o := RecoverChange(c, t); o.After().releasesDir == c.w.releasesDir && (!o.Done? ==> o.After().journal == c.w.journal)
  {
    hide Trees, PendingChange, UndoChange, RemoveStaging, RemoveJournal;
    UndoChangeSafe(c, t);
  }

  /** An installation with a previous release keeps its selector, links, environment file and enablement. */
  lemma UpgradeKeepsArtifacts(w: World, i: Item)
    requires Inv(w) && w.journal.Some? && w.journal.value.Change? && w.journal.value.previous.Some?
    requires i.SelectorItem? || i.AnchorItem? || i.EnvironmentItem? || i.EnablementItem?
    ensures Has(w, i)
  {
    assert PendingUpgrade(w, w.journal.value);
    ShapeHasArtifacts(w, w.journal.value.previous.value, i);
  }

  lemma ShapeHasArtifacts(w: World, s: string, i: Item)
    requires InstalledShape(w, s) && (i.AnchorItem? || i.EnvironmentItem? || i.EnablementItem? || (i.SelectorItem? && w.current.Some?))
    ensures Has(w, i)
  {
    if i.AnchorItem? {
      match i.anchor
      case ManifestLink => case CommandLink => case CodexLink => case HostLink =>
    }
  }

  lemma InstalledKeepsArtifacts(w: World, i: Item)
    requires Inv(w) && Idle(w) && w.current.Some?
    requires i.SelectorItem? || i.AnchorItem? || i.EnvironmentItem? || i.EnablementItem?
    ensures Has(w, i)
  {
    ShapeHasArtifacts(w, w.current.value, i);
  }

  lemma AbsentHasNone(w: World, i: Item)
    requires Inv(w) && Idle(w) && w.current.None?
    requires i.SelectorItem? || i.AnchorItem? || i.EnvironmentItem? || i.EnablementItem?
    ensures !Has(w, i)
  {
  }

  lemma IdleHasNone(w: World, i: Item)
    requires Idle(w) && (i.JournalItem? || i.StagingItem?)
    ensures !Has(w, i)
  {
  }

  /** Wherever recovery stops, it has taken away nothing else; and when it returns it has taken away all of it. */
  lemma RecoveryTakes(c: Cfg, i: Item)
    requires Inv(c.w) && c.w.journal.Some? && c.w.journal.value.Change? && Has(c.w, i)
    ensures var o := Recover(c); (!Has(o.After(), i) ==> Taken(c.w, i)) && (o.Done? ==> (Taken(c.w, i) <==> !Has(o.After(), i)))
  {
    hide Inv, Idle, Recover;
    RecoverSafe(c);
    RecoveryFrame(c);
    var o := Recover(c);
    var v := o.After();
    if i.JournalItem? || i.StagingItem? {
      if o.Done? { IdleHasNone(v, i); }
    } else if i.SelectorItem? || i.AnchorItem? || i.EnvironmentItem? || i.EnablementItem? {
      if o.Done? {
        if v.current.Some? { InstalledKeepsArtifacts(v, i); } else { AbsentHasNone(v, i); }
        IdleCommitted(v);
      } else if c.w.journal.value.previous.Some? {
        UpgradeKeepsArtifacts(v, i);
      }
    }
  }

  lemma IdleCommitted(w: World)
    requires Idle(w)
    ensures Committed(w) == w.current
  {
  }

  /** What is missing in the end went with the recovery, or after it. */
  lemma SparedThroughRecovery(c: Cfg, r: Removal, path: string)
    requires Inv(c.w) && Lists(c.w, r.listing) && c.w.journal.Some? && c.w.journal.value.Change?
    requires WellFormedLayout(r.layout) && HasToSurvive(c.w, r, path) && IsAccepted(path) && !Respells(path, r.layout)
    requires forall i | Taken(c.w, i) :: Clear(path, PathOf(r.layout, i))
    ensures Spares(c.w, RunUninstall(c, r).After(), r.layout, path)
  {
    hide Inv, Recover, RunUninstall, Respells, IsAccepted, WellFormedLayout, HasToSurvive, Lists, Taken, Has, PathOf;
    UninstallSparesAfterRecovery(c, r, path);
    var v := RunUninstall(c, r).After();
    forall i | Has(c.w, i) && !Has(v, i) ensures Clear(path, PathOf(r.layout, i)) { RecoveryTakes(c, i); }
  }

  /** Every path that has to survive, and that no recovery takes, is clear of everything that is gone. */
  ghost predicate SparesSurvivors(w: World, v: World, r: Removal) {
    WellFormedLayout(r.layout) ==>
      forall path | HasToSurvive(w, r, path) && IsAccepted(path) && !Respells(path, r.layout)
                    && (forall i | Taken(w, i) :: Clear(path, PathOf(r.layout, i)))
        :: Spares(w, v, r.layout, path)
  }

  lemma UninstallSparesSurvivors(c: Cfg, r: Removal)
    requires Inv(c.w) && Lists(c.w, r.listing)
    ensures SparesSurvivors(c.w, RunUninstall(c, r).After(), r)
  {
    hide Inv, Lists, WellFormedLayout, HasToSurvive, IsAccepted, Respells, Spares, RunUninstall, Taken, PathOf;
    if WellFormedLayout(r.layout) {
      forall path | HasToSurvive(c.w, r, path) && IsAccepted(path) && !Respells(path, r.layout)
                    && (forall i | Taken(c.w, i) :: Clear(path, PathOf(r.layout, i)))
        ensures Spares(c.w, RunUninstall(c, r).After(), r.layout, path)
      {
        if c.w.journal.Some? && c.w.journal.value.Change? { SparedThroughRecovery(c, r, path); } else { UninstallSpares(c, r, path); }
      }
    }
  }

  /** Uninstall can end right behind the recovery. */
  lemma DiesAfterRecovery(w: World, r: Removal) returns (plan: seq<Choice>)
    requires Inv(w) && w.journal.Some? && w.journal.value.Change?
    ensures var o := Recover(Cfg(w, plan)); o.Done? && RunUninstall(Cfg(w, plan), r).After() == o.After()
  {
    var c := Cfg(w, AllGo(14));
    assert Calm(c, 14) && ChangeOnly(w);
    hide Inv, Recover, Calm, MayUninstall, HasArtifacts, ExecuteUninstall, NotFound;
    RecoveryCompletes(c);
    plan := RecoverReplay(c, []);
  }

  /**
   With an install or upgrade pending: a path that has to survive is spared by every uninstall exactly when it is
   clear of what the recovery that comes first takes away.
   */
  lemma PendingSparedIff(w: World, r: Removal, path: string)
    requires Inv(w) && Lists(w, r.listing) && w.journal.Some? && w.journal.value.Change?
    requires WellFormedLayout(r.layout) && HasToSurvive(w, r, path) && IsAccepted(path) && !Respells(path, r.layout)
    ensures (forall plan :: Spares(w, RunUninstall(Cfg(w, plan), r).After(), r.layout, path))
            <==> forall i | Taken(w, i) :: Clear(path, PathOf(r.layout, i))
  {
    hide Inv, Recover, RunUninstall, Respells, IsAccepted, WellFormedLayout, HasToSurvive, Lists, Has, PathOf;
    if forall i | Taken(w, i) :: Clear(path, PathOf(r.layout, i)) {
      forall plan ensures Spares(w, RunUninstall(Cfg(w, plan), r).After(), r.layout, path) { SparedThroughRecovery(Cfg(w, plan), r, path); }
    } else {
      var i :| Taken(w, i) && !Clear(path, PathOf(r.layout, i));
      var plan := DiesAfterRecovery(w, r);
      RecoveryTakes(Cfg(w, plan), i);
      assert !Spares(w, RunUninstall(Cfg(w, plan), r).After(), r.layout, path);
    }
  }

  /** A machine on which an install died while it was building its release. */
  function Interrupted(t: Transaction, x: Tree): World
    requires t.Change?
  {
    World(Some(t), None, {}, None, None, true, map[t.staging := x], map[], None, None, false, None, false)
  }

  lemma InterruptedIsPending(t: Transaction, x: Tree)
    requires t.Change? && t.previous.None? && t.phase == Preparing
    ensures Inv(Interrupted(t, x)) && ChangeOnly(Interrupted(t, x)) && Lists(Interrupted(t, x), [])
  {
  }

  /**
   The recovery itself does not ask: it removes its staging tree although the releases directory has to survive,
   and only then does uninstall refuse.
   */
  lemma RecoveryDoesNotAsk(t: Transaction, x: Tree, l: Layout)
    requires t.Change? && t.previous.None? && t.phase == Preparing && IsStagingName(t.staging) && WellFormedLayout(l)
    ensures var w := Interrupted(t, x); var r := Removal(l, [ReleasesDir(l)], []);
            && Inv(w) && HasToSurvive(w, r, ReleasesDir(l)) && !PathsSurvive(w, r)
            && !Spares(w, RunUninstall(Cfg(w, AllGo(15)), r).After(), l, ReleasesDir(l))
  {
    var w, r := Interrupted(t, x), Removal(l, [ReleasesDir(l)], []);
    InterruptedIsPending(t, x);
    ReleasesRefused(w, r, l);
    hide *;
    StagingIsCleared(t, x);
    RefusedAfterRecovery(Cfg(w, AllGo(15)), r, l);
    StagingPath(l, t.staging);
    GoneStaging(w, RunUninstall(Cfg(w, AllGo(15)), r).After(), l, t.staging);
  }

  lemma StagingIsCleared(t: Transaction, x: Tree)
    requires t.Change? && t.previous.None? && t.phase == Preparing
    ensures var w := Interrupted(t, x); var o := Recover(Cfg(w, AllGo(15)));
            && w.journal == Some(t) && t.staging in w.stagings
            && o.Done? && Inv(o.c.w) && o.c.w.journal.None? && o.c.w.stagings == map[] && o.c.w.releases == map[]
  {
    var c := Cfg(Interrupted(t, x), AllGo(15));
    InterruptedIsPending(t, x);
    assert Calm(c, 14);
    hide Inv, Idle, Recover, Calm;
    RecoveryCompletes(c);
    RecoverSafe(c);
  }

  lemma RefusedAfterRecovery(c: Cfg, r: Removal, l: Layout)
    requires r.layout == l && r.preserved == [ReleasesDir(l)] && r.listing == []
    requires c.w.journal.Some? && c.w.journal.value.Change?
    requires var o := Recover(c); o.Done? && Inv(o.c.w) && o.c.w.journal.None? && o.c.w.releases == map[]
    ensures RunUninstall(c, r).After() == Recover(c).c.w
  {
    hide *;
    var c1 := Recover(c).c;
    ReleasesRefused(c1.w, r, l);
    NothingToList(c1.w);
    RefusedChangesNothing(c1, r);
    GoesOnAfterRecovery(c, r);
  }

  lemma NothingToList(w: World)
    requires w.releases == map[]
    ensures Lists(w, [])
  {
  }

  lemma GoesOnAfterRecovery(c: Cfg, r: Removal)
    requires c.w.journal.Some? && c.w.journal.value.Change?
    requires var o := Recover(c); o.Done? && o.c.w.journal.None?
    ensures RunUninstall(c, r) == RunUninstall(Recover(c).c, r)
  {
    hide Recover, BeginUninstall;
  }

  lemma GoneStaging(w: World, v: World, l: Layout, name: string)
    requires name in w.stagings && name !in v.stagings && Place(ReleasesDir(l)) < Place(Under(ReleasesDir(l), name))
    ensures !Spares(w, v, l, ReleasesDir(l))
  {
    hide Place, ReleasesDir, Under;
    assert Has(w, StagingItem(name)) && !Has(v, StagingItem(name));
    assert !Clear(ReleasesDir(l), PathOf(l, StagingItem(name)));
  }

  lemma ReleasesRefused(w: World, r: Removal, l: Layout)
    requires r.layout == l && r.preserved == [ReleasesDir(l)]
    ensures !PathsSurvive(w, r) && HasToSurvive(w, r, ReleasesDir(l))
  {
    ReleasesFirst(l);
    hide RemovedPaths, IsDescendant, ReleasesDir, Complete;
    assert !Apart(r.preserved[0], RemovedPaths(l)[0]);
    assert !Survives(r.preserved[0], l);
  }

  lemma StagingPath(l: Layout, name: string)
    requires WellFormedLayout(l) && IsStagingName(name)
    ensures Place(ReleasesDir(l)) < Place(Under(ReleasesDir(l), name))
  {
    StagingIsPlain(name);
    DataPlaces(l);
    hide Under, Place, IsCanonical, IsStagingName, DataRoot;
    CanonicalEnds(ReleasesDir(l));
    UnderPlace(ReleasesDir(l), name);
    Longer(Place(ReleasesDir(l)), name);
  }

  lemma StagingIsPlain(name: string)
    requires IsStagingName(name)
    ensures PlainName(name)
  {
    forall i | 0 <= i < |name| ensures name[i] != '/' {
      if i < |STAGING_PREFIX| { assert name[i] == STAGING_PREFIX[i]; } else { assert name[i] in name[|STAGING_PREFIX|..]; }
    }
  }
}
