/** The failing inputs are ones the code can receive: runs from an empty machine that lead to each of them. */
module LifecycleWitnesses {
  import opened Common
  import opened SemVer
  import opened Journal
  import opened JournalFacts
  import opened Paths
  import opened Lifecycle
  import opened LifecycleSafety
  import opened LifecyclePrepare
  import opened LifecycleInstall
  import opened LifecycleUpgrade
  import opened LifecycleCommands
  import opened LifecycleUninstall
  import opened LifecycleRuns
  import opened LifecycleOutcomes
  import opened LifecyclePaths
  import opened LifecycleProgress
  import opened LifecycleReplay
  import opened LifecycleJournals
  import opened LifecycleLimits

  // ---------------------------------------------------------------- runs one after the other

  lemma {:induction false} RunConcat(w: World, a: seq<Launch>, b: seq<Launch>)
    ensures Run(w, a + b) == Run(Run(w, a), b)
    ensures ProperRun(w, a) && ProperRun(Run(w, a), b) ==> ProperRun(w, a + b)
    decreases |a|
  {
    hide Execute, Proper;
    if a == [] {
      assert a + b == b;
    } else {
      assert (a + b)[1..] == a[1..] + b;
      RunConcat(Execute(w, a[0]).After(), a[1..], b);
    }
  }

  lemma RunOne(w: World, l: Launch)
    ensures Run(w, [l]) == Execute(w, l).After()
    ensures Proper(w, l.command) ==> ProperRun(w, [l])
  {
    hide Execute, Proper;
    assert [l][1..] == [];
  }

  // ---------------------------------------------------------------- an install that leaves its release behind

  /** Nothing is installed and nothing is pending. */
  predicate Vacant(w: World) { Inv(w) && w.journal.None? && w.current.None? }

  /** An install that dies when its release is ready, and a start that recovers from it. */
  lemma LeaveRelease(w: World, r: Request) returns (launches: seq<Launch>)
    requires Vacant(w) && ValidRequest(r) && |w.releases| <= MAXIMUM_PUBLISHED_RELEASES && SelectorOf(r.package) !in w.releases
    ensures Vacant(Run(w, launches)) && ProperRun(w, launches)
    ensures Run(w, launches).releases == w.releases[SelectorOf(r.package) := LifecyclePrepare.Built(RequestManifest(r))]
  {
    hide Inv, Execute, ReleaseSelector, ValidRequest, Run, ProperRun;
    var plan := DieWhenReady(w, r);
    var l1 := Launch(InstallCommand(r), plan);
    var v1 := Execute(w, l1).After();
    ProperInstall(w, r, plan);
    RecoverByStart(v1);
    var l2 := Launch(RunCommand(Start, true), AllGo(14));
    RunOne(w, l1);
    RunOne(v1, l2);
    ProperStart(v1, true);
    launches := [l1] + [l2];
    RunConcat(w, [l1], [l2]);
  }

  lemma ProperInstall(w: World, r: Request, plan: seq<Choice>)
    requires ValidRequest(r)
    ensures Proper(w, Launch(InstallCommand(r), plan).command)
  {
  }

  lemma ProperStart(w: World, statusReads: bool)
    ensures Proper(w, Launch(RunCommand(Start, statusReads), AllGo(14)).command)
  {
  }

  lemma DieWhenReady(w: World, r: Request) returns (plan: seq<Choice>)
    requires Vacant(w) && ValidRequest(r) && |w.releases| <= MAXIMUM_PUBLISHED_RELEASES && SelectorOf(r.package) !in w.releases
    ensures var v := Execute(w, Launch(InstallCommand(r), plan)).After();
            && Inv(v) && ChangeOnly(v) && Committed(v).None?
            && v.releases == w.releases[SelectorOf(r.package) := LifecyclePrepare.Built(RequestManifest(r))]
  {
    InvIdle(w);
    AbsentMeans(w);
    CountDecides(w);
    var c, t := Cfg(w, AllGo(13)), FreshTransaction(r);
    assert Calm(c, 13);
    assert UsableLeftover(w, SelectorOf(r.package), r.runtime);
    hide Inv, Idle, FreshBegin, PublishedReleases, UsableLeftover, Inspect, ReleaseSelector, ValidRequest, Calm, PrepMoves, Installing, Suitable;
    FreshBeginCalm(c, r, 13);
    FreshBeginSafe(c, r);
    var v := FreshBegin(c, r).c.w;
    plan := FreshBeginReplay(c, r, []);
    ReadyToPlace(w, v, r);
    DieBeforePlacing(v, t, r);
    assert FreshInstall(Cfg(w, plan), r) == Crashed(v) by { hide InstallCommit; }
    assert Execute(w, Launch(InstallCommand(r), plan)) == Crashed(v) by { hide FreshInstall; }
  }

  lemma ReadyToPlace(w: World, v: World, r: Request)
    requires Vacant(w) && SelectorOf(r.package) !in w.releases
    requires PrepMoves(w.(journal := Some(FreshTransaction(r))), v, FreshTransaction(r), RequestManifest(r)) && SelectorOf(r.package) in v.releases
    ensures v.releases == w.releases[SelectorOf(r.package) := LifecyclePrepare.Built(RequestManifest(r))] && v.environment.None?
  {
    AbsentMeans2(w);
    hide Inv, ReleaseSelector;
  }

  lemma AbsentMeans2(w: World)
    requires Vacant(w)
    ensures w.environment.None?
  {
  }

  lemma DieBeforePlacing(w: World, t: Transaction, r: Request)
    requires t.Change? && w.environment.None?
    ensures InstallCommit(Cfg(w, []), t, r) == Crashed(w)
  {
    hide PublishAnchors, ActivateInstall, FinishInstall;
  }

  lemma RecoverByStart(w: World)
    requires Inv(w) && ChangeOnly(w) && Committed(w).None?
    ensures var v := Execute(w, Launch(RunCommand(Start, true), AllGo(14))).After();
            Vacant(v) && v.releases == w.releases
  {
    var c := Cfg(w, AllGo(14));
    assert Calm(c, 14);
    hide Inv, Idle, Recover, ChangeRunning, Calm, ChangeOnly, Inspect, InstalledIdentity;
    RecoveryCompletes(c);
    RecoverSafe(c);
    var v := Recover(c).c.w;
    assert SetRunning(c, Start, true).After() == v;
  }

  // ---------------------------------------------------------------- a leftover for another environment file

  lemma EmptyIsVacant()
    ensures Vacant(EMPTY) && Idle(EMPTY) && Lists(EMPTY, []) && Inspect(EMPTY) == Absent
  {
  }

  /**
   An install that dies when its release is ready, a start, and an install of the same release with another
   environment file that dies at its sixth step: the mixture is there, and nothing gets away from it any more.
   */
  lemma MismatchIsReached(r: Request, environment: string) returns (launches: seq<Launch>)
    requires ValidRequest(r) && IsSha256(environment) && environment != r.environment
    ensures ProperRun(EMPTY, launches) && Mismatched(Run(EMPTY, launches))
    ensures forall more: seq<Launch> :: Run(EMPTY, launches + more) == Run(EMPTY, launches)
  {
    EmptyIsVacant();
    hide Vacant, ValidRequest, Execute, Run, ProperRun, Mismatched, ReleaseSelector;
    var first := LeaveRelease(EMPTY, r);
    var w := Run(EMPTY, first);
    var again := r.(environment := environment);
    var last := Launch(InstallCommand(again), SIX);
    ReuseMixes(w, r, environment);
    RunOne(w, last);
    launches := first + [last];
    RunConcat(EMPTY, first, [last]);
    forall more: seq<Launch> ensures Run(EMPTY, launches + more) == Run(EMPTY, launches) {
      RunConcat(EMPTY, launches, more);
      MismatchIsForever(Run(EMPTY, launches), more);
    }
  }

  lemma ReuseMixes(w: World, r: Request, environment: string)
    requires Vacant(w) && ValidRequest(r) && IsSha256(environment) && environment != r.environment
    requires w.releases == map[SelectorOf(r.package) := LifecyclePrepare.Built(RequestManifest(r))]
    ensures var again := r.(environment := environment);
            Proper(w, InstallCommand(again)) && Mismatched(Execute(w, Launch(InstallCommand(again), SIX)).After())
  {
    var again := r.(environment := environment);
    assert Published(w, SelectorOf(r.package)) && ManifestOf(w, SelectorOf(r.package)) == RequestManifest(r);
    assert |w.releases| == 1;
    InvIdle(w);
    AbsentMeans(w);
    CountDecides(w);
    hide Inv, Idle, FreshInstall, Inspect, Complete, ReleaseSelector, PublishedReleases, Mismatched;
    assert Reuses(w, again);
    SixStepsIn(w, again);
    SixStepsMismatch(w, again);
  }

  // ---------------------------------------------------------------- an uninstall over an interrupted install

  /** What an install leaves that dies when it has marked its staging tree. */
  lemma MarkedThenDied(r: Request)
    ensures Install(Cfg(EMPTY, SIX), r).After() == Interrupted(FreshTransaction(r), Tree(true, None, None, None))
  {
    var t := FreshTransaction(r);
    var w3 := EMPTY.(journal := Some(t));
    var w6 := Interrupted(t, Tree(true, None, None, None));
    hide ReleaseSelector, InstallCommit, InstallRollback;
    assert SIX[1..] == [Go, Go, Go, Go, Go] && SIX[1..][1..] == [Go, Go, Go, Go] && SIX[1..][1..][1..] == [Go, Go, Go];
    OpenedThenDied(w3, t, RequestManifest(r));
    assert FreshBegin(Cfg(EMPTY, SIX), r) == Prepare(Cfg(w3, [Go, Go, Go]), t, RequestManifest(r)) by { hide Prepare; }
    hide FreshBegin, Prepare;
    assert FreshInstall(Cfg(EMPTY, SIX), r) == Crashed(w6);
  }

  lemma OpenedThenDied(w: World, t: Transaction, m: Manifest)
    requires t.Change? && w == EMPTY.(journal := Some(t))
    ensures Prepare(Cfg(w, [Go, Go, Go]), t, m) == Crashed(w.(releasesDir := true, stagings := map[t.staging := Tree(true, None, None, None)]))
  {
    var v := w.(releasesDir := true, stagings := map[t.staging := Tree(true, None, None, None)]);
    assert [Go, Go, Go][1..] == [Go, Go] && [Go, Go][1..] == [Go] && [Go][1..] == [];
    assert OpenStaging(Cfg(w, [Go, Go, Go]), t) == Done(Cfg(v, []));
    hide OpenStaging;
    assert BuildOrClean(Cfg(v, []), t, m) == Crashed(v);
  }

  /**
   From an empty machine, with the releases directory as a path that has to survive: an install that dies while it
   builds its release, and an uninstall, which takes the staging tree below that path.
   */
  lemma InterruptedIsReached(r: Request, l: Layout) returns (launches: seq<Launch>)
    requires ValidRequest(r) && IsStagingName(r.staging) && WellFormedLayout(l)
    ensures ProperRun(EMPTY, launches)
    ensures var w := Run(EMPTY, launches); var u := Removal(l, [ReleasesDir(l)], []);
            && Inv(w) && Proper(w, UninstallCommand(u)) && HasToSurvive(w, u, ReleasesDir(l)) && !PathsSurvive(w, u)
            && !Spares(w, Execute(w, Launch(UninstallCommand(u), AllGo(15))).After(), l, ReleasesDir(l))
  {
    hide Execute, Run, ProperRun, ValidRequest, Install, ReleaseSelector;
    var launch := Launch(InstallCommand(r), SIX);
    MarkedThenDied(r);
    InstallLaunch(EMPTY, r, SIX);
    RunOne(EMPTY, launch);
    ProperInstall(EMPTY, r, SIX);
    launches := [launch];
    InterruptedIsPending(FreshTransaction(r), Tree(true, None, None, None));
    RecoveryDoesNotAsk(FreshTransaction(r), Tree(true, None, None, None), l);
    UninstallLaunch(Interrupted(FreshTransaction(r), Tree(true, None, None, None)), Removal(l, [ReleasesDir(l)], []), AllGo(15));
  }

  lemma InstallLaunch(w: World, r: Request, plan: seq<Choice>)
    ensures Execute(w, Launch(InstallCommand(r), plan)) == Install(Cfg(w, plan), r)
  {
  }

  lemma UninstallLaunch(w: World, r: Removal, plan: seq<Choice>)
    ensures Execute(w, Launch(UninstallCommand(r), plan)) == RunUninstall(Cfg(w, plan), r)
    ensures Proper(w, UninstallCommand(r)) == Lists(w, r.listing)
  {
  }

  // ---------------------------------------------------------------- a status read that fails after the commit

  /** The first install on an empty machine already can be cut off after its commit where nothing helps any more. */
  lemma UnreadInstallIsReached(r: Request) returns (launch: Launch)
    requires ValidRequest(r) && r.listing == [] && !r.statusReads
    ensures Proper(EMPTY, launch.command) && !Inv(Execute(EMPTY, launch).After())
  {
    EmptyIsVacant();
    assert MayInstall(EMPTY, r) && SameLeftover(EMPTY, SelectorOf(r.package), r.environment);
    hide Inv, Install, ReleaseSelector, ValidRequest, MayInstall, SameLeftover;
    InstallIsSafeIff(EMPTY, r);
    var plan :| !Inv(Install(Cfg(EMPTY, plan), r).After());
    launch := Launch(InstallCommand(r), plan);
  }

  /** So can an upgrade of what that install would have left. */
  lemma UnreadUpgradeIsReached(r: Request, u: Request) returns (launches: seq<Launch>)
    requires ValidRequest(r) && r.listing == [] && r.statusReads
    requires ValidPackage(u.package) && Newer(u.package, r.package) && u.listing == [SelectorOf(r.package)] && !u.statusReads
    ensures ProperRun(EMPTY, launches) && !Inv(Run(EMPTY, launches))
  {
    hide Inv, Install, Upgrade, ReleaseSelector, ValidRequest, Execute, Run, ProperRun, Newer, ValidPackage;
    var plan1 := InstallFirst(r);
    var l1 := Launch(InstallCommand(r), plan1);
    var w := Execute(EMPTY, l1).After();
    var plan2 := UpgradeCutOff(w, r, u);
    var l2 := Launch(UpgradeCommand(u), plan2);
    ProperInstall(EMPTY, r, plan1);
    ProperUpgrade(w, u, plan2);
    RunOne(EMPTY, l1);
    RunOne(w, l2);
    launches := [l1] + [l2];
    RunConcat(EMPTY, [l1], [l2]);
    assert Run(EMPTY, launches) == Execute(w, l2).After();
  }

  lemma ProperUpgrade(w: World, r: Request, plan: seq<Choice>)
    requires ValidPackage(r.package)
    ensures Proper(w, Launch(UpgradeCommand(r), plan).command)
  {
  }

  /** Exactly this release, idle and stopped. */
  predicate InstalledOnly(w: World, r: Request) {
    && Inv(w) && Idle(w) && w.current == Some(SelectorOf(r.package)) && w.releases.Keys == {SelectorOf(r.package)} && w.host.None?
    && Published(w, SelectorOf(r.package)) && ManifestOf(w, SelectorOf(r.package)).package.version == r.package.version
  }

  lemma InstallFirst(r: Request) returns (plan: seq<Choice>)
    requires ValidRequest(r) && r.listing == [] && r.statusReads
    ensures InstalledOnly(Execute(EMPTY, Launch(InstallCommand(r), plan)).After(), r)
  {
    EmptyIsVacant();
    assert MayInstall(EMPTY, r) && SameLeftover(EMPTY, SelectorOf(r.package), r.environment);
    hide Inv, Idle, ReleaseSelector, ValidRequest, MayInstall, SameLeftover, FreshInstall;
    InstallCompletesIff(EMPTY, r);
    plan :| Install(Cfg(EMPTY, plan), r).Done?;
    InstalledFirst(Cfg(EMPTY, plan), r);
  }

  lemma InstalledFirst(c: Cfg, r: Request)
    requires c.w == EMPTY && ValidRequest(r) && r.statusReads && FreshInstall(c, r).Done?
    ensures InstalledOnly(FreshInstall(c, r).c.w, r)
  {
    EmptyIsVacant();
    var v := FreshInstall(c, r).c.w;
    assert SameLeftover(EMPTY, SelectorOf(r.package), r.environment);
    hide Inv, Idle, FreshInstall, ReleaseSelector, ValidRequest, Mixed, SameLeftover, LateInstallRollback;
    FreshInstallSafe(c, r);
    StoppedHost(c, r);
    InstalledIsPublished(v, r);
  }

  lemma StoppedHost(c: Cfg, r: Request)
    requires c.w == EMPTY && ValidRequest(r) && FreshInstall(c, r).Done?
    ensures FreshInstall(c, r).c.w.host.None?
  {
    EmptyIsVacant();
    hide Inv, Idle, FreshBegin, InstallCommit, InstallRollback, ReleaseSelector, ValidRequest, Installing, SameLeftover;
    FreshBeginSafe(c, r);
    var c1 := FreshBegin(c, r).c;
    NeverDone(c1, r);
    InstallCommitSafe(c1, FreshTransaction(r), r);
  }

  lemma InstalledIsPublished(w: World, r: Request)
    requires Inv(w) && Idle(w) && w.current == Some(SelectorOf(r.package)) && ValidRequest(r)
    ensures var s := SelectorOf(r.package); Published(w, s) && ManifestOf(w, s).package.version == r.package.version
  {
    IdleInspects(w);
    var s := SelectorOf(r.package);
    PublishedName(w, s);
    var p := ManifestOf(w, s).package;
    SelectorInjective(p.version, p.manifestSha, r.package.version, r.package.manifestSha);
  }

  lemma UpgradeCutOff(w: World, r: Request, u: Request) returns (plan: seq<Choice>)
    requires InstalledOnly(w, r) && ValidRequest(r)
    requires ValidPackage(u.package) && Newer(u.package, r.package) && u.listing == [SelectorOf(r.package)] && !u.statusReads
    ensures !Inv(Execute(w, Launch(UpgradeCommand(u), plan)).After())
  {
    IdleIdentity(w);
    OneListed(w, u.listing);
    MayUpgradeFirst(w, r, u);
    hide Inv, Upgrade, ReleaseSelector, ValidRequest, MayUpgrade, SamePackage, Lists, Inspect, Newer, Complete;
    UpgradeIsSafeIff(w, u);
    plan :| !Inv(Upgrade(Cfg(w, plan), u).After());
  }

  lemma OneListed(w: World, listing: seq<string>)
    requires |listing| == 1 && w.releases.Keys == {listing[0]}
    ensures Lists(w, listing) && |w.releases| == 1
  {
    assert |w.releases| == |w.releases.Keys|;
    assert forall s | s in w.releases :: s in w.releases.Keys;
    assert listing[0] in w.releases.Keys;
  }

  lemma MayUpgradeFirst(w: World, r: Request, u: Request)
    requires InstalledOnly(w, r) && ValidRequest(r) && |w.releases| == 1
    requires ValidPackage(u.package) && Newer(u.package, r.package) && Inspect(w) == Coherent
    ensures MayUpgrade(w, u) && !SamePackage(w, u)
  {
    NewerIsAnother(u.package, r.package);
    SameVersionNotNewer(u.package, r.package);
    assert SelectorOf(u.package) !in w.releases.Keys;
    hide Inv, Idle, Complete, ReleaseSelector, CompareVersions;
  }

  lemma SameVersionNotNewer(p: Package, q: Package)
    requires ValidPackage(p) && ValidPackage(q) && Newer(p, q)
    ensures p.version != q.version
  {
    CompareVersionsIsPrecedence(p.version, q.version);
  }

  // ---------------------------------------------------------------- a journal that cannot be read

  function Hex(): string { seq(64, j => 'a') }

  function LongRequest(i: nat, runtime: Runtime): Request
    requires i < 64
  {
    Request(Package(LongVersion(i), Hex(), ""), Hex(), runtime, STAGING_PREFIX + seq(32, j => 'a'), [], true)
  }

  /** The first `n` releases with long versions have been left behind. */
  predicate LongLeft(w: World, n: nat, runtime: Runtime)
    requires n <= 64
  {
    && Vacant(w) && |w.releases| == n
    && (forall s | s in w.releases :: exists i: nat | i < n :: s == LongSelector(i))
    && (forall i: nat | i < n :: LongSelector(i) in w.releases && w.releases[LongSelector(i)].manifest == Some(RequestManifest(LongRequest(i, runtime))))
  }

  lemma LongIsValid(i: nat, runtime: Runtime)
    requires i < 64
    ensures ValidRequest(LongRequest(i, runtime)) && SelectorOf(LongRequest(i, runtime).package) == LongSelector(i)
    ensures IsStagingName(LongRequest(i, runtime).staging)
  {
    LongVersionSupported(i);
    assert IsSha256(Hex());
    assert Hex() == seq(64, j => 'a');
  }

  lemma {:induction false} LongRun(n: nat, runtime: Runtime) returns (launches: seq<Launch>)
    requires n <= 64
    ensures ProperRun(EMPTY, launches) && LongLeft(Run(EMPTY, launches), n, runtime)
  {
    hide Vacant, Run, ProperRun, LongSelector, LongVersion, ValidRequest;
    if n == 0 {
      EmptyIsVacant();
      launches := [];
      EmptyRun();
    } else {
      var before := LongRun(n - 1, runtime);
      var w := Run(EMPTY, before);
      var r := LongRequest(n - 1, runtime);
      LongIsValid(n - 1, runtime);
      LongIsNew(w, n, runtime);
      var more := LeaveRelease(w, r);
      launches := before + more;
      RunConcat(EMPTY, before, more);
      LongGrows(w, Run(w, more), n, runtime);
    }
  }

  lemma EmptyRun()
    ensures Run(EMPTY, []) == EMPTY && ProperRun(EMPTY, [])
  {
  }

  lemma {:induction false} LongSelectorsDiffer(i: nat, j: nat)
    requires i < j < 64
    ensures CompareText(LongSelector(i), LongSelector(j)) < 0 && LongSelector(i) != LongSelector(j)
    decreases j
  {
    hide LongSelector;
    LongSelectorsSorted(j);
    if i < j - 1 {
      LongSelectorsDiffer(i, j - 1);
      CompareTextTransitive(LongSelector(i), LongSelector(j - 1), LongSelector(j));
    }
    CompareTextLaws(LongSelector(i), LongSelector(j));
  }

  lemma LongIsNew(w: World, n: nat, runtime: Runtime)
    requires 0 < n <= 64 && LongLeft(w, n - 1, runtime)
    ensures LongSelector(n - 1) !in w.releases
  {
    hide LongSelector, Vacant;
    if LongSelector(n - 1) in w.releases {
      var i: nat :| i < n - 1 && LongSelector(n - 1) == LongSelector(i);
      LongSelectorsDiffer(i, n - 1);
    }
  }

  lemma LongGrows(w: World, v: World, n: nat, runtime: Runtime)
    requires 0 < n <= 64 && LongLeft(w, n - 1, runtime) && Vacant(v) && LongSelector(n - 1) !in w.releases
    requires v.releases == w.releases[LongSelector(n - 1) := LifecyclePrepare.Built(RequestManifest(LongRequest(n - 1, runtime)))]
    ensures LongLeft(v, n, runtime)
  {
    hide LongSelector, Vacant, LongVersion, RequestManifest, LongRequest;
    OneMore(w.releases, LongSelector(n - 1), v.releases[LongSelector(n - 1)]);
    forall i: nat | i < n
      ensures LongSelector(i) in v.releases && v.releases[LongSelector(i)].manifest == Some(RequestManifest(LongRequest(i, runtime)))
    {
      if i < n - 1 { LongSelectorsDiffer(i, n - 1); }
    }
  }

  lemma OneMore(m: map<string, Tree>, s: string, x: Tree)
    requires s !in m
    ensures |m[s := x]| == |m| + 1
  {
    assert m[s := x].Keys == m.Keys + {s};
    assert |m[s := x]| == |m[s := x].Keys| && |m| == |m.Keys|;
  }

  /** The sixty-four names, as the directory lists them. */
  function LongListing(): seq<string> { LongJournal().selectors }

  lemma LongLists(w: World, runtime: Runtime)
    requires LongLeft(w, 64, runtime)
    ensures Lists(w, LongListing()) && |LongListing()| == 64
  {
    hide LongSelector, Vacant;
    var s := LongListing();
    forall i | 0 < i < |s| ensures CompareText(s[i - 1], s[i]) < 0 { LongSelectorsSorted(i); }
    forall x | x in w.releases ensures x in s {
      var i: nat :| i < 64 && x == LongSelector(i);
      assert s[i] == x;
    }
  }

  lemma LongManifest(w: World, s: string, runtime: Runtime)
    requires LongLeft(w, 64, runtime) && s in w.releases
    ensures Published(w, s) && ManifestOf(w, s).environment == Hex() && ManifestOf(w, s).runtime == runtime
  {
    VacantPublished(w, s);
    hide Vacant, Complete, LongSelector;
    var i: nat :| i < 64 && s == LongSelector(i);
  }

  lemma VacantPublished(w: World, s: string)
    requires Vacant(w) && s in w.releases
    ensures Published(w, s)
  {
  }

  /** What an uninstall would write there is the journal that cannot be read again, and all its checks pass. */
  lemma LongJournalIsWritten(w: World, runtime: Runtime, l: Layout)
    requires LongLeft(w, 64, runtime) && Survives(runtime.codexBin, l) && Survives(runtime.nodeBin, l)
    ensures var r := Removal(l, [], LongListing());
            && Lists(w, r.listing) && MayUninstall(w, r) && HasArtifacts(w) && UninstallTransaction(w, r) == LongJournal()
  {
    var r := Removal(l, [], LongListing());
    LongLists(w, runtime);
    VacantMeans(w);
    forall s | s in w.releases ensures Published(w, s) && ManifestOf(w, s).environment == Hex() && ManifestOf(w, s).runtime == runtime {
      LongManifest(w, s, runtime);
    }
    assert |w.releases| == 64;
    hide LongSelector, LongLeft, Survives, Inv, Complete, StrictlySorted, LongJournal;
    AlikeMayUninstall(w, runtime, r);
    LongTransaction(w, r);
  }

  lemma AlikeMayUninstall(w: World, runtime: Runtime, r: Removal)
    requires Lists(w, r.listing) && |r.listing| == 64 && |w.releases| == 64 && w.stagings == map[] && r.preserved == []
    requires ArtifactsAbsent(w) && NoUnits(w) && !w.enabled && !NeedsReload(w)
    requires Survives(runtime.codexBin, r.layout) && Survives(runtime.nodeBin, r.layout)
    requires forall s | s in w.releases :: Published(w, s) && ManifestOf(w, s).environment == Hex() && ManifestOf(w, s).runtime == runtime
    ensures MayUninstall(w, r) && HasArtifacts(w) && CommonEnvironment(w, r.listing) == Some(Hex())
  {
    hide Survives, Complete, StrictlySorted, NeedsReload, Hex;
    assert r.listing[0] in w.releases;
    assert w.releases != map[];
  }

  lemma LongTransaction(w: World, r: Removal)
    requires w.current.None? && r.listing == LongListing() && CommonEnvironment(w, r.listing) == Some(Hex())
    ensures UninstallTransaction(w, r) == LongJournal()
  {
    hide CommonEnvironment, LongSelector;
  }

  lemma VacantMeans(w: World)
    requires Vacant(w)
    ensures w.stagings == map[] && ArtifactsAbsent(w) && NoUnits(w) && !w.enabled && w.journal.None? && Idle(w) && !NeedsReload(w)
  {
  }

  lemma LongDoesNotFit()
    ensures !FitsAtEveryStage(LongJournal()) && !Readable(LongJournal())
  {
    var t := LongJournal();
    assert t.Uninstall? && t.stage == Ready;
    hide LongJournal, ReadTransaction, Render, FitsAtEveryStage, Readable;
    LongJournalCannotBeRead();
    TooLongFromTheStart(t);
  }

  lemma TooLongFromTheStart(t: Transaction)
    requires t.Uninstall? && t.stage == Ready && JournalFacts.Built(t) && ReadTransaction(Render(t)) == None
    ensures !FitsAtEveryStage(t) && !Readable(t)
  {
    hide ReadTransaction, Render, Bytes;
    BuiltIsValid(t);
    RoundTrip(t);
    FitsMeans(t);
    StageSize(t, Journal.Reloaded);
    StageSize(t, Ready);
    assert t.(stage := Ready) == t;
    hide Valid, JournalFacts.Built;
  }

  /**
   From an empty machine, sixty-four installs that die when their release is ready, each followed by a start:
   no uninstall after that can be completed, and one that dies when it has written its journal leaves a machine
   on which no command changes anything any more.
   */
  lemma LongJournalIsReached(runtime: Runtime, l: Layout) returns (launches: seq<Launch>)
    requires Survives(runtime.codexBin, l) && Survives(runtime.nodeBin, l)
    ensures ProperRun(EMPTY, launches)
    ensures var w := Run(EMPTY, launches); var r := Removal(l, [], LongListing());
            && Inv(w) && MayUninstall(w, r)
            && (forall plan :: !RunUninstall(Cfg(w, plan), r).Done?)
            && var v := Execute(w, Launch(UninstallCommand(r), [Go, Go])).After();
               v.journal == Some(LongJournal()) && forall more: seq<Launch> :: Run(v, more) == v
  {
    hide Run, ProperRun, LongJournal, LongListing, Survives, FitsAtEveryStage, Readable, Execute;
    launches := LongRun(64, runtime);
    var w, r := Run(EMPTY, launches), Removal(l, [], LongListing());
    LongJournalIsWritten(w, runtime, l);
    LongDoesNotFit();
    VacantInv(w, runtime);
    hide LongLeft, Inv, MayUninstall, HasArtifacts, Lists, UninstallTransaction;
    FreshUninstallCompletesIff(w, r);
    WrittenThenDied(w, r);
    forall more: seq<Launch> ensures Run(Execute(w, Launch(UninstallCommand(r), [Go, Go])).After(), more)
                                     == Execute(w, Launch(UninstallCommand(r), [Go, Go])).After()
    {
      UnreadableIsForever(w.(journal := Some(LongJournal())), more);
    }
  }

  lemma VacantInv(w: World, runtime: Runtime)
    requires LongLeft(w, 64, runtime)
    ensures Inv(w) && w.journal.None?
  {
    hide LongSelector;
  }

  lemma WrittenThenDied(w: World, r: Removal)
    requires w.journal.None? && MayUninstall(w, r) && HasArtifacts(w)
    ensures Execute(w, Launch(UninstallCommand(r), [Go, Go])).After() == w.(journal := Some(UninstallTransaction(w, r)))
  {
    var t := UninstallTransaction(w, r);
    UninstallTransactionKind(w, r);
    hide MayUninstall, HasArtifacts, UninstallTransaction, StopUnits, DisableUnits, ClearAway, OwnedByTransaction, PathsSurvive, ManagerKnown;
    assert [Go, Go][1..] == [Go] && [Go][1..] == [];
    assert ExecuteUninstall(Cfg(w.(journal := Some(t)), []), t, r) == Crashed(w.(journal := Some(t)));
  }

  lemma UnreadableRefuses(w: World, l: Launch)
    requires w.journal.Some? && w.journal.value.Uninstall? && !Readable(w.journal.value)
    ensures Execute(w, l).After() == w
  {
    hide Readable, Inspect, InstallAgain, FreshInstall, ChangingUpgrade, ChangeRunning, BeginUninstall, RecoverChange;
  }

  /** Once the journal of an uninstall is too long, no command gets anywhere. */
  lemma {:induction false} UnreadableIsForever(w: World, launches: seq<Launch>)
    requires w.journal.Some? && w.journal.value.Uninstall? && !Readable(w.journal.value)
    ensures Run(w, launches) == w
    decreases |launches|
  {
    hide Readable, Execute;
    if launches != [] {
      UnreadableRefuses(w, launches[0]);
      UnreadableIsForever(w, launches[1..]);
    }
  }

  // ---------------------------------------------------------------- there are such packages, programs and places

  lemma TwoVersions()
    ensures IsSupported("1.0.0") && IsSupported("2.0.0") && CompareVersions("2.0.0", "1.0.0") == Some(1)
  {
    PlainVersion("1");
    PlainVersion("2");
    var v, w := Version(["1", "0", "0"], None), Version(["2", "0", "0"], None);
    assert "1" + ".0.0" == "1.0.0" && "2" + ".0.0" == "2.0.0";
    assert CompareNumeric("2", "1") == 1;
  }

  lemma PlainVersion(major: string)
    requires |major| == 1 && '0' < major[0] <= '9'
    ensures var v := Version([major, "0", "0"], None);
            WellFormed(v) && VersionText(v) == major + ".0.0" && Parse(major + ".0.0") == v && IsSupported(major + ".0.0")
  {
    var v := Version([major, "0", "0"], None);
    ParseText(v);
    assert v.numbers[1..] == ["0", "0"] && ["0", "0"][1..] == ["0"];
    assert Join(["0", "0"], '.') == "0" + ['.'] + Join(["0"], '.');
    assert Join(v.numbers, '.') == major + ['.'] + Join(["0", "0"], '.');
  }

  /** A package and a strictly newer one. */
  lemma TwoPackages() returns (older: Package, newer: Package)
    ensures ValidPackage(older) && ValidPackage(newer) && Newer(newer, older)
  {
    TwoVersions();
    older, newer := Package("1.0.0", Hex(), ""), Package("2.0.0", Hex(), "");
    assert IsSha256(Hex());
    hide IsSupported, CompareVersions;
  }

  /** Programs and directories for which every check on paths passes. */
  lemma SomewhereElse() returns (runtime: Runtime, l: Layout)
    ensures WellFormedLayout(l) && Survives(runtime.codexBin, l) && Survives(runtime.nodeBin, l)
  {
    runtime, l := Runtime("/c", "/n"), Layout("/x", "/y", "/z");
    OneName('x');
    OneName('y');
    OneName('z');
    OneName('c');
    OneName('n');
    hide Place, IsCanonical, IsAccepted, Survives;
    ElsewhereSurvives(l, "/c");
    ElsewhereSurvives(l, "/n");
  }

  lemma OneName(c: char)
    requires c != '/' && c != '.'
    ensures IsAccepted(['/', c]) && Place(['/', c]) == [[c]]
  {
    assert ['/', c][1..] == [c];
    SplitPlain([c], '/');
    assert Stripped(['/', c]) == ['/', c];
  }
}
