/**
 The installer as it runs: an object whose fields are the files and the manager's state, changed step by
 step. Every method is proved equal, outcome and new state, to the function of the same name.
 */
module LifecycleHost {
  import opened Common
  import opened SemVer
  import opened Journal
  import L = Lifecycle
  import opened Lifecycle
  import LifecycleSafety
  import LifecyclePrepare
  import LifecycleInstall
  import LifecycleUpgrade
  import LifecycleCommands
  import LifecycleUninstall
  import LifecycleOutcomes
  import LifecyclePaths

  datatype Status = Ok | Fails(code: Code) | Died {
    predicate IsFailure() { !Ok? }

    function PropagateFailure(): Status
      requires IsFailure()
    {
      this
    }
  }

  class ServiceHost {
    var journal: Option<Transaction>
    var current: Option<string>
    var anchors: set<Anchor>
    var environment: Option<string>
    var enablement: Option<Target>
    var releasesDir: bool
    var stagings: map<string, Tree>
    var releases: map<string, Tree>
    var hostDefs: Option<string>
    var codexDefs: Option<string>
    var enabled: bool
    var host: Option<string>
    var codex: bool
    /** What the environment will answer to the next steps. */
    var plan: seq<Choice>

    function Here(): World
      reads this
    {
      World(journal, current, anchors, environment, enablement, releasesDir, stagings, releases,
            hostDefs, codexDefs, enabled, host, codex)
    }

    function Now(): Cfg
      reads this
    {
      Cfg(Here(), plan)
    }

    /** Recoverable: what every command keeps, and recovery starts from. */
    predicate Recoverable()
      reads this
    {
      LifecycleSafety.Inv(Here())
    }

    function Committed(): Option<string>
      reads this
    {
      LifecycleSafety.Committed(Here())
    }

    function Ended(s: Status): Outcome
      reads this
    {
      match s
      case Ok => Done(Now())
      case Fails(code) => Failed(Now(), code)
      case Died => Crashed(Here())
    }

    constructor (c: Cfg)
      ensures Now() == c
    {
      journal, current, anchors, environment, enablement := c.w.journal, c.w.current, c.w.anchors, c.w.environment, c.w.enablement;
      releasesDir, stagings, releases := c.w.releasesDir, c.w.stagings, c.w.releases;
      hostDefs, codexDefs, enabled, host, codex := c.w.hostDefs, c.w.codexDefs, c.w.enabled, c.w.host, c.w.codex;
      plan := c.plan;
    }

    // -------------------------------------------------------------- one step

    /** Asks the environment for the next step; the caller makes the change when it is let through. */
    method Attempt(allowed: bool, code: Code) returns (s: Status)
      modifies `plan
      ensures Ended(s) == Check(old(Now()), allowed, code)
      ensures forall after :: Step(old(Now()), allowed, after, code) == if s.Ok? then Done(Cfg(after, plan)) else Ended(s)
    {
      if plan == [] { return Died; }
      var choice := plan[0];
      plan := plan[1..];
      s := if choice.Go? && allowed then Ok else Fails(code);
    }

    function Answered(s: Status, took: bool, after: World, late: World): Outcome
      reads this
    {
      match s
      case Ok => Done(Cfg(after, plan))
      case Fails(code) => Failed(Cfg(if took then late else Here(), plan), code)
      case Died => Crashed(Here())
    }

    /** Asks the manager; `took` tells whether the call has its effect although it may report failure. */
    method Ask(allowed: bool) returns (s: Status, took: bool)
      modifies `plan
      ensures forall after, late :: Call(old(Now()), allowed, after, late) == Answered(s, took, after, late)
      ensures s.Ok? ==> took
      ensures s.Died? ==> !took
    {
      if plan == [] { return Died, false; }
      var choice := plan[0];
      plan := plan[1..];
      if !allowed || choice.Fail? { return Fails(LifecycleFailed), false; }
      if choice.Late? { return Fails(LifecycleFailed), true; }
      return Ok, true;
    }

    // -------------------------------------------------------------- the service manager

    method LoadUnits()
      modifies `hostDefs, `codexDefs, `enabled
      ensures Here() == AfterReload(old(Here())) && plan == old(plan)
    {
      hostDefs, codexDefs, enabled := OnDisk(Here(), HostLink), OnDisk(Here(), CodexLink), enablement.Some?;
    }

    method Reload() returns (s: Status)
      modifies this
      ensures Ended(s) == L.Reload(old(Now()))
    {
      var took;
      s, took := Ask(true);
      if took { LoadUnits(); }
    }

    method Enable() returns (s: Status)
      modifies this
      ensures Ended(s) == L.Enable(old(Now()))
    {
      var took;
      s, took := Ask(hostDefs.Some?);
      if took {
        if enablement.None? && current.Some? { enablement := Some(InRelease(current.value)); }
        LoadUnits();
      }
    }

    method Disable() returns (s: Status)
      modifies this
      ensures Ended(s) == L.Disable(old(Now()))
    {
      var took;
      s, took := Ask(true);
      if took {
        enablement := None;
        LoadUnits();
      }
    }

    method Restart() returns (s: Status)
      modifies this
      ensures Ended(s) == L.Restart(old(Now()))
    {
      var took;
      s, took := Ask(hostDefs.Some?);
      if s.Ok? { host, codex := hostDefs, true; } else if took { host := None; }
    }

    method StartUnits() returns (s: Status)
      modifies this
      ensures Ended(s) == L.StartUnits(old(Now()))
    {
      var took;
      s, took := Ask(hostDefs.Some?);
      if took {
        if host.None? { host := hostDefs; }
        codex := true;
      }
    }

    method StopHost() returns (s: Status)
      modifies this
      ensures Ended(s) == L.StopHost(old(Now()))
    {
      var took;
      s, took := Ask(true);
      if took { host := None; }
    }

    method StopCodex() returns (s: Status)
      modifies this
      ensures Ended(s) == L.StopCodex(old(Now()))
    {
      var took;
      s, took := Ask(true);
      if took { codex := false; }
    }

    // -------------------------------------------------------------- the journal and staging

    method WriteJournal(t: Transaction) returns (s: Status)
      modifies this
      ensures Ended(s) == L.WriteJournal(old(Now()), t)
    {
      hide L.Check;
      :- Attempt(journal.None?, RecoveryRequired);
      journal := Some(t);
      s := Ok;
    }

    /** After the release was published every further phase keeps a pending upgrade recoverable. */
    method UpdatePhase(phase: Phase) returns (s: Status)
      modifies this
      ensures Ended(s) == L.UpdatePhase(old(Now()), phase)
      ensures MarksPhase(old(Now()), Ended(s), phase)
    {
      PhaseKeeps(Now(), phase);
      hide MarksPhase;
      hide L.Check;
      :- Attempt(journal.Some? && journal.value.Change?, Invalid);
      journal := Some(journal.value.(phase := phase));
      s := Ok;
    }

    /** The journal goes last: once the old state is back and nothing is staged, what is left is idle. */
    method RemoveJournal() returns (s: Status)
      modifies this
      ensures Ended(s) == L.RemoveJournal(old(Now()))
      ensures DropsJournal(old(Now()), Ended(s))
    {
      JournalGoes(Now());
      hide DropsJournal, Readable;
      if journal.None? { return Ok; }
      :- Attempt(Readable(journal.value), Invalid);
      journal := None;
      s := Ok;
    }

    /** The staging tree that the journal names can go at any time; then none is left. */
    method RemoveStaging(name: string) returns (s: Status)
      modifies this
      ensures Ended(s) == L.RemoveStaging(old(Now()), name)
      ensures DropsStaging(old(Now()), Ended(s), name)
    {
      StagingGoes(Now(), name);
      hide DropsStaging;
      if name !in stagings { return Ok; }
      :- Attempt(true, Invalid);
      stagings := stagings - {name};
      s := Ok;
    }

    // -------------------------------------------------------------- preparing a release

    method EditStaging(name: string, edit: Edit, code: Code) returns (s: Status)
      modifies this
      ensures Ended(s) == L.EditStaging(old(Now()), name, edit, code)
    {
      hide L.Step, L.Check, Edited;
      if name !in stagings {
        s := Attempt(false, code);
        return;
      }
      :- Attempt(true, code);
      stagings := stagings[name := Edited(stagings[name], edit)];
      s := Ok;
    }

    method PublishStaging(name: string, selector: string) returns (s: Status)
      modifies this
      ensures Ended(s) == L.PublishStaging(old(Now()), name, selector)
    {
      hide L.Check;
      :- Attempt(name in stagings && selector !in releases, Invalid);
      stagings, releases := stagings - {name}, releases[selector := stagings[name]];
      s := Ok;
    }

    method OpenStaging(t: Transaction) returns (s: Status)
      requires t.Change?
      modifies this
      ensures Ended(s) == L.OpenStaging(old(Now()), t)
    {
      hide L.EditStaging, L.Step;
      :- Attempt(true, Invalid);
      releasesDir := true;
      :- Attempt(t.staging !in stagings, RecoveryRequired);
      stagings := stagings[t.staging := Tree(false, None, None, None)];
      s := EditStaging(t.staging, MarkerWritten, Invalid);
    }

    method FinishBuild(t: Transaction) returns (s: Status)
      requires t.Change?
      modifies this
      ensures Ended(s) == L.FinishBuild(old(Now()), t)
    {
      hide L.EditStaging, L.PublishStaging, L.Check, L.Step;
      :- EditStaging(t.staging, MarkerRemoved, Invalid);
      :- PublishStaging(t.staging, t.next);
      s := Attempt(true, Invalid);
    }

    method BuildRelease(t: Transaction, m: Manifest) returns (s: Status)
      requires t.Change?
      modifies this
      ensures Ended(s) == L.BuildRelease(old(Now()), t, m)
    {
      hide L.EditStaging, L.FinishBuild;
      :- EditStaging(t.staging, CopiedPackage(m.package), PackageInvalid);
      :- EditStaging(t.staging, WrittenUnits(m.runtime), PackageInvalid);
      :- EditStaging(t.staging, WrittenManifest(m), Invalid);
      s := FinishBuild(t);
    }

    /**
     Only the releases and staging areas change: from a clean start there is a staging tree and the releases
     as they were, or the complete new release and nothing staged.
     */
    method PrepareRelease(t: Transaction, m: Manifest) returns (s: Status)
      requires t.Change?
      modifies this
      ensures Ended(s) == L.PrepareRelease(old(Now()), t, m)
      ensures OnlyReleases(old(Here()), Here())
      ensures old(stagings) == map[] ==>
                && (LifecyclePrepare.Building(old(Here()), Here(), t) || LifecyclePrepare.BuiltAs(old(Here()), Here(), t, m))
                && (s.Ok? ==> t.next in releases && stagings == map[])
    {
      if stagings == map[] { LifecyclePrepare.PrepareReleaseEffect(Now(), t, m); }
      hide LifecyclePrepare.Building, LifecyclePrepare.BuiltAs;
      hide L.OpenStaging, L.BuildRelease, L.RemoveStaging, L.Step, L.Check;
      if t.next in releases {
        s := Attempt(Published(Here(), t.next) && ManifestOf(Here(), t.next).runtime == m.runtime, Invalid);
        return;
      }
      :- OpenStaging(t);
      s := BuildRelease(t, m);
      if s.Fails? {
        if t.next in releases { return Fails(RecoveryRequired); }
        var code := s.code;
        :- RemoveStaging(t.staging);
        s := Fails(code);
      }
    }

    /** Ends with the release complete and the journal marked, or with a world that recovery accepts. */
    method Prepare(t: Transaction, m: Manifest) returns (s: Status)
      requires t.Change?
      modifies this
      ensures Ended(s) == L.Prepare(old(Now()), t, m)
      ensures Prepares(old(Now()), Ended(s), t, m)
    {
      PrepareEnds(Now(), t, m);
      hide Prepares;
      hide L.PrepareRelease, L.UpdatePhase, L.RemoveStaging, L.RemoveJournal;
      s := PrepareRelease(t, m);
      if s.Ok? { s := UpdatePhase(Prepared); }
      if s.Fails? && s.code != RecoveryRequired {
        var code := s.code;
        s := RemoveStaging(t.staging);
        if s.Ok? { s := RemoveJournal(); }
        s := match s case Ok => Fails(code) case Fails(_) => Fails(RollbackFailed) case Died => Died;
      }
    }

    // -------------------------------------------------------------- pruning

    method RemoveRelease(selector: string) returns (s: Status)
      modifies this
      ensures Ended(s) == L.RemoveRelease(old(Now()), selector)
    {
      if selector !in releases { return Ok; }
      :- Attempt(Published(Here(), selector), Invalid);
      releases := releases - {selector};
      s := Ok;
    }

    method RemoveUnretained(listing: seq<string>, retained: set<string>) returns (s: Status)
      modifies this
      ensures Ended(s) == L.RemoveUnretained(old(Now()), listing, retained)
    {
      hide L.RemoveRelease;
      var i := 0;
      while i < |listing|
        invariant i <= |listing|
        invariant L.RemoveUnretained(Now(), listing[i..], retained) == L.RemoveUnretained(old(Now()), listing, retained)
      {
        assert listing[i..][1..] == listing[i + 1..];
        if listing[i] !in retained {
          :- RemoveRelease(listing[i]);
        }
        i := i + 1;
      }
      s := Ok;
    }

    /** Leaves exactly the retained releases; whatever happens none of them is lost and nothing else changes. */
    method Prune(listing: seq<string>, retained: set<string>) returns (s: Status)
      modifies this
      ensures Ended(s) == L.Prune(old(Now()), listing, retained)
      ensures s.Ok? ==> releases.Keys == retained && PublishedReleases(Here())
      ensures forall r | r in releases :: r in old(releases) && releases[r] == old(releases)[r]
      ensures forall r | r in old(releases) && r in retained :: r in releases
      ensures Here() == old(Here()).(releases := releases)
    {
      hide L.RemoveUnretained, L.Step, PublishedReleases;
      :- RemoveUnretained(listing, retained);
      s := Attempt(PublishedReleases(Here()) && releases.Keys == retained, Invalid);
    }

    // -------------------------------------------------------------- install

    method PublishAnchor(a: Anchor) returns (s: Status)
      modifies this
      ensures Ended(s) == L.PublishAnchor(old(Now()), a)
    {
      if a in anchors { return Ok; }
      :- Attempt(true, Invalid);
      anchors := anchors + {a};
      s := Ok;
    }

    /** All four links, or some of them; nothing else changes. */
    method PublishAnchors() returns (s: Status)
      modifies this
      ensures Ended(s) == L.PublishAnchors(old(Now()))
      ensures s.Ok? ==> ALL_ANCHORS <= anchors
      ensures old(anchors) <= anchors <= old(anchors) + ALL_ANCHORS
      ensures Here() == old(Here()).(anchors := anchors)
    {
      hide L.PublishAnchor;
      :- PublishAnchor(ManifestLink);
      :- PublishAnchor(CommandLink);
      :- PublishAnchor(CodexLink);
      s := PublishAnchor(HostLink);
    }

    method RemoveAnchor(a: Anchor) returns (s: Status)
      modifies this
      ensures Ended(s) == L.RemoveAnchor(old(Now()), a)
    {
      if a !in anchors { return Ok; }
      :- Attempt(true, Invalid);
      anchors := anchors - {a};
      s := Ok;
    }

    /** None of the links is left, or fewer than before; nothing else changes. */
    method RemoveAnchors() returns (s: Status)
      modifies this
      ensures Ended(s) == L.RemoveAnchors(old(Now()))
      ensures s.Ok? ==> anchors == {}
      ensures anchors <= old(anchors)
      ensures Here() == old(Here()).(anchors := anchors)
    {
      var o := L.RemoveAnchors(Now());
      if o.Done? { LifecycleSafety.NoAnchorsLeft(o.c.w.anchors); }
      hide L.RemoveAnchor;
      :- RemoveAnchor(HostLink);
      :- RemoveAnchor(CodexLink);
      :- RemoveAnchor(CommandLink);
      s := RemoveAnchor(ManifestLink);
    }

    /** Keeps an environment file that is already right, and tells whether it made one. */
    method PublishEnvironment(sha: string) returns (s: Status, created: bool)
      modifies this
      ensures Ended(s) == L.PublishEnvironment(old(Now()), sha)
      ensures created == (old(environment).None? && environment.Some?)
    {
      if environment.Some? {
        s := Attempt(environment == Some(sha), Invalid);
        return s, false;
      }
      s := Attempt(true, Invalid);
      if s.Ok? { environment := Some(sha); }
      created := s.Ok?;
    }

    method RemoveSelector(selector: string) returns (s: Status)
      modifies this
      ensures Ended(s) == L.RemoveSelector(old(Now()), selector)
    {
      if current.None? { return Ok; }
      :- Attempt(current == Some(selector), Invalid);
      current := None;
      s := Ok;
    }

    method RemoveEnvironment(sha: string) returns (s: Status)
      modifies this
      ensures Ended(s) == L.RemoveEnvironment(old(Now()), sha)
    {
      if environment.None? { return Ok; }
      :- Attempt(environment == Some(sha), Invalid);
      environment := None;
      s := Ok;
    }

    method Canonicalize(selector: string) returns (s: Status)
      modifies this
      ensures Ended(s) == L.Canonicalize(old(Now()), selector)
    {
      hide L.Check;
      :- Attempt(OwnedEnablement(Here(), selector), Invalid);
      enablement := Some(Canonical);
      s := Ok;
    }

    method ReadStatus(answers: bool) returns (s: Status)
      ensures Ended(s) == L.ReadStatus(Now(), answers)
    {
      s := if answers then Ok else Fails(StatusUnread);
    }

    /** The stable paths; reports which of them this run made. */
    method PlaceInstall(t: Transaction, r: Request) returns (s: Status, environmentCreated: bool, selectorPublished: bool)
      requires t.Change? && environment.None? && current.None?
      modifies this
      ensures Ended(s) == L.PlaceInstall(old(Now()), t, r)
      ensures environmentCreated == environment.Some? && selectorPublished == current.Some?
      ensures enablement == old(enablement)
    {
      hide L.PublishAnchors, L.Step;
      s, environmentCreated := PublishEnvironment(r.environment);
      selectorPublished := false;
      if !s.Ok? { return; }
      s := PublishAnchors();
      if !s.Ok? { return; }
      s := Attempt(current.None?, Invalid);
      if !s.Ok? { return; }
      current, selectorPublished := Some(t.next), true;
    }

    /** Brings the manager up to date; reports whether it got as far as asking to enable. */
    method ActivateInstall(t: Transaction) returns (s: Status, enableAttempted: bool)
      requires t.Change?
      modifies this
      ensures Ended(s) == L.ActivateInstall(old(Now()), t)
      ensures !enableAttempted ==> enablement == old(enablement)
      ensures current == old(current) && environment == old(environment)
    {
      hide L.UpdatePhase, L.Check, L.Step, L.Call, InstalledStopped, OnDisk;
      enableAttempted := false;
      s := UpdatePhase(Selected);
      if !s.Ok? { return; }
      s := Reload();
      if !s.Ok? { return; }
      s := UpdatePhase(ManagerReloaded);
      if !s.Ok? { return; }
      enableAttempted := true;
      s := Enable();
      if !s.Ok? { return; }
      s := Canonicalize(t.next);
      if !s.Ok? { return; }
      s := Attempt(InstalledStopped(Here()), LifecycleFailed);
    }

    method FinishInstall(t: Transaction, r: Request) returns (s: Status)
      requires t.Change?
      modifies this
      ensures Ended(s) == L.FinishInstall(old(Now()), t, r)
      ensures current == old(current) && environment == old(environment) && enablement == old(enablement)
    {
      hide L.Prune, L.RemoveJournal, DropsJournal, PublishedReleases;
      :- Prune(r.listing, {t.next});
      :- RemoveJournal();
      s := ReadStatus(r.statusReads);
    }

    method InstallCommit(t: Transaction, r: Request)
      returns (s: Status, environmentCreated: bool, selectorPublished: bool, enableAttempted: bool)
      requires t.Change? && environment.None? && current.None? && enablement.None?
      modifies this
      ensures Ended(s) == L.InstallCommit(old(Now()), t, r)
      ensures !environmentCreated ==> environment.None?
      ensures !selectorPublished ==> current.None?
      ensures !enableAttempted ==> enablement.None?
    {
      hide L.PlaceInstall, L.ActivateInstall, L.FinishInstall;
      enableAttempted := false;
      s, environmentCreated, selectorPublished := PlaceInstall(t, r);
      if !s.Ok? { return; }
      s, enableAttempted := ActivateInstall(t);
      if !s.Ok? { return; }
      s := FinishInstall(t, r);
    }

    method DisableOwned(selector: string) returns (s: Status)
      modifies this
      ensures Ended(s) == L.DisableOwned(old(Now()), selector)
    {
      hide L.Call, OnDisk;
      if enablement.None? { return Ok; }
      if !OwnedEnablement(Here(), selector) { return Fails(LifecycleFailed); }
      s := Disable();
      if !s.Died? { s := if enablement.Some? then Fails(LifecycleFailed) else Ok; }
    }

    method ReloadToNothing() returns (s: Status)
      modifies this
      ensures Ended(s) == L.ReloadToNothing(old(Now()))
    {
      hide L.Call, L.Step, NoUnits;
      :- Reload();
      s := Attempt(NoUnits(Here()), Invalid);
    }

    function Cleaning(died: bool, ok: bool): Cleanup
      reads this
    {
      if died then CleanupCrashed(Here()) else Cleaned(Now(), ok)
    }

    method ClearSelection(t: Transaction, selectorPublished: bool, enableAttempted: bool) returns (died: bool, ok: bool)
      requires t.Change? && (!selectorPublished ==> current.None?) && (!enableAttempted ==> enablement.None?)
      modifies this
      ensures Cleaning(died, ok) == L.ClearSelection(old(Now()), t)
      ensures environment == old(environment)
    {
      hide OnDisk, L.Step, OwnedEnablement;
      ok := true;
      if enableAttempted {
        var s := DisableOwned(t.next);
        if s.Died? { return true, false; }
        ok := s.Ok?;
      }
      if selectorPublished {
        var s := RemoveSelector(t.next);
        if s.Died? { return true, false; }
        ok := ok && s.Ok?;
      }
      died := false;
    }

    method ClearPaths(r: Request, environmentCreated: bool) returns (died: bool, ok: bool)
      requires !environmentCreated ==> environment.None?
      modifies this
      ensures Cleaning(died, ok) == L.ClearPaths(old(Now()), r)
    {
      hide L.RemoveAnchors, L.Step;
      var s := RemoveAnchors();
      if s.Died? { return true, false; }
      ok := s.Ok?;
      if environmentCreated {
        s := RemoveEnvironment(r.environment);
        if s.Died? { return true, false; }
        ok := ok && s.Ok?;
      }
      died := false;
    }

    /**
     Takes back what this run made, one cleanup after the other; a failed cleanup is remembered, and only
     when none failed does the journal go.
     */
    method InstallRollback(t: Transaction, r: Request, environmentCreated: bool, selectorPublished: bool, enableAttempted: bool)
      returns (s: Status)
      requires t.Change?
      requires (!environmentCreated ==> environment.None?) && (!selectorPublished ==> current.None?) && (!enableAttempted ==> enablement.None?)
      modifies this
      ensures Ended(s) == L.InstallRollback(old(Now()), t, r)
    {
      hide L.ClearSelection, L.ClearPaths, L.ReloadToNothing, L.RemoveJournal;
      var died, selectionOk := ClearSelection(t, selectorPublished, enableAttempted);
      if died { return Died; }
      var died2, pathsOk := ClearPaths(r, environmentCreated);
      if died2 { return Died; }
      s := ReloadToNothing();
      if s.Died? { return; }
      if !(selectionOk && pathsOk && s.Ok?) { return Fails(RollbackFailed); }
      :- RemoveJournal();
      s := Fails(RolledBack);
    }

    method FreshBegin(r: Request) returns (s: Status)
      modifies this
      ensures Ended(s) == L.FreshBegin(old(Now()), r)
    {
      hide L.Prepare, L.Step, PublishedReleases, NoUnits, ReleaseSelector;
      :- Attempt(PublishedReleases(Here()), Invalid);
      :- Attempt(NoUnits(Here()), Invalid);
      :- WriteJournal(FreshTransaction(r));
      s := Prepare(FreshTransaction(r), RequestManifest(r));
    }

    method FreshInstall(r: Request) returns (s: Status)
      requires environment.None? && current.None? && enablement.None?
      modifies this
      ensures Ended(s) == L.FreshInstall(old(Now()), r)
    {
      LifecycleCommands.FreshBeginKeeps(Now(), r);
      hide L.FreshBegin, L.InstallCommit, L.InstallRollback, ReleaseSelector;
      :- FreshBegin(r);
      var environmentCreated, selectorPublished, enableAttempted;
      s, environmentCreated, selectorPublished, enableAttempted := InstallCommit(FreshTransaction(r), r);
      if s.Fails? {
        s := InstallRollback(FreshTransaction(r), r, environmentCreated, selectorPublished, enableAttempted);
      }
    }
  
    method InstallAgain(r: Request) returns (s: Status)
      requires current.Some? && Published(Here(), current.value)
      modifies this
      ensures Ended(s) == L.InstallAgain(old(Now()), r)
    {
      hide L.Call, L.Step, L.Check, InstalledIdentity, UnenabledIdentity, InstalledStopped, OnDisk;
      var selector := current.value;
      var m := ManifestOf(Here(), selector);
      if m.package.version != r.package.version || m.package.manifestSha != r.package.manifestSha { return Fails(AlreadyInstalled); }
      if m.environment != r.environment { return Fails(Invalid); }
      if enablement.Some? {
        :- Attempt(InstalledIdentity(Here()), LifecycleFailed);
      } else {
        :- Attempt(UnenabledIdentity(Here()), Invalid);
        :- Reload();
        :- Enable();
        :- Canonicalize(selector);
        :- Attempt(InstalledStopped(Here()), LifecycleFailed);
      }
      s := ReadStatus(r.statusReads);
    }

    method Install(r: Request) returns (s: Status)
      modifies this
      ensures Ended(s) == L.Install(old(Now()), r)
    {
      hide L.Recover, L.InstallAgain, L.FreshInstall, Complete;
      :- Recover();
      match Inspect(Here()) {
        case Coherent => s := InstallAgain(r);
        case Unenabled => s := InstallAgain(r);
        case Absent => s := FreshInstall(r);
        case _ => s := Fails(Invalid);
      }
    }

    // -------------------------------------------------------------- upgrade

    method ReplaceSelector(from: string, to: string) returns (s: Status)
      modifies this
      ensures Ended(s) == L.ReplaceSelector(old(Now()), from, to)
    {
      hide L.Check;
      :- Attempt(current == Some(from), Invalid);
      current := Some(to);
      s := Ok;
    }

    method Reactivate(active: bool, codexBefore: bool) returns (s: Status)
      modifies this
      ensures Ended(s) == L.Reactivate(old(Now()), active, codexBefore)
    {
      hide L.Call, L.Step, InstalledIdentity;
      if active {
        :- Restart();
        s := Attempt(ReadyToServe(Here()), ReadinessFailed);
      } else {
        s := Attempt(InstalledIdentity(Here()) && host.None? && codex == codexBefore, LifecycleFailed);
      }
    }

    method SwitchUpgrade(t: Transaction) returns (s: Status)
      requires t.Change? && t.previous.Some?
      modifies this
      ensures Ended(s) == L.SwitchUpgrade(old(Now()), t)
    {
      hide L.ReplaceSelector, L.UpdatePhase, L.Reload;
      :- ReplaceSelector(t.previous.value, t.next);
      :- UpdatePhase(Selected);
      :- Reload();
      s := UpdatePhase(ManagerReloaded);
    }

    method FinishUpgrade(t: Transaction, r: Request) returns (s: Status)
      requires t.Change? && t.previous.Some?
      modifies this
      ensures Ended(s) == L.FinishUpgrade(old(Now()), t, r)
    {
      hide L.Prune, L.RemoveJournal, DropsJournal, PublishedReleases;
      :- Prune(r.listing, {t.previous.value, t.next});
      :- RemoveJournal();
      s := ReadStatus(r.statusReads);
    }

    /** From a prepared upgrade: committed to the new release with its predecessor beside it, or still recoverable. */
    method UpgradeCommit(t: Transaction, codexBefore: bool, r: Request) returns (s: Status)
      requires t.Change? && t.previous.Some?
      modifies this
      ensures Ended(s) == L.UpgradeCommit(old(Now()), t, codexBefore, r)
      ensures CommitsUpgrade(old(Now()), Ended(s), t)
    {
      UpgradeCommits(Now(), t, codexBefore, r);
      hide CommitsUpgrade;
      hide L.SwitchUpgrade, L.Reactivate, L.FinishUpgrade;
      :- SwitchUpgrade(t);
      :- Reactivate(t.wasActive, codexBefore);
      s := FinishUpgrade(t, r);
    }

    method RestoreSelector(failed: string, previous: string) returns (s: Status)
      modifies this
      ensures Ended(s) == L.RestoreSelector(old(Now()), failed, previous)
    {
      hide L.Step;
      if current == Some(previous) { return Ok; }
      s := ReplaceSelector(failed, previous);
    }

    method RollbackSteps(t: Transaction, codexBefore: bool) returns (s: Status)
      requires t.Change? && t.previous.Some?
      modifies this
      ensures Ended(s) == L.RollbackSteps(old(Now()), t, codexBefore)
    {
      hide L.RestoreSelector, L.Reload, L.Reactivate, L.RemoveJournal;
      :- RestoreSelector(t.next, t.previous.value);
      :- Reload();
      :- Reactivate(t.wasActive, codexBefore);
      s := RemoveJournal();
    }

    /** Never a success; with the journal in place always committed to the previous release, and idle on it when all went well. */
    method UpgradeRollback(t: Transaction, codexBefore: bool) returns (s: Status)
      requires t.Change? && t.previous.Some?
      modifies this
      ensures Ended(s) == L.UpgradeRollback(old(Now()), t, codexBefore)
      ensures !s.Ok?
      ensures old(LifecycleUpgrade.Upgrading(Here(), t)) ==>
                && Recoverable() && Committed() == t.previous
                && (s == Fails(RolledBack) ==> LifecycleSafety.Idle(Here()))
                && (journal.Some? ==> LifecycleUpgrade.Upgrading(Here(), t))
    {
      if LifecycleUpgrade.Upgrading(Here(), t) { LifecycleUpgrade.RollbackStepsSafe(Now(), t, codexBefore); }
      hide LifecycleUpgrade.Upgrading, LifecycleSafety.Inv, LifecycleSafety.Committed, LifecycleSafety.Idle;
      hide L.RollbackSteps;
      s := RollbackSteps(t, codexBefore);
      s := match s case Ok => Fails(RolledBack) case Fails(_) => Fails(RollbackFailed) case Died => Died;
    }

    method UpgradeChecks(r: Request) returns (s: Status)
      requires Inspect(Here()) == Coherent
      modifies this
      ensures Ended(s) == L.UpgradeChecks(old(Now()), r)
    {
      CoherentSelection(Here());
      hide L.Step, PublishedReleases, InstalledIdentity, Newer, Complete, Inspect;
      var m := ManifestOf(Here(), current.value);
      :- Attempt(PublishedReleases(Here()), Invalid);
      :- Attempt(InstalledIdentity(Here()), LifecycleFailed);
      if !Newer(r.package, m.package) { return Fails(UpgradeInvalid); }
      if host.Some? && !codex { return Fails(UpgradeInvalid); }
      if host.Some? {
        :- Attempt(true, ReadinessFailed);
      }
      s := Ok;
    }

    method UpgradeBegin(r: Request) returns (s: Status)
      requires Inspect(Here()) == Coherent
      modifies this
      ensures Ended(s) == L.UpgradeBegin(old(Now()), r)
    {
      CoherentSelection(Here());
      hide L.UpgradeChecks, L.WriteJournal, L.Prepare, Complete, Inspect, ReleaseSelector;
      var m := ManifestOf(Here(), current.value);
      var t := UpgradeTransaction(Here(), r);
      :- UpgradeChecks(r);
      :- WriteJournal(t);
      s := Prepare(t, Manifest(r.package, m.environment, m.runtime));
    }

    method ChangingUpgrade(r: Request) returns (s: Status)
      requires Inspect(Here()) == Coherent
      modifies this
      ensures Ended(s) == L.ChangingUpgrade(old(Now()), r)
    {
      CoherentSelection(Here());
      hide L.UpgradeBegin, L.UpgradeCommit, L.UpgradeRollback, Complete, Inspect, ReleaseSelector;
      var t, codexBefore := UpgradeTransaction(Here(), r), codex;
      :- UpgradeBegin(r);
      s := UpgradeCommit(t, codexBefore, r);
      if s.Fails? { s := UpgradeRollback(t, codexBefore); }
    }

    method Upgrade(r: Request) returns (s: Status)
      modifies this
      ensures Ended(s) == L.Upgrade(old(Now()), r)
    {
      hide L.Recover, L.ChangingUpgrade, L.Step, PublishedReleases, InstalledIdentity, Complete, Inspect, SamePackage;
      :- Recover();
      if Inspect(Here()) != Coherent { return Fails(Invalid); }
      if SamePackage(Here(), r) {
        :- Attempt(PublishedReleases(Here()) && InstalledIdentity(Here()), LifecycleFailed);
        s := ReadStatus(r.statusReads);
      } else {
        s := ChangingUpgrade(r);
      }
    }

    // -------------------------------------------------------------- recovery

    method DisableIfPresent() returns (s: Status)
      modifies this
      ensures Ended(s) == L.DisableIfPresent(old(Now()))
    {
      hide L.Call, L.Step, OnDisk;
      if enablement.None? { return Ok; }
      :- Disable();
      s := Attempt(enablement.None?, RecoveryRequired);
    }

    method UndoInstall(t: Transaction) returns (s: Status)
      requires t.Change? && Published(Here(), t.next)
      modifies this
      ensures Ended(s) == L.UndoInstall(old(Now()), t)
    {
      hide Complete, OptionalArtifactsExact, L.Step, L.DisableIfPresent, L.RemoveSelector, L.RemoveAnchors, L.RemoveEnvironment, L.Reload;
      var m := ManifestOf(Here(), t.next);
      :- Attempt((current.None? || current == Some(t.next)) && OptionalArtifactsExact(Here(), t.next, m), RecoveryRequired);
      :- DisableIfPresent();
      :- RemoveSelector(t.next);
      :- RemoveAnchors();
      :- RemoveEnvironment(m.environment);
      s := Reload();
    }

    method ReloadAndSettle(active: bool) returns (s: Status)
      modifies this
      ensures Ended(s) == L.ReloadAndSettle(old(Now()), active)
    {
      hide L.Call, L.Step, InstalledIdentity, OnDisk;
      :- Reload();
      if active {
        :- Restart();
        s := Attempt(ReadyToServe(Here()), ReadinessFailed);
      } else {
        s := Attempt(InstalledIdentity(Here()) && host.None?, RecoveryRequired);
      }
    }

    method UndoUpgrade(t: Transaction) returns (s: Status)
      requires t.Change? && t.previous.Some?
      modifies this
      ensures Ended(s) == L.UndoUpgrade(old(Now()), t)
    {
      hide Complete, ArtifactsExact, L.Step, L.ReplaceSelector, L.ReloadAndSettle;
      var p := t.previous.value;
      :- Attempt(Published(Here(), p) && ArtifactsExact(Here(), ManifestOf(Here(), p)) && (current == Some(p) || current == Some(t.next)),
                 RecoveryRequired);
      if current == Some(t.next) {
        :- ReplaceSelector(t.next, p);
        s := ReloadAndSettle(t.wasActive);
      } else if t.phase == Selected || t.phase == ManagerReloaded {
        s := ReloadAndSettle(t.wasActive);
      } else {
        s := Ok;
      }
    }

    method UndoChange(t: Transaction) returns (s: Status)
      requires t.Change?
      modifies this
      ensures Ended(s) == L.UndoChange(old(Now()), t)
    {
      hide Complete, L.Step, RecoverableBeforePublish, L.UndoInstall, L.UndoUpgrade;
      :- Attempt(!(t.next in releases && t.staging in stagings), RecoveryRequired);
      if t.next !in releases {
        s := Attempt(RecoverableBeforePublish(Here(), t), RecoveryRequired);
        return;
      }
      :- Attempt(Published(Here(), t.next), RecoveryRequired);
      if t.previous.None? { s := UndoInstall(t); } else { s := UndoUpgrade(t); }
    }

    method Recover() returns (s: Status)
      modifies this
      ensures Ended(s) == L.Recover(old(Now()))
    {
      hide L.UndoChange, L.RemoveStaging, L.RemoveJournal;
      if journal.None? { return Ok; }
      if journal.value.Uninstall? { return Fails(RecoveryRequired); }
      var t := journal.value;
      s := UndoChange(t);
      if s.Ok? { s := RemoveStaging(t.staging); }
      if s.Ok? { s := RemoveJournal(); }
      if s.Fails? { s := Fails(RecoveryRequired); }
    }

    // -------------------------------------------------------------- start, stop, restart

    method ChangeRunning(wanted: Wanted) returns (s: Status)
      modifies this
      ensures Ended(s) == L.ChangeRunning(old(Now()), wanted)
    {
      hide L.Call, L.Step, InstalledIdentity;
      match wanted {
        case Start =>
          if !(host.Some? && codex) {
            :- StartUnits();
          }
          s := Attempt(ReadyToServe(Here()), ReadinessFailed);
        case Stop =>
          if !(host.None? && !codex) {
            :- StopHost();
            :- StopCodex();
          }
          s := Attempt(InstalledStopped(Here()), LifecycleFailed);
        case RestartHost =>
          :- Restart();
          s := Attempt(ReadyToServe(Here()), ReadinessFailed);
      }
    }

    method SetRunning(wanted: Wanted, statusReads: bool) returns (s: Status)
      modifies this
      ensures Ended(s) == L.SetRunning(old(Now()), wanted, statusReads)
    {
      hide L.Recover, L.ChangeRunning, L.Step, InstalledIdentity, Inspect;
      :- Recover();
      if Inspect(Here()) != Coherent { return Fails(Invalid); }
      :- Attempt(InstalledIdentity(Here()), LifecycleFailed);
      :- ChangeRunning(wanted);
      s := ReadStatus(statusReads);
    }

    // -------------------------------------------------------------- uninstall

    /** The stage only moves forward; claiming one whose work is done keeps the uninstall resumable. */
    method Advance(stage: Stage) returns (s: Status)
      modifies this
      ensures Ended(s) == L.Advance(old(Now()), stage)
      ensures MovesForward(old(Now()), Ended(s), stage)
    {
      AdvanceMoves(Now(), stage);
      hide MovesForward;
      hide Readable;
      if journal.None? || !journal.value.Uninstall? {
        s := Attempt(false, Invalid);
        return;
      }
      if StageIndex(journal.value.stage) >= StageIndex(stage) { return Ok; }
      :- Attempt(Readable(journal.value), Invalid);
      journal := Some(journal.value.(stage := stage));
      s := Ok;
    }

    method StopAll() returns (s: Status)
      modifies this
      ensures Ended(s) == L.StopUnits(old(Now()))
    {
      hide L.Call, L.Step, L.Advance, ManagerKnown;
      if host.Some? {
        :- StopHost();
      }
      if codex {
        :- StopCodex();
      }
      :- Attempt(host.None? && !codex && ManagerKnown(Here(), StagePassed(Here(), Stopped)), LifecycleFailed);
      s := Advance(Stopped);
    }

    method DisableUnits() returns (s: Status)
      modifies this
      ensures Ended(s) == L.DisableUnits(old(Now()))
    {
      hide L.Call, L.Step, L.Advance, ManagerKnown, OnDisk;
      :- Attempt(ManagerKnown(Here(), StagePassed(Here(), Stopped)), UninstallInvalid);
      if enablement.Some? || enabled {
        :- Disable();
      }
      :- Attempt(enablement.None? && !enabled, LifecycleFailed);
      s := Advance(Disabled);
    }

    method ClearOwned(t: Transaction) returns (s: Status)
      requires t.Uninstall?
      modifies this
      ensures Ended(s) == L.ClearOwned(old(Now()), t)
    {
      hide L.RemoveAnchors, L.RemoveSelector, L.RemoveEnvironment, L.Step;
      :- RemoveAnchors();
      if t.active.None? {
        :- Attempt(current.None?, Invalid);
      } else {
        :- RemoveSelector(t.active.value);
      }
      if t.environment.None? {
        s := Attempt(environment.None?, Invalid);
      } else {
        s := RemoveEnvironment(t.environment.value);
      }
    }

    method RemoveInstallation(t: Transaction) returns (s: Status)
      requires t.Uninstall?
      modifies this
      ensures Ended(s) == L.RemoveInstallation(old(Now()), t)
    {
      hide L.ClearOwned, L.Advance, L.Step;
      :- Attempt(enablement.None?, Invalid);
      :- ClearOwned(t);
      s := Advance(AnchorsRemoved);
    }

    method RemoveReleases(t: Transaction) returns (s: Status)
      requires t.Uninstall?
      modifies this
      ensures Ended(s) == L.RemoveReleases(old(Now()), t)
    {
      hide L.RemoveUnretained, L.Advance, L.Step;
      :- RemoveUnretained(t.selectors, {});
      if releasesDir {
        :- Attempt(releases == map[] && stagings == map[], RecoveryRequired);
        releasesDir := false;
      }
      s := Advance(ReleasesRemoved);
    }

    method ForgetUnits() returns (s: Status)
      modifies this
      ensures Ended(s) == L.ForgetUnits(old(Now()))
    {
      hide L.Reload, L.Advance, L.Step, L.RemoveJournal, NotFound, DataRootEmpty;
      :- Reload();
      :- Attempt(NotFound(Here()), LifecycleFailed);
      :- Advance(Journal.Reloaded);
      :- RemoveJournal();
      :- Attempt(DataRootEmpty(Here()), RecoveryRequired);
      s := Attempt(NotFound(Here()), UninstallInvalid);
    }

    /**
     From any stage: nothing is left, or it can be resumed at the same stage or a later one; nothing at all
     changes when a path that has to survive is in the way.
     */
    method ExecuteUninstall(t: Transaction, r: Removal) returns (s: Status)
      requires t.Uninstall?
      modifies this
      ensures Ended(s) == L.ExecuteUninstall(old(Now()), t, r)
      ensures RollsForward(old(Now()), Ended(s), t, r)
    {
      UninstallRolls(Now(), t, r);
      hide RollsForward;
      hide OwnedByTransaction, PathsSurvive, ManagerKnown, L.Step, L.StopUnits, L.DisableUnits, L.RemoveInstallation, L.RemoveReleases,
        L.ForgetUnits;
      :- Attempt(OwnedByTransaction(Here(), t) && PathsSurvive(Here(), r), RecoveryRequired);
      :- Attempt(ManagerKnown(Here(), StagePassed(Here(), Stopped)), UninstallInvalid);
      :- StopAll();
      :- DisableUnits();
      :- RemoveInstallation(t);
      :- RemoveReleases(t);
      s := ForgetUnits();
    }

    method BeginUninstall(r: Removal) returns (s: Status)
      modifies this
      ensures Ended(s) == L.BeginUninstall(old(Now()), r)
    {
      hide MayUninstall, HasArtifacts, NotFound, CommonEnvironment, L.Step, L.WriteJournal, L.ExecuteUninstall;
      :- Attempt(MayUninstall(Here(), r), UninstallInvalid);
      if !HasArtifacts(Here()) {
        s := Attempt(NotFound(Here()), UninstallInvalid);
        return;
      }
      var t := UninstallTransaction(Here(), r);
      :- WriteJournal(t);
      s := ExecuteUninstall(t, r);
    }

    method Uninstall(r: Removal) returns (s: Status)
      modifies this
      ensures Ended(s) == L.RunUninstall(old(Now()), r)
    {
      hide L.Recover, L.BeginUninstall, L.ExecuteUninstall, Readable;
      if journal.Some? && journal.value.Uninstall? {
        if !Readable(journal.value) { return Fails(RecoveryRequired); }
        s := ExecuteUninstall(journal.value, r);
        return;
      }
      if journal.Some? {
        :- Recover();
      }
      s := BeginUninstall(r);
    }

    // -------------------------------------------------------------- the commands and what they promise

    method RecoverPendingTransaction() returns (s: Status)
      modifies this
      ensures Ended(s) == L.Recover(old(Now()))
      ensures old(Recoverable()) ==>
                Recoverable() && releases == old(releases) && Committed() == old(Committed()) && (s.Ok? ==> LifecycleSafety.Idle(Here()))
      ensures old(Recoverable() && LifecycleSafety.ChangeOnly(Here()) && LifecycleOutcomes.Calm(Now(), 14)) ==>
                s.Ok? && LifecycleOutcomes.RecoveredTo(old(Here()), Here())
    {
      hide LifecycleSafety.Inv, LifecycleSafety.Committed, LifecycleSafety.Idle, LifecycleSafety.ChangeOnly, LifecycleOutcomes.Calm,
        LifecycleOutcomes.RecoveredTo, L.Recover;
      ghost var before := Now();
      s := Recover();
      if LifecycleSafety.Inv(before.w) {
        LifecycleSafety.RecoverSafe(before);
        if LifecycleSafety.ChangeOnly(before.w) && LifecycleOutcomes.Calm(before, 14) { LifecycleOutcomes.RecoveryCompletes(before); }
      }
    }

    method InstallService(r: Request) returns (s: Status)
      modifies this
      ensures Ended(s) == L.Install(old(Now()), r)
      ensures old(Recoverable()) && ValidRequest(r) ==>
                && (LifecycleCommands.InstallKeeps(old(Here()), Here(), r)
                    || (!r.statusReads && LifecycleCommands.LateInstallRollback(Ended(s), r))
                    || (old(!LifecyclePrepare.SameLeftover(Here(), SelectorOf(r.package), r.environment)) && LifecycleCommands.Mixed(Here(), r)))
                && (s.Ok? ==> journal.None? && current == Some(SelectorOf(r.package)))
    {
      hide LifecycleSafety.Inv, LifecycleCommands.InstallKeeps, LifecyclePrepare.SameLeftover, LifecycleCommands.Mixed,
        LifecycleCommands.LateInstallRollback, ReleaseSelector, ValidRequest, L.Install;
      ghost var before := Now();
      s := Install(r);
      if LifecycleSafety.Inv(before.w) && ValidRequest(r) { LifecycleCommands.InstallSafe(before, r); }
    }

    method UpgradeService(r: Request) returns (s: Status)
      modifies this
      ensures Ended(s) == L.Upgrade(old(Now()), r)
      ensures old(Recoverable()) && ValidPackage(r.package) ==>
                && (LifecycleCommands.UpgradeKeeps(old(Here()), Here(), r)
                    || (!r.statusReads && LifecycleCommands.LateUpgradeRollback(Ended(s), old(Committed()), SelectorOf(r.package))))
                && (s.Ok? ==> journal.None? && current == Some(SelectorOf(r.package)))
    {
      hide LifecycleSafety.Inv, LifecycleSafety.Idle, LifecycleSafety.Committed, LifecycleCommands.UpgradeKeeps,
        LifecycleCommands.LateUpgradeRollback, ReleaseSelector, ValidPackage, L.Upgrade;
      ghost var before := Now();
      s := Upgrade(r);
      if LifecycleSafety.Inv(before.w) && ValidPackage(r.package) { LifecycleCommands.UpgradeSafe(before, r); }
    }

    method SetRunningService(wanted: Wanted, statusReads: bool) returns (s: Status)
      modifies this
      ensures Ended(s) == L.SetRunning(old(Now()), wanted, statusReads)
      ensures old(Recoverable()) ==>
                && Recoverable() && Committed() == old(Committed()) && releases == old(releases)
                && (s.Ok? ==> current == old(Committed()) && LifecycleCommands.Running(Here(), wanted))
    {
      hide LifecycleCommands.Running, LifecycleSafety.Inv, LifecycleSafety.Committed, LifecycleSafety.Idle, L.SetRunning;
      ghost var before := Now();
      s := SetRunning(wanted, statusReads);
      if LifecycleSafety.Inv(before.w) { LifecycleCommands.SetRunningSafe(before, wanted, statusReads); }
    }

    method UninstallService(r: Removal) returns (s: Status)
      modifies this
      ensures Ended(s) == L.RunUninstall(old(Now()), r)
      ensures old(Recoverable() && LifecycleUninstall.Lists(Here(), r.listing)) ==>
                && Recoverable()
                && (s.Ok? ==> LifecycleUninstall.Uninstalled(Here()))
                && (Committed() == old(Committed()) || LifecycleUninstall.Uninstalled(Here()))
      ensures old(Recoverable() && LifecycleUninstall.Lists(Here(), r.listing)) ==> LifecyclePaths.SparesSurvivors(old(Here()), Here(), r)
    {
      hide LifecycleSafety.Inv, LifecycleSafety.Committed, LifecycleUninstall.Uninstalled, LifecycleUninstall.Lists, LifecycleUninstall.Removing,
        LifecyclePaths.SparesSurvivors, L.RunUninstall;
      ghost var before := Now();
      s := Uninstall(r);
      if LifecycleSafety.Inv(before.w) && LifecycleUninstall.Lists(before.w, r.listing) {
        LifecycleUninstall.UninstallSafe(before, r);
        LifecyclePaths.UninstallSparesSurvivors(before, r);
      }
    }
  }

  // ---------------------------------------------------------------- what single steps keep

  /** A pending upgrade whose release is published. */
  predicate PublishedUpgrade(w: World) {
    w.journal.Some? && w.journal.value.Change? && w.journal.value.previous.Some? && w.journal.value.next in w.releases
  }

  /** Only the journal changes, and the upgrade stays recoverable to where it was committed. */
  predicate MarksPhase(c: Cfg, o: Outcome, phase: Phase) {
    var v := o.After();
    && v == c.w.(journal := v.journal)
    && (LifecycleSafety.Inv(c.w) && PublishedUpgrade(c.w) && (phase == Selected || phase == ManagerReloaded) ==>
          LifecycleSafety.Inv(v) && LifecycleSafety.Committed(v) == LifecycleSafety.Committed(c.w))
  }

  lemma PhaseKeeps(c: Cfg, phase: Phase)
    ensures MarksPhase(c, L.UpdatePhase(c, phase), phase)
  {
    if LifecycleSafety.Inv(c.w) && PublishedUpgrade(c.w) && (phase == Selected || phase == ManagerReloaded) {
      var t := c.w.journal.value;
      assert LifecycleUpgrade.Upgrading(c.w, t);
      hide LifecycleUpgrade.Upgrading, LifecycleSafety.Inv, L.UpdatePhase;
      LifecycleUpgrade.MarkPhase(c, t, phase);
      LifecycleUpgrade.UpgradingIsSafe(L.UpdatePhase(c, phase).After(), t);
    }
    hide L.UpdatePhase, LifecycleSafety.Inv, LifecycleSafety.Committed;
  }

  /** A pending change whose effects are undone and whose staging area is empty. */
  predicate Undone(w: World) {
    w.journal.Some? && w.journal.value.Change? && LifecycleSafety.Restored(w, w.journal.value) && w.stagings == map[]
  }

  /** The journal of an undone change can go: what is left is idle and committed as before. */
  predicate DropsJournal(c: Cfg, o: Outcome) {
    LifecycleSafety.Inv(c.w) && Undone(c.w) ==>
      && LifecycleSafety.Inv(o.After()) && LifecycleSafety.Committed(o.After()) == LifecycleSafety.Committed(c.w)
      && o.After().releases == c.w.releases && (o.Done? ==> LifecycleSafety.Idle(o.After()))
  }

  lemma JournalGoes(c: Cfg)
    ensures DropsJournal(c, L.RemoveJournal(c))
  {
    hide LifecycleSafety.PendingChange, LifecycleSafety.Trees, LifecycleSafety.Restored, LifecycleSafety.Idle, L.RemoveJournal;
    if LifecycleSafety.Inv(c.w) && Undone(c.w) { LifecycleSafety.RemoveJournalSafe(c, c.w.journal.value); }
  }

  /** The staging tree that the journal names can go at any time; then none is left. */
  predicate DropsStaging(c: Cfg, o: Outcome, name: string) {
    LifecycleSafety.Inv(c.w) && c.w.journal.Some? && c.w.journal.value.Change? && c.w.journal.value.staging == name ==>
      && LifecycleSafety.Inv(o.After()) && LifecycleSafety.Committed(o.After()) == LifecycleSafety.Committed(c.w)
      && o.After().releases == c.w.releases && (o.Done? ==> o.After().stagings == map[])
  }

  lemma StagingGoes(c: Cfg, name: string)
    ensures DropsStaging(c, L.RemoveStaging(c, name), name)
  {
    hide LifecycleSafety.PendingChange, LifecycleSafety.Trees, LifecycleSafety.Restored, L.RemoveStaging;
    if LifecycleSafety.Inv(c.w) && c.w.journal.Some? && c.w.journal.value.Change? && c.w.journal.value.staging == name {
      LifecycleSafety.RemoveStagingSafe(c, c.w.journal.value);
    }
  }

  /** How preparation ends from a suitable start: the release complete and the journal marked, or recoverable. */
  predicate Prepares(c: Cfg, o: Outcome, t: Transaction, m: Manifest)
    requires t.Change?
  {
    c.w.journal == Some(t) && t.phase == Preparing && LifecyclePrepare.Suitable(c.w, t, m) ==>
      && LifecycleSafety.Inv(o.After()) && LifecycleSafety.Committed(o.After()) == t.previous
      && (o.Done? ==> o.After().journal == Some(t.(phase := Prepared)) && t.next in o.After().releases)
  }

  lemma PrepareEnds(c: Cfg, t: Transaction, m: Manifest)
    requires t.Change?
    ensures Prepares(c, L.Prepare(c, t, m), t, m)
  {
    hide L.Prepare, LifecyclePrepare.Suitable, LifecyclePrepare.PrepMoves, LifecycleSafety.Inv, LifecycleSafety.Committed;
    if c.w.journal == Some(t) && t.phase == Preparing && LifecyclePrepare.Suitable(c.w, t, m) { LifecyclePrepare.PrepareSafe(c, t, m); }
  }

  /** How the commit of a prepared upgrade ends: both releases kept and the new one selected, or recoverable to the old one. */
  predicate CommitsUpgrade(c: Cfg, o: Outcome, t: Transaction)
    requires t.Change? && t.previous.Some?
  {
    var v := o.After();
    LifecycleUpgrade.Upgrading(c.w, t) ==>
      && LifecycleSafety.Inv(v)
      && if o.Done? || (o.Failed? && o.code == StatusUnread) then
           v.current == Some(t.next) && v.journal.None? && v.releases.Keys == {t.previous.value, t.next}
         else
           LifecycleUpgrade.Upgrading(v, t) && LifecycleSafety.Committed(v) == t.previous
  }

  lemma UpgradeCommits(c: Cfg, t: Transaction, codexBefore: bool, r: Request)
    requires t.Change? && t.previous.Some?
    ensures CommitsUpgrade(c, L.UpgradeCommit(c, t, codexBefore, r), t)
  {
    hide L.UpgradeCommit, LifecycleUpgrade.Upgrading, LifecycleUpgrade.UpgradeDone, LifecycleSafety.Inv;
    if LifecycleUpgrade.Upgrading(c.w, t) {
      LifecycleUpgrade.UpgradeCommitSafe(c, t, codexBefore, r);
      var o := L.UpgradeCommit(c, t, codexBefore, r);
      if o.Done? || (o.Failed? && o.code == StatusUnread) {
        LifecycleCommands.UpgradeDoneIsSafe(o.After(), t);
      } else {
        LifecycleUpgrade.UpgradingIsSafe(o.After(), t);
      }
    }
  }

  /** An uninstall whose work for this stage is done. */
  predicate Claims(w: World, stage: Stage) {
    && w.journal.Some? && w.journal.value.Uninstall?
    && LifecycleUninstall.Removing(w, w.journal.value) && LifecycleUninstall.MayClaim(w, stage)
  }

  /** Claiming a stage never falls back, touches only the journal, and keeps an uninstall whose work is done resumable. */
  predicate MovesForward(c: Cfg, o: Outcome, stage: Stage) {
    var v := o.After();
    && StageIndex(StageOf(v)) >= StageIndex(StageOf(c.w))
    && v == c.w.(journal := v.journal)
    && (o.Done? ==> LifecycleUninstall.At(v, stage))
    && (Claims(c.w, stage) ==> LifecycleUninstall.Removing(v, c.w.journal.value))
  }

  lemma AdvanceMoves(c: Cfg, stage: Stage)
    ensures MovesForward(c, L.Advance(c, stage), stage)
  {
    hide Readable, LifecycleUninstall.Removing, LifecycleUninstall.MayClaim;
    if Claims(c.w, stage) { LifecycleUninstall.AdvanceSafe(c, c.w.journal.value, stage); }
  }

  /** From any stage the end is nothing left, or an uninstall that can be resumed there or later; refused paths change nothing. */
  predicate RollsForward(c: Cfg, o: Outcome, t: Transaction, r: Removal)
    requires t.Uninstall?
  {
    LifecycleUninstall.Removing(c.w, t) ==>
      && (LifecycleUninstall.Removing(o.After(), t) || LifecycleUninstall.Uninstalled(o.After()))
      && (o.Done? ==> LifecycleUninstall.Uninstalled(o.After()))
      && (!PathsSurvive(c.w, r) ==> o.After() == c.w)
  }

  lemma UninstallRolls(c: Cfg, t: Transaction, r: Removal)
    requires t.Uninstall?
    ensures RollsForward(c, L.ExecuteUninstall(c, t, r), t, r)
  {
    hide L.ExecuteUninstall, LifecycleUninstall.Removing, LifecycleUninstall.Uninstalled, PathsSurvive;
    if LifecycleUninstall.Removing(c.w, t) { LifecycleUninstall.ExecuteUninstallSafe(c, t, r); }
  }

  lemma CoherentSelection(w: World)
    requires Inspect(w) == Coherent
    ensures w.current.Some? && Published(w, w.current.value)
  {
  }
}
