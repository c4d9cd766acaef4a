/** The journals that the commands write, and that the strict reader takes them back at every phase. */
module LifecycleJournals {
  import opened Common
  import opened SemVer
  import opened Journal
  import opened JournalFacts
  import opened Lifecycle
  import opened LifecycleSafety
  import opened LifecycleUninstall
  import opened LifecycleCommands

  lemma PublishedIsPackage(w: World, s: string)
    requires Published(w, s)
    ensures IsPackageSelector(s)
  {
    PublishedName(w, s);
    var p := ManifestOf(w, s).package;
    assert IsSupported(p.version) && IsSha256(p.manifestSha) && s == ReleaseSelector(p.version, p.manifestSha);
  }

  /** Every journal of an install reads back as itself. */
  lemma FreshJournalReads(r: Request, phase: Phase)
    requires ValidPackage(r.package) && IsStagingName(r.staging)
    ensures var written := FreshTransaction(r); var t := written.(phase := phase);
            ReadTransaction(Render(t)) == Some(t)
  {
    assert IsPackageSelector(SelectorOf(r.package)) by {
      assert SelectorOf(r.package) == ReleaseSelector(r.package.version, r.package.manifestSha);
    }
    hide ReadTransaction, Render, IsPackageSelector;
    var written := FreshTransaction(r);
    ChangeJournalAlwaysReads(written.(phase := phase));
  }

  /** So does every journal of an upgrade: its two selectors differ because the version is newer. */
  lemma UpgradeJournalReads(w: World, r: Request, phase: Phase)
    requires Inv(w) && Idle(w) && w.current.Some? && Published(w, w.current.value)
    requires ValidPackage(r.package) && IsStagingName(r.staging) && Newer(r.package, ManifestOf(w, w.current.value).package)
    ensures var written := UpgradeTransaction(w, r); var t := written.(phase := phase);
            ReadTransaction(Render(t)) == Some(t)
  {
    PublishedName(w, w.current.value);
    PublishedIsPackage(w, w.current.value);
    NewerIsAnother(r.package, ManifestOf(w, w.current.value).package);
    assert IsPackageSelector(SelectorOf(r.package)) by {
      assert SelectorOf(r.package) == ReleaseSelector(r.package.version, r.package.manifestSha);
    }
    hide ReadTransaction, Render, IsPackageSelector, Inv, Idle, Newer, Complete;
    var written := UpgradeTransaction(w, r);
    ChangeJournalAlwaysReads(written.(phase := phase));
  }

  lemma UninstallJournalIsBuilt(w: World, r: Removal)
    requires Inv(w) && Idle(w) && Lists(w, r.listing) && MayUninstall(w, r)
    ensures Built(UninstallTransaction(w, r))
  {
    forall i | 0 <= i < |r.listing| ensures IsPackageSelector(r.listing[i]) && Published(w, r.listing[i]) {
      assert r.listing[i] in w.releases;
      PublishedIsPackage(w, r.listing[i]);
    }
    ListingSize(w, r.listing);
    if r.listing != [] { PublishedName(w, r.listing[0]); }
    hide IsPackageSelector, Complete, Idle, Inv, StrictlySorted, PathsSurvive, ManagerKnown, EnablementKnown;
  }

  lemma ListingSize(w: World, listing: seq<string>)
    requires Lists(w, listing)
    ensures |listing| == |w.releases|
  {
    hide Complete;
    assert w.releases.Keys == set s | s in listing;
    SortedIsDistinct(listing);
    DistinctSize(listing);
    assert |w.releases| == |w.releases.Keys|;
  }

  lemma SortedIsDistinct(s: seq<string>)
    requires StrictlySorted(s)
    ensures forall i, j | 0 <= i < j < |s| :: s[i] != s[j]
  {
    forall i, j | 0 <= i < j < |s| ensures s[i] != s[j] {
      SortedApart(s, i, j);
      CompareTextLaws(s[i], s[j]);
    }
  }

  lemma {:induction false} SortedApart(s: seq<string>, i: nat, j: nat)
    requires StrictlySorted(s) && i < j < |s|
    ensures CompareText(s[i], s[j]) < 0
    decreases j - i
  {
    if i + 1 < j {
      SortedApart(s, i, j - 1);
      assert CompareText(s[j - 1], s[j]) < 0;
      CompareTextTransitive(s[i], s[j - 1], s[j]);
    }
  }

  lemma {:induction false} DistinctSize(s: seq<string>)
    requires forall i, j | 0 <= i < j < |s| :: s[i] != s[j]
    ensures |set x | x in s| == |s|
  {
    if s == [] {
      assert (set x | x in s) == {};
    } else {
      DistinctSize(s[1..]);
      assert (set x | x in s) == (set x | x in s[1..]) + {s[0]};
      assert s[0] !in s[1..];
    }
  }

  /** The journal of an uninstall reads back at all its stages exactly when it fits at the last one. */
  lemma UninstallJournalReadsIff(w: World, r: Removal)
    requires Inv(w) && Idle(w) && Lists(w, r.listing) && MayUninstall(w, r)
    ensures var t := UninstallTransaction(w, r);
            FitsAtEveryStage(t) <==> forall s: Stage :: ReadTransaction(Render(t.(stage := s))) == Some(t.(stage := s))
  {
    UninstallJournalIsBuilt(w, r);
    hide Inv, Idle, Lists, MayUninstall, FitsAtEveryStage, ReadTransaction, Render, CommonEnvironment;
    UninstallTransactionKind(w, r);
    UninstallJournalReads(UninstallTransaction(w, r));
  }

  /** For the journals the commands write, the size test is the reader. */
  lemma ReadableIsRead(t: Transaction)
    requires Built(t)
    ensures Readable(t) <==> ReadTransaction(Render(t)) == Some(t)
  {
    if t.Change? { ChangeJournalAlwaysReads(t); } else {
      BuiltIsValid(t);
      RoundTrip(t);
    }
    hide ReadTransaction, Render, Built, Bytes;
  }
}
