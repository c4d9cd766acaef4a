/** Path containment as the installer decides it, on canonical absolute paths. */
module Paths {
  import opened Common

  /** The names along a canonical absolute path: no empty names, no `.`, no `..`; the root is excluded. */
  predicate IsCanonical(path: string) {
    && path != "" && path[0] == '/'
    && path != "/"
    && forall i | 0 <= i < |Names(path)| :: Names(path)[i] != "" && Names(path)[i] != "." && Names(path)[i] != ".."
  }

  function Names(path: string): seq<string> {
    if path == "" then [] else Split(path[1..], '/')
  }

  /** One slash at the end is let through, and says nothing about the place. */
  function Stripped(path: string): string {
    if |path| > 1 && path[|path| - 1] == '/' then path[..|path| - 1] else path
  }

  /** The paths that are accepted: absolute, not the root, and left alone by normalising. */
  predicate IsAccepted(path: string) { IsCanonical(Stripped(path)) }

  /** Where a path leads. */
  function Place(path: string): seq<string> { Names(Stripped(path)) }

  lemma CanonicalEnds(path: string)
    requires IsCanonical(path)
    ensures path[|path| - 1] != '/' && Stripped(path) == path && Place(path) == Names(path) && IsAccepted(path)
  {
    if path[|path| - 1] == '/' { LastIsEmpty(path); }
  }

  lemma LastIsEmpty(path: string)
    requires |path| > 1 && path[|path| - 1] == '/'
    ensures Names(path)[|Names(path)| - 1] == ""
  {
    assert path[1..] == path[1..|path| - 1] + ['/'];
    SplitTrailing(path[1..|path| - 1], '/');
  }

  lemma {:induction false} SplitTrailing(s: string, d: char)
    ensures Split(s + [d], d) == Split(s, d) + [""]
  {
    if s == "" {
      assert s + [d] == [d] && [d][1..] == [];
    } else {
      SplitTrailing(s[1..], d);
      assert (s + [d])[1..] == s[1..] + [d];
    }
  }

  // ---------------------------------------------------------------- the relative path between two paths

  function CommonLength(a: seq<string>, b: seq<string>): (n: nat)
    ensures n <= |a| && n <= |b|
    ensures a[..n] == b[..n]
    ensures n < |a| && n < |b| ==> a[n] != b[n]
  {
    if a == [] || b == [] || a[0] != b[0] then 0
    else
      var n := CommonLength(a[1..], b[1..]);
      assert a[..n + 1] == [a[0]] + a[1..][..n] && b[..n + 1] == [b[0]] + b[1..][..n];
      n + 1
  }

  function Ups(n: nat): seq<string> { seq(n, _ => "..") }

  /** Up from `root` to the common ancestor, then down to `candidate`. */
  function Relative(root: string, candidate: string): string {
    var a, b := Place(root), Place(candidate);
    var n := CommonLength(a, b);
    Join(Ups(|a| - n) + b[n..], '/')
  }

  predicate IsDescendant(candidate: string, root: string) {
    var path := Relative(root, candidate);
    path != "" && path != ".." && !("../" <= path) && !("/" <= path)
  }

  lemma {:induction false} JoinFirst(parts: seq<string>)
    requires |parts| > 1
    ensures Join(parts, '/') == parts[0] + ("/" + Join(parts[1..], '/'))
  {
  }

  /** A path lies under another exactly when its place properly extends the other's. */
  lemma DescendantExtends(candidate: string, root: string)
    requires IsAccepted(candidate) && IsAccepted(root)
    ensures IsDescendant(candidate, root) <==> Place(root) < Place(candidate)
  {
    var a, b := Place(root), Place(candidate);
    var n := CommonLength(a, b);
    var parts := Ups(|a| - n) + b[n..];
    if n < |a| {
      assert parts[0] == "..";
      if |parts| > 1 { JoinFirst(parts); } else { assert parts == [".."]; }
      assert n < |b| && |a| <= |b| ==> b[..|a|][n] == b[n];
    } else {
      assert a[..n] == a && b[..n] == a;
      assert parts == b[n..];
      if n < |b| {
        assert b[n] != "" && b[n] != ".." && '/' !in b[n] by { assert b[n] in b; }
        if |parts| > 1 { JoinFirst(parts); } else { assert parts == [b[n]]; }
        PlainHead(b[n], Join(parts, '/'));
      }
    }
  }

  /** A relative path that starts with an ordinary name neither climbs nor is absolute. */
  lemma PlainHead(name: string, path: string)
    requires name != "" && name != ".." && '/' !in name
    requires path == name || name + "/" <= path
    ensures path != "" && path != ".." && !("../" <= path) && !("/" <= path)
  {
    assert name[0] != '/' && forall i | 0 <= i < |name| :: name[i] in name;
    assert forall i | 0 <= i < |name| :: path[i] == if path == name then name[i] else (name + "/")[i];
    assert path != name ==> path[|name|] == (name + "/")[|name|];
    assert |name| == 2 ==> name == [name[0], name[1]];
    assert |name| > 2 ==> name[2] != '/';
    assert path[0] != '/';
    assert |path| > 2 ==> path[0] != '.' || path[1] != '.' || path[2] != '/';
    assert |path| == 2 ==> path[0] != '.' || path[1] != '.';
  }

  // ---------------------------------------------------------------- the places of an installation

  function Under(root: string, name: string): string { Stripped(root) + ("/" + name) }

  /** One ordinary name. */
  predicate PlainName(name: string) { name != "" && name != "." && name != ".." && '/' !in name }

  lemma UnderPlace(root: string, name: string)
    requires IsAccepted(root) && PlainName(name)
    ensures IsCanonical(Under(root, name)) && Place(Under(root, name)) == Place(root) + [name]
  {
    var r := Stripped(root);
    var p := Under(root, name);
    assert p[1..] == r[1..] + (['/'] + name);
    SplitAppends(r[1..], name, '/');
    assert Names(p) == Names(r) + [name];
    assert p[0] == r[0];
    CanonicalEnds(p);
  }

  lemma {:induction false} SplitAppends(s: string, name: string, d: char)
    requires d !in name
    ensures Split(s + ([d] + name), d) == Split(s, d) + [name]
  {
    if s == "" {
      assert s + ([d] + name) == [d] + name && ([d] + name)[1..] == name;
      SplitPlain(name, d);
    } else {
      SplitAppends(s[1..], name, d);
      assert (s + ([d] + name))[1..] == s[1..] + ([d] + name);
    }
  }

  /** The directories of the user that everything is derived from. */
  datatype Layout = Layout(home: string, dataHome: string, configHome: string)

  predicate WellFormedLayout(l: Layout) { IsAccepted(l.home) && IsAccepted(l.dataHome) && IsAccepted(l.configHome) }

  function DataRoot(l: Layout): string { Under(l.dataHome, "hostdeck") }
  function ReleasesDir(l: Layout): string { Under(DataRoot(l), "releases") }
  function TransactionFile(l: Layout): string { Under(DataRoot(l), "lifecycle-transaction.json") }
  function CurrentLink(l: Layout): string { Under(DataRoot(l), "current") }
  function ManifestPath(l: Layout): string { Under(DataRoot(l), "install.json") }
  function ConfigHostRoot(l: Layout): string { Under(l.configHome, "hostdeck") }
  function EnvironmentFile(l: Layout): string { Under(ConfigHostRoot(l), "service.env") }
  function UserUnits(l: Layout): string { Under(Under(l.configHome, "systemd"), "user") }
  function CodexUnit(l: Layout): string { Under(UserUnits(l), "hostdeck-codex.service") }
  function HostUnit(l: Layout): string { Under(UserUnits(l), "hostdeck.service") }
  function EnablementLink(l: Layout): string { Under(Under(UserUnits(l), "default.target.wants"), "hostdeck.service") }
  function CommandPath(l: Layout): string { Under(Under(Under(l.home, ".local"), "bin"), "codexdeck") }

  /** What uninstall checks the surviving paths against. */
  function RemovedPaths(l: Layout): seq<string> {
    [ReleasesDir(l), TransactionFile(l), CurrentLink(l), ManifestPath(l), EnvironmentFile(l), CommandPath(l), EnablementLink(l),
     CodexUnit(l), HostUnit(l)]
  }

  lemma DataPlaces(l: Layout)
    requires WellFormedLayout(l)
    ensures IsCanonical(DataRoot(l)) && IsCanonical(ReleasesDir(l)) && IsCanonical(TransactionFile(l)) && IsCanonical(CurrentLink(l))
    ensures IsCanonical(ManifestPath(l))
    ensures Place(ReleasesDir(l)) == Place(DataRoot(l)) + ["releases"] && Place(CurrentLink(l)) == Place(DataRoot(l)) + ["current"]
    ensures Place(TransactionFile(l)) == Place(DataRoot(l)) + ["lifecycle-transaction.json"]
    ensures Place(ManifestPath(l)) == Place(DataRoot(l)) + ["install.json"]
  {
    hide Under, Place, IsCanonical;
    UnderPlace(l.dataHome, "hostdeck");
    CanonicalEnds(DataRoot(l));
    UnderPlace(DataRoot(l), "releases");
    UnderPlace(DataRoot(l), "lifecycle-transaction.json");
    UnderPlace(DataRoot(l), "current");
    UnderPlace(DataRoot(l), "install.json");
  }

  lemma OtherPlaces(l: Layout)
    requires WellFormedLayout(l)
    ensures IsCanonical(ConfigHostRoot(l)) && IsCanonical(UserUnits(l)) && IsCanonical(EnvironmentFile(l)) && IsCanonical(CommandPath(l))
    ensures IsCanonical(EnablementLink(l)) && IsCanonical(CodexUnit(l)) && IsCanonical(HostUnit(l))
    ensures Place(ConfigHostRoot(l)) <= Place(EnvironmentFile(l))
    ensures Place(UserUnits(l)) <= Place(EnablementLink(l))
    ensures Place(UserUnits(l)) <= Place(CodexUnit(l)) && Place(UserUnits(l)) <= Place(HostUnit(l))
  {
    hide *;
    ConfigPlaces(l);
    UnitPlaces(l);
    CommandPlace(l);
  }

  lemma ConfigPlaces(l: Layout)
    requires WellFormedLayout(l)
    ensures IsCanonical(ConfigHostRoot(l)) && IsCanonical(EnvironmentFile(l)) && Place(ConfigHostRoot(l)) <= Place(EnvironmentFile(l))
  {
    hide Under, Place, IsCanonical;
    Extends(l.configHome, "hostdeck");
    Extends(ConfigHostRoot(l), "service.env");
  }

  lemma UnitPlaces(l: Layout)
    requires WellFormedLayout(l)
    ensures IsCanonical(UserUnits(l)) && IsCanonical(EnablementLink(l)) && IsCanonical(CodexUnit(l)) && IsCanonical(HostUnit(l))
    ensures Place(UserUnits(l)) <= Place(EnablementLink(l))
    ensures Place(UserUnits(l)) <= Place(CodexUnit(l)) && Place(UserUnits(l)) <= Place(HostUnit(l))
  {
    hide Under, Place, IsCanonical, IsAccepted;
    Extends(l.configHome, "systemd");
    Extends(Under(l.configHome, "systemd"), "user");
    var units := UserUnits(l);
    Extends(units, "hostdeck-codex.service");
    Extends(units, "hostdeck.service");
    Extends(units, "default.target.wants");
    Extends(Under(units, "default.target.wants"), "hostdeck.service");
    PrefixTrans(Place(units), Place(Under(units, "default.target.wants")), Place(EnablementLink(l)));
  }

  lemma CommandPlace(l: Layout)
    requires WellFormedLayout(l)
    ensures IsCanonical(CommandPath(l))
  {
    hide Under, Place, IsCanonical, IsAccepted;
    Extends(l.home, ".local");
    Extends(Under(l.home, ".local"), "bin");
    Extends(Under(Under(l.home, ".local"), "bin"), "codexdeck");
  }

  lemma Extends(root: string, name: string)
    requires IsAccepted(root) && PlainName(name)
    ensures IsCanonical(Under(root, name)) && IsAccepted(Under(root, name)) && Place(root) <= Place(Under(root, name))
  {
    UnderPlace(root, name);
    CanonicalEnds(Under(root, name));
    hide Under, Place, IsCanonical;
  }

  lemma PrefixTrans(a: seq<string>, b: seq<string>, c: seq<string>)
    requires a <= b && b <= c
    ensures a <= c
  {
  }

  lemma RemovedIndex(l: Layout)
    ensures var p := RemovedPaths(l);
            && |p| == 9 && p[0] == ReleasesDir(l) && p[1] == TransactionFile(l) && p[2] == CurrentLink(l) && p[3] == ManifestPath(l)
            && p[4] == EnvironmentFile(l) && p[5] == CommandPath(l) && p[6] == EnablementLink(l) && p[7] == CodexUnit(l) && p[8] == HostUnit(l)
  {
    hide ReleasesDir, TransactionFile, CurrentLink, ManifestPath, EnvironmentFile, CommandPath, EnablementLink, CodexUnit, HostUnit;
  }

  lemma RemovedAreCanonical(l: Layout, k: nat)
    requires WellFormedLayout(l) && k < |RemovedPaths(l)|
    ensures IsCanonical(RemovedPaths(l)[k]) && IsAccepted(RemovedPaths(l)[k])
  {
    hide *;
    AllCanonical(l);
    RemovedIndex(l);
    PickCanonical(RemovedPaths(l), k);
    CanonicalEnds(RemovedPaths(l)[k]);
  }

  lemma PickCanonical(paths: seq<string>, k: nat)
    requires |paths| == 9 && k < 9
    requires IsCanonical(paths[0]) && IsCanonical(paths[1]) && IsCanonical(paths[2]) && IsCanonical(paths[3]) && IsCanonical(paths[4])
    requires IsCanonical(paths[5]) && IsCanonical(paths[6]) && IsCanonical(paths[7]) && IsCanonical(paths[8])
    ensures IsCanonical(paths[k])
  {
    hide IsCanonical;
  }

  lemma AllCanonical(l: Layout)
    requires WellFormedLayout(l)
    ensures IsCanonical(ReleasesDir(l)) && IsCanonical(TransactionFile(l)) && IsCanonical(CurrentLink(l)) && IsCanonical(ManifestPath(l))
    ensures IsCanonical(EnvironmentFile(l)) && IsCanonical(CommandPath(l)) && IsCanonical(EnablementLink(l))
    ensures IsCanonical(CodexUnit(l)) && IsCanonical(HostUnit(l))
  {
    hide *;
    DataPlaces(l);
    OtherPlaces(l);
  }

  // ---------------------------------------------------------------- what uninstall may delete

  /** Neither the same string nor one under the other: what is tested. */
  predicate Apart(a: string, b: string) {
    a != b && !IsDescendant(a, b) && !IsDescendant(b, a)
  }

  /** Neither the same place nor one inside the other: what is meant. */
  predicate Clear(a: string, b: string) { !(Place(a) <= Place(b)) && !(Place(b) <= Place(a)) }

  /** The check before any deletion, for one path that has to survive. */
  predicate Survives(preserved: string, l: Layout) {
    forall k | 0 <= k < |RemovedPaths(l)| :: Apart(preserved, RemovedPaths(l)[k])
  }

  /** Everything uninstall can delete: one of the fixed paths, or something in the releases directory. */
  predicate Deletable(path: string, l: Layout) {
    path in RemovedPaths(l) || Place(ReleasesDir(l)) < Place(path)
  }

  /** Another spelling of a path that is removed: with a slash at its end. */
  predicate Respells(preserved: string, l: Layout) {
    exists k | 0 <= k < |RemovedPaths(l)| :: preserved != RemovedPaths(l)[k] && Place(preserved) == Place(RemovedPaths(l)[k])
  }

  lemma SameNames(a: string, b: string)
    requires IsCanonical(a) && IsCanonical(b) && Names(a) == Names(b)
    ensures a == b
  {
    JoinSplit(a[1..], '/');
    JoinSplit(b[1..], '/');
    assert a == ['/'] + a[1..] && b == ['/'] + b[1..];
  }

  /** Only a slash at the end is a second spelling. */
  lemma SamePlace(a: string, b: string)
    requires IsAccepted(a) && IsCanonical(b) && Place(a) == Place(b)
    ensures a == b || a == b + "/"
  {
    CanonicalEnds(b);
    SameNames(Stripped(a), b);
    if a != b { assert a == Stripped(a) + "/"; }
  }

  lemma ApartIff(a: string, b: string)
    requires IsAccepted(a) && IsAccepted(b)
    ensures Apart(a, b) <==> Clear(a, b) || (a != b && Place(a) == Place(b))
  {
    DescendantExtends(a, b);
    DescendantExtends(b, a);
    hide Place, IsDescendant, IsAccepted;
  }

  /**
   A path that passes the check, and is not another spelling of a removed one, is clear of everything uninstall
   can delete; and the check refuses no path for which that is so.
   */
  lemma SurvivesIffClear(preserved: string, l: Layout)
    requires IsAccepted(preserved) && WellFormedLayout(l)
    ensures Survives(preserved, l) && !Respells(preserved, l) <==>
            forall path | IsCanonical(path) && Deletable(path, l) :: Clear(preserved, path)
  {
    hide Place, IsDescendant, IsAccepted, IsCanonical, Under, RemovedPaths, ReleasesDir;
    ReleasesFirst(l);
    forall k | 0 <= k < |RemovedPaths(l)|
      ensures Apart(preserved, RemovedPaths(l)[k]) <==>
              Clear(preserved, RemovedPaths(l)[k]) || (preserved != RemovedPaths(l)[k] && Place(preserved) == Place(RemovedPaths(l)[k]))
      ensures IsCanonical(RemovedPaths(l)[k]) && Deletable(RemovedPaths(l)[k], l)
    {
      RemovedAreCanonical(l, k);
      ApartIff(preserved, RemovedPaths(l)[k]);
    }
    if Survives(preserved, l) && !Respells(preserved, l) {
      forall path | IsCanonical(path) && Deletable(path, l) ensures Clear(preserved, path) {
        if path !in RemovedPaths(l) { BelowOneOfTwo(Place(preserved), Place(ReleasesDir(l)), Place(path)); }
      }
    }
  }

  /**
   Of two paths, one below the other, that both pass the check, neither is another spelling of a removed path: a
   state directory and the database in it are not.
   */
  lemma NestedNeverRespell(outer: string, inner: string, l: Layout)
    requires WellFormedLayout(l) && IsAccepted(outer) && IsAccepted(inner) && IsDescendant(inner, outer)
    requires Survives(outer, l) && Survives(inner, l)
    ensures !Respells(outer, l) && !Respells(inner, l)
  {
    DescendantExtends(inner, outer);
    hide Place, IsDescendant, IsAccepted, IsCanonical, RemovedPaths, WellFormedLayout;
    forall k | 0 <= k < |RemovedPaths(l)| ensures Place(outer) != Place(RemovedPaths(l)[k]) && Place(inner) != Place(RemovedPaths(l)[k]) {
      RemovedAreCanonical(l, k);
      DescendantExtends(inner, RemovedPaths(l)[k]);
      DescendantExtends(RemovedPaths(l)[k], outer);
    }
  }

  /** Nor is a path without a slash at its end, as those of the resolved programs are. */
  lemma CanonicalNeverRespells(path: string, l: Layout)
    requires WellFormedLayout(l) && IsCanonical(path)
    ensures !Respells(path, l)
  {
    CanonicalEnds(path);
    hide Names, Stripped, IsAccepted, IsCanonical, RemovedPaths, WellFormedLayout;
    forall k | 0 <= k < |RemovedPaths(l)| && Place(path) == Place(RemovedPaths(l)[k]) ensures path == RemovedPaths(l)[k] {
      RemovedAreCanonical(l, k);
      CanonicalEnds(RemovedPaths(l)[k]);
      SameNames(path, RemovedPaths(l)[k]);
    }
  }

  lemma ReleasesFirst(l: Layout)
    ensures |RemovedPaths(l)| > 0 && RemovedPaths(l)[0] == ReleasesDir(l)
  {
  }

  /** Everything that is removed lies in one of the three directories. */
  lemma RemovedRoots(l: Layout, k: nat)
    requires WellFormedLayout(l) && k < |RemovedPaths(l)|
    ensures Place(l.dataHome) <= Place(RemovedPaths(l)[k]) || Place(l.configHome) <= Place(RemovedPaths(l)[k])
            || Place(l.home) <= Place(RemovedPaths(l)[k])
  {
    hide *;
    RemovedIndex(l);
    DataRoots(l);
    ConfigRoots(l);
    HomeRoots(l);
  }

  lemma Deeper(root: string, name: string)
    requires IsAccepted(root) && PlainName(name)
    ensures IsAccepted(Under(root, name))
    ensures forall r :: Place(r) <= Place(root) ==> Place(r) <= Place(Under(root, name))
  {
    Extends(root, name);
    hide Under, Place, IsCanonical;
    forall r | Place(r) <= Place(root) ensures Place(r) <= Place(Under(root, name)) {
      PrefixTrans(Place(r), Place(root), Place(Under(root, name)));
    }
  }

  lemma DataRoots(l: Layout)
    requires WellFormedLayout(l)
    ensures Place(l.dataHome) <= Place(ReleasesDir(l)) && Place(l.dataHome) <= Place(TransactionFile(l))
    ensures Place(l.dataHome) <= Place(CurrentLink(l)) && Place(l.dataHome) <= Place(ManifestPath(l))
  {
    hide Under, Place, IsAccepted;
    Deeper(l.dataHome, "hostdeck");
    Deeper(DataRoot(l), "releases");
    Deeper(DataRoot(l), "lifecycle-transaction.json");
    Deeper(DataRoot(l), "current");
    Deeper(DataRoot(l), "install.json");
  }

  lemma ConfigRoots(l: Layout)
    requires WellFormedLayout(l)
    ensures Place(l.configHome) <= Place(EnvironmentFile(l)) && Place(l.configHome) <= Place(EnablementLink(l))
    ensures Place(l.configHome) <= Place(CodexUnit(l)) && Place(l.configHome) <= Place(HostUnit(l))
  {
    hide Under, Place, IsAccepted;
    Deeper(l.configHome, "hostdeck");
    Deeper(ConfigHostRoot(l), "service.env");
    Deeper(l.configHome, "systemd");
    Deeper(Under(l.configHome, "systemd"), "user");
    Deeper(UserUnits(l), "hostdeck-codex.service");
    Deeper(UserUnits(l), "hostdeck.service");
    Deeper(UserUnits(l), "default.target.wants");
    Deeper(Under(UserUnits(l), "default.target.wants"), "hostdeck.service");
  }

  lemma HomeRoots(l: Layout)
    requires WellFormedLayout(l)
    ensures Place(l.home) <= Place(CommandPath(l))
  {
    hide Under, Place, IsAccepted;
    Deeper(l.home, ".local");
    Deeper(Under(l.home, ".local"), "bin");
    Deeper(Under(Under(l.home, ".local"), "bin"), "codexdeck");
  }

  /** A path whose first name is none of theirs passes the check. */
  lemma ElsewhereSurvives(l: Layout, path: string)
    requires WellFormedLayout(l) && IsAccepted(path)
    requires Place(path)[0] != Place(l.home)[0] && Place(path)[0] != Place(l.dataHome)[0] && Place(path)[0] != Place(l.configHome)[0]
    ensures Survives(path, l)
  {
    assert IsAccepted(l.home) && IsAccepted(l.dataHome) && IsAccepted(l.configHome);
    hide IsAccepted, RemovedPaths, Apart, WellFormedLayout, Place, Clear;
    forall k | 0 <= k < |RemovedPaths(l)| ensures Apart(path, RemovedPaths(l)[k]) {
      var q := RemovedPaths(l)[k];
      RemovedRoots(l, k);
      RemovedAreCanonical(l, k);
      if Place(l.dataHome) <= Place(q) { FirstName(l.dataHome, path, q); }
      else if Place(l.configHome) <= Place(q) { FirstName(l.configHome, path, q); }
      else { FirstName(l.home, path, q); }
      ApartIff(path, q);
    }
  }

  lemma FirstName(root: string, path: string, q: string)
    requires IsAccepted(root) && IsAccepted(path) && Place(path)[0] != Place(root)[0] && Place(root) <= Place(q)
    ensures Clear(path, q)
  {
    assert Place(q)[0] == Place(root)[0];
  }

  // ---------------------------------------------------------------- another spelling slips through

  /** What is demanded of the directories when the places are worked out. */
  predicate Separate(l: Layout) {
    && Apart(DataRoot(l), ConfigHostRoot(l)) && Apart(DataRoot(l), UserUnits(l)) && Apart(DataRoot(l), CommandPath(l))
    && Apart(ConfigHostRoot(l), CommandPath(l)) && Apart(UserUnits(l), CommandPath(l))
  }

  /**
   The check compares strings where it should compare places: the releases directory with a slash at its end is
   an accepted path and passes, in every installation.
   */
  lemma SlashSlipsThrough(l: Layout)
    requires WellFormedLayout(l) && Separate(l)
    ensures var p := ReleasesDir(l) + "/";
            IsAccepted(p) && Survives(p, l) && !Clear(p, ReleasesDir(l))
  {
    var p := ReleasesDir(l) + "/";
    DataPlaces(l);
    RemovedIndex(l);
    WithSlash(ReleasesDir(l));
    hide Place, IsDescendant, IsCanonical, Under, Stripped, RemovedPaths, ReleasesDir, IsAccepted, Apart, Separate;
    forall k | 0 <= k < |RemovedPaths(l)| ensures Apart(p, RemovedPaths(l)[k]) {
      RemovedAreCanonical(l, k);
      ApartIff(p, RemovedPaths(l)[k]);
      RemovedElsewhere(l, k);
      SameLength(p, ReleasesDir(l));
    }
  }

  lemma WithSlash(path: string)
    requires IsCanonical(path)
    ensures IsAccepted(path + "/") && Place(path + "/") == Place(path)
  {
    CanonicalEnds(path);
    assert Stripped(path + "/") == path;
  }

  lemma SameLength(p: string, q: string)
    requires p == q + "/"
    ensures p != q
  {
  }

  lemma RemovedElsewhere(l: Layout, k: nat)
    requires WellFormedLayout(l) && Separate(l) && k < |RemovedPaths(l)|
    ensures k == 0 || Clear(ReleasesDir(l), RemovedPaths(l)[k])
  {
    hide *;
    RemovedIndex(l);
    DataSiblings(l);
    OutsideData(l);
    if k > 0 { PickRemoved(RemovedPaths(l), ReleasesDir(l), k); }
  }

  lemma PickRemoved(paths: seq<string>, p: string, k: nat)
    requires |paths| == 9 && 0 < k < 9
    requires Clear(p, paths[1]) && Clear(p, paths[2]) && Clear(p, paths[3]) && Clear(p, paths[4])
    requires Clear(p, paths[5]) && Clear(p, paths[6]) && Clear(p, paths[7]) && Clear(p, paths[8])
    ensures Clear(p, paths[k])
  {
    hide Clear;
  }

  lemma DataSiblings(l: Layout)
    requires WellFormedLayout(l)
    ensures Clear(ReleasesDir(l), TransactionFile(l)) && Clear(ReleasesDir(l), CurrentLink(l)) && Clear(ReleasesDir(l), ManifestPath(l))
  {
    DataPlaces(l);
    var root := Place(DataRoot(l));
    Siblings(root, "releases", "lifecycle-transaction.json");
    Siblings(root, "releases", "current");
    Siblings(root, "releases", "install.json");
    ClearMeans(ReleasesDir(l), TransactionFile(l));
    ClearMeans(ReleasesDir(l), CurrentLink(l));
    ClearMeans(ReleasesDir(l), ManifestPath(l));
    hide *;
  }

  lemma OutsideData(l: Layout)
    requires WellFormedLayout(l) && Separate(l)
    ensures Clear(ReleasesDir(l), EnvironmentFile(l)) && Clear(ReleasesDir(l), CommandPath(l)) && Clear(ReleasesDir(l), EnablementLink(l))
    ensures Clear(ReleasesDir(l), CodexUnit(l)) && Clear(ReleasesDir(l), HostUnit(l))
  {
    SeparatePlaces(l);
    OtherPlaces(l);
    ReleasesInData(l);
    hide *;
    BelowBoth(DataRoot(l), ConfigHostRoot(l), ReleasesDir(l), EnvironmentFile(l));
    BelowBoth(DataRoot(l), CommandPath(l), ReleasesDir(l), CommandPath(l));
    BelowBoth(DataRoot(l), UserUnits(l), ReleasesDir(l), EnablementLink(l));
    BelowBoth(DataRoot(l), UserUnits(l), ReleasesDir(l), CodexUnit(l));
    BelowBoth(DataRoot(l), UserUnits(l), ReleasesDir(l), HostUnit(l));
  }

  lemma ReleasesInData(l: Layout)
    requires WellFormedLayout(l)
    ensures Place(DataRoot(l)) <= Place(ReleasesDir(l))
  {
    hide *;
    DataPlaces(l);
  }

  lemma ClearMeans(a: string, b: string)
    ensures Clear(a, b) <==> !(Place(a) <= Place(b)) && !(Place(b) <= Place(a))
  {
  }

  lemma SeparatePlaces(l: Layout)
    requires WellFormedLayout(l) && Separate(l)
    ensures Clear(DataRoot(l), ConfigHostRoot(l)) && Clear(DataRoot(l), UserUnits(l)) && Clear(DataRoot(l), CommandPath(l))
  {
    DataPlaces(l);
    OtherPlaces(l);
    hide Place, IsDescendant, IsCanonical, DataRoot, ConfigHostRoot, UserUnits, CommandPath, Apart, Clear;
    ApartIsClear(DataRoot(l), ConfigHostRoot(l));
    ApartIsClear(DataRoot(l), UserUnits(l));
    ApartIsClear(DataRoot(l), CommandPath(l));
  }

  lemma ApartIsClear(a: string, b: string)
    requires IsCanonical(a) && IsCanonical(b) && Apart(a, b)
    ensures Clear(a, b)
  {
    CanonicalEnds(a);
    CanonicalEnds(b);
    ApartIff(a, b);
    if Place(a) == Place(b) { SameNames(a, b); }
    hide Place, IsDescendant, IsCanonical;
  }

  lemma Siblings(root: seq<string>, a: string, b: string)
    requires a != b
    ensures !(root + [a] <= root + [b]) && !(root + [b] <= root + [a])
  {
    assert (root + [a])[|root|] == a && (root + [b])[|root|] == b;
  }

  lemma BelowBoth(a: string, b: string, p: string, q: string)
    requires Clear(a, b) && Place(a) <= Place(p) && Place(b) <= Place(q)
    ensures Clear(p, q)
  {
    var x, y := Place(a), Place(b);
    hide Place;
    if Place(p) <= Place(q) { TwoPrefixes(x, y, Place(q)); }
    if Place(q) <= Place(p) { TwoPrefixes(x, y, Place(p)); }
  }

  lemma TwoPrefixes(x: seq<string>, y: seq<string>, z: seq<string>)
    requires x <= z && y <= z
    ensures x <= y || y <= x
  {
    if |x| <= |y| { assert x == y[..|x|]; } else { assert y == x[..|y|]; }
  }

  lemma BelowOneOfTwo(p: seq<string>, r: seq<string>, q: seq<string>)
    requires r < q && !(p <= r) && !(r <= p)
    ensures !(p <= q) && !(q <= p)
  {
    assert |p| <= |q| && |p| <= |r| ==> q[..|p|] == q[..|r|][..|p|];
    assert |p| <= |q| && |r| <= |p| ==> q[..|p|][..|r|] == q[..|r|];
    assert |q| <= |p| ==> p[..|q|][..|r|] == p[..|r|];
  }
}
