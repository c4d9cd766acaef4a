/**
 The journal of a pending lifecycle transaction: its text, its strict reader, and the round trip.
 A change transaction is an install (no previous selector) or an upgrade.
 */
module Journal {
  import opened Common
  import opened SemVer
  import opened Json

  const MAXIMUM_TRANSACTION_BYTES := 16384
  const MAXIMUM_PATH_BYTES := 4096
  const MAXIMUM_PUBLISHED_RELEASES := 64

  datatype Phase = Preparing | Prepared | Selected | ManagerReloaded

  datatype Stage = Ready | Stopped | Disabled | AnchorsRemoved | ReleasesRemoved | Reloaded

  datatype Transaction =
    | Change(next: string, previous: Option<string>, phase: Phase, staging: string, wasActive: bool)
    | Uninstall(active: Option<string>, environment: Option<string>, stage: Stage, selectors: seq<string>)

  function PhaseName(p: Phase): string {
    match p
    case Preparing => "preparing"
    case Prepared => "prepared"
    case Selected => "selected"
    case ManagerReloaded => "manager_reloaded"
  }

  function StageName(s: Stage): string {
    match s
    case Ready => "prepared"
    case Stopped => "stopped"
    case Disabled => "disabled"
    case AnchorsRemoved => "anchors_removed"
    case ReleasesRemoved => "releases_removed"
    case Reloaded => "manager_reloaded"
  }

  /** The place of a stage in the order that uninstall walks through. */
  function StageIndex(s: Stage): nat {
    match s
    case Ready => 0
    case Stopped => 1
    case Disabled => 2
    case AnchorsRemoved => 3
    case ReleasesRemoved => 4
    case Reloaded => 5
  }

  function PhaseNamed(name: string): Option<Phase> {
    if name == "preparing" then Some(Preparing)
    else if name == "prepared" then Some(Prepared)
    else if name == "selected" then Some(Selected)
    else if name == "manager_reloaded" then Some(ManagerReloaded)
    else None
  }

  function StageNamed(name: string): Option<Stage> {
    if name == "prepared" then Some(Ready)
    else if name == "stopped" then Some(Stopped)
    else if name == "disabled" then Some(Disabled)
    else if name == "anchors_removed" then Some(AnchorsRemoved)
    else if name == "releases_removed" then Some(ReleasesRemoved)
    else if name == "manager_reloaded" then Some(Reloaded)
    else None
  }

  /** Where the release of a package lives, relative to the data root. */
  function ReleaseSelector(version: string, manifestSha: string): string {
    "releases/" + (version + "-" + manifestSha)
  }

  // ---------------------------------------------------------------- sizes

  function CharBytes(c: char): nat {
    if c < '\U{80}' then 1 else if c < '\U{800}' then 2 else if c < '\U{10000}' then 3 else 4
  }

  /** UTF-8 bytes. */
  function Bytes(s: string): (n: nat)
    ensures n >= |s|
  {
    if s == "" then 0 else CharBytes(s[0]) + Bytes(s[1..])
  }

  // ---------------------------------------------------------------- writing

  function OptionText(s: Option<string>): Json { if s.None? then Null else Text(s.value) }

  function Texts(items: seq<string>): seq<Json> { seq(|items|, i requires 0 <= i < |items| => Text(items[i])) }

  function Fields(t: Transaction): seq<Field> {
    match t
    case Change(next, previous, phase, staging, wasActive) => [
      Field("name", Text("hostdeck-service-transaction")),
      Field("next_selector", Text(next)),
      Field("operation", Text(if previous.None? then "install" else "upgrade")),
      Field("phase", Text(PhaseName(phase))),
      Field("previous_selector", OptionText(previous)),
      Field("schema_version", Number(1)),
      Field("staging_name", Text(staging)),
      Field("was_active", Bool(wasActive))]
    case Uninstall(active, environment, stage, selectors) => [
      Field("active_selector", OptionText(active)),
      Field("environment_sha256", OptionText(environment)),
      Field("name", Text("hostdeck-service-transaction")),
      Field("operation", Text("uninstall")),
      Field("phase", Text(StageName(stage))),
      Field("release_selectors", Array(Texts(selectors))),
      Field("schema_version", Number(1))]
  }

  function Render(t: Transaction): string { StableJson(Object(Fields(t))) + "\n" }

  // ---------------------------------------------------------------- reading

  predicate IsLowerHex(s: string, n: nat) {
    |s| == n && forall c | c in s :: '0' <= c <= '9' || 'a' <= c <= 'f'
  }

  predicate IsSha256(s: string) { IsLowerHex(s, 64) }

  const STAGING_PREFIX := ".hostdeck-release-"

  predicate IsStagingName(s: string) {
    STAGING_PREFIX <= s && IsLowerHex(s[|STAGING_PREFIX|..], 32)
  }

  predicate HasDots(s: string) { exists i | 0 < i < |s| :: s[i - 1] == '.' && s[i] == '.' }

  /** A relative path that normalising leaves alone, for paths without `..`. */
  predicate IsNormalRelative(s: string) {
    var parts := Split(s, '/');
    && (forall i | 0 <= i < |parts| :: parts[i] != ".")
    && (forall i | 0 <= i < |parts| - 1 :: parts[i] != "")
  }

  predicate IsSafeSelector(s: string) {
    && "releases/" <= s
    && IsNormalRelative(s)
    && !HasDots(s)
    && Bytes(s) <= MAXIMUM_PATH_BYTES
    && '\0' !in s && '\r' !in s && '\n' !in s
  }

  predicate StrictlySorted(items: seq<string>) {
    forall i | 0 < i < |items| :: CompareText(items[i - 1], items[i]) < 0
  }

  /** The reader's cross-field checks. */
  predicate Valid(t: Transaction) {
    match t
    case Change(next, previous, phase, staging, wasActive) =>
      && IsStagingName(staging)
      && IsSafeSelector(next)
      && (previous.Some? ==> IsSafeSelector(previous.value) && previous.value != next)
      && (previous.None? ==> !wasActive)
    case Uninstall(active, environment, stage, selectors) =>
      && (active.Some? ==> IsSafeSelector(active.value) && active.value in selectors)
      && (environment.Some? ==> IsSha256(environment.value))
      && |selectors| <= MAXIMUM_PUBLISHED_RELEASES
      && (selectors == [] <==> environment.None?)
      && (forall s | s in selectors :: IsSafeSelector(s))
      && StrictlySorted(selectors)
  }

  function Lookup(fields: seq<Field>, key: string): Json {
    if fields == [] then Null
    else if fields[0].key == key then fields[0].value
    else Lookup(fields[1..], key)
  }

  function Keys(fields: seq<Field>): set<string> { set f | f in fields :: f.key }

  const CHANGE_KEYS: set<string> := {"name", "next_selector", "operation", "phase", "previous_selector",
                                     "schema_version", "staging_name", "was_active"}
  const UNINSTALL_KEYS: set<string> := {"active_selector", "environment_sha256", "name", "operation", "phase",
                                        "release_selectors", "schema_version"}

  predicate IsOptionText(j: Json) { j.Null? || j.Text? }

  function TextOption(j: Json): Option<string> { if j.Text? then Some(j.s) else None }

  function ItemTexts(items: seq<Json>): seq<string> {
    seq(|items|, i requires 0 <= i < |items| => if items[i].Text? then items[i].s else "")
  }

  function InterpretChange(f: seq<Field>): Option<Transaction> {
    var next, previous := Lookup(f, "next_selector"), Lookup(f, "previous_selector");
    var operation, phase := Lookup(f, "operation"), Lookup(f, "phase");
    var staging, active := Lookup(f, "staging_name"), Lookup(f, "was_active");
    if || Keys(f) != CHANGE_KEYS
       || Lookup(f, "schema_version") != Number(1)
       || Lookup(f, "name") != Text("hostdeck-service-transaction")
       || (operation != Text("install") && operation != Text("upgrade"))
       || !phase.Text? || PhaseNamed(phase.s).None?
       || !active.Bool? || !staging.Text? || !next.Text? || !IsOptionText(previous)
       || (operation == Text("install")) != previous.Null?
    then None
    else
      var t := Change(next.s, TextOption(previous), PhaseNamed(phase.s).value, staging.s, active.b);
      if Valid(t) then Some(t) else None
  }

  function InterpretUninstall(f: seq<Field>): Option<Transaction> {
    var active, environment := Lookup(f, "active_selector"), Lookup(f, "environment_sha256");
    var stage, selectors := Lookup(f, "phase"), Lookup(f, "release_selectors");
    if || Keys(f) != UNINSTALL_KEYS
       || Lookup(f, "schema_version") != Number(1)
       || Lookup(f, "name") != Text("hostdeck-service-transaction")
       || !stage.Text? || StageNamed(stage.s).None?
       || !IsOptionText(active) || !IsOptionText(environment)
       || !selectors.Array? || (exists i | 0 <= i < |selectors.items| :: !selectors.items[i].Text?)
    then None
    else
      var t := Uninstall(TextOption(active), TextOption(environment), StageNamed(stage.s).value, ItemTexts(selectors.items));
      if Valid(t) then Some(t) else None
  }

  function Interpret(j: Json): Option<Transaction> {
    if !j.Object? then None
    else if Lookup(j.fields, "operation") == Text("uninstall") then InterpretUninstall(j.fields)
    else InterpretChange(j.fields)
  }

  /** `None` is every refusal: size, syntax, shape, identity, or a text that is not the canonical one. */
  function ReadTransaction(content: string): Option<Transaction> {
    if content == "" || Bytes(content) > MAXIMUM_TRANSACTION_BYTES then None
    else
      match Read(content)
      case Nothing => None
      case Taken(j, rest) =>
        if rest != "\n" then None
        else
          match Interpret(j)
          case None => None
          case Some(t) => if Render(t) == content then Some(t) else None
  }

  // ---------------------------------------------------------------- the keys are already in order

  lemma Before(a: string, b: string, k: nat)
    requires k <= |a| && k < |b| && a[..k] == b[..k] && (k == |a| || a[k] < b[k])
    ensures CompareText(a, b) < 0
  {
    assert TextPrecedesAt(a, b, k);
    TextPrecedesIffCompare(a, b);
  }

  lemma {:induction false} PairwiseIncrease(f: seq<Field>)
    requires forall i | 0 < i < |f| :: CompareText(f[i - 1].key, f[i].key) < 0
    ensures KeysIncrease(f)
  {
    if |f| > 1 {
      assert CompareText(f[1 - 1].key, f[1].key) < 0;
      forall i | 0 < i < |f[1..]| ensures CompareText(f[1..][i - 1].key, f[1..][i].key) < 0 {
        assert CompareText(f[i + 1 - 1].key, f[i + 1].key) < 0;
      }
      PairwiseIncrease(f[1..]);
    }
  }

  lemma FieldsIncrease(t: Transaction)
    ensures KeysIncrease(Fields(t))
  {
    hide CompareText, KeysIncrease;
    if t.Change? {
      Before("name", "next_selector", 1);
      Before("next_selector", "operation", 0);
      Before("operation", "phase", 0);
      Before("phase", "previous_selector", 1);
      Before("previous_selector", "schema_version", 0);
      Before("schema_version", "staging_name", 1);
      Before("staging_name", "was_active", 0);
    } else {
      Before("active_selector", "environment_sha256", 0);
      Before("environment_sha256", "name", 0);
      Before("name", "operation", 0);
      Before("operation", "phase", 0);
      Before("phase", "release_selectors", 0);
      Before("release_selectors", "schema_version", 0);
    }
    PairwiseIncrease(Fields(t));
  }

  lemma {:induction false} SortIncreasing(f: seq<Field>)
    requires KeysIncrease(f)
    ensures SortFields(f) == f
  {
    if f != [] {
      SortIncreasing(f[1..]);
      assert f == [f[0]] + f[1..];
    }
  }

  predicate IsFlat(j: Json) {
    !j.Object? && (j.Array? ==> forall i | 0 <= i < |j.items| :: j.items[i].Text?)
  }

  lemma {:induction false} CanonicalItemsFlat(items: seq<Json>)
    requires forall i | 0 <= i < |items| :: items[i].Text?
    ensures CanonicalItems(items) == items
  {
    if items != [] {
      CanonicalItemsFlat(items[1..]);
      assert items == [items[0]] + items[1..];
    }
  }

  lemma {:induction false} CanonicalFlat(f: seq<Field>)
    requires forall i | 0 <= i < |f| :: IsFlat(f[i].value)
    ensures CanonicalFields(f) == f
  {
    if f != [] {
      if f[0].value.Array? { CanonicalItemsFlat(f[0].value.items); }
      CanonicalFlat(f[1..]);
      assert f == [f[0]] + f[1..];
    }
  }

  lemma FieldsCanonical(t: Transaction)
    ensures Canonical(Object(Fields(t))) == Object(Fields(t))
  {
    FieldsFlat(t);
    FieldsIncrease(t);
    hide Fields, KeysIncrease, SortFields, CanonicalFields, CanonicalItems;
    CanonicalFlat(Fields(t));
    SortIncreasing(Fields(t));
  }

  lemma FieldsFlat(t: Transaction)
    ensures forall i | 0 <= i < |Fields(t)| :: IsFlat(Fields(t)[i].value)
  {
  }

  // ---------------------------------------------------------------- the round trip

  lemma {:induction false} LookupFinds(f: seq<Field>, i: nat)
    requires KeysIncrease(f) && i < |f|
    ensures Lookup(f, f[i].key) == f[i].value
  {
    if i > 0 {
      HeadIsLeast(f, i);
      CompareTextLaws(f[0].key, f[i].key);
      LookupFinds(f[1..], i - 1);
    }
  }

  lemma KeysOf(t: Transaction)
    ensures Keys(Fields(t)) == if t.Change? then CHANGE_KEYS else UNINSTALL_KEYS
  {
    hide Keys;
    var f := Fields(t);
    if t.Change? {
      KeysSplit(f, 7);
      KeysOfSeven(f[..7]);
      KeysOfOne(f[7..]);
    } else {
      KeysOfSeven(f);
    }
  }

  lemma KeysOfSeven(f: seq<Field>)
    requires |f| == 7
    ensures Keys(f) == {f[0].key, f[1].key, f[2].key, f[3].key, f[4].key, f[5].key, f[6].key}
  {
    KeysSplit(f, 4);
    KeysOfFour(f[..4]);
    KeysOfThree(f[4..]);
    hide Keys;
  }

  lemma KeysOfFour(f: seq<Field>)
    requires |f| == 4
    ensures Keys(f) == {f[0].key, f[1].key, f[2].key, f[3].key}
  {
    assert f[0] in f && f[1] in f && f[2] in f && f[3] in f;
  }

  lemma KeysOfThree(f: seq<Field>)
    requires |f| == 3
    ensures Keys(f) == {f[0].key, f[1].key, f[2].key}
  {
    assert f[0] in f && f[1] in f && f[2] in f;
  }

  lemma KeysOfOne(f: seq<Field>)
    requires |f| == 1
    ensures Keys(f) == {f[0].key}
  {
    assert f[0] in f;
  }

  lemma KeysSplit(f: seq<Field>, k: nat)
    requires k <= |f|
    ensures Keys(f) == Keys(f[..k]) + Keys(f[k..])
  {
    assert f == f[..k] + f[k..];
  }

  lemma LookupChange(t: Transaction)
    requires t.Change?
    ensures var f := Fields(t);
            && Lookup(f, "name") == f[0].value && Lookup(f, "next_selector") == f[1].value
            && Lookup(f, "operation") == f[2].value && Lookup(f, "phase") == f[3].value
            && Lookup(f, "previous_selector") == f[4].value && Lookup(f, "schema_version") == f[5].value
            && Lookup(f, "staging_name") == f[6].value && Lookup(f, "was_active") == f[7].value
  {
    hide Lookup, KeysIncrease;
    var f := Fields(t);
    FieldsIncrease(t);
    LookupFinds(f, 0);
    LookupFinds(f, 1);
    LookupFinds(f, 2);
    LookupFinds(f, 3);
    LookupFinds(f, 4);
    LookupFinds(f, 5);
    LookupFinds(f, 6);
    LookupFinds(f, 7);
  }

  lemma LookupUninstall(t: Transaction)
    requires t.Uninstall?
    ensures var f := Fields(t);
            && Lookup(f, "active_selector") == f[0].value && Lookup(f, "environment_sha256") == f[1].value
            && Lookup(f, "name") == f[2].value && Lookup(f, "operation") == f[3].value
            && Lookup(f, "phase") == f[4].value && Lookup(f, "release_selectors") == f[5].value
            && Lookup(f, "schema_version") == f[6].value
  {
    hide Lookup, KeysIncrease;
    var f := Fields(t);
    FieldsIncrease(t);
    LookupFinds(f, 0);
    LookupFinds(f, 1);
    LookupFinds(f, 2);
    LookupFinds(f, 3);
    LookupFinds(f, 4);
    LookupFinds(f, 5);
    LookupFinds(f, 6);
  }

  /** The reader takes from the written fields exactly the journal they were written from, if it passes the checks. */
  lemma InterpretFields(t: Transaction)
    ensures Interpret(Object(Fields(t))) == if Valid(t) then Some(t) else None
  {
    hide *;
    KeysOf(t);
    if t.Change? { InterpretChangeFields(t); } else { InterpretUninstallFields(t); }
  }

  lemma InterpretChangeFields(t: Transaction)
    requires t.Change? && Keys(Fields(t)) == CHANGE_KEYS
    ensures Interpret(Object(Fields(t))) == if Valid(t) then Some(t) else None
  {
    hide Valid, Lookup, Keys;
    LookupChange(t);
    assert PhaseNamed(PhaseName(t.phase)) == Some(t.phase);
  }

  lemma InterpretUninstallFields(t: Transaction)
    requires t.Uninstall? && Keys(Fields(t)) == UNINSTALL_KEYS
    ensures Interpret(Object(Fields(t))) == if Valid(t) then Some(t) else None
  {
    hide Valid, Lookup, Keys;
    LookupUninstall(t);
    assert StageNamed(StageName(t.stage)) == Some(t.stage);
    assert ItemTexts(Texts(t.selectors)) == t.selectors;
  }

  /** A written journal reads back as itself exactly when it passes the checks and fits the size limit. */
  lemma RoundTrip(t: Transaction)
    ensures ReadTransaction(Render(t)) ==
            if Valid(t) && Bytes(Render(t)) <= MAXIMUM_TRANSACTION_BYTES then Some(t) else None
  {
    FieldsCanonical(t);
    var j := Object(Fields(t));
    ReadWrite(j, "\n");
    assert Read(Render(t)) == Taken(j, "\n");
    InterpretFields(t);
  }

  /** A value has the text of a journal exactly when it is that journal, its fields inserted in any order. */
  lemma RenderIgnoresInsertionOrder(t: Transaction, j: Json)
    requires Unambiguous(j)
    ensures StableJson(j) + "\n" == Render(t) <==> SameValue(j, Object(Fields(t)))
  {
    FieldsIncrease(t);
    FieldsFlat(t);
    var f := Fields(t);
    forall i, j | 0 <= i < j < |f| ensures f[i].key != f[j].key {
      IncreasingKeysDiffer(f, i, j);
    }
    hide Fields, KeysIncrease, StableJson, SameValue;
    assert Unambiguous(Object(f)) by { FlatIsUnambiguous(f); }
    StableJsonIgnoresInsertionOrder(j, Object(f));
    assert (StableJson(j) + "\n")[..|StableJson(j)|] == StableJson(j);
    assert Render(t)[..|StableJson(Object(f))|] == StableJson(Object(f));
  }

  lemma FlatIsUnambiguous(f: seq<Field>)
    requires DistinctKeys(f) && forall i | 0 <= i < |f| :: IsFlat(f[i].value)
    ensures Unambiguous(Object(f))
  {
  }

  lemma {:induction false} IncreasingKeysDiffer(f: seq<Field>, i: nat, j: nat)
    requires KeysIncrease(f) && i < j < |f|
    ensures f[i].key != f[j].key
  {
    if i == 0 {
      HeadIsLeast(f, j);
      CompareTextLaws(f[0].key, f[j].key);
    } else {
      IncreasingKeysDiffer(f[1..], i - 1, j - 1);
    }
  }
}
