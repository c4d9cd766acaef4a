/** What the journals the installer builds look like: they pass every check of the reader; which of them fit. */
module JournalFacts {
  import opened Common
  import opened SemVer
  import opened Json
  import opened Journal

  // ---------------------------------------------------------------- selectors

  /** A selector determines the version and the digest, because the digest has a fixed length. */
  lemma SelectorInjective(v: string, h: string, w: string, k: string)
    requires |h| == |k| == 64
    requires ReleaseSelector(v, h) == ReleaseSelector(w, k)
    ensures v == w && h == k
  {
    var s, t := v + "-" + h, w + "-" + k;
    assert s == ReleaseSelector(v, h)[9..] == ReleaseSelector(w, k)[9..] == t;
    assert |v| == |w|;
    assert v == s[..|v|] == t[..|w|] == w;
    assert h == s[|v| + 1..] == t[|w| + 1..] == k;
  }

  predicate IsVersionChar(c: char) { IsIdentifierChar(c) || c == '.' }

  lemma {:induction false} JoinChars(parts: seq<string>)
    requires forall i | 0 <= i < |parts| :: forall c | c in parts[i] :: IsIdentifierChar(c)
    ensures forall c | c in Join(parts, '.') :: IsVersionChar(c)
  {
    if |parts| > 1 { JoinChars(parts[1..]); }
  }

  predicate DotsInside(s: string) {
    s != "" && s[0] != '.' && s[|s| - 1] != '.' && !HasDots(s)
  }

  lemma {:induction false} JoinDotsInside(parts: seq<string>)
    requires parts != []
    requires forall i | 0 <= i < |parts| :: parts[i] != "" && '.' !in parts[i]
    ensures DotsInside(Join(parts, '.'))
  {
    if |parts| > 1 {
      JoinDotsInside(parts[1..]);
      var tail := Join(parts[1..], '.');
      var s := Join(parts, '.');
      assert s == parts[0] + ['.'] + tail;
      forall i | 0 < i < |s| ensures !(s[i - 1] == '.' && s[i] == '.') {
        if i < |parts[0]| { assert s[i] in parts[0]; }
        if i == |parts[0]| { assert s[i - 1] in parts[0]; }
        if i > |parts[0]| + 1 { assert s[i - 1] == tail[i - |parts[0]| - 2] && s[i] == tail[i - |parts[0]| - 1]; }
      }
      assert parts[0][0] in parts[0];
    } else {
      assert Join(parts, '.') == parts[0];
    }
  }

  lemma VersionShape(v: string)
    requires IsSupported(v)
    ensures DotsInside(v)
    ensures forall c | c in v :: IsVersionChar(c)
  {
    var p := Parse(v);
    TextParse(v);
    assert forall i | 0 <= i < 3 :: IsNumber(p.numbers[i]);
    JoinChars(p.numbers);
    JoinDotsInside(p.numbers);
    if p.prerelease.Some? {
      assert forall i | 0 <= i < |p.prerelease.value| :: p.prerelease.value[i] in p.prerelease.value;
      JoinChars(p.prerelease.value);
      JoinDotsInside(p.prerelease.value);
      DashedDots(Join(p.numbers, '.'), Join(p.prerelease.value, '.'));
    } else {
      assert v == Join(p.numbers, '.');
    }
  }

  lemma DashedDots(a: string, b: string)
    requires DotsInside(a) && DotsInside(b)
    ensures DotsInside(a + ("-" + b))
  {
    var s := a + ("-" + b);
    forall i | 0 < i < |s| ensures !(s[i - 1] == '.' && s[i] == '.') {
      if i > |a| + 1 { assert s[i - 1] == b[i - |a| - 2] && s[i] == b[i - |a| - 1]; }
    }
  }

  predicate IsAscii(s: string) { forall c | c in s :: c < '\U{80}' }

  lemma {:induction false} AsciiBytes(s: string)
    requires IsAscii(s)
    ensures Bytes(s) == |s|
  {
    if s != "" {
      assert s[0] in s && forall c | c in s[1..] :: c in s;
      AsciiBytes(s[1..]);
    }
  }

  /** Every selector the installer makes is one the reader accepts. */
  lemma SelectorIsSafe(v: string, h: string)
    requires IsSupported(v) && IsSha256(h)
    ensures IsSafeSelector(ReleaseSelector(v, h))
  {
    VersionShape(v);
    NoDotsInSelector(v, h);
    SelectorChars(v, h);
    SelectorParts(v, h);
    hide HasDots, Split, IsVersionChar, IsSupported, Bytes;
    AsciiBytes(ReleaseSelector(v, h));
  }

  lemma SelectorChars(v: string, h: string)
    requires (forall c | c in v :: IsVersionChar(c)) && IsSha256(h)
    ensures forall c | c in ReleaseSelector(v, h) :: IsVersionChar(c) || c == '/'
    ensures IsAscii(ReleaseSelector(v, h))
    ensures '/' !in v + "-" + h
  {
    var s := ReleaseSelector(v, h);
    forall i | 0 <= i < |s| ensures IsVersionChar(s[i]) || s[i] == '/' {
      if i < 9 { assert s[i] == "releases/"[i]; }
      else if i < 9 + |v| { assert s[i] == v[i - 9] && v[i - 9] in v; }
      else if i > 9 + |v| { assert s[i] == h[i - 10 - |v|] && h[i - 10 - |v|] in h; }
    }
  }

  lemma SelectorParts(v: string, h: string)
    requires '/' !in v + "-" + h && |h| == 64
    ensures IsNormalRelative(ReleaseSelector(v, h))
  {
    var id := v + "-" + h;
    assert ReleaseSelector(v, h) == "releases" + (['/'] + id);
    SplitAtFirst("releases", id, '/');
    SplitPlain(id, '/');
  }

  lemma NoDotsInSelector(v: string, h: string)
    requires DotsInside(v) && IsSha256(h)
    ensures !HasDots(ReleaseSelector(v, h))
  {
    var s := ReleaseSelector(v, h);
    forall i | 0 < i < |s| ensures !(s[i - 1] == '.' && s[i] == '.') {
      if i < 9 { assert s[i] == "releases/"[i]; }
      else if 9 < i < 9 + |v| { assert s[i - 1] == v[i - 10] && s[i] == v[i - 9]; }
      else if i > 9 + |v| { assert s[i] == h[i - 10 - |v|] && h[i - 10 - |v|] in h; }
    }
  }

  // ---------------------------------------------------------------- journals as built

  /** The selector of some package whose identity the package verifier accepted. */
  ghost predicate IsPackageSelector(s: string) {
    exists v, h :: IsSupported(v) && IsSha256(h) && s == ReleaseSelector(v, h)
  }

  /** The journals that install, upgrade and uninstall write. */
  ghost predicate Built(t: Transaction) {
    match t
    case Change(next, previous, phase, staging, wasActive) =>
      && IsStagingName(staging)
      && IsPackageSelector(next)
      && (previous.Some? ==> IsPackageSelector(previous.value) && previous.value != next)
      && (previous.None? ==> !wasActive)
    case Uninstall(active, environment, stage, selectors) =>
      && (forall i | 0 <= i < |selectors| :: IsPackageSelector(selectors[i]))
      && StrictlySorted(selectors) && |selectors| <= MAXIMUM_PUBLISHED_RELEASES
      && (active.Some? ==> active.value in selectors)
      && (environment.None? <==> selectors == [])
      && (environment.Some? ==> IsSha256(environment.value))
  }

  lemma PackageSelectorIsSafe(s: string)
    requires IsPackageSelector(s)
    ensures IsSafeSelector(s)
    ensures |s| <= 330
  {
    var v, h :| IsSupported(v) && IsSha256(h) && s == ReleaseSelector(v, h);
    SelectorIsSafe(v, h);
  }

  lemma BuiltIsValid(t: Transaction)
    requires Built(t)
    ensures Valid(t)
  {
    if t.Change? {
      PackageSelectorIsSafe(t.next);
      if t.previous.Some? { PackageSelectorIsSafe(t.previous.value); }
    } else {
      forall s | s in t.selectors ensures IsSafeSelector(s) {
        var i :| 0 <= i < |t.selectors| && t.selectors[i] == s;
        PackageSelectorIsSafe(t.selectors[i]);
      }
    }
  }

  // ---------------------------------------------------------------- sizes

  predicate IsPlain(c: char) { c >= ' ' && c != '\"' && c != '\\' }

  lemma {:induction false} PlainText(s: string)
    requires forall c | c in s :: IsPlain(c)
    ensures EscapeAll(s) == s
  {
    if s != "" {
      PlainText(s[1..]);
      assert s[0] in s && s == [s[0]] + s[1..];
    }
  }

  lemma {:induction false} EscapeGrows(s: string)
    ensures |EscapeAll(s)| >= |s|
  {
    if s != "" { EscapeGrows(s[1..]); }
  }

  lemma {:induction false} BytesConcat(a: string, b: string)
    ensures Bytes(a + b) == Bytes(a) + Bytes(b)
  {
    if a == "" {
      assert a + b == b;
    } else {
      BytesConcat(a[1..], b);
      assert (a + b)[1..] == a[1..] + b;
    }
  }

  lemma {:induction false} BytesAtMost(s: string)
    ensures Bytes(s) <= 4 * |s|
  {
    if s != "" { BytesAtMost(s[1..]); }
  }

  lemma {:induction false} WriteFieldsConcat(a: seq<Field>, b: seq<Field>)
    requires a != [] && b != []
    ensures WriteFields(a + b) == WriteFields(a) + ([','] + WriteFields(b))
  {
    hide *;
    WriteFieldsShape(a + b);
    FieldsTail(a, b);
    if |a| == 1 {
      WriteFieldsUnfold(a);
      assert a[1..] + b == b;
    } else {
      WriteFieldsConcat(a[1..], b);
      WriteFieldsShape(a);
      RegroupFields(WriteField(a[0]), WriteFields(a[1..]), WriteFields(b));
    }
  }

  lemma FieldsTail(a: seq<Field>, b: seq<Field>)
    requires a != [] && b != []
    ensures (a + b)[0] == a[0] && (a + b)[1..] == a[1..] + b && |a + b| > 1
  {
  }

  lemma RegroupFields(x: string, y: string, z: string)
    ensures x + ([','] + (y + ([','] + z))) == (x + ([','] + y)) + ([','] + z)
  {
    assert [','] + (y + ([','] + z)) == ([','] + y) + ([','] + z);
  }

  lemma NoFields()
    ensures WriteFields([]) == ""
  {
  }

  lemma {:induction false} WriteFieldsBound(f: seq<Field>, bound: nat)
    requires forall i | 0 <= i < |f| :: |WriteField(f[i])| <= bound
    ensures |WriteFields(f)| <= |f| * (bound + 1)
  {
    hide *;
    if f != [] {
      WriteFieldsUnfold(f);
      WriteFieldsBound(f[1..], bound);
      assert |f| * (bound + 1) == |f[1..]| * (bound + 1) + (bound + 1);
    } else {
      NoFields();
    }
  }

  lemma {:induction false} EscapeBound(s: string)
    ensures |EscapeAll(s)| <= 6 * |s|
  {
    if s != "" { EscapeBound(s[1..]); }
  }

  lemma SelectorIsPlain(s: string)
    requires IsPackageSelector(s)
    ensures forall c | c in s :: IsPlain(c)
  {
    var v, h :| IsSupported(v) && IsSha256(h) && s == ReleaseSelector(v, h);
    VersionShape(v);
    assert forall c | c in "releases/" :: IsPlain(c);
  }

  lemma RenderUnfold(t: Transaction)
    ensures Render(t) == ['{'] + (WriteFields(Fields(t)) + ['}', '\n'])
  {
    FieldsCanonical(t);
    hide Fields, WriteFields, Canonical;
    assert Write(Object(Fields(t))) == "{" + WriteFields(Fields(t)) + "}";
  }

  lemma FieldSize(f: Field)
    requires IsSmall(f)
    ensures |WriteField(f)| <= 440
  {
    EscapeBound(f.key);
  }

  lemma ChangeFieldSizes(t: Transaction)
    requires t.Change? && Built(t)
    ensures forall i | 0 <= i < |Fields(t)| :: |WriteField(Fields(t)[i])| <= 440
  {
    hide IsPackageSelector, EscapeAll, WriteField, IsSmall, Fields, IsStagingName;
    SelectorEscaped(t.next);
    if t.previous.Some? { SelectorEscaped(t.previous.value); }
    ChangeTexts(t);
    FieldSizes(Fields(t));
  }

  lemma SelectorEscaped(s: string)
    requires IsPackageSelector(s)
    ensures |EscapeAll(s)| <= 330
  {
    hide EscapeAll, IsPackageSelector;
    PackageSelectorIsSafe(s);
    SelectorIsPlain(s);
    PlainText(s);
  }

  predicate IsSmall(f: Field) {
    && |f.key| <= 17
    && (f.value.Text? || f.value.Null? || f.value.Bool? || f.value == Number(1))
    && (f.value.Text? ==> |EscapeAll(f.value.s)| <= 330)
  }

  lemma ChangeTexts(t: Transaction)
    requires t.Change? && IsStagingName(t.staging) && |EscapeAll(t.next)| <= 330
    requires t.previous.Some? ==> |EscapeAll(t.previous.value)| <= 330
    ensures forall i | 0 <= i < |Fields(t)| :: IsSmall(Fields(t)[i])
  {
    hide EscapeAll;
    EscapeBound(t.staging);
    EscapeBound("hostdeck-service-transaction");
    EscapeBound(PhaseName(t.phase));
    EscapeBound(if t.previous.None? then "install" else "upgrade");
  }

  lemma FieldSizes(f: seq<Field>)
    requires forall i | 0 <= i < |f| :: IsSmall(f[i])
    ensures forall i | 0 <= i < |f| :: |WriteField(f[i])| <= 440
  {
    hide WriteField, IsSmall;
    forall i | 0 <= i < |f| ensures |WriteField(f[i])| <= 440 {
      FieldSize(f[i]);
    }
  }

  /** Every journal of an install or an upgrade reads back as itself. */
  lemma ChangeJournalAlwaysReads(t: Transaction)
    requires t.Change? && Built(t)
    ensures ReadTransaction(Render(t)) == Some(t)
  {
    BuiltIsValid(t);
    RoundTrip(t);
    ChangeFieldSizes(t);
    assert |Fields(t)| == 8;
    RenderUnfold(t);
    hide Fields, WriteField, WriteFields, Render, Bytes;
    WriteFieldsBound(Fields(t), 440);
    BytesAtMost(Render(t));
  }

  function BeforeStage(t: Transaction): seq<Field>
    requires t.Uninstall?
  {
    Fields(t)[..4]
  }

  function AfterStage(t: Transaction): seq<Field>
    requires t.Uninstall?
  {
    Fields(t)[5..]
  }

  function StageField(stage: Stage): Field { Field("phase", Text(StageName(stage))) }

  /** The text of an uninstall journal around the field that names its stage. */
  lemma StagePieces(t: Transaction)
    requires t.Uninstall?
    ensures Render(t) == (['{'] + WriteFields(BeforeStage(t)) + [','])
                         + (WriteField(StageField(t.stage)) + ([','] + WriteFields(AfterStage(t)) + ['}', '\n']))
  {
    RenderUnfold(t);
    StageSplit(t);
    hide *;
    var f := StageField(t.stage);
    WriteFieldsConcat(BeforeStage(t), [f] + AfterStage(t));
    WriteFieldsConcat([f], AfterStage(t));
    WriteFieldsUnfold([f]);
    Regroup(WriteFields(BeforeStage(t)), WriteField(f), WriteFields(AfterStage(t)));
  }

  lemma Regroup(a: string, x: string, b: string)
    ensures ['{'] + ((a + ([','] + (x + ([','] + b)))) + ['}', '\n']) == (['{'] + a + [',']) + (x + ([','] + b + ['}', '\n']))
  {
  }

  lemma StageSplit(t: Transaction)
    requires t.Uninstall?
    ensures Fields(t) == BeforeStage(t) + ([StageField(t.stage)] + AfterStage(t))
    ensures BeforeStage(t) != [] && AfterStage(t) != []
  {
    assert Fields(t) == Fields(t)[..4] + ([Fields(t)[4]] + Fields(t)[5..]);
  }

  /** What stands before the name of the stage, in the field that holds it. */
  function StageOpening(): string { WriteText("phase") + [':', '\"'] }

  lemma StageFieldBytes(stage: Stage)
    ensures Bytes(WriteField(StageField(stage))) == Bytes(StageOpening()) + |StageName(stage)| + Bytes(['\"'])
  {
    StageNameIsPlain(stage);
    hide *;
    var name := StageName(stage);
    PlainText(name);
    AsciiBytes(name);
    StageFieldText(stage);
    BytesConcat(StageOpening(), name + ['\"']);
    BytesConcat(name, ['\"']);
  }

  predicate IsNameChar(c: char) { 'a' <= c <= 'z' || c == '_' }

  lemma StageNameChars(stage: Stage)
    ensures forall c | c in StageName(stage) :: IsNameChar(c)
  {
  }

  lemma StageNameIsPlain(stage: Stage)
    ensures (forall c | c in StageName(stage) :: IsPlain(c)) && IsAscii(StageName(stage))
  {
    StageNameChars(stage);
    hide StageName;
  }

  lemma StageFieldText(stage: Stage)
    requires EscapeAll(StageName(stage)) == StageName(stage)
    ensures WriteField(StageField(stage)) == StageOpening() + (StageName(stage) + ['\"'])
  {
    hide EscapeAll, StageName;
    assert WriteText(StageName(stage)) == ['\"'] + (StageName(stage) + ['\"']);
  }

  /** Moving an uninstall journal to another stage changes its size by the lengths of the two names. */
  lemma StageSize(t: Transaction, stage: Stage)
    requires t.Uninstall?
    ensures Bytes(Render(t.(stage := stage))) == Bytes(Render(t)) - |StageName(t.stage)| + |StageName(stage)|
  {
    var u := t.(stage := stage);
    assert BeforeStage(u) == BeforeStage(t) && AfterStage(u) == AfterStage(t);
    StagePieces(t);
    StagePieces(u);
    StageFieldBytes(t.stage);
    StageFieldBytes(stage);
    hide *;
    var head, tail := ['{'] + WriteFields(BeforeStage(t)) + [','], [','] + WriteFields(AfterStage(t)) + ['}', '\n'];
    var f, g := WriteField(StageField(t.stage)), WriteField(StageField(stage));
    BytesConcat(head, f + tail);
    BytesConcat(f, tail);
    BytesConcat(head, g + tail);
    BytesConcat(g, tail);
  }

  /** Whether an uninstall journal can still be read at its longest stages. */
  predicate FitsAtEveryStage(t: Transaction)
    requires t.Uninstall?
  {
    Bytes(Render(t.(stage := Reloaded))) <= MAXIMUM_TRANSACTION_BYTES
  }

  /** An uninstall journal reads back at all its stages exactly when it fits at the last one. */
  lemma UninstallJournalReads(t: Transaction)
    requires t.Uninstall? && Built(t)
    ensures FitsAtEveryStage(t) <==>
            forall s: Stage :: ReadTransaction(Render(t.(stage := s))) == Some(t.(stage := s))
  {
    hide *;
    forall s: Stage
      ensures ReadTransaction(Render(t.(stage := s))) == Some(t.(stage := s))
         <==> Bytes(Render(t.(stage := s))) <= MAXIMUM_TRANSACTION_BYTES
      ensures Bytes(Render(t.(stage := s))) <= Bytes(Render(t.(stage := Reloaded)))
    {
      BuiltAtStage(t, s);
      StageSize(t, s);
      StageSize(t, Reloaded);
      StageNames(s);
    }
    FitsMeans(t);
  }

  lemma FitsMeans(t: Transaction)
    requires t.Uninstall?
    ensures FitsAtEveryStage(t) <==> Bytes(Render(t.(stage := Reloaded))) <= MAXIMUM_TRANSACTION_BYTES
  {
  }

  lemma StageNames(s: Stage)
    ensures |StageName(s)| <= |StageName(Reloaded)|
  {
  }

  lemma BuiltAtStage(t: Transaction, s: Stage)
    requires t.Uninstall? && Built(t)
    ensures ReadTransaction(Render(t.(stage := s))) == Some(t.(stage := s))
       <==> Bytes(Render(t.(stage := s))) <= MAXIMUM_TRANSACTION_BYTES
  {
    hide ReadTransaction, Render, Bytes, IsPackageSelector;
    BuiltIsValid(t.(stage := s));
    RoundTrip(t.(stage := s));
  }

  // ---------------------------------------------------------------- a journal that does not fit

  /** The directory of such a release has a name of 255 characters, the most a Linux file name can have. */
  function LongTail(i: nat): string
    requires i < 64
  {
    seq(182, j => 'a') + ['a' + (i / 8) as char, 'a' + (i % 8) as char]
  }

  function LongVersion(i: nat): string
    requires i < 64
  {
    VersionText(Version(["1", "0", "0"], Some([LongTail(i)])))
  }

  function LongSelector(i: nat): string
    requires i < 64
  {
    ReleaseSelector(LongVersion(i), seq(64, j => 'a'))
  }

  function LongJournal(): Transaction {
    Uninstall(None, Some(seq(64, j => 'a')), Ready, seq(64, i requires 0 <= i < 64 => LongSelector(i)))
  }

  lemma LongVersionSupported(i: nat)
    requires i < 64
    ensures IsSupported(LongVersion(i))
    ensures LongVersion(i) == "1.0.0-" + LongTail(i)
  {
    var v := Version(["1", "0", "0"], Some([LongTail(i)]));
    LongTailIsIdentifier(i);
    CoreText();
    hide IsIdentifier, LongTail;
    assert WellFormed(v);
    ParseText(v);
    assert Join([LongTail(i)], '.') == LongTail(i);
    assert VersionText(v) == "1.0.0" + ("-" + LongTail(i));
  }

  lemma LongTailIsIdentifier(i: nat)
    requires i < 64
    ensures IsIdentifier(LongTail(i)) && |LongTail(i)| == 184
  {
    assert LongTail(i)[0] == 'a' && LongTail(i)[0] in LongTail(i);
  }

  lemma CoreText()
    ensures Join(["1", "0", "0"], '.') == "1.0.0"
  {
    var n := ["1", "0", "0"];
    assert n[1..] == ["0", "0"] && n[1..][1..] == ["0"];
    assert Join(["0", "0"], '.') == "0" + ['.'] + Join(["0"], '.');
    assert Join(n, '.') == "1" + ['.'] + ("0" + ['.'] + "0");
  }

  lemma LongSelectorAt(i: nat, k: nat)
    requires i < 64 && k < 199
    ensures |LongSelector(i)| == 264
    ensures LongSelector(i)[k] ==
            if k < 9 then "releases/"[k] else if k < 15 then "1.0.0-"[k - 9]
            else if k < 197 then 'a' else if k == 197 then 'a' + (i / 8) as char else 'a' + (i % 8) as char
  {
    LongVersionSupported(i);
    hide LongVersion;
    assert LongSelector(i) == "releases/" + (("1.0.0-" + LongTail(i)) + "-" + seq(64, j => 'a'));
    if k >= 15 { assert LongSelector(i)[k] == LongTail(i)[k - 15]; }
  }

  lemma LongSelectorsSorted(i: nat)
    requires 0 < i < 64
    ensures CompareText(LongSelector(i - 1), LongSelector(i)) < 0
  {
    var k := if (i - 1) / 8 == i / 8 then 198 else 197;
    hide *;
    LongSelectorAt(i - 1, k);
    LongSelectorAt(i, k);
    forall m | 0 <= m < k ensures LongSelector(i - 1)[m] == LongSelector(i)[m] {
      LongSelectorAt(i - 1, m);
      LongSelectorAt(i, m);
    }
    assert LongSelector(i - 1)[..k] == LongSelector(i)[..k];
    Before(LongSelector(i - 1), LongSelector(i), k);
  }

  lemma {:induction false} WriteItemsGrows(items: seq<string>, n: nat)
    requires forall i | 0 <= i < |items| :: |items[i]| >= n
    ensures |WriteItems(Texts(items))| >= |items| * n
  {
    if items != [] {
      hide *;
      WriteItemsStep(items);
      WriteItemsGrows(items[1..], n);
      OneMoreTimes(|items|, n);
    }
  }

  lemma WriteItemsStep(items: seq<string>)
    requires items != []
    ensures |WriteItems(Texts(items))| >= |items[0]| + |WriteItems(Texts(items[1..]))|
  {
    EscapeGrows(items[0]);
    assert Texts(items)[0] == Text(items[0]);
    assert Texts(items)[1..] == Texts(items[1..]);
    hide EscapeAll, Texts;
    assert |Write(Text(items[0]))| == |EscapeAll(items[0])| + 2;
    hide Write;
  }

  lemma OneMoreTimes(k: nat, n: nat)
    requires k > 0
    ensures k * n == n + (k - 1) * n
  {
  }

  lemma LongSelectorIsBuilt(i: nat)
    requires i < 64
    ensures IsPackageSelector(LongSelector(i)) && |LongSelector(i)| == 264
  {
    LongVersionSupported(i);
    LongSelectorAt(i, 0);
    assert IsSha256(seq(64, j => 'a'));
  }

  lemma LongJournalIsBuilt()
    ensures Built(LongJournal())
    ensures forall i | 0 <= i < 64 :: |LongJournal().selectors[i]| == 264
  {
    hide LongSelector, IsPackageSelector, CompareText;
    var t := LongJournal();
    forall i | 0 <= i < 64 ensures IsPackageSelector(t.selectors[i]) && |t.selectors[i]| == 264 {
      LongSelectorIsBuilt(i);
    }
    forall i | 0 < i < 64 ensures CompareText(t.selectors[i - 1], t.selectors[i]) < 0 {
      LongSelectorsSorted(i);
    }
    assert IsSha256(t.environment.value);
  }

  /**
   Sixty-four releases with long versions, whose directories have names a file system takes, make a journal that
   uninstall writes and can never read again.
   */
  lemma LongJournalCannotBeRead()
    ensures Built(LongJournal())
    ensures forall s | s in LongJournal().selectors :: |s| == |"releases/"| + 255
    ensures ReadTransaction(Render(LongJournal())) == None
  {
    LongJournalIsBuilt();
    assert LongJournal().Uninstall? && |LongJournal().selectors| == 64;
    hide *;
    var t := LongJournal();
    WriteItemsGrows(t.selectors, 264);
    ListedSelectorsCount(t);
    TooLong(t);
  }

  lemma TooLong(t: Transaction)
    requires Bytes(Render(t)) > MAXIMUM_TRANSACTION_BYTES
    ensures ReadTransaction(Render(t)) == None
  {
    hide Render, Read;
  }

  lemma ListedSelectorsCount(t: Transaction)
    requires t.Uninstall?
    ensures Bytes(Render(t)) >= |WriteItems(Texts(t.selectors))|
  {
    hide *;
    StagePieces(t);
    AfterStageStarts(t);
    ListFieldCounts(AfterStage(t)[0], Texts(t.selectors));
    WriteFieldsUnfold(AfterStage(t));
    BytesAtLeast(Render(t));
  }

  lemma AfterStageStarts(t: Transaction)
    requires t.Uninstall?
    ensures AfterStage(t) != [] && AfterStage(t)[0].value == Array(Texts(t.selectors))
  {
    hide Texts;
  }

  lemma ListFieldCounts(f: Field, items: seq<Json>)
    requires f.value == Array(items)
    ensures |WriteField(f)| >= |WriteItems(items)|
  {
    hide WriteItems, WriteText;
    assert Write(f.value) == "[" + WriteItems(items) + "]";
  }

  lemma {:induction false} BytesAtLeast(s: string)
    ensures Bytes(s) >= |s|
  {
    if s != "" { BytesAtLeast(s[1..]); }
  }
}
