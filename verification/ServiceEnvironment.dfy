/** The environment file of the service: which values go in, how they are quoted, and that reading it gives them back. */
module ServiceEnvironment {
  import opened Common
  import opened SemVer
  import opened Json

  // ---------------------------------------------------------------- one value

  /** Two replacements, one after the other, between quotes. */
  function EncodeValue(value: string): string {
    "\"" + (ReplaceAll(ReplaceAll(value, '\\', "\\\\"), '\"', "\\\"") + "\"")
  }

  function ValueChar(c: char): string { if c == '\\' then "\\\\" else if c == '\"' then "\\\"" else [c] }

  function EscapeOnce(value: string): string {
    if value == "" then "" else ValueChar(value[0]) + EscapeOnce(value[1..])
  }

  lemma {:induction false} ChainIsOnePass(value: string)
    ensures ReplaceAll(ReplaceAll(value, '\\', "\\\\"), '\"', "\\\"") == EscapeOnce(value)
  {
    if value != "" {
      ChainIsOnePass(value[1..]);
      var head := if value[0] == '\\' then "\\\\" else [value[0]];
      ReplaceAllConcat(head, ReplaceAll(value[1..], '\\', "\\\\"), '\"', "\\\"");
      HeadEscapes(value[0]);
    }
  }

  lemma HeadEscapes(c: char)
    ensures ReplaceAll(if c == '\\' then "\\\\" else [c], '\"', "\\\"") == ValueChar(c)
  {
    if c == '\\' { ReplaceAllPlain("\\\\", '\"', "\\\""); } else if c != '\"' { ReplaceAllPlain([c], '\"', "\\\""); } else {
      assert [c][1..] == "";
      assert ReplaceAll("", '\"', "\\\"") == "";
      assert "\\\"" + "" == "\\\"";
    }
  }

  /**
   Reads a double-quoted value to its closing quote: a backslash protects the quote, the backslash, the
   dollar sign and the back quote, and is itself kept before anything else.
   */
  function ReadValue(s: string): Option<string>
    decreases |s|
  {
    if s == "" then None
    else if s[0] == '\"' then (if |s| == 1 then Some("") else None)
    else if s[0] == '\\' && |s| > 1 && s[1] in {'\"', '\\', '$', '`'} then Consed([s[1]], ReadValue(s[2..]))
    else Consed([s[0]], ReadValue(s[1..]))
  }

  function Consed(c: string, r: Option<string>): Option<string> {
    match r
    case None => None
    case Some(s) => Some(c + s)
  }

  function DecodeValue(s: string): Option<string> { if s == "" || s[0] != '\"' then None else ReadValue(s[1..]) }

  lemma ValueCharReads(c: char, tail: string)
    ensures ReadValue(ValueChar(c) + tail) == Consed([c], ReadValue(tail))
  {
    var s := ValueChar(c) + tail;
    assert s[|ValueChar(c)|..] == tail;
  }

  lemma {:induction false} EscapeReads(value: string)
    ensures ReadValue(EscapeOnce(value) + "\"") == Some(value)
  {
    if value != "" {
      EscapeReads(value[1..]);
      assert EscapeOnce(value) + "\"" == ValueChar(value[0]) + (EscapeOnce(value[1..]) + "\"");
      ValueCharReads(value[0], EscapeOnce(value[1..]) + "\"");
      assert value == [value[0]] + value[1..];
    }
  }

  /** Every value is read back as it was. */
  lemma ValueRoundTrip(value: string)
    ensures DecodeValue(EncodeValue(value)) == Some(value)
  {
    ChainIsOnePass(value);
    EscapeReads(value);
    assert EncodeValue(value)[1..] == EscapeOnce(value) + "\"";
  }

  lemma {:induction false} EncodeStaysOneLine(value: string)
    requires '\n' !in value
    ensures '\n' !in EncodeValue(value)
  {
    ChainIsOnePass(value);
    EscapeStaysOneLine(value);
  }

  lemma {:induction false} EscapeStaysOneLine(value: string)
    requires '\n' !in value
    ensures '\n' !in EscapeOnce(value)
  {
    if value != "" {
      assert value[0] in value;
      EscapeStaysOneLine(value[1..]);
    }
  }

  // ---------------------------------------------------------------- the file

  /** The settings that are always there, and the optional ones in the order they are looked at. */
  datatype Input = Input(home: string, database: string, port: nat, state: string, path: string,
                         codexHome: Option<string>, configHome: Option<string>, stateHome: Option<string>)

  function Entry(key: string, value: string): Field { Field(key, Text(value)) }

  function Required(i: Input): seq<Field> {
    [Entry("HOME", i.home), Entry("HOSTDECK_DATABASE_PATH", i.database), Entry("HOSTDECK_PORT", WriteNat(i.port)),
     Entry("HOSTDECK_STATE_DIR", i.state), Entry("PATH", i.path)]
  }

  const OPTIONAL_KEYS: seq<string> := ["CODEX_HOME", "XDG_CONFIG_HOME", "XDG_STATE_HOME"]

  function OptionalValue(i: Input, key: string): Option<string> {
    if key == "CODEX_HOME" then i.codexHome
    else if key == "XDG_CONFIG_HOME" then i.configHome
    else if key == "XDG_STATE_HOME" then i.stateHome
    else None
  }

  function Present(i: Input, keys: seq<string>): seq<Field> {
    if keys == [] then []
    else Present(i, keys[..|keys| - 1])
         + (if OptionalValue(i, keys[|keys| - 1]).Some? then [Entry(keys[|keys| - 1], OptionalValue(i, keys[|keys| - 1]).value)] else [])
  }

  function Entries(i: Input): seq<Field> { Required(i) + Present(i, OPTIONAL_KEYS) }

  function Line(f: Field): string
    requires f.value.Text?
  {
    f.key + ("=" + EncodeValue(f.value.s))
  }

  predicate AllText(fields: seq<Field>) { forall f | f in fields :: f.value.Text? }

  function Lines(fields: seq<Field>): seq<string>
    requires AllText(fields)
  {
    seq(|fields|, k requires 0 <= k < |fields| => Line(fields[k]))
  }

  /** The values are collected key by key, sorted, and written one line each. */
  method RenderEnvironment(i: Input) returns (text: string)
    ensures AllText(SortFields(Entries(i)))
    ensures text == Join(Lines(SortFields(Entries(i))), '\n') + "\n"
  {
    var values := Required(i);
    var n := 0;
    while n < |OPTIONAL_KEYS|
      invariant n <= |OPTIONAL_KEYS|
      invariant values == Required(i) + Present(i, OPTIONAL_KEYS[..n])
    {
      assert OPTIONAL_KEYS[..n + 1][..n] == OPTIONAL_KEYS[..n];
      var value := OptionalValue(i, OPTIONAL_KEYS[n]);
      if value.Some? { values := values + [Entry(OPTIONAL_KEYS[n], value.value)]; }
      n := n + 1;
    }
    assert OPTIONAL_KEYS[..n] == OPTIONAL_KEYS;
    EntriesAreText(i);
    SortKeepsText(Entries(i));
    text := Join(Lines(SortFields(values)), '\n') + "\n";
  }

  lemma EntriesAreText(i: Input)
    ensures AllText(Entries(i))
  {
    PresentIsText(i, OPTIONAL_KEYS);
  }

  lemma {:induction false} PresentIsText(i: Input, keys: seq<string>)
    ensures AllText(Present(i, keys))
    ensures forall f | f in Present(i, keys) :: f.key in keys && OptionalValue(i, f.key) == Some(f.value.s)
  {
    if keys != [] {
      PresentIsText(i, keys[..|keys| - 1]);
      assert keys == keys[..|keys| - 1] + [keys[|keys| - 1]];
    }
  }

  lemma SortKeepsText(fields: seq<Field>)
    requires AllText(fields)
    ensures AllText(SortFields(fields))
  {
    SortContents(fields);
    forall f | f in SortFields(fields) ensures f.value.Text? {
      assert f in multiset(SortFields(fields));
      assert f in multiset(fields);
    }
  }

  // ---------------------------------------------------------------- reading it back

  /** A line splits at its first equals sign. */
  function ReadLine(line: string): Option<Field> {
    var n := Find(line, '=');
    if n == |line| then None
    else
      match DecodeValue(line[n + 1..])
      case None => None
      case Some(value) => Some(Entry(line[..n], value))
  }

  function ReadLines(lines: seq<string>): Option<seq<Field>> {
    if lines == [] then Some([])
    else
      match (ReadLine(lines[0]), ReadLines(lines[1..]))
      case (Some(f), Some(rest)) => Some([f] + rest)
      case _ => None
  }

  function ReadEnvironment(text: string): Option<seq<Field>> {
    if text == "" || text[|text| - 1] != '\n' then None else ReadLines(Split(text[..|text| - 1], '\n'))
  }

  /** A key has no equals sign, and neither key nor value breaks the line. */
  predicate Plain(f: Field) { f.value.Text? && '=' !in f.key && '\n' !in f.key && '\n' !in f.value.s }

  lemma LineReads(f: Field)
    requires Plain(f)
    ensures ReadLine(Line(f)) == Some(f) && '\n' !in Line(f)
  {
    var line := Line(f);
    EncodeStaysOneLine(f.value.s);
    FirstEquals(f.key, EncodeValue(f.value.s));
    ValueRoundTrip(f.value.s);
    assert line[..|f.key|] == f.key && line[|f.key| + 1..] == EncodeValue(f.value.s);
    hide EncodeValue, DecodeValue, Find;
  }

  lemma {:induction false} FirstEquals(key: string, rest: string)
    requires '=' !in key
    ensures Find(key + ("=" + rest), '=') == |key|
  {
    if key != "" {
      FirstEquals(key[1..], rest);
      assert (key + ("=" + rest))[1..] == key[1..] + ("=" + rest);
      assert key[0] in key;
    }
  }

  lemma {:induction false} LinesRead(fields: seq<Field>)
    requires AllText(fields) && forall f | f in fields :: Plain(f)
    ensures ReadLines(Lines(fields)) == Some(fields)
    ensures forall line | line in Lines(fields) :: '\n' !in line
  {
    hide Line, ReadLine, Plain;
    if fields != [] {
      LineReads(fields[0]);
      LinesRead(fields[1..]);
      assert Lines(fields)[1..] == Lines(fields[1..]);
      assert Lines(fields) == [Line(fields[0])] + Lines(fields[1..]);
      assert fields == [fields[0]] + fields[1..];
    }
  }

  /** Values come from checked paths and a number, so none breaks its line. */
  predicate OneLineInput(i: Input) {
    && '\n' !in i.home && '\n' !in i.database && '\n' !in i.state && '\n' !in i.path
    && (i.codexHome.Some? ==> '\n' !in i.codexHome.value)
    && (i.configHome.Some? ==> '\n' !in i.configHome.value)
    && (i.stateHome.Some? ==> '\n' !in i.stateHome.value)
  }

  predicate IsKeyChar(c: char) { 'A' <= c <= 'Z' || c == '_' }

  predicate IsKey(s: string) { forall c | c in s :: IsKeyChar(c) }

  lemma LongKeys()
    ensures IsKey("HOSTDECK_DATABASE_PATH") && IsKey("HOSTDECK_STATE_DIR")
  {
  }

  lemma ShortKeys()
    ensures IsKey("HOME") && IsKey("HOSTDECK_PORT") && IsKey("PATH")
  {
  }

  lemma OptionalKeys()
    ensures forall key | key in OPTIONAL_KEYS :: IsKey(key)
  {
  }

  lemma KeyIsPlain(f: Field)
    requires IsKey(f.key) && f.value.Text? && '\n' !in f.value.s
    ensures Plain(f)
  {
  }

  lemma RequiredArePlain(i: Input)
    requires OneLineInput(i)
    ensures forall f | f in Required(i) :: Plain(f)
  {
    NumberIsOneLine(i.port);
    LongKeys();
    ShortKeys();
    hide IsKey, Plain, WriteNat;
    forall f | f in Required(i) ensures Plain(f) { KeyIsPlain(f); }
  }

  lemma {:induction false} NumberIsOneLine(n: nat)
    ensures '\n' !in WriteNat(n)
  {
    if n >= 10 { NumberIsOneLine(n / 10); }
  }

  lemma PresentArePlain(i: Input)
    requires OneLineInput(i)
    ensures forall f | f in Present(i, OPTIONAL_KEYS) :: Plain(f)
  {
    PresentIsText(i, OPTIONAL_KEYS);
    OptionalKeys();
    hide Present, IsKey, Plain;
    forall f | f in Present(i, OPTIONAL_KEYS) ensures Plain(f) { KeyIsPlain(f); }
  }

  /**
   Read back, the environment file is exactly the values that went in: the same keys with the same values,
   each once, in key order.
   */
  lemma EnvironmentReadsBack(i: Input)
    requires OneLineInput(i)
    ensures AllText(SortFields(Entries(i)))
    ensures ReadEnvironment(Join(Lines(SortFields(Entries(i))), '\n') + "\n") == Some(SortFields(Entries(i)))
    ensures multiset(SortFields(Entries(i))) == multiset(Entries(i))
  {
    EntriesAreText(i);
    SortKeepsText(Entries(i));
    SortContents(Entries(i));
    RequiredArePlain(i);
    PresentArePlain(i);
    var sorted := SortFields(Entries(i));
    forall f | f in sorted ensures Plain(f) {
      assert f in multiset(sorted);
      assert f in multiset(Entries(i));
      assert f in Required(i) || f in Present(i, OPTIONAL_KEYS);
    }
    LinesRead(sorted);
    SortedNotEmpty(i);
    hide Lines, SortFields, Required, Present, Plain;
    SplitJoin(Lines(sorted), '\n');
    var body := Join(Lines(sorted), '\n');
    assert (body + "\n")[..|body|] == body;
  }

  lemma SortedNotEmpty(i: Input)
    requires AllText(SortFields(Entries(i)))
    ensures |Lines(SortFields(Entries(i)))| > 0
  {
    SortContents(Entries(i));
    hide SortFields, Required;
    assert |multiset(SortFields(Entries(i)))| == |multiset(Entries(i))|;
    assert |Entries(i)| >= |Required(i)| by { }
    RequiredCount(i);
  }

  lemma RequiredCount(i: Input)
    ensures |Required(i)| == 5
  {
  }

  lemma EntriesAreDistinct(i: Input)
    ensures DistinctKeys(Entries(i))
  {
    PresentKeys(i);
    KeysDiffer();
    hide Present, WriteNat;
  }

  /** Keys of the same length differ in a letter. */
  lemma KeysDiffer()
    ensures "HOME" != "PATH" && "CODEX_HOME" != "HOME"
    ensures "HOSTDECK_STATE_DIR" != "HOSTDECK_DATABASE_PATH" && "XDG_STATE_HOME" != "XDG_CONFIG_HOME"
  {
    assert "HOME"[0] != "PATH"[0];
  }

  /** The optional settings that are there, spelled out. */
  lemma PresentKeys(i: Input)
    ensures Present(i, OPTIONAL_KEYS) ==
            (if i.codexHome.Some? then [Entry("CODEX_HOME", i.codexHome.value)] else [])
            + (if i.configHome.Some? then [Entry("XDG_CONFIG_HOME", i.configHome.value)] else [])
            + (if i.stateHome.Some? then [Entry("XDG_STATE_HOME", i.stateHome.value)] else [])
  {
    var one, two := ["CODEX_HOME"], ["CODEX_HOME", "XDG_CONFIG_HOME"];
    assert one[..0] == [] && two[..1] == one && OPTIONAL_KEYS[..2] == two;
    assert OptionalValue(i, "CODEX_HOME") == i.codexHome;
    assert Present(i, one) == if i.codexHome.Some? then [Entry("CODEX_HOME", i.codexHome.value)] else [];
    assert Present(i, two) == Present(i, one) + (if i.configHome.Some? then [Entry("XDG_CONFIG_HOME", i.configHome.value)] else []);
    assert OPTIONAL_KEYS[2] == "XDG_STATE_HOME";
  }

  /** The order of the lines is strictly increasing in the key, so the text does not depend on how the values were collected. */
  lemma LinesAreInKeyOrder(i: Input)
    ensures KeysIncrease(SortFields(Entries(i)))
  {
    EntriesAreDistinct(i);
    SortSorts(Entries(i));
  }
}
