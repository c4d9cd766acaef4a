/** How paths are written into systemd unit files: chains of replacements that are one-pass encodings and can be undone. */
module SystemdUnits {
  import opened Common

  // ---------------------------------------------------------------- quoted words

  /** The text of a word, without its quotes, written as a chain of replacements. */
  function EscapeWord(value: string, execWord: bool): string {
    var s := ReplaceAll(ReplaceAll(ReplaceAll(value, '\\', "\\\\"), '\"', "\\\""), '%', "%%");
    if execWord then ReplaceAll(s, '$', "$$") else s
  }

  function EncodeWord(value: string, execWord: bool): string { "\"" + (EscapeWord(value, execWord) + "\"") }

  /** What each character becomes. */
  function WordChar(c: char, execWord: bool): string {
    if c == '\\' then "\\\\"
    else if c == '\"' then "\\\""
    else if c == '%' then "%%"
    else if c == '$' && execWord then "$$"
    else [c]
  }

  function EscapeOnce(value: string, execWord: bool): string {
    if value == "" then "" else WordChar(value[0], execWord) + EscapeOnce(value[1..], execWord)
  }

  lemma EscapeConcat(a: string, b: string, execWord: bool)
    ensures EscapeWord(a + b, execWord) == EscapeWord(a, execWord) + EscapeWord(b, execWord)
  {
    ReplaceAllConcat(a, b, '\\', "\\\\");
    var a1, b1 := ReplaceAll(a, '\\', "\\\\"), ReplaceAll(b, '\\', "\\\\");
    ReplaceAllConcat(a1, b1, '\"', "\\\"");
    var a2, b2 := ReplaceAll(a1, '\"', "\\\""), ReplaceAll(b1, '\"', "\\\"");
    ReplaceAllConcat(a2, b2, '%', "%%");
    ReplaceAllConcat(ReplaceAll(a2, '%', "%%"), ReplaceAll(b2, '%', "%%"), '$', "$$");
  }

  lemma ReplaceOne(c: char, d: char, r: string)
    ensures ReplaceAll([c], d, r) == if c == d then r else [c]
  {
    assert [c][1..] == "";
    assert ReplaceAll("", d, r) == "";
    assert r + "" == r && [c] + "" == [c];
  }

  lemma ReplaceTwo(c: char, d: char, e: char, r: string)
    requires c != e && d != e
    ensures ReplaceAll([c, d], e, r) == [c, d]
  {
    ReplaceAllPlain([c, d], e, r);
  }

  /** No replacement touches what an earlier one wrote. */
  lemma EscapeOneChar(c: char, execWord: bool)
    ensures EscapeWord([c], execWord) == WordChar(c, execWord)
  {
    ReplaceOne(c, '\\', "\\\\");
    ReplaceOne(c, '\"', "\\\"");
    ReplaceOne(c, '%', "%%");
    ReplaceOne(c, '$', "$$");
    ReplaceTwo('\\', '\\', '\"', "\\\"");
    ReplaceTwo('\\', '\\', '%', "%%");
    ReplaceTwo('\\', '\\', '$', "$$");
    ReplaceTwo('\\', '\"', '%', "%%");
    ReplaceTwo('\\', '\"', '$', "$$");
    ReplaceTwo('%', '%', '$', "$$");
    hide ReplaceAll;
  }

  /** The chain of replacements is one pass over the characters. */
  lemma {:induction false} ChainIsOnePass(value: string, execWord: bool)
    ensures EscapeWord(value, execWord) == EscapeOnce(value, execWord)
  {
    if value == "" {
      assert forall c, r :: ReplaceAll("", c, r) == "";
    } else {
      assert value == [value[0]] + value[1..];
      EscapeConcat([value[0]], value[1..], execWord);
      EscapeOneChar(value[0], execWord);
      ChainIsOnePass(value[1..], execWord);
    }
  }

  /** Reads the rest of a quoted word the way a unit file is read; stops behind the closing quote. */
  function ReadQuoted(s: string, execWord: bool): Option<(string, string)>
    decreases |s|
  {
    if s == "" then None
    else if s[0] == '\"' then Some(("", s[1..]))
    else if s[0] == '\\' then (if |s| < 2 then None else Prefixed(s[1], ReadQuoted(s[2..], execWord)))
    else if s[0] == '%' then (if |s| < 2 || s[1] != '%' then None else Prefixed('%', ReadQuoted(s[2..], execWord)))
    else if s[0] == '$' && execWord then (if |s| < 2 || s[1] != '$' then None else Prefixed('$', ReadQuoted(s[2..], execWord)))
    else Prefixed(s[0], ReadQuoted(s[1..], execWord))
  }

  function Prefixed(c: char, r: Option<(string, string)>): Option<(string, string)> {
    match r
    case None => None
    case Some((word, rest)) => Some(([c] + word, rest))
  }

  function ReadWord(s: string, execWord: bool): Option<(string, string)> {
    if s == "" || s[0] != '\"' then None else ReadQuoted(s[1..], execWord)
  }

  lemma WordCharReads(c: char, execWord: bool, tail: string)
    ensures ReadQuoted(WordChar(c, execWord) + tail, execWord) == Prefixed(c, ReadQuoted(tail, execWord))
  {
    var s := WordChar(c, execWord) + tail;
    assert s[|WordChar(c, execWord)|..] == tail;
  }

  lemma {:induction false} QuotedRoundTrip(value: string, execWord: bool, rest: string)
    ensures ReadQuoted(EscapeOnce(value, execWord) + ("\"" + rest), execWord) == Some((value, rest))
  {
    if value == "" {
      assert EscapeOnce(value, execWord) + ("\"" + rest) == "\"" + rest;
      assert ("\"" + rest)[1..] == rest;
    } else {
      var tail := EscapeOnce(value[1..], execWord) + ("\"" + rest);
      QuotedRoundTrip(value[1..], execWord, rest);
      assert EscapeOnce(value, execWord) + ("\"" + rest) == WordChar(value[0], execWord) + tail;
      WordCharReads(value[0], execWord, tail);
      assert value == [value[0]] + value[1..];
    }
  }

  /** A written word is read back as the value it was written for, whatever follows it. */
  lemma WordRoundTrip(value: string, execWord: bool, rest: string)
    ensures ReadWord(EncodeWord(value, execWord) + rest, execWord) == Some((value, rest))
  {
    ChainIsOnePass(value, execWord);
    QuotedRoundTrip(value, execWord, rest);
    assert (EncodeWord(value, execWord) + rest)[1..] == EscapeOnce(value, execWord) + ("\"" + rest);
  }

  // ---------------------------------------------------------------- file paths

  function EncodeFilePath(value: string): string {
    ReplaceAll(ReplaceAll(ReplaceAll(ReplaceAll(ReplaceAll(value, '\\', "\\x5c"), '\"', "\\x22"), '\'', "\\x27"), ' ', "\\x20"), '%', "%%")
  }

  function PathChar(c: char): string {
    if c == '\\' then "\\x5c"
    else if c == '\"' then "\\x22"
    else if c == '\'' then "\\x27"
    else if c == ' ' then "\\x20"
    else if c == '%' then "%%"
    else [c]
  }

  function EncodePathOnce(value: string): string {
    if value == "" then "" else PathChar(value[0]) + EncodePathOnce(value[1..])
  }

  lemma EncodeFilePathConcat(a: string, b: string)
    ensures EncodeFilePath(a + b) == EncodeFilePath(a) + EncodeFilePath(b)
  {
    ReplaceAllConcat(a, b, '\\', "\\x5c");
    var a1, b1 := ReplaceAll(a, '\\', "\\x5c"), ReplaceAll(b, '\\', "\\x5c");
    ReplaceAllConcat(a1, b1, '\"', "\\x22");
    var a2, b2 := ReplaceAll(a1, '\"', "\\x22"), ReplaceAll(b1, '\"', "\\x22");
    ReplaceAllConcat(a2, b2, '\'', "\\x27");
    var a3, b3 := ReplaceAll(a2, '\'', "\\x27"), ReplaceAll(b2, '\'', "\\x27");
    ReplaceAllConcat(a3, b3, ' ', "\\x20");
    ReplaceAllConcat(ReplaceAll(a3, ' ', "\\x20"), ReplaceAll(b3, ' ', "\\x20"), '%', "%%");
  }

  /** What one replacement writes, no later one touches. */
  lemma EncodeOnePathChar(c: char)
    ensures EncodeFilePath([c]) == PathChar(c)
  {
    hide ReplaceAll;
    ReplaceOne(c, '\\', "\\x5c");
    if c == '\\' {
      ReplaceAllPlain("\\x5c", '\"', "\\x22");
      ReplaceAllPlain("\\x5c", '\'', "\\x27");
      ReplaceAllPlain("\\x5c", ' ', "\\x20");
      ReplaceAllPlain("\\x5c", '%', "%%");
    } else {
      ReplaceOne(c, '\"', "\\x22");
      if c == '\"' {
        ReplaceAllPlain("\\x22", '\'', "\\x27");
        ReplaceAllPlain("\\x22", ' ', "\\x20");
        ReplaceAllPlain("\\x22", '%', "%%");
      } else {
        ReplaceOne(c, '\'', "\\x27");
        if c == '\'' {
          ReplaceAllPlain("\\x27", ' ', "\\x20");
          ReplaceAllPlain("\\x27", '%', "%%");
        } else {
          ReplaceOne(c, ' ', "\\x20");
          if c == ' ' { ReplaceAllPlain("\\x20", '%', "%%"); } else { ReplaceOne(c, '%', "%%"); }
        }
      }
    }
  }

  lemma {:induction false} PathChainIsOnePass(value: string)
    ensures EncodeFilePath(value) == EncodePathOnce(value)
  {
    if value == "" {
      assert forall c, r :: ReplaceAll("", c, r) == "";
    } else {
      assert value == [value[0]] + value[1..];
      EncodeFilePathConcat([value[0]], value[1..]);
      EncodeOnePathChar(value[0]);
      PathChainIsOnePass(value[1..]);
    }
  }

  function HexValue(c: char): Option<nat> {
    if '0' <= c <= '9' then Some(c as nat - '0' as nat)
    else if 'a' <= c <= 'f' then Some(c as nat - 'a' as nat + 10)
    else None
  }

  /** Reads a path setting: `\xHH` is a character by number, `%%` a percent sign. */
  function DecodeFilePath(s: string): Option<string>
    decreases |s|
  {
    if s == "" then Some("")
    else if s[0] == '\\' then
      (if |s| < 4 || s[1] != 'x' || HexValue(s[2]).None? || HexValue(s[3]).None? then None
       else Consed((HexValue(s[2]).value * 16 + HexValue(s[3]).value) as char, DecodeFilePath(s[4..])))
    else if s[0] == '%' then (if |s| < 2 || s[1] != '%' then None else Consed('%', DecodeFilePath(s[2..])))
    else Consed(s[0], DecodeFilePath(s[1..]))
  }

  function Consed(c: char, r: Option<string>): Option<string> {
    match r
    case None => None
    case Some(s) => Some([c] + s)
  }

  lemma {:induction false} OnePassPathRoundTrip(value: string)
    ensures DecodeFilePath(EncodePathOnce(value)) == Some(value)
  {
    if value != "" {
      OnePassPathRoundTrip(value[1..]);
      var head, tail := PathChar(value[0]), EncodePathOnce(value[1..]);
      assert (head + tail)[|head|..] == tail;
      assert value == [value[0]] + value[1..];
      PathCharDecodes(value[0], tail);
    }
  }

  lemma PathCharDecodes(c: char, tail: string)
    ensures DecodeFilePath(PathChar(c) + tail) == Consed(c, DecodeFilePath(tail))
  {
    var s := PathChar(c) + tail;
    assert s[|PathChar(c)|..] == tail;
  }

  /** A written path is read back unchanged, for every path. */
  lemma FilePathRoundTrip(value: string)
    ensures DecodeFilePath(EncodeFilePath(value)) == Some(value)
  {
    PathChainIsOnePass(value);
    OnePassPathRoundTrip(value);
  }

  // ---------------------------------------------------------------- the host unit

  datatype Input = Input(version: string, environmentFile: Option<string>, codexBin: string, nodeBin: string, serviceHost: string)

  const DEPENDENCIES: seq<string> := [
    "Wants=hostdeck-codex.service", "After=hostdeck-codex.service", "StartLimitIntervalSec=60s", "StartLimitBurst=5", ""]

  const SERVICE: seq<string> := ["[Service]", "Type=exec", "WorkingDirectory=%h"]

  const POLICY: seq<string> := [
    "Restart=always", "RestartSec=2s", "TimeoutStartSec=90s", "TimeoutStopSec=30s", "KillMode=control-group",
    "StandardOutput=journal", "StandardError=journal"]

  const INSTALL: seq<string> := ["", "[Install]", "WantedBy=default.target"]

  function Header(i: Input): seq<string> {
    ["# Generated by HostDeck " + (i.version + ". Do not edit."), "[Unit]", "Description=HostDeck service (" + (i.version + ")")]
  }

  function EnvironmentFileLine(i: Input): seq<string> {
    if i.environmentFile.None? then [] else ["EnvironmentFile=-" + EncodeFilePath(i.environmentFile.value)]
  }

  function EnvironmentLine(i: Input): string { "Environment=" + EncodeWord("HOSTDECK_CODEX_BIN=" + i.codexBin, false) }

  function ExecLine(i: Input): string { "ExecStart=" + (EncodeWord(i.nodeBin, false) + (" " + EncodeWord(i.serviceHost, true))) }

  function HostUnitLines(i: Input): seq<string> {
    Header(i) + DEPENDENCIES + SERVICE + EnvironmentFileLine(i) + [EnvironmentLine(i), "UMask=0077", ExecLine(i)] + POLICY + INSTALL
  }

  /** The values of a setting in a unit file, in the order of its lines. */
  function Settings(lines: seq<string>, key: string): seq<string> {
    if lines == [] then []
    else (if key <= lines[0] then [lines[0][|key|..]] else []) + Settings(lines[1..], key)
  }

  function SettingsOf(text: string, key: string): seq<string> { Settings(Split(text, '\n'), key) }

  /** What the manager takes from a unit file: the two words it starts, the environment it sets, and the file it reads. */
  predicate Starts(text: string, program: string, argument: string) {
    var values := SettingsOf(text, "ExecStart=");
    && |values| == 1
    && var first := ReadWord(values[0], false);
       first.Some? && first.value.0 == program && first.value.1 != "" && first.value.1[0] == ' '
       && ReadWord(first.value.1[1..], true) == Some((argument, ""))
  }

  predicate Sets(text: string, assignment: string) {
    var values := SettingsOf(text, "Environment=");
    |values| == 1 && ReadWord(values[0], false) == Some((assignment, ""))
  }

  predicate ReadsFile(text: string, file: Option<string>) {
    var values := SettingsOf(text, "EnvironmentFile=-");
    if file.None? then values == [] else |values| == 1 && DecodeFilePath(values[0]) == file
  }

  /**
   The lines are pushed one group after the other and joined at the end. Read back line by line, the unit
   starts the programs and names the file it was generated for, once each.
   */
  method RenderHostDeckUnit(i: Input) returns (text: string)
    ensures text == Join(HostUnitLines(i), '\n') + "\n"
    ensures OneLineInput(i) ==>
              && Starts(text, i.nodeBin, i.serviceHost)
              && Sets(text, "HOSTDECK_CODEX_BIN=" + i.codexBin)
              && ReadsFile(text, i.environmentFile)
  {
    if OneLineInput(i) { HostUnitReadsBack(i); }
    hide EncodeWord, EncodeFilePath, Join, Starts, Sets, ReadsFile, OneLineInput;
    var lines := Header(i) + DEPENDENCIES + SERVICE;
    if i.environmentFile.Some? { lines := lines + ["EnvironmentFile=-" + EncodeFilePath(i.environmentFile.value)]; }
    assert lines == Header(i) + DEPENDENCIES + SERVICE + EnvironmentFileLine(i);
    lines := lines + [EnvironmentLine(i), "UMask=0077", ExecLine(i)] + POLICY + INSTALL;
    text := Join(lines, '\n') + "\n";
  }

  predicate OneLine(s: string) { '\n' !in s }

  lemma {:induction false} EscapeStaysOneLine(value: string, execWord: bool)
    requires OneLine(value)
    ensures OneLine(EncodeWord(value, execWord)) && OneLine(EncodeFilePath(value))
  {
    ChainIsOnePass(value, execWord);
    PathChainIsOnePass(value);
    OncesStayOneLine(value, execWord);
  }

  lemma {:induction false} OncesStayOneLine(value: string, execWord: bool)
    requires OneLine(value)
    ensures OneLine(EscapeOnce(value, execWord)) && OneLine(EncodePathOnce(value))
  {
    if value != "" {
      assert value[0] in value;
      OncesStayOneLine(value[1..], execWord);
    }
  }

  predicate OneLineInput(i: Input) {
    OneLine(i.version) && OneLine(i.codexBin) && OneLine(i.nodeBin) && OneLine(i.serviceHost)
    && (i.environmentFile.Some? ==> OneLine(i.environmentFile.value))
  }

  /**
   Read line by line, the unit has exactly its lines; the programs it starts and the files it names are the
   ones it was generated for, each named once.
   */
  lemma HostUnitReadsBack(i: Input)
    requires OneLineInput(i)
    ensures var text := Join(HostUnitLines(i), '\n') + "\n";
            && Split(text, '\n') == HostUnitLines(i) + [""]
            && Starts(text, i.nodeBin, i.serviceHost)
            && Sets(text, "HOSTDECK_CODEX_BIN=" + i.codexBin)
            && ReadsFile(text, i.environmentFile)
  {
    UnitSplits(i);
    ExecReadsBack(i);
    EnvironmentReadsBack(i);
    FileReadsBack(i);
    hide Split, Join, HostUnitLines, Settings, ReadWord, DecodeFilePath, OneLineInput, EncodeWord, EncodeFilePath, ExecLine, EnvironmentLine;
    assert i.environmentFile.None? ==> Settings(HostUnitLines(i) + [""], "EnvironmentFile=-") == [];
  }

  lemma UnitSplits(i: Input)
    requires OneLineInput(i)
    ensures Split(Join(HostUnitLines(i), '\n') + "\n", '\n') == HostUnitLines(i) + [""]
  {
    LinesAreLines(i);
    var lines := HostUnitLines(i);
    assert lines != [];
    hide HostUnitLines, Split, Join, OneLineInput;
    JoinEmptyLast(lines);
    forall p | p in lines + [""] ensures '\n' !in p { if p in lines { assert OneLine(p); } }
    SplitJoin(lines + [""], '\n');
  }

  lemma {:induction false} JoinEmptyLast(lines: seq<string>)
    requires lines != []
    ensures Join(lines + [""], '\n') == Join(lines, '\n') + "\n"
  {
    if |lines| > 1 {
      JoinEmptyLast(lines[1..]);
      assert (lines + [""])[1..] == lines[1..] + [""];
    } else {
      assert lines + [""] == [lines[0], ""] && [lines[0], ""][1..] == [""];
    }
  }

  lemma {:induction false} SettingsConcat(a: seq<string>, b: seq<string>, key: string)
    ensures Settings(a + b, key) == Settings(a, key) + Settings(b, key)
  {
    if a == [] {
      assert a + b == b;
    } else {
      assert (a + b)[1..] == a[1..] + b;
      SettingsConcat(a[1..], b, key);
    }
  }

  /** Lines that do not start with the key say nothing about the setting. */
  lemma {:induction false} NoSettings(lines: seq<string>, key: string)
    requires forall k | 0 <= k < |lines| :: !(key <= lines[k])
    ensures Settings(lines, key) == []
  {
    if lines != [] { NoSettings(lines[1..], key); }
  }

  lemma Starting(a: string, key: string, n: nat)
    requires n < |key| && (n >= |a| || a[n] != key[n])
    ensures !(key <= a)
  {
  }

  /** The three settings, and what the fixed lines around them leave alone. */
  predicate KnownKey(key: string) { key == "ExecStart=" || key == "Environment=" || key == "EnvironmentFile=-" }

  lemma FixedLines(key: string, i: Input)
    requires KnownKey(key)
    ensures Settings(Header(i), key) == [] && Settings(DEPENDENCIES, key) == [] && Settings(SERVICE, key) == []
    ensures Settings(POLICY, key) == [] && Settings(INSTALL, key) == [] && Settings([""], key) == []
  {
    assert key[0] == 'E';
    forall k | 0 <= k < |Header(i)| ensures !(key <= Header(i)[k]) { Starting(Header(i)[k], key, 0); }
    forall k | 0 <= k < |DEPENDENCIES| ensures !(key <= DEPENDENCIES[k]) { Starting(DEPENDENCIES[k], key, 0); }
    forall k | 0 <= k < |SERVICE| ensures !(key <= SERVICE[k]) { Starting(SERVICE[k], key, 0); }
    forall k | 0 <= k < |POLICY| ensures !(key <= POLICY[k]) { Starting(POLICY[k], key, 0); }
    forall k | 0 <= k < |INSTALL| ensures !(key <= INSTALL[k]) { Starting(INSTALL[k], key, 0); }
    NoSettings(Header(i), key);
    NoSettings(DEPENDENCIES, key);
    NoSettings(SERVICE, key);
    NoSettings(POLICY, key);
    NoSettings(INSTALL, key);
    NoSettings([""], key);
  }

  function VariableLines(i: Input): seq<string> { EnvironmentFileLine(i) + [EnvironmentLine(i), "UMask=0077", ExecLine(i)] }

  lemma SettingsAround(before: seq<seq<string>>, v: seq<string>, after: seq<seq<string>>, key: string)
    requires |before| == 3 && |after| == 3
    requires forall k | 0 <= k < 3 :: Settings(before[k], key) == [] && Settings(after[k], key) == []
    ensures Settings(before[0] + before[1] + before[2] + v + after[0] + after[1] + after[2], key) == Settings(v, key)
  {
    hide Settings;
    var a := before[0] + before[1] + before[2];
    SettingsConcat(before[0], before[1], key);
    SettingsConcat(before[0] + before[1], before[2], key);
    SettingsConcat(a, v, key);
    SettingsConcat(a + v, after[0], key);
    SettingsConcat(a + v + after[0], after[1], key);
    SettingsConcat(a + v + after[0] + after[1], after[2], key);
  }

  lemma SettingsOfUnit(i: Input, key: string)
    requires KnownKey(key)
    ensures Settings(HostUnitLines(i) + [""], key) == Settings(VariableLines(i), key)
  {
    hide *;
    FixedLines(key, i);
    UnitGroups(i);
    SettingsAround([Header(i), DEPENDENCIES, SERVICE], VariableLines(i), [POLICY, INSTALL, [""]], key);
  }

  lemma UnitGroups(i: Input)
    ensures HostUnitLines(i) == Header(i) + DEPENDENCIES + SERVICE + VariableLines(i) + POLICY + INSTALL
  {
    hide EnvironmentFileLine, EnvironmentLine, ExecLine, Header;
    Regroup(Header(i) + DEPENDENCIES + SERVICE, EnvironmentFileLine(i), [EnvironmentLine(i), "UMask=0077", ExecLine(i)]);
  }

  lemma Regroup(a: seq<string>, b: seq<string>, c: seq<string>)
    ensures a + b + c == a + (b + c)
  {
  }

  lemma OneSetting(line: string, key: string)
    ensures Settings([line], key) == if key <= line then [line[|key|..]] else []
  {
    assert [line][1..] == [];
  }

  lemma SettingsOfVariables(i: Input)
    ensures Settings(VariableLines(i), "ExecStart=") == [ExecLine(i)[|"ExecStart="|..]]
    ensures Settings(VariableLines(i), "Environment=") == [EnvironmentLine(i)[|"Environment="|..]]
    ensures Settings(VariableLines(i), "EnvironmentFile=-")
         == if i.environmentFile.None? then [] else [EnvironmentFileLine(i)[0][|"EnvironmentFile=-"|..]]
  {
    LineKeys(i);
    VariableKeys(i, "ExecStart=");
    VariableKeys(i, "Environment=");
    VariableKeys(i, "EnvironmentFile=-");
    hide Settings, EnvironmentLine, ExecLine;
  }

  /** The keys tell the lines apart. */
  lemma LineKeys(i: Input)
    ensures "ExecStart=" <= ExecLine(i) && !("Environment=" <= ExecLine(i)) && !("EnvironmentFile=-" <= ExecLine(i))
    ensures "Environment=" <= EnvironmentLine(i) && !("ExecStart=" <= EnvironmentLine(i)) && !("EnvironmentFile=-" <= EnvironmentLine(i))
    ensures i.environmentFile.Some? ==>
              "EnvironmentFile=-" <= EnvironmentFileLine(i)[0] && !("ExecStart=" <= EnvironmentFileLine(i)[0])
              && !("Environment=" <= EnvironmentFileLine(i)[0])
  {
    hide EncodeWord, EncodeFilePath;
    Starting(ExecLine(i), "Environment=", 1);
    Starting(ExecLine(i), "EnvironmentFile=-", 1);
    Starting(EnvironmentLine(i), "ExecStart=", 1);
    Starting(EnvironmentLine(i), "EnvironmentFile=-", 11);
    if i.environmentFile.Some? {
      Starting(EnvironmentFileLine(i)[0], "ExecStart=", 1);
      Starting(EnvironmentFileLine(i)[0], "Environment=", 11);
    }
  }

  lemma VariableKeys(i: Input, key: string)
    requires KnownKey(key)
    ensures Settings(VariableLines(i), key)
         == Settings(EnvironmentFileLine(i), key)
            + ((if key <= EnvironmentLine(i) then [EnvironmentLine(i)[|key|..]] else [])
               + (if key <= ExecLine(i) then [ExecLine(i)[|key|..]] else []))
    ensures Settings(EnvironmentFileLine(i), key)
         == if i.environmentFile.Some? && key <= EnvironmentFileLine(i)[0] then [EnvironmentFileLine(i)[0][|key|..]] else []
  {
    Starting("UMask=0077", key, 0);
    if i.environmentFile.Some? { OneSetting(EnvironmentFileLine(i)[0], key); }
    hide EncodeWord, EncodeFilePath, EnvironmentLine, ExecLine, KnownKey;
    ThreeSettings(EnvironmentFileLine(i), EnvironmentLine(i), "UMask=0077", ExecLine(i), key);
  }

  lemma ThreeSettings(first: seq<string>, a: string, b: string, c: string, key: string)
    requires !(key <= b)
    ensures Settings(first + [a, b, c], key)
         == Settings(first, key) + ((if key <= a then [a[|key|..]] else []) + (if key <= c then [c[|key|..]] else []))
  {
    hide Settings;
    SettingsConcat(first, [a, b, c], key);
    TwoOfThree(a, b, c, key);
  }

  lemma TwoOfThree(a: string, b: string, c: string, key: string)
    requires !(key <= b)
    ensures Settings([a, b, c], key) == (if key <= a then [a[|key|..]] else []) + (if key <= c then [c[|key|..]] else [])
  {
    assert [a, b, c][1..] == [b, c] && [b, c][1..] == [c];
    OneSetting(c, key);
    var tail := Settings([c], key);
    assert Settings([b, c], key) == [] + tail == tail;
    assert Settings([a, b, c], key) == (if key <= a then [a[|key|..]] else []) + Settings([b, c], key);
  }

  lemma ExecReadsBack(i: Input)
    ensures var values := Settings(HostUnitLines(i) + [""], "ExecStart=");
            && |values| == 1
            && ReadWord(values[0], false) == Some((i.nodeBin, " " + EncodeWord(i.serviceHost, true)))
            && ReadWord(EncodeWord(i.serviceHost, true), true) == Some((i.serviceHost, ""))
  {
    assert KnownKey("ExecStart=");
    hide *;
    SettingsOfUnit(i, "ExecStart=");
    SettingsOfVariables(i);
    ExecWords(i);
  }

  lemma ExecWords(i: Input)
    ensures ReadWord(ExecLine(i)[|"ExecStart="|..], false) == Some((i.nodeBin, " " + EncodeWord(i.serviceHost, true)))
    ensures ReadWord(EncodeWord(i.serviceHost, true), true) == Some((i.serviceHost, ""))
  {
    hide ReadWord, EncodeWord;
    WordRoundTrip(i.nodeBin, false, " " + EncodeWord(i.serviceHost, true));
    WordRoundTrip(i.serviceHost, true, "");
    assert EncodeWord(i.serviceHost, true) + "" == EncodeWord(i.serviceHost, true);
    var x := EncodeWord(i.nodeBin, false) + (" " + EncodeWord(i.serviceHost, true));
    assert ("ExecStart=" + x)[|"ExecStart="|..] == x;
  }

  lemma EnvironmentReadsBack(i: Input)
    ensures var values := Settings(HostUnitLines(i) + [""], "Environment=");
            |values| == 1 && ReadWord(values[0], false) == Some(("HOSTDECK_CODEX_BIN=" + i.codexBin, ""))
  {
    SettingsOfUnit(i, "Environment=");
    SettingsOfVariables(i);
    WordRoundTrip("HOSTDECK_CODEX_BIN=" + i.codexBin, false, "");
    hide ReadWord, EncodeWord, EncodeFilePath, HostUnitLines, Settings;
    var e := EncodeWord("HOSTDECK_CODEX_BIN=" + i.codexBin, false);
    assert e + "" == e;
    assert ("Environment=" + e)[|"Environment="|..] == e;
  }

  lemma FileReadsBack(i: Input)
    ensures var values := Settings(HostUnitLines(i) + [""], "EnvironmentFile=-");
            if i.environmentFile.None? then values == [] else |values| == 1 && DecodeFilePath(values[0]) == i.environmentFile
  {
    SettingsOfUnit(i, "EnvironmentFile=-");
    SettingsOfVariables(i);
    hide ReadWord, EncodeWord, EncodeFilePath, DecodeFilePath, HostUnitLines, Settings;
    if i.environmentFile.Some? {
      FilePathRoundTrip(i.environmentFile.value);
      var f := EncodeFilePath(i.environmentFile.value);
      assert ("EnvironmentFile=-" + f)[|"EnvironmentFile=-"|..] == f;
    }
  }

  predicate AllOneLine(lines: seq<string>) { forall line | line in lines :: OneLine(line) }

  lemma AllOneLineConcat(a: seq<string>, b: seq<string>)
    requires AllOneLine(a) && AllOneLine(b)
    ensures AllOneLine(a + b)
  {
    hide OneLine;
  }

  lemma OneLineConcat(a: string, b: string)
    requires OneLine(a) && OneLine(b)
    ensures OneLine(a + b)
  {
  }

  lemma DependencyLines()
    ensures AllOneLine(DEPENDENCIES)
  {
  }

  lemma ServiceLines()
    ensures AllOneLine(SERVICE)
  {
  }

  lemma PolicyLines()
    ensures AllOneLine(POLICY)
  {
  }

  lemma InstallLines()
    ensures AllOneLine(INSTALL)
  {
  }

  lemma HeaderLines(i: Input)
    requires OneLine(i.version)
    ensures AllOneLine(Header(i))
  {
    OneLineConcat(i.version, ". Do not edit.");
    OneLineConcat("# Generated by HostDeck ", i.version + ". Do not edit.");
    OneLineConcat(i.version, ")");
    OneLineConcat("Description=HostDeck service (", i.version + ")");
  }

  lemma SettingLines(i: Input)
    requires OneLineInput(i)
    ensures AllOneLine(EnvironmentFileLine(i)) && AllOneLine([EnvironmentLine(i), "UMask=0077", ExecLine(i)])
  {
    assert OneLine("HOSTDECK_CODEX_BIN=") && OneLine("Environment=") && OneLine("ExecStart=") && OneLine(" ") && OneLine("EnvironmentFile=-");
    assert OneLine("UMask=0077");
    hide EncodeWord, EncodeFilePath, OneLine;
    OneLineConcat("HOSTDECK_CODEX_BIN=", i.codexBin);
    EscapeStaysOneLine("HOSTDECK_CODEX_BIN=" + i.codexBin, false);
    EscapeStaysOneLine(i.nodeBin, false);
    EscapeStaysOneLine(i.serviceHost, true);
    OneLineConcat("Environment=", EncodeWord("HOSTDECK_CODEX_BIN=" + i.codexBin, false));
    OneLineConcat(" ", EncodeWord(i.serviceHost, true));
    OneLineConcat(EncodeWord(i.nodeBin, false), " " + EncodeWord(i.serviceHost, true));
    OneLineConcat("ExecStart=", EncodeWord(i.nodeBin, false) + (" " + EncodeWord(i.serviceHost, true)));
    if i.environmentFile.Some? {
      EscapeStaysOneLine(i.environmentFile.value, false);
      OneLineConcat("EnvironmentFile=-", EncodeFilePath(i.environmentFile.value));
    }
  }

  lemma LinesAreLines(i: Input)
    requires OneLineInput(i)
    ensures AllOneLine(HostUnitLines(i))
  {
    DependencyLines();
    ServiceLines();
    PolicyLines();
    InstallLines();
    HeaderLines(i);
    SettingLines(i);
    hide OneLine, AllOneLine, Header, EnvironmentFileLine, EnvironmentLine, ExecLine, OneLineInput;
    var a := Header(i) + DEPENDENCIES;
    AllOneLineConcat(Header(i), DEPENDENCIES);
    AllOneLineConcat(a, SERVICE);
    AllOneLineConcat(a + SERVICE, EnvironmentFileLine(i));
    var b := a + SERVICE + EnvironmentFileLine(i);
    AllOneLineConcat(b, [EnvironmentLine(i), "UMask=0077", ExecLine(i)]);
    AllOneLineConcat(b + [EnvironmentLine(i), "UMask=0077", ExecLine(i)], POLICY);
    AllOneLineConcat(b + [EnvironmentLine(i), "UMask=0077", ExecLine(i)] + POLICY, INSTALL);
  }
}
