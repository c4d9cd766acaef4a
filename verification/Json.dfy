/**
 The canonical JSON text that journals and install manifests are written in: object keys sorted,
 no white space. The reader takes back exactly the shapes the writer emits. HostDeck reads with a
 general JSON parser and then refuses every text that differs from its own rendering, so texts with
 white space, other escapes or other number forms are refused there too.
 */
module Json {
  import opened Common
  import opened SemVer

  datatype Field = Field(key: string, value: Json)

  datatype Json =
    | Null
    | Bool(b: bool)
    | Number(n: nat)
    | Text(s: string)
    | Array(items: seq<Json>)
    | Object(fields: seq<Field>)

  // ---------------------------------------------------------------- writing

  function HexDigit(n: nat): char
    requires n < 16
  {
    if n < 10 then '0' + n as char else 'a' + (n - 10) as char
  }

  function EscapeChar(c: char): string {
    if c == '\"' then "\\\""
    else if c == '\\' then "\\\\"
    else if c == '\U{8}' then "\\b"
    else if c == '\U{c}' then "\\f"
    else if c == '\n' then "\\n"
    else if c == '\r' then "\\r"
    else if c == '\t' then "\\t"
    else if c < ' ' then "\\u00" + [HexDigit(c as int / 16), HexDigit(c as int % 16)]
    else [c]
  }

  function EscapeAll(s: string): string {
    if s == "" then "" else EscapeChar(s[0]) + EscapeAll(s[1..])
  }

  function WriteText(s: string): string { "\"" + EscapeAll(s) + "\"" }

  function WriteNat(n: nat): (s: string)
    ensures |s| > 0 && AllDigits(s)
  {
    if n < 10 then ['0' + n as char] else WriteNat(n / 10) + ['0' + (n % 10) as char]
  }

  /** The text of a value, with object fields in the order they stand. */
  function Write(j: Json): string
    decreases j, 0
  {
    match j
    case Null => "null"
    case Bool(b) => if b then "true" else "false"
    case Number(n) => WriteNat(n)
    case Text(s) => WriteText(s)
    case Array(items) => "[" + WriteItems(items) + "]"
    case Object(fields) => "{" + WriteFields(fields) + "}"
  }

  function WriteItems(items: seq<Json>): string
    decreases items, 1
  {
    if items == [] then ""
    else if |items| == 1 then Write(items[0])
    else Write(items[0]) + "," + WriteItems(items[1..])
  }

  function WriteField(f: Field): string
    decreases f, 1
  {
    WriteText(f.key) + ":" + Write(f.value)
  }

  function WriteFields(fields: seq<Field>): string
    decreases fields, 2
  {
    if fields == [] then ""
    else if |fields| == 1 then WriteField(fields[0])
    else WriteField(fields[0]) + "," + WriteFields(fields[1..])
  }

  // ---------------------------------------------------------------- sorting the keys

  predicate KeysIncrease(fields: seq<Field>) {
    |fields| > 1 ==> CompareText(fields[0].key, fields[1].key) < 0 && KeysIncrease(fields[1..])
  }

  function Insert(f: Field, fields: seq<Field>): seq<Field> {
    if fields == [] then [f]
    else if CompareText(f.key, fields[0].key) <= 0 then [f] + fields
    else [fields[0]] + Insert(f, fields[1..])
  }

  function SortFields(fields: seq<Field>): seq<Field> {
    if fields == [] then [] else Insert(fields[0], SortFields(fields[1..]))
  }

  predicate DistinctKeys(fields: seq<Field>) {
    forall i, j | 0 <= i < j < |fields| :: fields[i].key != fields[j].key
  }

  lemma {:induction false} InsertContents(f: Field, fields: seq<Field>)
    ensures multiset(Insert(f, fields)) == multiset{f} + multiset(fields)
  {
    if fields != [] {
      assert fields == [fields[0]] + fields[1..];
      InsertContents(f, fields[1..]);
    }
  }

  lemma {:induction false} InsertSorted(f: Field, fields: seq<Field>)
    requires KeysIncrease(fields)
    requires forall i | 0 <= i < |fields| :: fields[i].key != f.key
    ensures KeysIncrease(Insert(f, fields))
    ensures Insert(f, fields)[0] == if fields != [] && CompareText(f.key, fields[0].key) > 0 then fields[0] else f
  {
    if fields != [] {
      CompareTextLaws(f.key, fields[0].key);
      if CompareText(f.key, fields[0].key) <= 0 {
        assert Insert(f, fields)[1..] == fields;
      } else {
        InsertSorted(f, fields[1..]);
        CompareTextLaws(fields[0].key, f.key);
        assert Insert(f, fields)[1..] == Insert(f, fields[1..]);
      }
    }
  }

  lemma {:induction false} SortContents(fields: seq<Field>)
    ensures multiset(SortFields(fields)) == multiset(fields)
  {
    if fields != [] {
      assert fields == [fields[0]] + fields[1..];
      SortContents(fields[1..]);
      InsertContents(fields[0], SortFields(fields[1..]));
    }
  }

  lemma {:induction false} SortSorts(fields: seq<Field>)
    requires DistinctKeys(fields)
    ensures KeysIncrease(SortFields(fields))
  {
    if fields != [] {
      SortSorts(fields[1..]);
      SortContents(fields[1..]);
      var rest := SortFields(fields[1..]);
      forall i | 0 <= i < |rest| ensures rest[i].key != fields[0].key {
        assert rest[i] in multiset(fields[1..]);
        var j :| 0 <= j < |fields[1..]| && fields[1..][j] == rest[i];
        assert fields[0].key != fields[j + 1].key;
      }
      InsertSorted(fields[0], rest);
    }
  }

  lemma {:induction false} HeadIsLeast(fields: seq<Field>, i: nat)
    requires KeysIncrease(fields) && 0 < i < |fields|
    ensures CompareText(fields[0].key, fields[i].key) < 0
  {
    if i > 1 {
      HeadIsLeast(fields[1..], i - 1);
      CompareTextTransitive(fields[0].key, fields[1].key, fields[i].key);
    }
  }

  /** Two strictly sorted lists start with the same field when each holds the other's first. */
  lemma SameHead(a: seq<Field>, b: seq<Field>, i: nat, j: nat)
    requires KeysIncrease(a) && KeysIncrease(b)
    requires i < |b| && j < |a| && b[i] == a[0] && a[j] == b[0]
    ensures a[0] == b[0]
  {
    if i > 0 && j > 0 {
      HeadIsLeast(b, i);
      HeadIsLeast(a, j);
      CompareTextLaws(a[0].key, b[0].key);
    }
  }

  lemma {:induction false} SortedIsUnique(a: seq<Field>, b: seq<Field>)
    requires KeysIncrease(a) && KeysIncrease(b)
    requires multiset(a) == multiset(b)
    ensures a == b
  {
    assert |multiset(a)| == |a| && |multiset(b)| == |b|;
    if a != [] {
      SameFirst(a, b);
      assert a == [a[0]] + a[1..] && b == [b[0]] + b[1..];
      SameTails(a, b);
      SortedIsUnique(a[1..], b[1..]);
    }
  }

  lemma SameFirst(a: seq<Field>, b: seq<Field>)
    requires KeysIncrease(a) && KeysIncrease(b) && a != [] && b != [] && multiset(a) == multiset(b)
    ensures a[0] == b[0]
  {
    hide KeysIncrease;
    assert a[0] in multiset(a) && b[0] in multiset(b);
    var i :| 0 <= i < |b| && b[i] == a[0];
    var j :| 0 <= j < |a| && a[j] == b[0];
    SameHead(a, b, i, j);
  }

  lemma SameTails(a: seq<Field>, b: seq<Field>)
    requires a != [] && b != [] && a[0] == b[0] && multiset(a) == multiset(b)
    ensures multiset(a[1..]) == multiset(b[1..])
  {
    assert a == [a[0]] + a[1..] && b == [b[0]] + b[1..];
    assert multiset(a[1..]) == multiset(a) - multiset{a[0]};
    assert multiset(b[1..]) == multiset(b) - multiset{b[0]};
  }

  /** Sorting every object, at every depth. */
  function Canonical(j: Json): Json
    decreases j, 0
  {
    match j
    case Array(items) => Array(CanonicalItems(items))
    case Object(fields) => Object(SortFields(CanonicalFields(fields)))
    case _ => j
  }

  function CanonicalItems(items: seq<Json>): (r: seq<Json>)
    ensures |r| == |items|
    decreases items, 1
  {
    if items == [] then [] else [Canonical(items[0])] + CanonicalItems(items[1..])
  }

  function CanonicalFields(fields: seq<Field>): (r: seq<Field>)
    ensures |r| == |fields|
    ensures forall i | 0 <= i < |fields| :: r[i].key == fields[i].key
    decreases fields, 1
  {
    if fields == [] then []
    else [Field(fields[0].key, Canonical(fields[0].value))] + CanonicalFields(fields[1..])
  }

  /** The one text of a value. */
  function StableJson(j: Json): string { Write(Canonical(j)) }

  lemma {:induction false} CanonicalItemAt(items: seq<Json>, i: nat)
    requires i < |items|
    ensures CanonicalItems(items)[i] == Canonical(items[i])
  {
    if i > 0 { CanonicalItemAt(items[1..], i - 1); }
  }

  lemma {:induction false} CanonicalFieldAt(fields: seq<Field>, i: nat)
    requires i < |fields|
    ensures CanonicalFields(fields)[i] == Field(fields[i].key, Canonical(fields[i].value))
  {
    if i > 0 { CanonicalFieldAt(fields[1..], i - 1); }
  }

  lemma Middle(p: seq<Field>, x: Field, q: seq<Field>)
    ensures multiset(p + ([x] + q)) == multiset{x} + multiset(p + q)
  {
    assert p + ([x] + q) == (p + [x]) + q;
    assert multiset(p + [x]) == multiset(p) + multiset{x};
  }

  function Others(q: seq<Field>, k: nat): seq<Field>
    requires k < |q|
  {
    q[..k] + q[k + 1..]
  }

  lemma OthersHold(q: seq<Field>, k: nat, f: Field)
    requires k < |q| && f in q && f != q[k]
    ensures f in Others(q, k)
  {
    var j :| 0 <= j < |q| && q[j] == f;
    assert if j < k then Others(q, k)[j] == f else Others(q, k)[j - 1] == f;
  }

  lemma OthersDistinct(q: seq<Field>, k: nat)
    requires k < |q| && DistinctKeys(q)
    ensures DistinctKeys(Others(q, k))
    ensures multiset(q) == multiset{q[k]} + multiset(Others(q, k))
  {
    var r := Others(q, k);
    forall i, j | 0 <= i < j < |r| ensures r[i].key != r[j].key {
      assert r[i] == q[if i < k then i else i + 1] && r[j] == q[if j < k then j else j + 1];
    }
    Middle(q[..k], q[k], q[k + 1..]);
    assert q == q[..k] + ([q[k]] + q[k + 1..]);
  }

  /** Lists of the same length, each without repeated keys, are permutations when one is contained in the other. */
  lemma {:induction false} SameContents(p: seq<Field>, q: seq<Field>)
    requires DistinctKeys(p) && DistinctKeys(q) && |p| == |q|
    requires forall i | 0 <= i < |p| :: p[i] in q
    ensures multiset(p) == multiset(q)
  {
    if p != [] {
      var k :| 0 <= k < |q| && q[k] == p[0];
      OthersDistinct(q, k);
      OthersHoldTail(p, q, k);
      TailDistinct(p);
      hide Others, DistinctKeys;
      SameContents(p[1..], Others(q, k));
      assert p == [p[0]] + p[1..];
    }
  }

  lemma OthersHoldTail(p: seq<Field>, q: seq<Field>, k: nat)
    requires DistinctKeys(p) && DistinctKeys(q) && p != [] && k < |q| && q[k] == p[0]
    requires forall i | 0 <= i < |p| :: p[i] in q
    ensures forall i | 0 <= i < |p[1..]| :: p[1..][i] in Others(q, k)
  {
    hide Others;
    forall i | 0 <= i < |p[1..]| ensures p[1..][i] in Others(q, k) {
      assert p[0].key != p[i + 1].key;
      OthersHold(q, k, p[i + 1]);
    }
  }

  lemma TailDistinct(p: seq<Field>)
    requires DistinctKeys(p) && p != []
    ensures DistinctKeys(p[1..])
  {
  }

  // ---------------------------------------------------------------- what the order of insertion may change

  /** No object has a key twice, at any depth. */
  predicate Unambiguous(j: Json) {
    match j
    case Array(items) => forall i | 0 <= i < |items| :: Unambiguous(items[i])
    case Object(fields) => DistinctKeys(fields) && forall i | 0 <= i < |fields| :: Unambiguous(fields[i].value)
    case _ => true
  }

  /** The same value: the fields of every object, at every depth, in any order. */
  predicate SameValue(a: Json, b: Json) {
    match a
    case Array(items) =>
      b.Array? && |b.items| == |items| && forall i | 0 <= i < |items| :: SameValue(items[i], b.items[i])
    case Object(fields) =>
      b.Object? && |b.fields| == |fields| && forall i | 0 <= i < |fields| :: HasSame(fields[i], b.fields)
    case _ => a == b
  }

  predicate HasSame(f: Field, fields: seq<Field>) {
    exists j | 0 <= j < |fields| :: fields[j].key == f.key && SameValue(f.value, fields[j].value)
  }

  lemma {:induction false} CanonicalIffSame(a: Json, b: Json)
    requires Unambiguous(a) && Unambiguous(b)
    ensures Canonical(a) == Canonical(b) <==> SameValue(a, b)
    decreases a, 1
  {
    if a.Array? && b.Array? {
      if |a.items| == |b.items| { CanonicalArrayIff(a.items, b.items); }
    } else if a.Object? && b.Object? {
      CanonicalObjectIff(a.fields, b.fields);
    }
  }

  lemma {:induction false} CanonicalArrayIff(a: seq<Json>, b: seq<Json>)
    requires |a| == |b|
    requires forall i | 0 <= i < |a| :: Unambiguous(a[i]) && Unambiguous(b[i])
    ensures CanonicalItems(a) == CanonicalItems(b) <==> forall i | 0 <= i < |a| :: SameValue(a[i], b[i])
    decreases a, 0
  {
    hide Canonical, CanonicalItems, Unambiguous, SameValue;
    forall i | 0 <= i < |a|
      ensures CanonicalItems(a)[i] == CanonicalItems(b)[i] <==> SameValue(a[i], b[i])
    {
      CanonicalItemAt(a, i);
      CanonicalItemAt(b, i);
      CanonicalIffSame(a[i], b[i]);
    }
  }

  lemma {:induction false} CanonicalObjectIff(a: seq<Field>, b: seq<Field>)
    requires DistinctKeys(a) && DistinctKeys(b)
    requires forall i | 0 <= i < |a| :: Unambiguous(a[i].value)
    requires forall j | 0 <= j < |b| :: Unambiguous(b[j].value)
    ensures Canonical(Object(a)) == Canonical(Object(b)) <==> SameValue(Object(a), Object(b))
    decreases a, 1
  {
    CanonicalIsSorted(a);
    CanonicalIsSorted(b);
    hide Canonical, CanonicalFields, SortFields, Unambiguous, KeysIncrease, Contained;
    if |a| == |b| {
      SortedIff(CanonicalFields(a), CanonicalFields(b));
      CanonicalFieldsIff(a, b);
    }
  }

  lemma CanonicalIsSorted(a: seq<Field>)
    ensures Canonical(Object(a)) == Object(SortFields(CanonicalFields(a)))
    ensures |SortFields(CanonicalFields(a))| == |a|
  {
    SortContents(CanonicalFields(a));
    assert |multiset(SortFields(CanonicalFields(a)))| == |SortFields(CanonicalFields(a))|;
    assert |multiset(CanonicalFields(a))| == |a|;
  }

  predicate Contained(a: seq<Field>, b: seq<Field>) { forall i | 0 <= i < |a| :: a[i] in b }

  /** Sorted lists agree exactly when each field of the one is a field of the other. */
  lemma SortedIff(a: seq<Field>, b: seq<Field>)
    requires DistinctKeys(a) && DistinctKeys(b) && |a| == |b|
    ensures SortFields(a) == SortFields(b) <==> Contained(a, b)
  {
    hide KeysIncrease, SortFields;
    SortContents(a);
    SortContents(b);
    if Contained(a, b) {
      SameContents(a, b);
      SortSorts(a);
      SortSorts(b);
      SortedIsUnique(SortFields(a), SortFields(b));
    }
    if SortFields(a) == SortFields(b) {
      forall i | 0 <= i < |a| ensures a[i] in b { assert a[i] in multiset(b); }
    }
  }

  lemma {:induction false} CanonicalFieldsIff(a: seq<Field>, b: seq<Field>)
    requires forall i | 0 <= i < |a| :: Unambiguous(a[i].value)
    requires forall j | 0 <= j < |b| :: Unambiguous(b[j].value)
    ensures Contained(CanonicalFields(a), CanonicalFields(b)) <==> forall i | 0 <= i < |a| :: HasSame(a[i], b)
    decreases a, 0
  {
    hide *;
    forall i | 0 <= i < |a| ensures CanonicalFields(a)[i] in CanonicalFields(b) <==> HasSame(a[i], b) { CanonicalFieldIff(a, i, b); }
    ContainedIff(CanonicalFields(a), CanonicalFields(b), a, b);
  }

  lemma ContainedIff(c: seq<Field>, d: seq<Field>, a: seq<Field>, b: seq<Field>)
    requires |c| == |a| && forall i | 0 <= i < |a| :: c[i] in d <==> HasSame(a[i], b)
    ensures Contained(c, d) <==> forall i | 0 <= i < |a| :: HasSame(a[i], b)
  {
    hide HasSame;
    if Contained(c, d) {
      forall i | 0 <= i < |a| ensures HasSame(a[i], b) { assert c[i] in d; }
    }
  }

  lemma {:induction false} CanonicalFieldIff(a: seq<Field>, i: nat, b: seq<Field>)
    requires i < |a| && Unambiguous(a[i].value)
    requires forall j | 0 <= j < |b| :: Unambiguous(b[j].value)
    ensures CanonicalFields(a)[i] in CanonicalFields(b) <==> HasSame(a[i], b)
    decreases a[i], 0
  {
    hide CanonicalFields, Canonical, Unambiguous, SameValue;
    CanonicalFieldAt(a, i);
    forall j | 0 <= j < |b|
      ensures CanonicalFields(b)[j] == CanonicalFields(a)[i] <==> b[j].key == a[i].key && SameValue(a[i].value, b[j].value)
    {
      CanonicalFieldAt(b, j);
      CanonicalIffSame(a[i].value, b[j].value);
    }
  }

  /**
   The order in which fields were inserted, at whatever depth, never shows: two values have the same text
   exactly when they differ in nothing else.
   */
  lemma StableJsonIgnoresInsertionOrder(a: Json, b: Json)
    requires Unambiguous(a) && Unambiguous(b)
    ensures StableJson(a) == StableJson(b) <==> SameValue(a, b)
  {
    CanonicalIffSame(a, b);
    TextDetermines(Canonical(a), Canonical(b));
  }

  lemma TextDetermines(a: Json, b: Json)
    ensures Write(a) == Write(b) <==> a == b
  {
    hide Write, Read;
    ReadWrite(a, "");
    ReadWrite(b, "");
  }

  // ---------------------------------------------------------------- reading

  datatype Taken<T> = Nothing | Taken(value: T, rest: string)

  function HexValue(c: char): Option<nat> {
    if '0' <= c <= '9' then Some(c as int - '0' as int)
    else if 'a' <= c <= 'f' then Some(c as int - 'a' as int + 10)
    else None
  }

  /** One character of a string body: the character and how much text it took. */
  function ReadChar(s: string): (r: Option<(char, nat)>)
    ensures r.Some? ==> 0 < r.value.1 <= |s|
  {
    if s == "" || s[0] == '\"' || s[0] < ' ' then None
    else if s[0] != '\\' then Some((s[0], 1))
    else if |s| < 2 then None
    else if s[1] == '\"' then Some(('\"', 2))
    else if s[1] == '\\' then Some(('\\', 2))
    else if s[1] == 'b' then Some(('\U{8}', 2))
    else if s[1] == 'f' then Some(('\U{c}', 2))
    else if s[1] == 'n' then Some(('\n', 2))
    else if s[1] == 'r' then Some(('\r', 2))
    else if s[1] == 't' then Some(('\t', 2))
    else if |s| >= 6 && s[1] == 'u' && s[2] == '0' && s[3] == '0' && HexValue(s[4]).Some? && HexValue(s[5]).Some? then
      Some(((HexValue(s[4]).value * 16 + HexValue(s[5]).value) as char, 6))
    else None
  }

  /** The body of a string up to and with its closing quote. */
  function ReadText(s: string): (r: Taken<string>)
    ensures r.Taken? ==> |r.rest| < |s|
  {
    if s == "" then Nothing
    else if s[0] == '\"' then Taken("", s[1..])
    else
      match ReadChar(s)
      case None => Nothing
      case Some((c, n)) =>
        match ReadText(s[n..])
        case Nothing => Nothing
        case Taken(t, rest) => Taken([c] + t, rest)
  }

  function ReadNat(s: string, seen: nat): (r: (nat, string))
    ensures |r.1| <= |s|
  {
    if s != "" && IsDigit(s[0]) then ReadNat(s[1..], 10 * seen + Digit(s[0])) else (seen, s)
  }

  function Literal(word: string, j: Json, s: string): (r: Taken<Json>)
    requires word != ""
    ensures r.Taken? ==> |r.rest| < |s|
  {
    if word <= s then Taken(j, s[|word|..]) else Nothing
  }

  function Read(s: string): (r: Taken<Json>)
    ensures r.Taken? ==> |r.rest| < |s|
    decreases |s|, 0
  {
    if s == "" then Nothing
    else if s[0] == 'n' then Literal("null", Null, s)
    else if s[0] == 't' then Literal("true", Bool(true), s)
    else if s[0] == 'f' then Literal("false", Bool(false), s)
    else if s[0] == '\"' then
      (match ReadText(s[1..]) case Nothing => Nothing case Taken(t, rest) => Taken(Text(t), rest))
    else if IsDigit(s[0]) then
      var r := ReadNat(s[1..], Digit(s[0])); Taken(Number(r.0), r.1)
    else if s[0] == '[' then
      if |s| > 1 && s[1] == ']' then Taken(Array([]), s[2..])
      else (match ReadItems(s[1..]) case Nothing => Nothing case Taken(items, rest) => Taken(Array(items), rest))
    else if s[0] == '{' then
      if |s| > 1 && s[1] == '}' then Taken(Object([]), s[2..])
      else (match ReadFields(s[1..]) case Nothing => Nothing case Taken(fields, rest) => Taken(Object(fields), rest))
    else Nothing
  }

  function ReadItems(s: string): (r: Taken<seq<Json>>)
    ensures r.Taken? ==> |r.rest| < |s|
    decreases |s|, 1
  {
    match Read(s)
    case Nothing => Nothing
    case Taken(j, rest) =>
      if rest == "" then Nothing
      else if rest[0] == ']' then Taken([j], rest[1..])
      else if rest[0] == ',' then
        (match ReadItems(rest[1..]) case Nothing => Nothing case Taken(items, more) => Taken([j] + items, more))
      else Nothing
  }

  function ReadField(s: string): (r: Taken<Field>)
    ensures r.Taken? ==> |r.rest| < |s|
    decreases |s|, 1
  {
    if s == "" || s[0] != '\"' then Nothing
    else
      match ReadText(s[1..])
      case Nothing => Nothing
      case Taken(key, rest) =>
        if rest == "" || rest[0] != ':' then Nothing
        else (match Read(rest[1..]) case Nothing => Nothing case Taken(j, more) => Taken(Field(key, j), more))
  }

  function ReadFields(s: string): (r: Taken<seq<Field>>)
    ensures r.Taken? ==> |r.rest| < |s|
    decreases |s|, 2
  {
    match ReadField(s)
    case Nothing => Nothing
    case Taken(f, rest) =>
      if rest == "" then Nothing
      else if rest[0] == '}' then Taken([f], rest[1..])
      else if rest[0] == ',' then
        (match ReadFields(rest[1..]) case Nothing => Nothing case Taken(fields, more) => Taken([f] + fields, more))
      else Nothing
  }

  // ---------------------------------------------------------------- reading undoes writing

  lemma ReadEscaped(c: char, rest: string)
    ensures ReadChar(EscapeChar(c) + rest) == Some((c, |EscapeChar(c)|))
    ensures (EscapeChar(c) + rest)[|EscapeChar(c)|..] == rest
    ensures EscapeChar(c)[0] != '\"'
  {
    if c < ' ' {
      var hi, lo := c as int / 16, c as int % 16;
      assert HexValue(HexDigit(hi)) == Some(hi) && HexValue(HexDigit(lo)) == Some(lo);
    }
  }

  lemma EscapeAllUnfold(s: string)
    ensures EscapeAll(s) == if s == "" then "" else EscapeChar(s[0]) + EscapeAll(s[1..])
  {
  }

  lemma ReadClosing(rest: string)
    requires rest != "" && rest[0] == '\"'
    ensures ReadText(rest) == Taken("", rest[1..])
  {
  }

  lemma {:induction false} ReadWrittenText(s: string, rest: string)
    requires rest != "" && rest[0] == '\"'
    ensures ReadText(EscapeAll(s) + rest) == Taken(s, rest[1..])
  {
    hide *;
    EscapeAllUnfold(s);
    if s == "" {
      assert EscapeAll(s) + rest == rest;
      ReadClosing(rest);
    } else {
      var tail := EscapeAll(s[1..]) + rest;
      ReadWrittenText(s[1..], rest);
      ReadEscaped(s[0], tail);
      assert EscapeAll(s) + rest == EscapeChar(s[0]) + tail;
      ReadTextStep(EscapeChar(s[0]) + tail, s[0], |EscapeChar(s[0])|);
      assert s == [s[0]] + s[1..];
    }
  }

  lemma ReadTextStep(s: string, c: char, n: nat)
    requires s != "" && s[0] != '\"' && ReadChar(s) == Some((c, n))
    requires ReadText(s[n..]).Taken?
    ensures ReadText(s) == Taken([c] + ReadText(s[n..]).value, ReadText(s[n..]).rest)
  {
  }

  lemma {:induction false} ReadWrittenNat(n: nat, rest: string)
    ensures ReadNat(WriteNat(n) + rest, 0) == ReadNat(rest, n)
  {
    if n < 10 {
      assert (WriteNat(n) + rest)[1..] == rest;
    } else {
      var d := '0' + (n % 10) as char;
      ReadWrittenNat(n / 10, [d] + rest);
      assert WriteNat(n) + rest == WriteNat(n / 10) + ([d] + rest);
      assert ([d] + rest)[1..] == rest;
    }
  }

  /** What may follow a value: nothing that would make a number longer. */
  predicate Ends(rest: string) { rest == "" || !IsDigit(rest[0]) }

  lemma WriteStarts(j: Json)
    ensures Write(j) != "" && Write(j)[0] != ']' && Write(j)[0] != '}'
  {
    if j.Number? { assert WriteNat(j.n)[0] in WriteNat(j.n); }
  }

  /** Every value comes back from its text, and the text after it is left alone. */
  lemma {:induction false} ReadWrite(j: Json, rest: string)
    requires Ends(rest)
    ensures Read(Write(j) + rest) == Taken(j, rest)
    decreases j, 0
  {
    match j
    case Null => ReadLiteral("null", rest);
    case Bool(b) => ReadLiteral(Write(j), rest);
    case Number(n) => ReadNumber(n, rest);
    case Text(t) => ReadString(t, rest);
    case Array(items) =>
      if items != [] { ReadWriteItems(items, rest); }
      ReadArray(items, rest);
    case Object(fields) =>
      if fields != [] { ReadWriteFields(fields, rest); }
      ReadObject(fields, rest);
  }

  lemma ReadLiteral(word: string, rest: string)
    ensures word == "null" ==> Read(word + rest) == Taken(Null, rest)
    ensures word == "true" ==> Read(word + rest) == Taken(Bool(true), rest)
    ensures word == "false" ==> Read(word + rest) == Taken(Bool(false), rest)
  {
    assert word <= word + rest && (word + rest)[|word|..] == rest;
  }

  lemma ReadNumber(n: nat, rest: string)
    requires Ends(rest)
    ensures Read(WriteNat(n) + rest) == Taken(Number(n), rest)
  {
    ReadWrittenNat(n, rest);
    assert WriteNat(n)[0] in WriteNat(n);
    var s := WriteNat(n) + rest;
    assert ReadNat(s, 0) == ReadNat(s[1..], Digit(s[0]));
  }

  lemma ReadQuoted(body: string, t: string, rest: string)
    requires ReadText(body) == Taken(t, rest)
    ensures Read(['\"'] + body) == Taken(Text(t), rest)
  {
    assert (['\"'] + body)[1..] == body;
  }

  lemma ReadString(t: string, rest: string)
    ensures Read(WriteText(t) + rest) == Taken(Text(t), rest)
  {
    hide *;
    var close := ['\"'] + rest;
    assert close[1..] == rest;
    ReadWrittenText(t, close);
    ReadQuoted(EscapeAll(t) + close, t, rest);
    WriteTextThen(t, rest);
  }

  lemma WriteTextThen(t: string, rest: string)
    ensures WriteText(t) + rest == ['\"'] + (EscapeAll(t) + (['\"'] + rest))
  {
    hide EscapeAll;
  }

  lemma WriteArrayUnfold(items: seq<Json>)
    ensures Write(Array(items)) == ['['] + (WriteItems(items) + [']'])
  {
    hide WriteItems;
    assert ['['] + WriteItems(items) + [']'] == ['['] + (WriteItems(items) + [']']);
  }

  lemma ReadEmptyArray(rest: string)
    ensures Read(['[', ']'] + rest) == Taken(Array([]), rest)
  {
    assert (['[', ']'] + rest)[2..] == rest;
  }

  lemma WriteNoItems()
    ensures WriteItems([]) == ""
  {
  }

  lemma ReadBracketed(body: string, items: seq<Json>, rest: string)
    requires body != "" && body[0] != ']'
    requires ReadItems(body + ([']'] + rest)) == Taken(items, rest)
    ensures Read(['['] + (body + ([']'] + rest))) == Taken(Array(items), rest)
  {
    assert (['['] + (body + ([']'] + rest)))[1..] == body + ([']'] + rest);
  }

  lemma WriteItemsStarts(items: seq<Json>)
    requires items != []
    ensures WriteItems(items) != "" && WriteItems(items)[0] != ']'
  {
    WriteStarts(items[0]);
    hide Write;
  }

  lemma ReadArray(items: seq<Json>, rest: string)
    requires items != [] ==> ReadItems(WriteItems(items) + ([']'] + rest)) == Taken(items, rest)
    ensures Read(Write(Array(items)) + rest) == Taken(Array(items), rest)
  {
    hide *;
    WriteArrayUnfold(items);
    var s := Write(Array(items)) + rest;
    if items == [] {
      WriteNoItems();
      assert s == ['[', ']'] + rest;
      ReadEmptyArray(rest);
    } else {
      WriteItemsStarts(items);
      ReadBracketed(WriteItems(items), items, rest);
      assert s == ['['] + (WriteItems(items) + ([']'] + rest));
    }
  }

  lemma WriteObjectUnfold(fields: seq<Field>)
    ensures Write(Object(fields)) == ['{'] + (WriteFields(fields) + ['}'])
  {
    hide WriteFields;
    assert ['{'] + WriteFields(fields) + ['}'] == ['{'] + (WriteFields(fields) + ['}']);
  }

  lemma ReadEmptyObject(rest: string)
    ensures Read(['{', '}'] + rest) == Taken(Object([]), rest)
  {
    assert (['{', '}'] + rest)[2..] == rest;
  }

  lemma WriteNoFields()
    ensures WriteFields([]) == ""
  {
  }

  lemma ReadObject(fields: seq<Field>, rest: string)
    requires fields != [] ==> ReadFields(WriteFields(fields) + (['}'] + rest)) == Taken(fields, rest)
    ensures Read(Write(Object(fields)) + rest) == Taken(Object(fields), rest)
  {
    hide *;
    WriteObjectUnfold(fields);
    var s := Write(Object(fields)) + rest;
    if fields == [] {
      WriteNoFields();
      assert s == ['{', '}'] + rest;
      ReadEmptyObject(rest);
    } else {
      WriteFieldsShape(fields);
      ReadBraced(WriteFields(fields), fields, rest);
      assert s == ['{'] + (WriteFields(fields) + (['}'] + rest));
    }
  }

  lemma ReadBraced(body: string, fields: seq<Field>, rest: string)
    requires body != "" && body[0] == '\"'
    requires ReadFields(body + (['}'] + rest)) == Taken(fields, rest)
    ensures Read(['{'] + (body + (['}'] + rest))) == Taken(Object(fields), rest)
  {
    assert (['{'] + (body + (['}'] + rest)))[1..] == body + (['}'] + rest);
  }

  lemma WriteFieldsShape(fields: seq<Field>)
    requires fields != []
    ensures WriteFields(fields) != "" && WriteFields(fields)[0] == '\"'
    ensures |fields| > 1 ==> WriteFields(fields) == WriteField(fields[0]) + ([','] + WriteFields(fields[1..]))
  {
    hide *;
    WriteFieldStarts(fields[0]);
    WriteFieldsUnfold(fields);
    assert WriteField(fields[0]) + [','] + WriteFields(fields[1..]) == WriteField(fields[0]) + ([','] + WriteFields(fields[1..]));
  }

  lemma WriteFieldsUnfold(fields: seq<Field>)
    requires fields != []
    ensures WriteFields(fields)
         == if |fields| == 1 then WriteField(fields[0]) else WriteField(fields[0]) + [','] + WriteFields(fields[1..])
  {
  }

  lemma WriteFieldStarts(f: Field)
    ensures WriteField(f) != "" && WriteField(f)[0] == '\"'
  {
    hide Write, EscapeAll;
  }

  lemma WriteItemsShape(items: seq<Json>)
    requires |items| > 1
    ensures WriteItems(items) == Write(items[0]) + ([','] + WriteItems(items[1..]))
  {
    hide Write;
  }

  lemma ReadItemsStep(s: string, j: Json, rest: string)
    requires Read(s) == Taken(j, rest) && rest != ""
    ensures rest[0] == ']' ==> ReadItems(s) == Taken([j], rest[1..])
    ensures rest[0] == ',' && ReadItems(rest[1..]).Taken? ==>
              ReadItems(s) == Taken([j] + ReadItems(rest[1..]).value, ReadItems(rest[1..]).rest)
  {
  }

  lemma {:induction false} ReadWriteItems(items: seq<Json>, rest: string)
    requires items != []
    ensures ReadItems(WriteItems(items) + ([']'] + rest)) == Taken(items, rest)
    decreases items, 1
  {
    hide Write, Read, ReadItems;
    var close := [']'] + rest;
    if |items| == 1 {
      ReadWrite(items[0], close);
      ReadItemsStep(Write(items[0]) + close, items[0], close);
      assert items == [items[0]];
    } else {
      var more := WriteItems(items[1..]) + close;
      ReadWrite(items[0], [','] + more);
      ReadWriteItems(items[1..], rest);
      ReadItemsStep(Write(items[0]) + ([','] + more), items[0], [','] + more);
      WriteItemsShape(items);
      assert WriteItems(items) + close == Write(items[0]) + ([','] + more);
      assert items == [items[0]] + items[1..];
    }
  }

  lemma ReadFieldStep(s: string, key: string, rest: string)
    requires s != "" && s[0] == '\"' && ReadText(s[1..]) == Taken(key, rest)
    requires rest != "" && rest[0] == ':' && Read(rest[1..]).Taken?
    ensures ReadField(s) == Taken(Field(key, Read(rest[1..]).value), Read(rest[1..]).rest)
  {
  }

  lemma {:induction false} ReadWriteField(f: Field, rest: string)
    requires Ends(rest)
    ensures ReadField(WriteField(f) + rest) == Taken(f, rest)
    decreases f, 1
  {
    hide Write, Read, ReadField, EscapeAll, ReadText;
    var after := [':'] + (Write(f.value) + rest);
    ReadWrittenText(f.key, ['\"'] + after);
    ReadWrite(f.value, rest);
    var s := WriteField(f) + rest;
    assert s == ['\"'] + (EscapeAll(f.key) + (['\"'] + after));
    assert s[1..] == EscapeAll(f.key) + (['\"'] + after);
    assert after[1..] == Write(f.value) + rest;
    ReadFieldStep(s, f.key, after);
  }

  lemma ReadFieldsStep(s: string, f: Field, rest: string)
    requires ReadField(s) == Taken(f, rest) && rest != ""
    ensures rest[0] == '}' ==> ReadFields(s) == Taken([f], rest[1..])
    ensures rest[0] == ',' && ReadFields(rest[1..]).Taken? ==>
              ReadFields(s) == Taken([f] + ReadFields(rest[1..]).value, ReadFields(rest[1..]).rest)
  {
  }

  lemma {:induction false} ReadWriteFields(fields: seq<Field>, rest: string)
    requires fields != []
    ensures ReadFields(WriteFields(fields) + (['}'] + rest)) == Taken(fields, rest)
    decreases fields, 2
  {
    hide WriteField, ReadField, ReadFields;
    var close := ['}'] + rest;
    if |fields| == 1 {
      ReadWriteField(fields[0], close);
      ReadFieldsStep(WriteField(fields[0]) + close, fields[0], close);
      assert fields == [fields[0]];
    } else {
      var more := WriteFields(fields[1..]) + close;
      ReadWriteField(fields[0], [','] + more);
      ReadWriteFields(fields[1..], rest);
      ReadFieldsStep(WriteField(fields[0]) + ([','] + more), fields[0], [','] + more);
      WriteFieldsShape(fields);
      assert WriteFields(fields) + close == WriteField(fields[0]) + ([','] + more);
      assert fields == [fields[0]] + fields[1..];
    }
  }
}
