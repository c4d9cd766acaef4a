/** The version order that decides whether an upgrade is allowed. */
module SemVer {
  import opened Common

  const MAXIMUM_VERSION_BYTES := 256

  // ---------------------------------------------------------------- accepted texts

  predicate IsDigit(c: char) { '0' <= c <= '9' }

  predicate IsIdentifierChar(c: char) {
    IsDigit(c) || 'A' <= c <= 'Z' || 'a' <= c <= 'z' || c == '-'
  }

  predicate AllDigits(s: string) { forall c | c in s :: IsDigit(c) }

  /** A run of digits without a leading zero. */
  predicate IsNumber(s: string) {
    s != "" && AllDigits(s) && (s[0] == '0' ==> s == "0")
  }

  predicate IsIdentifier(s: string) {
    s != "" && (forall c | c in s :: IsIdentifierChar(c)) && (AllDigits(s) ==> IsNumber(s))
  }

  datatype Version = Version(numbers: seq<string>, prerelease: Option<seq<string>>)

  /** What the comparison takes a text apart into: everything before the first hyphen, and the rest. */
  function Parse(s: string): Version {
    var n := Find(s, '-');
    Version(Split(s[..n], '.'), if n == |s| then None else Some(Split(s[n + 1..], '.')))
  }

  predicate WellFormed(v: Version) {
    && |v.numbers| == 3
    && IsNumber(v.numbers[0]) && IsNumber(v.numbers[1]) && IsNumber(v.numbers[2])
    && (v.prerelease.Some? ==>
          |v.prerelease.value| > 0 && forall x | x in v.prerelease.value :: IsIdentifier(x))
  }

  predicate IsSupported(s: string) {
    |s| <= MAXIMUM_VERSION_BYTES && WellFormed(Parse(s))
  }

  /** The text a version stands for, as section 9 of Semantic Versioning 2.0.0 writes it. */
  function VersionText(v: Version): string {
    Join(v.numbers, '.') + if v.prerelease.None? then "" else "-" + Join(v.prerelease.value, '.')
  }

  lemma TextParse(s: string)
    ensures VersionText(Parse(s)) == s
  {
    var n := Find(s, '-');
    JoinSplit(s[..n], '.');
    if n < |s| {
      JoinSplit(s[n + 1..], '.');
      assert s == s[..n] + (['-'] + s[n + 1..]);
    }
  }

  lemma ParseText(v: Version)
    requires WellFormed(v)
    ensures Parse(VersionText(v)) == v
  {
    var core := Join(v.numbers, '.');
    JoinAvoids(v.numbers, '.', '-');
    SplitJoin(v.numbers, '.');
    if v.prerelease.Some? {
      var pre := Join(v.prerelease.value, '.');
      SplitJoin(v.prerelease.value, '.');
      FindAfter(core, ['-'] + pre, '-');
      assert VersionText(v) == core + (['-'] + pre);
      assert VersionText(v)[|core| + 1..] == pre;
    } else {
      FindAfter(core, [], '-');
      assert VersionText(v) == core + [];
    }
  }

  lemma {:induction false} FindAfter(head: string, rest: string, c: char)
    requires c !in head
    requires rest == "" || rest[0] == c
    ensures Find(head + rest, c) == |head|
    ensures (head + rest)[..|head|] == head
  {
    if head != [] {
      FindAfter(head[1..], rest, c);
      assert (head + rest)[1..] == head[1..] + rest;
    } else {
      assert head + rest == rest;
    }
  }

  lemma {:induction false} JoinAvoids(parts: seq<string>, d: char, c: char)
    requires c != d
    requires forall p | p in parts :: c !in p
    ensures c !in Join(parts, d)
  {
    if |parts| > 1 { JoinAvoids(parts[1..], d, c); }
  }

  /** The accepted texts are exactly the texts of well-formed versions of at most 256 characters. */
  lemma SupportedTexts(s: string)
    ensures IsSupported(s) <==> |s| <= MAXIMUM_VERSION_BYTES && exists v :: WellFormed(v) && VersionText(v) == s
  {
    TextParse(s);
    if exists v :: WellFormed(v) && VersionText(v) == s {
      var v :| WellFormed(v) && VersionText(v) == s;
      ParseText(v);
    }
  }

  // ---------------------------------------------------------------- the comparison

  /** Code-unit order on strings. */
  function CompareText(a: string, b: string): (r: int) {
    if a == "" && b == "" then 0
    else if a == "" then -1
    else if b == "" then 1
    else if a[0] < b[0] then -1
    else if a[0] > b[0] then 1
    else CompareText(a[1..], b[1..])
  }

  function CompareNumeric(a: string, b: string): int {
    if |a| != |b| then (if |a| < |b| then -1 else 1)
    else if a == b then 0
    else if CompareText(a, b) < 0 then -1 else 1
  }

  function CompareIdentifier(a: string, b: string): int {
    if a == b then 0
    else if AllDigits(a) && AllDigits(b) then CompareNumeric(a, b)
    else if AllDigits(a) != AllDigits(b) then (if AllDigits(a) then -1 else 1)
    else if CompareText(a, b) < 0 then -1 else 1
  }

  function CompareNumbers(a: seq<string>, b: seq<string>): int
    requires |a| == |b|
  {
    if a == [] then 0
    else
      var c := CompareNumeric(a[0], b[0]);
      if c != 0 then c else CompareNumbers(a[1..], b[1..])
  }

  function ComparePrerelease(a: seq<string>, b: seq<string>): int {
    if a == [] && b == [] then 0
    else if a == [] then -1
    else if b == [] then 1
    else if a[0] == b[0] then ComparePrerelease(a[1..], b[1..])
    else CompareIdentifier(a[0], b[0])
  }

  function CompareParsed(a: Version, b: Version): int
    requires |a.numbers| == |b.numbers|
  {
    var c := CompareNumbers(a.numbers, b.numbers);
    if c != 0 then c
    else if a.prerelease.None? then (if b.prerelease.None? then 0 else 1)
    else if b.prerelease.None? then -1
    else ComparePrerelease(a.prerelease.value, b.prerelease.value)
  }

  /** `None` when either version is refused as unsupported. */
  function CompareVersions(left: string, right: string): Option<int> {
    if !IsSupported(left) || !IsSupported(right) then None
    else Some(CompareParsed(Parse(left), Parse(right)))
  }

  // ---------------------------------------------------------------- digits and integers

  function Pow10(n: nat): nat { if n == 0 then 1 else 10 * Pow10(n - 1) }

  function Digit(c: char): nat
    requires IsDigit(c)
  {
    c as int - '0' as int
  }

  /** The unbounded integer a digit string writes. */
  function Value(s: string): nat
    requires AllDigits(s)
  {
    if s == "" then 0 else Digit(s[0]) * Pow10(|s| - 1) + Value(s[1..])
  }

  lemma {:induction false} ValueBelow(s: string)
    requires AllDigits(s)
    ensures Value(s) < Pow10(|s|)
  {
    if s != "" {
      ValueBelow(s[1..]);
      assert Digit(s[0]) * Pow10(|s| - 1) <= 9 * Pow10(|s| - 1);
    }
  }

  lemma {:induction false} Pow10Grows(m: nat, n: nat)
    requires m <= n
    ensures 0 < Pow10(m) <= Pow10(n)
    decreases n
  {
    if n > 0 {
      if m < n { Pow10Grows(m, n - 1); } else { Pow10Grows(n - 1, n - 1); }
    }
  }

  lemma {:induction false} TextOrderIsValueOrder(a: string, b: string)
    requires AllDigits(a) && AllDigits(b) && |a| == |b|
    ensures CompareText(a, b) < 0 <==> Value(a) < Value(b)
    ensures CompareText(a, b) == 0 <==> Value(a) == Value(b)
  {
    if a != "" {
      ValueBelow(a[1..]);
      ValueBelow(b[1..]);
      TextOrderIsValueOrder(a[1..], b[1..]);
      var p := Pow10(|a| - 1);
      if a[0] < b[0] {
        LeadingDigitDecides(Digit(a[0]), Digit(b[0]), p, Value(a[1..]), Value(b[1..]));
      } else if b[0] < a[0] {
        LeadingDigitDecides(Digit(b[0]), Digit(a[0]), p, Value(b[1..]), Value(a[1..]));
      }
    }
  }

  lemma {:induction false} LeadingDigitDecides(d: nat, e: nat, p: nat, u: nat, v: nat)
    requires d < e && u < p
    ensures d * p + u < e * p + v
  {
    if d + 1 < e { LeadingDigitDecides(d, e - 1, p, u, v); }
  }

  /** Length first, then text order, is the order of the integers written. */
  lemma NumericOrderIsIntegerOrder(a: string, b: string)
    requires IsNumber(a) && IsNumber(b)
    ensures CompareNumeric(a, b) == if Value(a) < Value(b) then -1 else if Value(a) > Value(b) then 1 else 0
    ensures Value(a) == Value(b) <==> a == b
  {
    CompareTextLaws(a, b);
    if |a| < |b| {
      ShorterIsSmaller(a, b);
    } else if |b| < |a| {
      ShorterIsSmaller(b, a);
    } else {
      TextOrderIsValueOrder(a, b);
    }
  }

  lemma ProductAtLeast(d: nat, p: nat)
    requires d >= 1
    ensures d * p >= p
  {
  }

  lemma ShorterIsSmaller(a: string, b: string)
    requires IsNumber(a) && IsNumber(b) && |a| < |b|
    ensures Value(a) < Value(b)
  {
    ValueBelow(a);
    assert Digit(b[0]) >= 1 && Value(b) >= Digit(b[0]) * Pow10(|b| - 1);
    Pow10Grows(|a|, |b| - 1);
    hide *;
    ProductAtLeast(Digit(b[0]), Pow10(|b| - 1));
  }

  lemma {:induction false} CompareTextLaws(a: string, b: string)
    ensures -1 <= CompareText(a, b) <= 1
    ensures CompareText(a, b) == 0 <==> a == b
    ensures CompareText(a, b) == -CompareText(b, a)
  {
    if a != "" && b != "" {
      CompareTextLaws(a[1..], b[1..]);
      assert a == [a[0]] + a[1..] && b == [b[0]] + b[1..];
    }
  }

  lemma {:induction false} CompareTextTransitive(a: string, b: string, c: string)
    requires CompareText(a, b) < 0 && CompareText(b, c) < 0
    ensures CompareText(a, c) < 0
  {
    if a != "" && b != "" && c != "" && a[0] == b[0] == c[0] {
      CompareTextTransitive(a[1..], b[1..], c[1..]);
    }
  }

  // ---------------------------------------------------------------- section 11, independently

  /** Section 11.4: numeric identifiers by value, below alphanumeric ones, which go by ASCII order. */
  ghost predicate IdentifierPrecedes(a: string, b: string)
    requires IsIdentifier(a) && IsIdentifier(b)
  {
    if AllDigits(a) && AllDigits(b) then Value(a) < Value(b)
    else if AllDigits(a) || AllDigits(b) then AllDigits(a)
    else TextPrecedes(a, b)
  }

  /** `a` is a proper prefix of `b`, or smaller at the first place where they differ. */
  ghost predicate TextPrecedes(a: string, b: string) {
    exists k: nat :: TextPrecedesAt(a, b, k)
  }

  predicate TextPrecedesAt(a: string, b: string, k: nat) {
    k <= |a| && k < |b| && a[..k] == b[..k] && (k == |a| || a[k] < b[k])
  }

  ghost predicate PrereleasePrecedes(a: seq<string>, b: seq<string>)
    requires AllIdentifiers(a) && AllIdentifiers(b)
  {
    exists k: nat :: PrecedesAt(a, b, k)
  }

  ghost predicate PrecedesAt(a: seq<string>, b: seq<string>, k: nat)
    requires AllIdentifiers(a) && AllIdentifiers(b)
  {
    k <= |a| && k < |b| && a[..k] == b[..k] && (k == |a| || IdentifierPrecedes(a[k], b[k]))
  }

  predicate AllIdentifiers(a: seq<string>) { forall x | x in a :: IsIdentifier(x) }

  /** Section 11: the core numbers left to right by value, then a pre-release below its release. */
  ghost predicate Precedes(a: Version, b: Version)
    requires WellFormed(a) && WellFormed(b)
  {
    var x, y := a.numbers, b.numbers;
    || Value(x[0]) < Value(y[0])
    || (Value(x[0]) == Value(y[0]) && Value(x[1]) < Value(y[1]))
    || (Value(x[0]) == Value(y[0]) && Value(x[1]) == Value(y[1]) && Value(x[2]) < Value(y[2]))
    || (x == y && a.prerelease.Some? && b.prerelease.None?)
    || (x == y && a.prerelease.Some? && b.prerelease.Some?
        && PrereleasePrecedes(a.prerelease.value, b.prerelease.value))
  }

  lemma TextPrecedesAtTail(a: string, b: string, k: nat)
    requires a != "" && b != "" && a[0] == b[0]
    ensures TextPrecedesAt(a, b, k + 1) <==> TextPrecedesAt(a[1..], b[1..], k)
  {
    if k + 1 <= |a| && k + 1 < |b| {
      assert a[..k + 1] == [a[0]] + a[1..][..k];
      assert b[..k + 1] == [b[0]] + b[1..][..k];
      assert a[1..][..k] == a[..k + 1][1..];
      assert b[1..][..k] == b[..k + 1][1..];
    }
  }

  lemma TextPrecedesAtHead(a: string, b: string, k: nat)
    requires a != "" && b != ""
    ensures TextPrecedesAt(a, b, 0) <==> a[0] < b[0]
    ensures a[0] != b[0] && TextPrecedesAt(a, b, k) ==> k == 0
  {
    assert a[..0] == b[..0];
    if TextPrecedesAt(a, b, k) && k > 0 { assert a[0] == a[..k][0] && b[0] == b[..k][0]; }
  }

  /** The order of two non-empty texts is that of their first characters, or of the rest. */
  lemma TextPrecedesByHead(a: string, b: string)
    requires a != "" && b != ""
    ensures a[0] == b[0] ==> (TextPrecedes(a, b) <==> TextPrecedes(a[1..], b[1..]))
    ensures a[0] != b[0] ==> (TextPrecedes(a, b) <==> a[0] < b[0])
  {
    hide TextPrecedesAt;
    TextPrecedesAtHead(a, b, 0);
    if TextPrecedes(a, b) {
      var k: nat :| TextPrecedesAt(a, b, k);
      TextPrecedesAtHead(a, b, k);
      if a[0] == b[0] { TextPrecedesAtTail(a, b, k - 1); }
    }
    if a[0] == b[0] && TextPrecedes(a[1..], b[1..]) {
      var k: nat :| TextPrecedesAt(a[1..], b[1..], k);
      TextPrecedesAtTail(a, b, k);
    }
  }

  lemma {:induction false} TextPrecedesIffCompare(a: string, b: string)
    ensures TextPrecedes(a, b) <==> CompareText(a, b) < 0
  {
    if a == "" {
      if b != "" { assert a[..0] == b[..0] && TextPrecedesAt(a, b, 0); }
    } else if b != "" {
      hide TextPrecedes;
      TextPrecedesIffCompare(a[1..], b[1..]);
      TextPrecedesByHead(a, b);
    }
  }

  lemma IdentifierOrder(a: string, b: string)
    requires IsIdentifier(a) && IsIdentifier(b)
    ensures CompareIdentifier(a, b) == -CompareIdentifier(b, a)
    ensures -1 <= CompareIdentifier(a, b) <= 1
    ensures CompareIdentifier(a, b) == 0 <==> a == b
    ensures CompareIdentifier(a, b) < 0 <==> IdentifierPrecedes(a, b)
  {
    CompareTextLaws(a, b);
    TextPrecedesIffCompare(a, b);
    if AllDigits(a) && AllDigits(b) {
      NumericOrderIsIntegerOrder(a, b);
      NumericOrderIsIntegerOrder(b, a);
    }
  }

  lemma IdentifierTransitive(a: string, b: string, c: string)
    requires IsIdentifier(a) && IsIdentifier(b) && IsIdentifier(c)
    requires CompareIdentifier(a, b) < 0 && CompareIdentifier(b, c) < 0
    ensures CompareIdentifier(a, c) < 0
  {
    IdentifierOrder(a, b);
    IdentifierOrder(b, c);
    IdentifierOrder(a, c);
    if !AllDigits(a) && !AllDigits(b) && !AllDigits(c) {
      CompareTextTransitive(a, b, c);
      CompareTextLaws(a, c);
    }
  }

  lemma PrecedesAtTail(a: seq<string>, b: seq<string>, k: nat)
    requires AllIdentifiers(a) && AllIdentifiers(b) && a != [] && b != [] && a[0] == b[0]
    ensures PrecedesAt(a, b, k + 1) <==> PrecedesAt(a[1..], b[1..], k)
  {
    hide IdentifierPrecedes, IsIdentifier;
    if k + 1 <= |a| && k + 1 < |b| {
      assert a[..k + 1] == [a[0]] + a[1..][..k];
      assert b[..k + 1] == [b[0]] + b[1..][..k];
      assert a[1..][..k] == a[..k + 1][1..];
      assert b[1..][..k] == b[..k + 1][1..];
    }
  }

  lemma PrecedesAtHead(a: seq<string>, b: seq<string>, k: nat)
    requires AllIdentifiers(a) && AllIdentifiers(b) && a != [] && b != []
    ensures PrecedesAt(a, b, 0) <==> IdentifierPrecedes(a[0], b[0])
    ensures a[0] != b[0] && PrecedesAt(a, b, k) ==> k == 0
  {
    hide IdentifierPrecedes, IsIdentifier;
    assert a[..0] == b[..0];
    if PrecedesAt(a, b, k) && k > 0 { assert a[0] == a[..k][0] && b[0] == b[..k][0]; }
  }

  /** The order of two non-empty lists is that of their heads, or of their tails when the heads agree. */
  lemma PrecedesByHead(a: seq<string>, b: seq<string>)
    requires AllIdentifiers(a) && AllIdentifiers(b) && a != [] && b != []
    ensures a[0] == b[0] ==> (PrereleasePrecedes(a, b) <==> PrereleasePrecedes(a[1..], b[1..]))
    ensures a[0] != b[0] ==> (PrereleasePrecedes(a, b) <==> IdentifierPrecedes(a[0], b[0]))
  {
    IdentifierOrder(a[0], b[0]);
    hide PrecedesAt, IdentifierPrecedes, IsIdentifier, CompareIdentifier;
    PrecedesAtHead(a, b, 0);
    if PrereleasePrecedes(a, b) {
      var k: nat :| PrecedesAt(a, b, k);
      PrecedesAtHead(a, b, k);
      if a[0] == b[0] { PrecedesAtTail(a, b, k - 1); }
    }
    if a[0] == b[0] && PrereleasePrecedes(a[1..], b[1..]) {
      var k: nat :| PrecedesAt(a[1..], b[1..], k);
      PrecedesAtTail(a, b, k);
    }
  }

  lemma EmptyPrecedes(a: seq<string>, b: seq<string>)
    requires AllIdentifiers(a) && AllIdentifiers(b) && (a == [] || b == [])
    ensures PrereleasePrecedes(a, b) <==> a == [] && b != []
  {
    if a == [] && b != [] { assert a[..0] == b[..0] && PrecedesAt(a, b, 0); }
  }

  lemma {:induction false} PrereleaseOrder(a: seq<string>, b: seq<string>)
    requires AllIdentifiers(a) && AllIdentifiers(b)
    ensures ComparePrerelease(a, b) == -ComparePrerelease(b, a)
    ensures -1 <= ComparePrerelease(a, b) <= 1
    ensures ComparePrerelease(a, b) == 0 <==> a == b
    ensures ComparePrerelease(a, b) < 0 <==> PrereleasePrecedes(a, b)
  {
    hide PrereleasePrecedes, IsIdentifier, IdentifierPrecedes, CompareIdentifier;
    if a == [] || b == [] {
      EmptyPrecedes(a, b);
    } else {
      assert a == [a[0]] + a[1..] && b == [b[0]] + b[1..];
      IdentifierOrder(a[0], b[0]);
      PrereleaseOrder(a[1..], b[1..]);
      PrecedesByHead(a, b);
    }
  }

  lemma {:induction false} PrereleaseTransitive(a: seq<string>, b: seq<string>, c: seq<string>)
    requires AllIdentifiers(a) && AllIdentifiers(b) && AllIdentifiers(c)
    requires ComparePrerelease(a, b) < 0 && ComparePrerelease(b, c) < 0
    ensures ComparePrerelease(a, c) < 0
  {
    if a != [] && b != [] && c != [] {
      if a[0] == b[0] == c[0] {
        PrereleaseTransitive(a[1..], b[1..], c[1..]);
      } else if a[0] != b[0] && b[0] != c[0] {
        IdentifierTransitive(a[0], b[0], c[0]);
        IdentifierOrder(a[0], c[0]);
      }
    }
  }

  lemma NumbersUnfold(a: seq<string>, b: seq<string>)
    requires |a| == |b| == 3
    ensures CompareNumbers(a, b) ==
            if CompareNumeric(a[0], b[0]) != 0 then CompareNumeric(a[0], b[0])
            else if CompareNumeric(a[1], b[1]) != 0 then CompareNumeric(a[1], b[1])
            else CompareNumeric(a[2], b[2])
  {
    assert CompareNumbers(a[1..], b[1..]) ==
           if CompareNumeric(a[1], b[1]) != 0 then CompareNumeric(a[1], b[1]) else CompareNumbers(a[1..][1..], b[1..][1..]);
    assert a[1..][1..] == [a[2]] && b[1..][1..] == [b[2]];
    assert CompareNumbers([a[2]], [b[2]]) == CompareNumeric(a[2], b[2]);
  }

  /** The comparison decides the order of section 11, and calls two versions equal only when they are. */
  lemma CompareParsedIsPrecedence(a: Version, b: Version)
    requires WellFormed(a) && WellFormed(b)
    ensures CompareParsed(a, b) == if Precedes(a, b) then -1 else if Precedes(b, a) then 1 else 0
    ensures CompareParsed(a, b) == 0 <==> a == b
    ensures CompareParsed(a, b) == -CompareParsed(b, a)
  {
    var x, y := a.numbers, b.numbers;
    NumbersUnfold(x, y);
    NumbersUnfold(y, x);
    NumericOrderIsIntegerOrder(x[0], y[0]);
    NumericOrderIsIntegerOrder(x[1], y[1]);
    NumericOrderIsIntegerOrder(x[2], y[2]);
    NumericOrderIsIntegerOrder(y[0], x[0]);
    NumericOrderIsIntegerOrder(y[1], x[1]);
    NumericOrderIsIntegerOrder(y[2], x[2]);
    assert x == y <==> x[0] == y[0] && x[1] == y[1] && x[2] == y[2];
    if a.prerelease.Some? && b.prerelease.Some? {
      PrereleaseOrder(a.prerelease.value, b.prerelease.value);
      PrereleaseOrder(b.prerelease.value, a.prerelease.value);
    }
  }

  lemma CompareParsedTransitive(a: Version, b: Version, c: Version)
    requires WellFormed(a) && WellFormed(b) && WellFormed(c)
    requires CompareParsed(a, b) < 0 && CompareParsed(b, c) < 0
    ensures CompareParsed(a, c) < 0
  {
    CompareParsedIsPrecedence(a, b);
    CompareParsedIsPrecedence(b, c);
    CompareParsedIsPrecedence(a, c);
    if a.numbers == b.numbers == c.numbers && a.prerelease.Some? && b.prerelease.Some? && c.prerelease.Some? {
      PrereleaseOrder(a.prerelease.value, b.prerelease.value);
      PrereleaseOrder(b.prerelease.value, c.prerelease.value);
      PrereleaseTransitive(a.prerelease.value, b.prerelease.value, c.prerelease.value);
      PrereleaseOrder(a.prerelease.value, c.prerelease.value);
    }
  }

  // ---------------------------------------------------------------- the laws of the text comparison

  /** Decides section 11's precedence; zero only for identical texts; antisymmetric. */
  lemma CompareVersionsIsPrecedence(l: string, r: string)
    requires IsSupported(l) && IsSupported(r)
    ensures CompareVersions(l, r) ==
            Some(if Precedes(Parse(l), Parse(r)) then -1 else if Precedes(Parse(r), Parse(l)) then 1 else 0)
    ensures CompareVersions(l, r) == Some(0) <==> l == r
    ensures CompareVersions(l, r).value == -CompareVersions(r, l).value
  {
    CompareParsedIsPrecedence(Parse(l), Parse(r));
    TextParse(l);
    TextParse(r);
  }

  /** Total and transitive, whichever of the two steps is strict. */
  lemma CompareVersionsTransitive(a: string, b: string, c: string)
    requires IsSupported(a) && IsSupported(b) && IsSupported(c)
    requires CompareVersions(a, b).value >= 0 && CompareVersions(b, c).value >= 0
    ensures CompareVersions(a, c).value >= 0
    ensures CompareVersions(a, c).value == 0 ==> a == b == c
  {
    CompareVersionsIsPrecedence(a, b);
    CompareVersionsIsPrecedence(b, c);
    CompareVersionsIsPrecedence(b, a);
    CompareVersionsIsPrecedence(c, b);
    CompareVersionsIsPrecedence(c, a);
    CompareVersionsIsPrecedence(a, c);
    if a != b && b != c {
      CompareParsedTransitive(Parse(c), Parse(b), Parse(a));
    }
  }
}
