/** Small shared vocabulary: an optional value and the string helpers that several modules use. */
module Common {

  datatype Option<+T> = None | Some(value: T)

  /** The pieces of `s` between occurrences of `d`; there is always at least one piece. */
  function Split(s: string, d: char): (parts: seq<string>)
    ensures |parts| > 0
    ensures forall p | p in parts :: d !in p
  {
    if s == [] then [""]
    else if s[0] == d then [""] + Split(s[1..], d)
    else
      var rest := Split(s[1..], d);
      [[s[0]] + rest[0]] + rest[1..]
  }

  /** The pieces with `d` put back between them. */
  function Join(parts: seq<string>, d: char): string {
    if parts == [] then ""
    else if |parts| == 1 then parts[0]
    else parts[0] + [d] + Join(parts[1..], d)
  }

  lemma {:induction false} JoinSplit(s: string, d: char)
    ensures Join(Split(s, d), d) == s
  {
    if s != [] {
      JoinSplit(s[1..], d);
      var rest := Split(s[1..], d);
      assert s == [s[0]] + s[1..];
      if s[0] == d {
        assert Split(s, d)[1..] == rest;
      } else {
        assert Split(s, d)[1..] == rest[1..];
        if |rest| > 1 {
          assert Join(rest, d) == rest[0] + [d] + Join(rest[1..], d);
        }
      }
    }
  }

  lemma {:induction false} SplitJoin(parts: seq<string>, d: char)
    requires |parts| > 0
    requires forall p | p in parts :: d !in p
    ensures Split(Join(parts, d), d) == parts
  {
    if |parts| == 1 {
      SplitPlain(parts[0], d);
    } else {
      SplitJoin(parts[1..], d);
      SplitAtFirst(parts[0], Join(parts[1..], d), d);
      assert parts == [parts[0]] + parts[1..];
      assert parts[0] + [d] + Join(parts[1..], d) == parts[0] + ([d] + Join(parts[1..], d));
    }
  }

  lemma {:induction false} SplitPlain(s: string, d: char)
    requires d !in s
    ensures Split(s, d) == [s]
  {
    if s != [] {
      SplitPlain(s[1..], d);
      assert s == [s[0]] + s[1..];
    }
  }

  lemma {:induction false} SplitAtFirst(head: string, tail: string, d: char)
    requires d !in head
    ensures Split(head + ([d] + tail), d) == [head] + Split(tail, d)
  {
    var s := head + ([d] + tail);
    if head == [] {
      assert s[1..] == tail;
    } else {
      SplitAtFirst(head[1..], tail, d);
      assert s[1..] == head[1..] + ([d] + tail);
      assert head == [head[0]] + head[1..];
    }
  }

  /** The position of the first `c`, or `|s|` when there is none. */
  function Find(s: string, c: char): (n: nat)
    ensures n <= |s|
    ensures c !in s[..n]
    ensures n < |s| ==> s[n] == c
  {
    if s == [] || s[0] == c then 0
    else
      assert forall m: nat | m <= |s| - 1 :: s[..m + 1] == [s[0]] + s[1..][..m];
      1 + Find(s[1..], c)
  }

  /** Every `c` replaced by the text `r`. */
  function ReplaceAll(s: string, c: char, r: string): string {
    if s == "" then "" else (if s[0] == c then r else [s[0]]) + ReplaceAll(s[1..], c, r)
  }

  lemma {:induction false} ReplaceAllConcat(a: string, b: string, c: char, r: string)
    ensures ReplaceAll(a + b, c, r) == ReplaceAll(a, c, r) + ReplaceAll(b, c, r)
  {
    if a == "" {
      assert a + b == b;
    } else {
      ReplaceAllConcat(a[1..], b, c, r);
      assert (a + b)[1..] == a[1..] + b;
    }
  }

  lemma {:induction false} ReplaceAllPlain(s: string, c: char, r: string)
    requires c !in s
    ensures ReplaceAll(s, c, r) == s
  {
    if s != "" { ReplaceAllPlain(s[1..], c, r); }
  }
}
