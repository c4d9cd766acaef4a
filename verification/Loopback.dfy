/** The bounded loopback HTTP client: response framing, assembly of the body, and the count of running calls. */
module Loopback {
  import opened Common
  import opened SemVer

  type Byte = b: int | 0 <= b < 256

  const MAX_SAFE_INTEGER: nat := 0x1F_FFFF_FFFF_FFFF

  datatype Limits = Limits(maxInFlight: nat, headerBytes: nat, headerCount: nat, responseBytes: nat)

  // ---------------------------------------------------------------- raw headers

  /** What a list of names and values, in turn, takes up on the wire, with the final empty line. */
  function HeaderBytes(raw: seq<string>): (n: nat)
    requires |raw| % 2 == 0
    ensures n >= 2
  {
    if raw == [] then 2 else HeaderBytes(raw[..|raw| - 2]) + |raw[|raw| - 2]| + |raw[|raw| - 1]| + 4
  }

  lemma {:induction false} HeaderBytesGrow(raw: seq<string>, k: nat)
    requires |raw| % 2 == 0 && k % 2 == 0 && k <= |raw|
    ensures HeaderBytes(raw[..k]) <= HeaderBytes(raw)
  {
    if k == |raw| { assert raw[..k] == raw; } else {
      HeaderBytesGrow(raw[..|raw| - 2], k);
      assert raw[..|raw| - 2][..k] == raw[..k];
    }
  }

  /** Headers that pair up and stay within both limits; counting stops at the first excess. */
  method HasValidBoundedRawHeaders(raw: seq<string>, l: Limits) returns (ok: bool)
    ensures ok <==> |raw| % 2 == 0 && |raw| / 2 <= l.headerCount && (raw == [] || HeaderBytes(raw) <= l.headerBytes)
  {
    if |raw| % 2 != 0 || |raw| / 2 > l.headerCount { return false; }
    var bytes := 2;
    var i := 0;
    while i < |raw|
      invariant i % 2 == 0 && i <= |raw|
      invariant bytes == HeaderBytes(raw[..i])
      invariant i == 0 || bytes <= l.headerBytes
    {
      assert raw[..i + 2][..i] == raw[..i];
      bytes := bytes + |raw[i]| + |raw[i + 1]| + 4;
      if bytes > l.headerBytes {
        HeaderBytesGrow(raw, i + 2);
        return false;
      }
      i := i + 2;
    }
    assert raw[..i] == raw;
    ok := true;
  }

  // ---------------------------------------------------------------- framing

  function LowerChar(c: char): char { if 'A' <= c <= 'Z' then ((c as int) + 32) as char else c }

  function Lower(s: string): string { seq(|s|, i requires 0 <= i < |s| => LowerChar(s[i])) }

  predicate IsSpace(c: char) { c == ' ' || c == '\t' || c == '\n' || c == '\r' }

  function TrimLeft(s: string): string { if s != "" && IsSpace(s[0]) then TrimLeft(s[1..]) else s }

  function TrimRight(s: string): string { if s != "" && IsSpace(s[|s| - 1]) then TrimRight(s[..|s| - 1]) else s }

  function Trim(s: string): string { TrimRight(TrimLeft(s)) }

  /** The values of one header, in order. */
  function ValuesOf(raw: seq<string>, name: string): seq<string>
    requires |raw| % 2 == 0
  {
    if raw == [] then []
    else ValuesOf(raw[..|raw| - 2], name) + (if Lower(raw[|raw| - 2]) == name then [Trim(raw[|raw| - 1])] else [])
  }

  method RawHeaderValues(raw: seq<string>, name: string) returns (values: seq<string>)
    requires |raw| % 2 == 0
    ensures values == ValuesOf(raw, name)
  {
    values := [];
    var i := 0;
    while i < |raw|
      invariant i % 2 == 0 && i <= |raw|
      invariant values == ValuesOf(raw[..i], name)
    {
      assert raw[..i + 2][..i] == raw[..i];
      if Lower(raw[i]) == name { values := values + [Trim(raw[i + 1])]; }
      i := i + 2;
    }
    assert raw[..i] == raw;
  }

  /** `application/json`, perhaps with `charset=utf-8`, in any case. */
  predicate IsJsonMedia(s: string) {
    var t := Lower(s);
    t == "application/json"
    || ("application/json" <= t
        && (var rest := TrimLeft(t[|"application/json"|..]);
            rest != "" && rest[0] == ';' && TrimLeft(rest[1..]) == "charset=utf-8"))
  }

  datatype FramingError = BadStatus | BadFraming | Oversized

  datatype Framing = Framed(status: nat, contentLength: Option<nat>) | Refused(error: FramingError)

  method ReadResponseFraming(status: int, raw: seq<string>, l: Limits) returns (f: Framing)
    ensures f == FramingOf(status, raw, l)
    ensures f.Framed? ==> 100 <= f.status == status <= 599
    ensures f.Framed? && f.contentLength.Some? ==>
              f.contentLength.value <= l.responseBytes && f.contentLength.value <= MAX_SAFE_INTEGER
              && |raw| % 2 == 0 && |ValuesOf(raw, "content-length")| == 1 && ValuesOf(raw, "transfer-encoding") == []
    ensures f.Framed? && f.contentLength.None? ==>
              |raw| % 2 == 0 && ValuesOf(raw, "content-length") == [] && |ValuesOf(raw, "transfer-encoding")| == 1
  {
    if status < 100 || status > 599 { return Refused(BadStatus); }
    var bounded := HasValidBoundedRawHeaders(raw, l);
    if !bounded { return Refused(BadFraming); }
    var types := RawHeaderValues(raw, "content-type");
    var encodings := RawHeaderValues(raw, "content-encoding");
    var lengths := RawHeaderValues(raw, "content-length");
    var transfers := RawHeaderValues(raw, "transfer-encoding");
    if |types| != 1 || !IsJsonMedia(types[0])
       || |encodings| > 1 || (|encodings| == 1 && Lower(encodings[0]) != "identity")
       || |lengths| > 1 || |transfers| > 1 || |lengths| + |transfers| != 1
       || (|transfers| == 1 && Lower(transfers[0]) != "chunked") {
      return Refused(BadFraming);
    }
    if |lengths| == 0 { return Framed(status, None); }
    if !IsNumber(lengths[0]) { return Refused(BadFraming); }
    var n := Value(lengths[0]);
    if n > MAX_SAFE_INTEGER { return Refused(BadFraming); }
    if n > l.responseBytes { return Refused(Oversized); }
    f := Framed(status, Some(n));
  }

  predicate WellBounded(raw: seq<string>, l: Limits) {
    |raw| % 2 == 0 && |raw| / 2 <= l.headerCount && (raw == [] || HeaderBytes(raw) <= l.headerBytes)
  }

  /** A JSON body, not encoded, of a length that is declared once or chunked, never both and never neither. */
  predicate OneLength(raw: seq<string>)
    requires |raw| % 2 == 0
  {
    var types, encodings := ValuesOf(raw, "content-type"), ValuesOf(raw, "content-encoding");
    var lengths, transfers := ValuesOf(raw, "content-length"), ValuesOf(raw, "transfer-encoding");
    && |types| == 1 && IsJsonMedia(types[0])
    && (encodings == [] || (|encodings| == 1 && Lower(encodings[0]) == "identity"))
    && ((lengths == [] && |transfers| == 1 && Lower(transfers[0]) == "chunked") || (|lengths| == 1 && transfers == []))
  }

  function FramingOf(status: int, raw: seq<string>, l: Limits): Framing {
    if !(100 <= status <= 599) then Refused(BadStatus)
    else if !WellBounded(raw, l) || !OneLength(raw) then Refused(BadFraming)
    else
      var lengths := ValuesOf(raw, "content-length");
      if lengths == [] then Framed(status, None)
      else if !IsNumber(lengths[0]) || Value(lengths[0]) > MAX_SAFE_INTEGER then Refused(BadFraming)
      else if Value(lengths[0]) > l.responseBytes then Refused(Oversized)
      else Framed(status, Some(Value(lengths[0])))
  }

  // ---------------------------------------------------------------- one call

  datatype Failure =
    | Cancelled | ConnectTimedOut | DeadlineExceeded | Stalled | FramingRefused | TooLarge | Incomplete | InvalidJson
    | Unavailable | NotWritten

  datatype Outcome = Success(status: nat, text: seq<Byte>) | Failed(failure: Failure)

  datatype Event =
    | Stopped(failure: Failure)
    | Responds(status: int, raw: seq<string>)
    | Data(chunk: seq<Byte>)
    | End(complete: bool, trailers: bool, decodes: bool)

  /** `received` and `settlements` are history: what came in, and every time the promise was settled. */
  datatype Call = Call(
    settled: bool,
    framing: Option<Framing>,
    buffer: seq<Byte>,
    bytes: nat,
    received: seq<Byte>,
    settlements: seq<Outcome>)

  const FRESH: Call := Call(false, None, [], 0, [], [])

  function Settle(c: Call, o: Outcome): Call {
    if c.settled then c else c.(settled := true, settlements := c.settlements + [o])
  }

  /** Copies as much of the chunk as fits. */
  function Overlay(buffer: seq<Byte>, at: nat, chunk: seq<Byte>): (r: seq<Byte>)
    ensures |r| == |buffer|
  {
    seq(|buffer|, i requires 0 <= i < |buffer| => if at <= i < at + |chunk| then chunk[i - at] else buffer[i])
  }

  function Zeros(n: nat): seq<Byte> { seq(n, _ => 0) }

  function Respond(c: Call, status: int, raw: seq<string>, l: Limits): Call {
    if c.settled || c.framing.Some? then c
    else
      match FramingOf(status, raw, l)
      case Refused(Oversized) => Settle(c, Failed(TooLarge))
      case Refused(_) => Settle(c, Failed(FramingRefused))
      case Framed(s, length) =>
        c.(framing := Some(Framed(s, length)), buffer := Zeros(if length.Some? then length.value else l.responseBytes))
  }

  function TakeData(c: Call, chunk: seq<Byte>, l: Limits): Call {
    if c.settled || c.framing.None? || chunk == [] then c
    else
      var seen := c.(received := c.received + chunk);
      if c.bytes + |chunk| > l.responseBytes then Settle(seen, Failed(TooLarge))
      else seen.(buffer := Overlay(c.buffer, c.bytes, chunk), bytes := c.bytes + |chunk|)
  }

  function TakeEnd(c: Call, complete: bool, trailers: bool, decodes: bool): Call {
    if c.settled || c.framing.None? || c.framing.value.Refused? then c
    else if trailers then Settle(c, Failed(FramingRefused))
    else if !complete || (c.framing.value.contentLength.Some? && c.framing.value.contentLength.value != c.bytes) then
      Settle(c, Failed(Incomplete))
    else if !decodes then Settle(c, Failed(InvalidJson))
    else Settle(c, Success(c.framing.value.status, c.buffer[..if c.bytes < |c.buffer| then c.bytes else |c.buffer|]))
  }

  function Step(c: Call, e: Event, l: Limits): Call {
    match e
    case Stopped(f) => Settle(c, Failed(f))
    case Responds(status, raw) => Respond(c, status, raw, l)
    case Data(chunk) => TakeData(c, chunk, l)
    case End(complete, trailers, decodes) => TakeEnd(c, complete, trailers, decodes)
  }

  // ---------------------------------------------------------------- what a call keeps

  /** The body so far is the received bytes, cut off only where the declared length already ended. */
  predicate Assembled(c: Call, l: Limits) {
    && c.framing.Some? ==>
      && c.framing.value.Framed?
      && |c.buffer| == (if c.framing.value.contentLength.Some? then c.framing.value.contentLength.value else l.responseBytes)
      && |c.buffer| <= l.responseBytes
      && (!c.settled ==> c.bytes == |c.received| && c.bytes <= l.responseBytes)
      && (!c.settled ==> forall i | 0 <= i < |c.received| && i < |c.buffer| :: c.buffer[i] == c.received[i])
  }

  /** The promise: unsettled, or settled once; and a success is exactly what came in. */
  predicate Honest(c: Call, l: Limits) {
    && |c.settlements| == (if c.settled then 1 else 0)
    && (c.settled && c.settlements[0].Success? ==>
          && c.framing.Some? && c.framing.value.Framed? && c.settlements[0].status == c.framing.value.status
          && c.settlements[0].text == c.received
          && |c.received| <= l.responseBytes
          && (c.framing.value.contentLength.Some? ==> |c.received| == c.framing.value.contentLength.value))
    && (c.framing.None? ==> c.received == [] && c.bytes == 0)
  }

  predicate Sound(c: Call, l: Limits) { Assembled(c, l) && Honest(c, l) }

  lemma DataKeeps(c: Call, chunk: seq<Byte>, l: Limits)
    requires Sound(c, l)
    ensures Sound(TakeData(c, chunk, l), l)
  {
    var v := TakeData(c, chunk, l);
    if !c.settled && c.framing.Some? && !v.settled {
      forall i | 0 <= i < |v.received| && i < |v.buffer| ensures v.buffer[i] == v.received[i] { }
    }
  }

  lemma EndKeeps(c: Call, complete: bool, trailers: bool, decodes: bool, l: Limits)
    requires Sound(c, l)
    ensures Sound(TakeEnd(c, complete, trailers, decodes), l)
  {
    if !c.settled && c.framing.Some? && c.bytes <= |c.buffer| {
      assert c.buffer[..c.bytes] == c.received;
    }
  }

  lemma StepKeeps(c: Call, e: Event, l: Limits)
    requires Sound(c, l)
    ensures Sound(Step(c, e, l), l)
    ensures c.settled ==> Step(c, e, l) == c
  {
    match e
    case Data(chunk) => DataKeeps(c, chunk, l);
    case End(complete, trailers, decodes) => EndKeeps(c, complete, trailers, decodes, l);
    case Responds(status, raw) => hide ValuesOf, IsJsonMedia, HeaderBytes, Value, IsNumber;
    case Stopped(_) =>
  }

  function Run(c: Call, events: seq<Event>, l: Limits): Call
    decreases |events|
  {
    if events == [] then c else Run(Step(c, events[0], l), events[1..], l)
  }

  lemma {:induction false} RunKeeps(c: Call, events: seq<Event>, l: Limits)
    requires Sound(c, l)
    ensures Sound(Run(c, events, l), l)
    ensures c.settled ==> Run(c, events, l) == c
    decreases |events|
  {
    hide Sound, Step;
    if events != [] {
      StepKeeps(c, events[0], l);
      RunKeeps(Step(c, events[0], l), events[1..], l);
    }
  }

  /**
   Whatever arrives in whatever order, the promise is settled at most once, and a success carries exactly
   the concatenation of the received chunks, within the limit and of the declared length if there was one.
   */
  lemma SuccessIsWhatCameIn(events: seq<Event>, l: Limits)
    ensures var c := Run(FRESH, events, l);
            && |c.settlements| <= 1
            && (c.settlements != [] && c.settlements[0].Success? ==>
                  && c.settlements[0].text == c.received && |c.received| <= l.responseBytes
                  && c.framing.Some? && c.framing.value.Framed?
                  && (c.framing.value.contentLength.Some? ==> |c.received| == c.framing.value.contentLength.value))
  {
    assert Sound(FRESH, l);
    hide Run, Assembled;
    RunKeeps(FRESH, events, l);
  }

  // ---------------------------------------------------------------- the call as it runs

  class LoopbackCall {
    const limits: Limits
    var settled: bool
    var framing: Option<Framing>
    var body: array<Byte>
    var bytes: nat
    var settlements: seq<Outcome>
    ghost var received: seq<Byte>

    ghost function Now(): Call
      reads this, body
    {
      Call(settled, framing, body[..], bytes, received, settlements)
    }

    constructor (l: Limits)
      ensures Now() == FRESH && limits == l && fresh(body)
      ensures Sound(Now(), l)
    {
      limits := l;
      settled, framing, bytes, settlements, received := false, None, 0, [], [];
      body := new Byte[0];
    }

    /** Timers, aborts, socket and parser errors. */
    method Stop(failure: Failure)
      modifies this`settled, this`settlements
      ensures Now() == Step(old(Now()), Stopped(failure), limits)
      ensures old(Sound(Now(), limits)) ==> Sound(Now(), limits)
    {
      if Sound(Now(), limits) { StepKeeps(Now(), Stopped(failure), limits); }
      hide Sound;
      SettleWith(Failed(failure));
    }

    method SettleWith(o: Outcome)
      modifies this`settled, this`settlements
      ensures Now() == Settle(old(Now()), o)
    {
      if settled { return; }
      settled, settlements := true, settlements + [o];
    }

    /** Reads the framing and sets up the body buffer: of the declared length, or of the limit. */
    method OnResponse(status: int, raw: seq<string>)
      modifies this
      ensures Now() == Respond(old(Now()), status, raw, limits)
      ensures old(Sound(Now(), limits)) ==> Sound(Now(), limits)
      ensures body == old(body) || fresh(body)
    {
      if Sound(Now(), limits) { StepKeeps(Now(), Responds(status, raw), limits); }
      hide Sound;
      if settled || framing.Some? { return; }
      var f := ReadResponseFraming(status, raw, limits);
      match f {
        case Refused(Oversized) => SettleWith(Failed(TooLarge));
        case Refused(_) => SettleWith(Failed(FramingRefused));
        case Framed(_, length) =>
          framing := Some(f);
          body := new Byte[if length.Some? then length.value else limits.responseBytes](_ => 0);
          assert body[..] == Zeros(body.Length);
      }
    }

    /** Copies a chunk behind the bytes already there; what does not fit is dropped. */
    method Copy(chunk: seq<Byte>)
      modifies body
      ensures body[..] == Overlay(old(body[..]), bytes, chunk)
    {
      var i := 0;
      while i < |chunk| && bytes + i < body.Length
        invariant i <= |chunk|
        invariant forall k | 0 <= k < body.Length :: body[k] == if bytes <= k < bytes + i then chunk[k - bytes] else old(body[k])
      {
        body[bytes + i] := chunk[i];
        i := i + 1;
      }
    }

    method OnData(chunk: seq<Byte>)
      modifies this`settled, this`settlements, this`bytes, this`received, body
      ensures Now() == TakeData(old(Now()), chunk, limits)
      ensures old(Sound(Now(), limits)) ==> Sound(Now(), limits)
    {
      if Sound(Now(), limits) { StepKeeps(Now(), Data(chunk), limits); }
      hide Sound;
      if settled || framing.None? || |chunk| == 0 { return; }
      received := received + chunk;
      if bytes + |chunk| > limits.responseBytes {
        SettleWith(Failed(TooLarge));
        return;
      }
      Copy(chunk);
      bytes := bytes + |chunk|;
    }

    method OnEnd(complete: bool, trailers: bool, decodes: bool)
      modifies this`settled, this`settlements
      ensures Now() == TakeEnd(old(Now()), complete, trailers, decodes)
      ensures old(Sound(Now(), limits)) ==> Sound(Now(), limits)
    {
      if Sound(Now(), limits) { StepKeeps(Now(), End(complete, trailers, decodes), limits); }
      hide Sound;
      if settled || framing.None? || framing.value.Refused? { return; }
      if trailers {
        SettleWith(Failed(FramingRefused));
      } else if !complete || (framing.value.contentLength.Some? && framing.value.contentLength.value != bytes) {
        SettleWith(Failed(Incomplete));
      } else if !decodes {
        SettleWith(Failed(InvalidJson));
      } else {
        var n := if bytes < body.Length then bytes else body.Length;
        SettleWith(Success(framing.value.status, body[..n]));
      }
    }
  }

  // ---------------------------------------------------------------- running calls

  /** The counter of the whole process, with the calls it stands for. */
  datatype Running = Running(count: nat, calls: set<nat>, next: nat)

  /** Every fetch function has its own limit; they all count on the one counter. */
  datatype Traffic = Starts(acceptable: bool, limit: nat) | Finishes(call: nat)

  /** A call that is turned away never counts; one that ran is taken off whatever its outcome. */
  function Admit(r: Running, t: Traffic): Running {
    match t
    case Starts(acceptable, limit) =>
      if !acceptable || r.count >= limit then r else Running(r.count + 1, r.calls + {r.next}, r.next + 1)
    case Finishes(c) =>
      if c !in r.calls || r.count == 0 then r else Running(r.count - 1, r.calls - {c}, r.next)
  }

  function AdmitAll(r: Running, traffic: seq<Traffic>): Running
    decreases |traffic|
  {
    if traffic == [] then r else AdmitAll(Admit(r, traffic[0]), traffic[1..])
  }

  const IDLE: Running := Running(0, {}, 0)

  predicate Counted(r: Running) { r.count == |r.calls| && forall c | c in r.calls :: c < r.next }

  function Larger(a: nat, b: nat): nat { if a < b then b else a }

  /** The largest limit of the fetches that take part. */
  function Largest(traffic: seq<Traffic>): nat {
    if traffic == [] then 0
    else Larger(if traffic[0].Starts? then traffic[0].limit else 0, Largest(traffic[1..]))
  }

  /**
   In every run, with fetches of whatever limits, the counter is the number of running calls, and it never
   gets above the largest of the limits, or above where it started.
   */
  lemma {:induction false} CounterIsRunningCalls(r: Running, traffic: seq<Traffic>)
    requires Counted(r)
    ensures Counted(AdmitAll(r, traffic))
    ensures AdmitAll(r, traffic).count <= Larger(r.count, Largest(traffic))
    decreases |traffic|
  {
    if traffic != [] {
      CounterIsRunningCalls(Admit(r, traffic[0]), traffic[1..]);
    }
  }

  /** In every run a fetch turns a call away exactly when as many calls run, whoever made them, as its own limit allows. */
  lemma AdmittedIff(traffic: seq<Traffic>, limit: nat)
    ensures var r := AdmitAll(IDLE, traffic);
            Admit(r, Starts(true, limit)) != r <==> |r.calls| < limit
  {
    CounterIsRunningCalls(IDLE, traffic);
  }

  /** The counter that all fetch functions of the process share. */
  class RequestCounter {
    var inFlight: nat
    ghost var calls: set<nat>
    ghost var next: nat

    ghost function Now(): Running
      reads this
    {
      Running(inFlight, calls, next)
    }

    constructor ()
      ensures Now() == IDLE && Counted(Now())
    {
      inFlight, calls, next := 0, {}, 0;
    }
  }

  class LoopbackFetch {
    const limits: Limits
    const process: RequestCounter

    constructor (l: Limits, counter: RequestCounter)
      ensures limits == l && process == counter
    {
      limits, process := l, counter;
    }

    /** Counts the call before anything is sent, or turns it away. */
    method Begin(acceptable: bool) returns (admitted: bool)
      requires Counted(process.Now())
      modifies process
      ensures process.Now() == Admit(old(process.Now()), Starts(acceptable, limits.maxInFlight))
      ensures admitted <==> acceptable && |old(process.calls)| < limits.maxInFlight
      ensures admitted ==> |process.calls| == |old(process.calls)| + 1 <= limits.maxInFlight
      ensures Counted(process.Now())
    {
      if !acceptable || process.inFlight >= limits.maxInFlight { return false; }
      process.inFlight, process.calls, process.next := process.inFlight + 1, process.calls + {process.next}, process.next + 1;
      admitted := true;
    }

    /** Takes a call off the count, whatever became of it and whoever made it. */
    method Finish(ghost call: nat)
      requires Counted(process.Now()) && call in process.calls
      modifies process
      ensures process.Now() == Admit(old(process.Now()), Finishes(call))
      ensures process.calls == old(process.calls) - {call} && |process.calls| == |old(process.calls)| - 1
      ensures Counted(process.Now())
    {
      process.inFlight, process.calls := process.inFlight - 1, process.calls - {call};
    }
  }
}
