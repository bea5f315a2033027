/** Outbound HTTP for plugins: the SDK grows two buffers until the host, which writes
    each answer as a length prefix and data, finds room for both. */
module SdkNetwork {
  import opened Wrappers

  type Byte = b: int | 0 <= b < 256
  type Headers = map<string, string>

  const TOO_SMALL := -7
  const INITIAL_HEADERS := 1024
  const INITIAL_BODY := 4096
  const MAX_HEADERS := 8192
  const MAX_BODY := 1048576
  const PREFIX := 4
  const UINT32 := 0x1_0000_0000

  // ----- Status codes --------------------------------------------------------------

  datatype Error =
    | GenericFailure | PermissionDenied | Unavailable | InvalidMemory
    | InvalidArgument | NotFound | BufferTooSmall | Upstream

  /** nil exactly for codes that are not negative; unknown negative codes are generic. */
  function FromCode(code: int): (e: Option<Error>)
    ensures e == None <==> code >= 0
    ensures code < -8 ==> e == Some(GenericFailure)
  {
    match code
    case 0 => None
    case -1 => Some(GenericFailure)
    case -2 => Some(PermissionDenied)
    case -3 => Some(Unavailable)
    case -4 => Some(InvalidMemory)
    case -5 => Some(InvalidArgument)
    case -6 => Some(NotFound)
    case -7 => Some(BufferTooSmall)
    case -8 => Some(Upstream)
    case _ => if code > 0 then None else Some(GenericFailure)
  }

  /** The codes from minus one down stand for the errors in this order. */
  lemma CodesAreNumbered(e: Error)
    ensures exists code :: -8 <= code <= -1 && FromCode(code) == Some(e)
    ensures forall code, code' :: -8 <= code < code' <= -1 ==> FromCode(code) != FromCode(code')
    ensures [FromCode(-1), FromCode(-2), FromCode(-3), FromCode(-4),
             FromCode(-5), FromCode(-6), FromCode(-7), FromCode(-8)]
         == [Some(GenericFailure), Some(PermissionDenied), Some(Unavailable), Some(InvalidMemory),
             Some(InvalidArgument), Some(NotFound), Some(BufferTooSmall), Some(Upstream)]
  {
    assert FromCode(-1) == Some(GenericFailure) && FromCode(-2) == Some(PermissionDenied);
    assert FromCode(-3) == Some(Unavailable) && FromCode(-4) == Some(InvalidMemory);
    assert FromCode(-5) == Some(InvalidArgument) && FromCode(-6) == Some(NotFound);
    assert FromCode(-7) == Some(BufferTooSmall) && FromCode(-8) == Some(Upstream);
  }

  // ----- The length prefix -----------------------------------------------------------

  /** Four little-endian bytes. */
  function PutUint32(n: nat): (p: seq<Byte>)
    requires n < UINT32
    ensures |p| == PREFIX
  {
    [n % 256, n / 256 % 256, n / 65536 % 256, n / 16777216]
  }

  function Uint32(p: seq<Byte>): (n: nat)
    requires |p| == PREFIX
    ensures n < UINT32
  {
    p[0] as int + 256 * p[1] as int + 65536 * p[2] as int + 16777216 * p[3] as int
  }

  lemma Uint32InvertsPut(n: nat)
    requires n < UINT32
    ensures Uint32(PutUint32(n)) == n
  {
    assert n / 65536 == n / 256 / 256;
    assert n / 16777216 == n / 65536 / 256;
  }

  /** The data behind the prefix; None for an empty one or one that does not fit. */
  function Prefixed(buf: seq<Byte>): Option<seq<Byte>> {
    if |buf| < PREFIX then None
    else
      var n := Uint32(buf[..PREFIX]);
      if n == 0 || n + PREFIX > |buf| then None else Some(buf[PREFIX..PREFIX + n])
  }

  function OrNil(data: seq<Byte>): Option<seq<Byte>> {
    if data == [] then None else Some(data)
  }

  /** What the host wrote is what the SDK reads, whatever lies behind it. */
  lemma PrefixedInvertsWriter(data: seq<Byte>, rest: seq<Byte>)
    requires |data| < UINT32
    ensures Prefixed(PutUint32(|data|) + data + rest) == OrNil(data)
  {
    var buf := PutUint32(|data|) + data + rest;
    assert buf[..PREFIX] == PutUint32(|data|);
    Uint32InvertsPut(|data|);
    assert buf[PREFIX..PREFIX + |data|] == data;
  }

  /** readLenPrefixedBytes: a copy of the data, nil when there is none. */
  method ReadLenPrefixedBytes(buf: array<Byte>) returns (out: Option<seq<Byte>>)
    ensures out == Prefixed(buf[..])
  {
    if buf.Length < PREFIX { return None; }
    var n := Uint32(buf[..PREFIX]);
    assert buf[..][..PREFIX] == buf[..PREFIX];
    if n == 0 || n + PREFIX > buf.Length { return None; }
    var copied := new Byte[n];
    for i := 0 to n
      invariant copied[..i] == buf[PREFIX..PREFIX + i]
    {
      copied[i] := buf[PREFIX + i];
    }
    assert buf[..][PREFIX..PREFIX + n] == buf[PREFIX..PREFIX + n] == copied[..];
    out := Some(copied[..]);
  }

  // ----- Header maps -----------------------------------------------------------------

  /** JSON of a header map, both ways. */
  datatype Json = Json(marshal: Headers -> seq<Byte>, unmarshal: seq<Byte> -> Option<Headers>)

  ghost predicate Lawful(json: Json) {
    forall h: Headers :: json.marshal(h) != [] && json.unmarshal(json.marshal(h)) == Some(h)
  }

  /** The header blob the host writes: nothing for no headers. */
  function Blob(json: Json, headers: Headers): seq<Byte> {
    if headers == map[] then [] else json.marshal(headers)
  }

  function Decoded(json: Json, data: Option<seq<Byte>>): Option<Headers> {
    match data
    case None => None
    case Some(bytes) => json.unmarshal(bytes)
  }

  // ----- The host ----------------------------------------------------------------------

  type Failure = c: int | c < 0 witness -1

  /** How the request goes upstream: refused or failed with a code, or answered. */
  datatype Upstream = Fails(code: Failure) | Responds(status: nat, headers: Headers, body: seq<Byte>)

  /** The host cuts a body at its own limit. */
  function Kept(body: seq<Byte>): seq<Byte> {
    if |body| > MAX_BODY then body[..MAX_BODY] else body
  }

  predicate Fits(json: Json, u: Upstream, headerCap: nat, bodyCap: nat) {
    u.Responds? && PREFIX + |Blob(json, u.headers)| <= headerCap && PREFIX + |Kept(u.body)| <= bodyCap
  }

  /** The code of one host call with buffers of these sizes; a caller without buffers
      gets the status alone. */
  function CodeOf(json: Json, u: Upstream, headerCap: nat, bodyCap: nat): int {
    if u.Fails? then u.code
    else if headerCap == 0 && bodyCap == 0 then u.status
    else if Fits(json, u, headerCap, bodyCap) then u.status
    else TOO_SMALL
  }

  /** data sits in buf behind its length. */
  ghost predicate Holds(buf: seq<Byte>, data: seq<Byte>) {
    && |data| < UINT32
    && PREFIX + |data| <= |buf|
    && buf[..PREFIX] == PutUint32(|data|)
    && buf[PREFIX..PREFIX + |data|] == data
  }

  lemma HoldsReads(buf: seq<Byte>, data: seq<Byte>)
    requires Holds(buf, data)
    ensures Prefixed(buf) == OrNil(data)
  {
    var rest := buf[PREFIX + |data|..];
    assert buf == PutUint32(|data|) + data + rest;
    PrefixedInvertsWriter(data, rest);
  }

  method WriteMemory(buf: array<Byte>, at: nat, data: seq<Byte>)
    requires at + |data| <= buf.Length
    modifies buf
    ensures buf[..at] == old(buf[..at])
    ensures buf[at..at + |data|] == data
    ensures buf[at + |data|..] == old(buf[at + |data|..])
  {
    for i := 0 to |data|
      invariant buf[..at] == old(buf[..at])
      invariant buf[at..at + i] == data[..i]
      invariant buf[at + i..] == old(buf[at + i..])
    {
      ghost var tail := buf[at + i..];
      buf[at + i] := data[i];
      assert buf[at + i + 1..] == tail[1..];
      assert buf[at..at + i + 1] == buf[at..at + i] + [data[i]] == data[..i + 1];
    }
    assert data[..|data|] == data;
  }

  function Max(a: nat, b: nat): nat {
    if a > b then a else b
  }

  class Host {
    const json: Json
    /** What happens upstream on each call; every call sends the request again. */
    const upstream: nat -> Upstream
    var calls: nat
    /** The largest header and body buffer it was ever given. */
    var largest: (nat, nat)

    constructor (json: Json, upstream: nat -> Upstream)
      ensures this.json == json && this.upstream == upstream && calls == 0 && largest == (0, 0)
    {
      this.json, this.upstream := json, upstream;
      calls, largest := 0, (0, 0);
    }

    method HttpRequest(headerBuf: array<Byte>, bodyBuf: array<Byte>) returns (code: int)
      requires headerBuf.Length < UINT32 && bodyBuf.Length < UINT32 && headerBuf != bodyBuf
      modifies this, headerBuf, bodyBuf
      ensures calls == old(calls) + 1
      ensures largest == (Max(old(largest).0, headerBuf.Length), Max(old(largest).1, bodyBuf.Length))
      ensures var u := upstream(old(calls));
              && code == CodeOf(json, u, headerBuf.Length, bodyBuf.Length)
              && (Fits(json, u, headerBuf.Length, bodyBuf.Length) ==>
                    Holds(headerBuf[..], Blob(json, u.headers)) && Holds(bodyBuf[..], Kept(u.body)))
              && (!Fits(json, u, headerBuf.Length, bodyBuf.Length) ==>
                    headerBuf[..] == old(headerBuf[..]) && bodyBuf[..] == old(bodyBuf[..]))
    {
      var u := upstream(calls);
      calls := calls + 1;
      largest := (Max(largest.0, headerBuf.Length), Max(largest.1, bodyBuf.Length));
      if u.Fails? { return u.code; }
      var body := if |u.body| > MAX_BODY then u.body[..MAX_BODY] else u.body;
      if headerBuf.Length == 0 && bodyBuf.Length == 0 { return u.status; }
      var blob := if u.headers == map[] then [] else json.marshal(u.headers);
      if headerBuf.Length < PREFIX + |blob| || bodyBuf.Length < PREFIX + |body| { return TOO_SMALL; }
      WriteMemory(headerBuf, 0, PutUint32(|blob|));
      WriteMemory(headerBuf, PREFIX, blob);
      WriteMemory(bodyBuf, 0, PutUint32(|body|));
      WriteMemory(bodyBuf, PREFIX, body);
      code := u.status;
    }
  }

  // ----- The negotiation ---------------------------------------------------------------

  function Doubled(cap: nat, max: nat): nat {
    if cap < max then 2 * cap else cap
  }

  const ATTEMPTS := 9

  /** The buffer sizes of attempt k: each below its limit doubles. */
  function SizesAt(k: nat): (nat, nat) {
    if k == 0 then (INITIAL_HEADERS, INITIAL_BODY)
    else (Doubled(SizesAt(k - 1).0, MAX_HEADERS), Doubled(SizesAt(k - 1).1, MAX_BODY))
  }

  /** Doubling never passes a limit, and reaches both on the ninth attempt and not before. */
  lemma SizesReachTheirLimits(k: nat)
    requires k < ATTEMPTS
    ensures 0 < SizesAt(k).0 <= MAX_HEADERS && 0 < SizesAt(k).1 <= MAX_BODY
    ensures k == ATTEMPTS - 1 <==> SizesAt(k) == (MAX_HEADERS, MAX_BODY)
  {
    assert SizesAt(0) == (1024, 4096);
    assert SizesAt(1) == (2048, 8192);
    assert SizesAt(2) == (4096, 16384);
    assert SizesAt(3) == (8192, 32768);
    assert SizesAt(4) == (8192, 65536);
    assert SizesAt(5) == (8192, 131072);
    assert SizesAt(6) == (8192, 262144);
    assert SizesAt(7) == (8192, 524288);
    assert SizesAt(8) == (8192, 1048576);
  }

  datatype Response = Response(status: int, headers: Option<Headers>, body: Option<seq<Byte>>)

  datatype Outcome = Ok(response: Response) | Err(error: Error)

  /** The answer the SDK makes of one call that was not refused for its buffers. */
  function Answer(json: Json, u: Upstream, code: int): Outcome
    requires code >= 0 ==> u.Responds?
  {
    match FromCode(code)
    case Some(e) => Err(e)
    case None => Ok(Response(code, Decoded(json, OrNil(Blob(json, u.headers))), OrNil(Kept(u.body))))
  }

  /** One attempt with these buffer sizes: None means both buffers have to grow. */
  function AttemptOf(json: Json, u: Upstream, headerCap: nat, bodyCap: nat): Option<Outcome> {
    var code := CodeOf(json, u, headerCap, bodyCap);
    if code == TOO_SMALL then None else Some(Answer(json, u, code))
  }

  /** What host call n gives the SDK, for each pair of buffer sizes. */
  type Tries = (nat, nat, nat) -> Option<Outcome>

  function TriesOf(json: Json, upstream: nat -> Upstream): Tries {
    (n: nat, headerCap: nat, bodyCap: nat) => AttemptOf(json, upstream(n), headerCap, bodyCap)
  }

  /** The attempt of host call n, when the first attempt was call first. */
  function TryAt(tries: Tries, first: nat, n: nat): Option<Outcome>
    requires first <= n < first + ATTEMPTS
  {
    tries(n, SizesAt(n - first).0, SizesAt(n - first).1)
  }

  /** The call that settles it: the first from n on that is not told to grow, or the
      ninth attempt. */
  function LastCall(tries: Tries, first: nat, n: nat): (m: nat)
    requires first <= n < first + ATTEMPTS
    ensures n <= m < first + ATTEMPTS
    decreases first + ATTEMPTS - n
  {
    if n == first + ATTEMPTS - 1 || TryAt(tries, first, n).Some? then n else LastCall(tries, first, n + 1)
  }

  /** The outcome of a last call: what it gave, or that even the largest buffers were
      too small. */
  function Settled(tries: Tries, first: nat, n: nat): Outcome
    requires first <= n < first + ATTEMPTS
  {
    match TryAt(tries, first, n)
    case Some(outcome) => outcome
    case None => Err(BufferTooSmall)
  }

  /** What Do returns. */
  function Negotiated(tries: Tries, first: nat): Outcome {
    Settled(tries, first, LastCall(tries, first, first))
  }

  /** A response reaches the plugin when headers and body fit the largest buffers. */
  predicate Deliverable(json: Json, u: Upstream) {
    Fits(json, u, MAX_HEADERS, MAX_BODY)
  }

  /** A host that answers every attempt alike. */
  function Steady(json: Json, u: Upstream): Tries {
    TriesOf(json, (n: nat) => u)
  }

  lemma SteadyTry(json: Json, u: Upstream, first: nat, n: nat)
    requires first <= n < first + ATTEMPTS
    ensures TryAt(Steady(json, u), first, n) == AttemptOf(json, u, SizesAt(n - first).0, SizesAt(n - first).1)
  {
    var upstream := (m: nat) => u;
    assert TriesOf(json, upstream)(n, SizesAt(n - first).0, SizesAt(n - first).1)
        == AttemptOf(json, upstream(n), SizesAt(n - first).0, SizesAt(n - first).1);
  }

  lemma {:induction false} DeliverableIsReached(json: Json, u: Upstream, first: nat, n: nat)
    requires u.Responds? && first <= n < first + ATTEMPTS
    ensures var sizes := SizesAt(LastCall(Steady(json, u), first, n) - first);
            Fits(json, u, sizes.0, sizes.1) <==> Deliverable(json, u)
    decreases first + ATTEMPTS - n
  {
    SizesReachTheirLimits(n - first);
    SteadyTry(json, u, first, n);
    if n - first < ATTEMPTS - 1 && TryAt(Steady(json, u), first, n).None? {
      DeliverableIsReached(json, u, first, n + 1);
    }
  }

  /** Against a host that answers every attempt alike, Do returns the exact response
      if and only if header blob and body each fit their limit with the prefix. */
  lemma ExactOrTooSmall(json: Json, u: Upstream, first: nat)
    requires Lawful(json) && u.Responds?
    ensures Negotiated(Steady(json, u), first) ==
      if Deliverable(json, u)
      then Ok(Response(u.status, if u.headers == map[] then None else Some(u.headers), OrNil(u.body)))
      else Err(BufferTooSmall)
  {
    DeliverableIsReached(json, u, first, first);
    SizesReachTheirLimits(LastCall(Steady(json, u), first, first) - first);
    SteadyTry(json, u, first, LastCall(Steady(json, u), first, first));
  }

  /** Both fit when the JSON of the headers, if there are any, leaves four bytes of 8192
      and the body four bytes of 1048576. */
  lemma DeliverableIff(json: Json, u: Upstream)
    requires u.Responds?
    ensures Deliverable(json, u)
       <==> (u.headers == map[] || |json.marshal(u.headers)| <= 8188) && |u.body| <= 1048572
  {
  }

  /** One host call: a failure keeps its code; a call without any buffer gets the status,
      as does one whose buffers hold both; any other is told to grow. */
  lemma CodeIsExact(json: Json, u: Upstream, headerCap: nat, bodyCap: nat)
    ensures u.Fails? ==> CodeOf(json, u, headerCap, bodyCap) == u.code
    ensures u.Responds? ==> CodeOf(json, u, 0, 0) == u.status
    ensures u.Responds? && headerCap + bodyCap > 0 ==>
              var room := |Blob(json, u.headers)| + 4 <= headerCap
                          && (|u.body| + 4 <= bodyCap || (|u.body| > 1048576 && 1048580 <= bodyCap));
              CodeOf(json, u, headerCap, bodyCap) == if room then u.status else -7
  {
  }

  /** So a body the host had to cut is never delivered, cut or whole. */
  lemma CutBodiesAreNotDelivered(json: Json, u: Upstream, first: nat)
    requires Lawful(json) && u.Responds? && |u.body| > MAX_BODY - PREFIX
    ensures Negotiated(Steady(json, u), first) == Err(BufferTooSmall)
  {
    ExactOrTooSmall(json, u, first);
  }

  /** A host that fails every attempt alike yields the error of its code. */
  lemma FailuresAreMapped(json: Json, code: Failure, first: nat)
    ensures FromCode(code).Some? && Negotiated(Steady(json, Fails(code)), first) == Err(FromCode(code).value)
  {
    SteadyTry(json, Fails(code), first, LastCall(Steady(json, Fails(code)), first, first));
  }

  /** A response that fits the buffers of attempt k, when the attempts before it got
      nothing that fits theirs, is the one delivered: a host may answer each try anew. */
  lemma {:induction false} FirstFitWins(json: Json, upstream: nat -> Upstream, first: nat, n: nat, k: nat)
    requires k < ATTEMPTS && first <= n <= first + k
    requires forall i: nat :: n <= i < first + k ==> TryAt(TriesOf(json, upstream), first, i).None?
    requires TryAt(TriesOf(json, upstream), first, first + k).Some?
    ensures LastCall(TriesOf(json, upstream), first, n) == first + k
    decreases first + k - n
  {
    if n < first + k {
      FirstFitWins(json, upstream, first, n + 1, k);
    }
  }

  /** The end of Do: the two buffers decoded. */
  method Decode(json: Json, headerBuf: array<Byte>, bodyBuf: array<Byte>, code: int, ghost u: Upstream)
    returns (r: Outcome)
    requires code >= 0 && u.Responds?
    requires Holds(headerBuf[..], Blob(json, u.headers)) && Holds(bodyBuf[..], Kept(u.body))
    ensures r == Answer(json, u, code)
  {
    HoldsReads(headerBuf[..], Blob(json, u.headers));
    HoldsReads(bodyBuf[..], Kept(u.body));
    var data := ReadLenPrefixedBytes(headerBuf);
    var headers := Decoded(json, data);
    var body := ReadLenPrefixedBytes(bodyBuf);
    r := Ok(Response(code, headers, body));
  }

  /** One round of the loop: None means the buffers have to grow. */
  method Attempt(host: Host, headerBuf: array<Byte>, bodyBuf: array<Byte>) returns (r: Option<Outcome>)
    requires 0 < headerBuf.Length < UINT32 && 0 < bodyBuf.Length < UINT32 && headerBuf != bodyBuf
    modifies host, headerBuf, bodyBuf
    ensures host.calls == old(host.calls) + 1
    ensures host.largest == (Max(old(host.largest).0, headerBuf.Length), Max(old(host.largest).1, bodyBuf.Length))
    ensures r == TriesOf(host.json, host.upstream)(old(host.calls), headerBuf.Length, bodyBuf.Length)
  {
    ghost var u := host.upstream(host.calls);
    var code := host.HttpRequest(headerBuf, bodyBuf);
    if code == TOO_SMALL { return None; }
    var failed := FromCode(code);
    if failed.Some? { return Some(Err(failed.value)); }
    var response := Decode(host.json, headerBuf, bodyBuf, code, u);
    r := Some(response);
  }

  /** Reallocates each buffer that is below its limit at twice its size. */
  method Grow(headerBuf: array<Byte>, bodyBuf: array<Byte>) returns (h: array<Byte>, b: array<Byte>)
    ensures h.Length == Doubled(headerBuf.Length, MAX_HEADERS) && (h == headerBuf || fresh(h))
    ensures b.Length == Doubled(bodyBuf.Length, MAX_BODY) && (b == bodyBuf || fresh(b))
    ensures headerBuf != bodyBuf ==> h != b
  {
    h, b := headerBuf, bodyBuf;
    if h.Length < MAX_HEADERS { h := new Byte[h.Length * 2]; }
    if b.Length < MAX_BODY { b := new Byte[b.Length * 2]; }
  }

  /** The buffers of call n, when the first attempt was call first. */
  ghost predicate Ready(host: Host, first: nat, n: nat, headerBuf: array<Byte>, bodyBuf: array<Byte>)
    reads host
  {
    && first <= n < first + ATTEMPTS && host.calls == n && headerBuf != bodyBuf
    && (headerBuf.Length, bodyBuf.Length) == SizesAt(n - first)
  }

  /** One round of the loop: an answer, or larger buffers for the next round. */
  method Round(host: Host, ghost first: nat, headerBuf: array<Byte>, bodyBuf: array<Byte>)
    returns (answer: Option<Outcome>, h: array<Byte>, b: array<Byte>)
    requires Ready(host, first, host.calls, headerBuf, bodyBuf)
    modifies host, headerBuf, bodyBuf
    ensures (h == headerBuf || fresh(h)) && (b == bodyBuf || fresh(b))
    ensures host.largest.0 <= Max(old(host.largest).0, MAX_HEADERS)
    ensures host.largest.1 <= Max(old(host.largest).1, MAX_BODY)
    ensures host.calls == old(host.calls) + 1
    ensures var n := old(host.calls);
            var last := LastCall(TriesOf(host.json, host.upstream), first, n);
            match answer
            case Some(outcome) => last == n && outcome == Settled(TriesOf(host.json, host.upstream), first, n)
            case None =>
              last > n && Ready(host, first, n + 1, h, b)
              && last == LastCall(TriesOf(host.json, host.upstream), first, n + 1)
  {
    SizesReachTheirLimits(host.calls - first);
    h, b := headerBuf, bodyBuf;
    answer := Attempt(host, headerBuf, bodyBuf);
    if answer.Some? { return; }
    if headerBuf.Length >= MAX_HEADERS && bodyBuf.Length >= MAX_BODY { return Some(Err(BufferTooSmall)), h, b; }
    h, b := Grow(headerBuf, bodyBuf);
  }

  /** Do, with the host calls it makes and the largest buffers it hands over. */
  method Do(host: Host) returns (r: Outcome)
    modifies host
    ensures r == Negotiated(TriesOf(host.json, host.upstream), old(host.calls))
    ensures host.calls == LastCall(TriesOf(host.json, host.upstream), old(host.calls), old(host.calls)) + 1
    ensures host.largest.0 <= Max(old(host.largest).0, MAX_HEADERS)
    ensures host.largest.1 <= Max(old(host.largest).1, MAX_BODY)
  {
    var headerBuf := new Byte[INITIAL_HEADERS];
    var bodyBuf := new Byte[INITIAL_BODY];
    ghost var first := host.calls;
    ghost var last := LastCall(TriesOf(host.json, host.upstream), first, first);
    while true
      invariant fresh(headerBuf) && fresh(bodyBuf)
      invariant Ready(host, first, host.calls, headerBuf, bodyBuf)
      invariant last == LastCall(TriesOf(host.json, host.upstream), first, host.calls)
      invariant host.largest.0 <= Max(old(host.largest).0, MAX_HEADERS)
      invariant host.largest.1 <= Max(old(host.largest).1, MAX_BODY)
      decreases first + ATTEMPTS - host.calls
    {
      var answer;
      answer, headerBuf, bodyBuf := Round(host, first, headerBuf, bodyBuf);
      if answer.Some? { return answer.value; }
    }
  }
}
