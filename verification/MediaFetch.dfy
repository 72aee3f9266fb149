/** Fetching a file with retries, growing timeouts and a bound on its size. */
module MediaFetch {
  import opened Arithmetic
  import opened Options

  type Bytes = seq<int>

  const MIB := 1024 * 1024

  /** What can go wrong: time-outs, connection failures, an error status, a broken body, too many bytes, or
      anything else.  `status` is None when the error carries no response. */
  datatype Failure =
    | TimedOut
    | ConnectionLost
    | BadStatus(status: Option<int>)
    | TooLarge(limit: int, received: int, media: bool)
    | Other

  datatype Result<T> = Ok(value: T) | Err(error: Failure)

  predicate Retryable(e: Failure) {
    match e
    case TimedOut => true
    case ConnectionLost => true
    case BadStatus(status) => status.Some? && status.value >= 500
    case TooLarge(_, _, _) => false
    case Other => false
  }

  // ----- The size limit -----

  /** The smaller of the caller's limit and the configured one (in MiB, not set if 0 or less), and whether the
      configured one is in force. */
  function Limit(maxBytes: Option<int>, mediaMiB: int): (r: (Option<int>, bool))
    ensures MIB == 1048576
    ensures r.0.None? <==> maxBytes.None? && mediaMiB <= 0
    ensures r.0.Some? ==> (maxBytes.Some? ==> r.0.value <= maxBytes.value) && (mediaMiB > 0 ==> r.0.value <= mediaMiB * MIB)
    ensures r.0.Some? ==> r.0 == maxBytes || (mediaMiB > 0 && r.0.value == mediaMiB * MIB)
    ensures r.1 <==> mediaMiB > 0 && r.0 == Some(mediaMiB * MIB)
                     && !(maxBytes.Some? && maxBytes.value < mediaMiB * MIB)
  {
    if mediaMiB > 0 && (maxBytes.None? || mediaMiB * MIB <= maxBytes.value) then (Some(mediaMiB * MIB), true)
    else (maxBytes, false)
  }

  /** The Content-Length header: absent, not a number, or a number. */
  datatype Header = Absent | Junk | Length(n: int)

  /** A reply: its status, its header, its body in the chunks in which it arrives, and how the body ends. */
  datatype Response = Response(status: int, header: Header, chunks: seq<Bytes>, ending: Option<Failure>)

  function Concat(chunks: seq<Bytes>): Bytes {
    if chunks == [] then [] else Concat(chunks[..|chunks| - 1]) + chunks[|chunks| - 1]
  }

  lemma {:induction false} PrefixShorter(chunks: seq<Bytes>, i: nat)
    requires i <= |chunks|
    ensures |Concat(chunks[..i])| <= |Concat(chunks)|
    decreases |chunks| - i
  {
    if i == |chunks| {
      assert chunks[..i] == chunks;
    } else {
      assert chunks[..i + 1][..i] == chunks[..i];
      PrefixShorter(chunks, i + 1);
    }
  }

  /** How many bytes have arrived when the limit is first exceeded, from chunk `i` on. */
  function FirstOver(chunks: seq<Bytes>, limit: int, i: nat): (n: nat)
    requires i <= |chunks|
    decreases |chunks| - i
  {
    if i == |chunks| then |Concat(chunks)|
    else if chunks[i] != [] && |Concat(chunks[..i + 1])| > limit then |Concat(chunks[..i + 1])|
    else FirstOver(chunks, limit, i + 1)
  }

  /** What reading a body comes to: too many bytes announced, or received, is an error, and so is a body that
      breaks off before that. */
  function Body(r: Response, maxBytes: Option<int>, mediaMiB: int): Result<Bytes> {
    var (limit, media) := Limit(maxBytes, mediaMiB);
    var whole := Concat(r.chunks);
    if limit.Some? && r.header.Length? && r.header.n > limit.value then Err(TooLarge(limit.value, r.header.n, media))
    else if limit.Some? && whole != [] && |whole| > limit.value then
      Err(TooLarge(limit.value, FirstOver(r.chunks, limit.value, 0), media))
    else if r.ending.Some? then Err(r.ending.value)
    else Ok(whole)
  }

  lemma {:induction false} OverIsOver(chunks: seq<Bytes>, limit: int, i: nat)
    requires i <= |chunks| && Concat(chunks) != [] && |Concat(chunks)| > limit
    ensures limit < FirstOver(chunks, limit, i) <= |Concat(chunks)|
    decreases |chunks| - i
  {
    if i < |chunks| {
      PrefixShorter(chunks, i + 1);
      OverIsOver(chunks, limit, i + 1);
    }
  }

  /** The body comes back, whole, exactly when it ends well and neither it nor its announced length exceeds the
      smaller limit; a size error names that limit and more bytes than it allows. */
  lemma BodyIff(r: Response, maxBytes: Option<int>, mediaMiB: int)
    ensures var (limit, whole) := (Limit(maxBytes, mediaMiB).0, Concat(r.chunks));
            Body(r, maxBytes, mediaMiB) == Ok(whole) <==>
              && r.ending.None?
              && (limit.Some? && whole != [] ==> |whole| <= limit.value)
              && (limit.Some? && r.header.Length? ==> r.header.n <= limit.value)
    ensures var b := Body(r, maxBytes, mediaMiB);
            b.Err? && r.ending == None ==>
              b.error.TooLarge? && Limit(maxBytes, mediaMiB).0 == Some(b.error.limit) && b.error.limit < b.error.received
    ensures Body(r, maxBytes, mediaMiB).Ok? ==> Body(r, maxBytes, mediaMiB).value == Concat(r.chunks)
  {
    var (limit, whole) := (Limit(maxBytes, mediaMiB).0, Concat(r.chunks));
    if limit.Some? && whole != [] && |whole| > limit.value { OverIsOver(r.chunks, limit.value, 0); }
  }

  /** Reads the body chunk by chunk, stopping as soon as it is too large. */
  method ReadBody(r: Response, maxBytes: Option<int>, mediaMiB: int) returns (b: Result<Bytes>)
    ensures b == Body(r, maxBytes, mediaMiB)
  {
    var (limit, media) := Limit(maxBytes, mediaMiB);
    if limit.Some? && r.header.Length? && r.header.n > limit.value {
      return Err(TooLarge(limit.value, r.header.n, media));
    }
    var body: Bytes := [];
    for i := 0 to |r.chunks|
      invariant body == Concat(r.chunks[..i])
      invariant limit.Some? && body != [] ==> |body| <= limit.value
      invariant limit.Some? ==> FirstOver(r.chunks, limit.value, 0) == FirstOver(r.chunks, limit.value, i)
    {
      var chunk := r.chunks[i];
      assert r.chunks[..i + 1][..i] == r.chunks[..i];
      if chunk != [] {
        var received := |body| + |chunk|;
        if limit.Some? && received > limit.value {
          PrefixShorter(r.chunks, i + 1);
          return Err(TooLarge(limit.value, received, media));
        }
        body := body + chunk;
      }
    }
    assert r.chunks[..|r.chunks|] == r.chunks;
    if r.ending.Some? { return Err(r.ending.value); }
    return Ok(body);
  }

  // ----- Retrying -----

  function Pow4(n: nat): nat { if n == 0 then 1 else 4 * Pow4(n - 1) }

  /** The timeout of attempt `n`. */
  function Timeout(base: Option<real>, n: nat): Option<real> {
    if base.None? then None else Some(base.value * (Pow4(n) as real))
  }

  function Attempts(setting: int): nat { if setting > 1 then setting else 1 }

  predicate FourTimes(a: Option<real>, b: Option<real>) { if a.None? then b.None? else b == Some(4.0 * a.value) }

  /** The first timeout is the base, each later one four times the one before; without a base there are none. */
  ghost predicate Growing(base: Option<real>, timeouts: seq<Option<real>>) {
    && (|timeouts| > 0 ==> timeouts[0] == base)
    && forall i | 0 < i < |timeouts| :: FourTimes(timeouts[i - 1], timeouts[i])
  }

  lemma TimeoutNext(base: Option<real>, n: nat)
    ensures FourTimes(Timeout(base, n), Timeout(base, n + 1))
  {
    if base.Some? {
      var (x, y) := (base.value, Pow4(n) as real);
      assert Pow4(n + 1) as real == 4.0 * y;
      Regroup(x, y);
      assert Timeout(base, n).value == x * y && Timeout(base, n + 1).value == x * (4.0 * y);
    }
  }

  lemma FirstTimeout(base: Option<real>)
    ensures Timeout(base, 0) == base
  {}

  lemma Regroup(x: real, y: real)
    ensures x * (4.0 * y) == 4.0 * (x * y)
  {}

  lemma TimeoutsGrow(base: Option<real>, timeouts: seq<Option<real>>)
    requires forall i | 0 <= i < |timeouts| :: timeouts[i] == Timeout(base, i)
    ensures Growing(base, timeouts)
  {
    hide Timeout, FourTimes;
    FirstTimeout(base);
    forall i | 0 < i < |timeouts| ensures FourTimes(timeouts[i - 1], timeouts[i]) { TimeoutNext(base, i - 1); }
  }

  /** A failure that may pass: a time-out, a lost connection, or an error of the server. */
  predicate MayPass(e: Failure) { e == TimedOut || e == ConnectionLost || (e.BadStatus? && e.status.Some? && e.status.value >= 500) }

  /** One attempt's outcome, given which attempt it is and what timeout it has. */
  type Call<!T> = (nat, Option<real>) -> Result<T>

  /** The calls that are made: up to the first that succeeds or fails for good, and no more than allowed. */
  method Retry<T>(call: Call<T>, base: Option<real>, setting: int)
    returns (r: Result<T>, timeouts: seq<Option<real>>, sleeps: seq<nat>)
    ensures 1 <= |timeouts| && (|timeouts| > 1 ==> |timeouts| <= setting) && |sleeps| == |timeouts| - 1
    ensures Growing(base, timeouts)
    ensures forall i | 0 <= i < |sleeps| :: sleeps[i] == Pow4(i)
    ensures forall i | 0 <= i < |sleeps| :: call(i, timeouts[i]).Err? && MayPass(call(i, timeouts[i]).error)
    ensures r == call(|sleeps|, timeouts[|sleeps|])
    ensures r.Err? && MayPass(r.error) ==> |timeouts| >= setting
  {
    hide Pow4, Timeout, Growing;
    timeouts, sleeps := [], [];
    var attempt := 0;
    while true
      invariant attempt == |timeouts| == |sleeps| < Attempts(setting)
      invariant forall i | 0 <= i < attempt :: timeouts[i] == Timeout(base, i) && sleeps[i] == Pow4(i)
      invariant forall i | 0 <= i < attempt :: call(i, timeouts[i]).Err? && Retryable(call(i, timeouts[i]).error)
      decreases Attempts(setting) - attempt
    {
      var timeout := Timeout(base, attempt);
      timeouts := timeouts + [timeout];
      r := call(attempt, timeout);
      TimeoutsGrow(base, timeouts);
      if r.Ok? { return; }
      if !Retryable(r.error) || attempt + 1 >= Attempts(setting) { return; }
      sleeps := sleeps + [Pow4(attempt)];
      attempt := attempt + 1;
    }
  }

  /** `k` retries sleep (4^k - 1) / 3 in all. */
  lemma {:induction false} TotalSleep(sleeps: seq<nat>)
    requires forall i | 0 <= i < |sleeps| :: sleeps[i] == Pow4(i)
    ensures 3 * Sum(sleeps) + 1 == Pow4(|sleeps|)
  {
    if sleeps != [] { TotalSleep(sleeps[..|sleeps| - 1]); }
  }

  /** What the server does at each attempt: it replies, or the request fails. */
  type World = (nat, Option<real>) -> Result<Response>

  /** What one attempt comes to. */
  function Attempt(a: Result<Response>, maxBytes: Option<int>, mediaMiB: int): Result<Bytes> {
    if a.Err? then Err(a.error)
    else if 400 <= a.value.status < 600 then Err(BadStatus(Some(a.value.status)))
    else Body(a.value, maxBytes, mediaMiB)
  }

  /** A reply with an error status. */
  predicate Refused(a: Result<Response>, low: int) { a.Ok? && low <= a.value.status < 600 }

  /** Neither the body nor its announced length exceeds the limits. */
  predicate WithinLimits(r: Response, maxBytes: Option<int>, mediaMiB: int) {
    var whole := Concat(r.chunks);
    && (maxBytes.Some? ==> (whole != [] ==> |whole| <= maxBytes.value) && (r.header.Length? ==> r.header.n <= maxBytes.value))
    && (mediaMiB > 0 ==> |whole| <= mediaMiB * MIB && (r.header.Length? ==> r.header.n <= mediaMiB * MIB))
  }

  lemma BodyLimits(r: Response, maxBytes: Option<int>, mediaMiB: int)
    ensures var body := Body(r, maxBytes, mediaMiB);
            && (body.Ok? <==> r.ending.None? && WithinLimits(r, maxBytes, mediaMiB))
            && (body.Ok? ==> body.value == Concat(r.chunks))
            && (r.ending.None? && body.Err? ==> body.error.TooLarge?)
            && (body.Err? && MayPass(body.error) ==> r.ending == Some(body.error))
  {
    hide Concat, FirstOver;
    BodyIff(r, maxBytes, mediaMiB);
  }

  /** The whole fetch.  It is tried again after a time-out, a lost connection, a reply with status 5xx, or a body that breaks off
      in one of these ways (but is not too large), and after nothing else, as long as attempts are left.  What the last
      attempt came to comes back: the exact body of a good reply within the limits, or the error. */
  method GetBytes(world: World, base: Option<real>, setting: int, maxBytes: Option<int>, mediaMiB: int)
    returns (b: Result<Bytes>, timeouts: seq<Option<real>>, slept: nat)
    ensures 1 <= |timeouts| && (|timeouts| > 1 ==> |timeouts| <= setting) && Growing(base, timeouts)
    ensures 3 * slept + 1 == Pow4(|timeouts| - 1)
    ensures forall i | 0 <= i < |timeouts| - 1 ::
              var a := world(i, timeouts[i]);
              || (a.Err? && MayPass(a.error)) || Refused(a, 500)
              || (a.Ok? && !Refused(a, 400) && a.value.ending.Some? && MayPass(a.value.ending.value))
    ensures var a := world(|timeouts| - 1, timeouts[|timeouts| - 1]);
            && (b.Ok? <==> a.Ok? && !Refused(a, 400) && a.value.ending.None? && WithinLimits(a.value, maxBytes, mediaMiB))
            && (b.Ok? ==> b.value == Concat(a.value.chunks))
            && (a.Err? ==> b == Err(a.error))
            && (Refused(a, 400) ==> b == Err(BadStatus(Some(a.value.status))))
            && (a.Ok? && !Refused(a, 400) && a.value.ending.None? && !WithinLimits(a.value, maxBytes, mediaMiB) ==>
                  b.Err? && b.error.TooLarge?)
    ensures b.Err? && MayPass(b.error) ==> |timeouts| >= setting
  {
    hide Pow4, Concat, Sum, Body, WithinLimits, Growing;
    var sleeps;
    b, timeouts, sleeps := Retry((i, t) => Attempt(world(i, t), maxBytes, mediaMiB), base, setting);
    TotalSleep(sleeps);
    slept := Total(sleeps);
    forall i | 0 <= i < |timeouts| && world(i, timeouts[i]).Ok?
      ensures var v := world(i, timeouts[i]).value; var body := Body(v, maxBytes, mediaMiB);
              && (body.Ok? <==> v.ending.None? && WithinLimits(v, maxBytes, mediaMiB))
              && (body.Ok? ==> body.value == Concat(v.chunks))
              && (v.ending.None? && body.Err? ==> body.error.TooLarge?)
              && (body.Err? && MayPass(body.error) ==> v.ending == Some(body.error))
    {
      BodyLimits(world(i, timeouts[i]).value, maxBytes, mediaMiB);
    }
  }

  method Total(s: seq<nat>) returns (n: nat)
    ensures n == Sum(s)
  {
    n := 0;
    for i := 0 to |s|
      invariant n == Sum(s[..i])
    {
      SumNext(s, i);
      n := n + s[i];
    }
    assert s[..|s|] == s;
  }
}
