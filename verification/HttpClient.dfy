/** The provider client: a request rate ceiling, bounded retries with capped backoff, and its counters. */
module HttpClient {
  import opened Sequences

  // ----- the world outside -----

  /** What one send brings back: a transport failure, or a reply with its governing headers and decoded body. */
  datatype Sent =
    | TransportFailure
    | Reply(status: int, retryAfter: Option<nat>, resetAt: Option<real>, text: Option<string>)

  /** A monotone clock, a sleeper that sleeps at least as long as asked, and a transport. */
  class World {
    var now: real

    constructor ()
      ensures now == 0.0
    {
      now := 0.0;
    }

    /** Time passes by an amount nobody controls. */
    method Elapse(atLeast: real)
      modifies this
      ensures now >= old(now) && now >= old(now) + atLeast
    {
      var spent: real := *;
      if spent < atLeast {
        spent := atLeast;
      }
      if spent > 0.0 {
        now := now + spent;
      }
    }

    method Clock() returns (reading: real)
      modifies this
      ensures reading == now >= old(now)
    {
      Elapse(0.0);
      reading := now;
    }

    method Send() returns (sent: Sent)
      modifies this
      ensures now >= old(now)
    {
      Elapse(0.0);
      sent := *;
    }

    method WallClock() returns (reading: real) {
      reading := *;
    }
  }

  // ----- one call's course -----

  datatype HttpError =
    | InsecureUrl
    | InvalidHeader
    | Unavailable(attempts: nat)
    | DecodingFailed
    | BadStatus(status: int, text: string)

  const RETRYABLE: set<int> := {429, 500, 502, 503, 504}

  predicate Successful(sent: Sent) { sent.Reply? && 200 <= sent.status < 300 }

  /** Worth another attempt. */
  predicate Retryable(sent: Sent) { sent.TransportFailure? || (!Successful(sent) && sent.status in RETRYABLE) }

  /** What a call returns when `sent` was its last reply, after `attempts` sends. */
  function Answer(sent: Sent, attempts: nat): Result<string, HttpError> {
    match sent
    case TransportFailure => Err(Unavailable(attempts))
    case Reply(status, _, _, text) =>
      if Successful(sent) then (match text case Some(t) => Ok(t) case None => Err(DecodingFailed))
      else Err(BadStatus(status, match text case Some(t) => t case None => ""))
  }

  /** A call's sends: everything but the last was retryable, and it stopped no earlier than it had to. */
  predicate Course(sends: seq<Sent>, attempts: nat) {
    && 1 <= |sends| <= attempts
    && (forall i :: 0 <= i < |sends| - 1 ==> Retryable(sends[i]))
    && (Retryable(sends[|sends| - 1]) ==> |sends| == attempts)
  }

  /** Two calls that met the same replies made the same number of sends. */
  lemma CourseIsDetermined(a: seq<Sent>, b: seq<Sent>, attempts: nat)
    requires Course(a, attempts) && Course(b, attempts)
    requires forall i :: 0 <= i < |a| && i < |b| ==> a[i] == b[i]
    ensures a == b
  {
    var m := if |a| <= |b| then |a| - 1 else |b| - 1;
    assert a[m] == b[m];
  }

  function Min(a: real, b: real): real { if a <= b then a else b }

  function Pow2(n: nat): nat { if n == 0 then 1 else 2 * Pow2(n - 1) }

  /** The pause after a retryable send: the provider's wish, or exponential backoff, up to the cap. */
  function Pause(sent: Sent, attempt: nat, base: real, cap: real, wallClock: real): real {
    var exponential := base * Pow2(attempt) as real;
    match sent
    case TransportFailure => Min(exponential, cap)
    case Reply(_, Some(seconds), _, _) => Min(seconds as real, cap)
    case Reply(_, None, Some(resetAt), _) =>
      if resetAt - wallClock > 0.0 then Min(resetAt - wallClock, cap) else Min(exponential, cap)
    case Reply(_, None, None, _) => Min(exponential, cap)
  }

  lemma PauseIsCapped(sent: Sent, attempt: nat, base: real, cap: real, wallClock: real)
    requires base >= 0.0 && cap > 0.0
    ensures 0.0 <= Pause(sent, attempt, base, cap, wallClock) <= cap
  {
    var p := Pow2(attempt) as real;
    assert base * p >= 0.0;
  }

  ghost predicate PausedFor(sent: Sent, attempt: nat, base: real, cap: real, pause: real) {
    exists wall :: pause == Pause(sent, attempt, base, cap, wall)
  }

  /** After each of the first `n` sends its own pause. */
  ghost predicate Matched(sends: seq<Sent>, pauses: seq<real>, n: nat, base: real, cap: real) {
    n <= |sends| && n <= |pauses| && forall i :: 0 <= i < n ==> PausedFor(sends[i], i, base, cap, pauses[i])
  }

  /** A pause after every send but the last. */
  ghost predicate Paused(sends: seq<Sent>, pauses: seq<real>, base: real, cap: real) {
    |pauses| + 1 == |sends| && Matched(sends, pauses, |pauses|, base, cap)
  }

  lemma CourseEnds(before: seq<Sent>, last: Sent, attempts: nat)
    requires AllRetryable(before) && |before| < attempts
    ensures !Retryable(last) || |before| + 1 == attempts ==> Course(before + [last], attempts)
    ensures Retryable(last) ==> AllRetryable(before + [last])
  {}

  lemma MatchedMore(sends: seq<Sent>, pauses: seq<real>, n: nat, base: real, cap: real, sent: Sent)
    requires Matched(sends, pauses, n, base, cap)
    ensures Matched(sends + [sent], pauses, n, base, cap)
  {
    forall i | 0 <= i < n ensures PausedFor((sends + [sent])[i], i, base, cap, pauses[i]) {
      assert PausedFor(sends[i], i, base, cap, pauses[i]);
    }
  }

  lemma MatchedPause(sends: seq<Sent>, pauses: seq<real>, n: nat, base: real, cap: real, pause: real)
    requires Matched(sends, pauses, n, base, cap) && |pauses| == n < |sends|
    requires PausedFor(sends[n], n, base, cap, pause)
    ensures Matched(sends, pauses + [pause], n + 1, base, cap)
  {
    forall i | 0 <= i < n + 1 ensures PausedFor(sends[i], i, base, cap, (pauses + [pause])[i]) {
      assert i < n ==> PausedFor(sends[i], i, base, cap, pauses[i]);
    }
  }

  predicate AllRetryable(sends: seq<Sent>) { forall i :: 0 <= i < |sends| ==> Retryable(sends[i]) }

  predicate Extends<T(==)>(a: seq<T>, b: seq<T>) { |a| <= |b| && b[..|a|] == a }

  /** `n` times `x`, as a sum. */
  function Times(n: nat, x: real): real { if n == 0 then 0.0 else Times(n - 1, x) + x }

  lemma OneMore(a: real, x: real)
    ensures (a + 1.0) * x == a * x + x
  {}

  lemma {:induction false} TimesIsProduct(n: nat, x: real)
    ensures Times(n, x) == n as real * x
  {
    if n > 0 {
      TimesIsProduct(n - 1, x);
      OneMore((n - 1) as real, x);
      assert n as real == (n - 1) as real + 1.0;
    }
  }

  lemma {:induction false} TimesOrder(m: nat, n: nat, x: real)
    requires m <= n && x > 0.0
    ensures Times(m, x) <= Times(n, x)
    decreases n
  {
    if m < n {
      TimesOrder(m, n - 1, x);
    }
  }

  function Total(pauses: seq<real>): real {
    if pauses == [] then 0.0 else Total(pauses[..|pauses| - 1]) + pauses[|pauses| - 1]
  }

  predicate Capped(pauses: seq<real>, cap: real) { forall i :: 0 <= i < |pauses| ==> 0.0 <= pauses[i] <= cap }

  lemma {:induction false} TotalIsCapped(pauses: seq<real>, cap: real)
    requires Capped(pauses, cap)
    ensures Total(pauses) <= Times(|pauses|, cap)
  {
    if pauses != [] {
      TotalIsCapped(pauses[..|pauses| - 1], cap);
    }
  }

  /** The pauses of one call add up to at most one cap per retry. */
  lemma CallPausesAreCapped(sends: seq<Sent>, pauses: seq<real>, maxRetries: nat, base: real, cap: real)
    requires Course(sends, maxRetries + 1) && Paused(sends, pauses, base, cap) && base >= 0.0 && cap > 0.0
    ensures Total(pauses) <= maxRetries as real * cap
  {
    forall i | 0 <= i < |pauses| ensures 0.0 <= pauses[i] <= cap {
      assert PausedFor(sends[i], i, base, cap, pauses[i]);
      var wall :| pauses[i] == Pause(sends[i], i, base, cap, wall);
      PauseIsCapped(sends[i], i, base, cap, wall);
    }
    TotalIsCapped(pauses, cap);
    TimesOrder(|pauses|, maxRetries, cap);
    TimesIsProduct(maxRetries, cap);
  }

  // ----- spacing -----

  predicate Spaced(times: seq<real>, interval: real) {
    forall i :: 0 <= i < |times| - 1 ==> times[i] + interval <= times[i + 1]
  }

  lemma {:induction false} SpacedApart(times: seq<real>, interval: real, i: nat, j: nat)
    requires Spaced(times, interval) && i <= j < |times|
    ensures times[i] + Times(j - i, interval) <= times[j]
    decreases j
  {
    if i < j {
      SpacedApart(times, interval, i, j - 1);
    }
  }

  predicate Within(x: real, lo: real, hi: real) { lo <= x < hi }

  /** How many of the first `n` times lie in the window. */
  function CountWithin(times: seq<real>, lo: real, hi: real, n: nat): nat
    requires n <= |times|
  {
    if n == 0 then 0 else CountWithin(times, lo, hi, n - 1) + if Within(times[n - 1], lo, hi) then 1 else 0
  }

  lemma {:induction false} CountSpans(times: seq<real>, lo: real, hi: real, n: nat) returns (i: nat, j: nat)
    requires n <= |times| && CountWithin(times, lo, hi, n) > 0
    ensures i <= j < n && Within(times[i], lo, hi) && Within(times[j], lo, hi)
    ensures j - i + 1 >= CountWithin(times, lo, hi, n)
  {
    if Within(times[n - 1], lo, hi) {
      i, j := n - 1, n - 1;
      if CountWithin(times, lo, hi, n - 1) > 0 {
        i, j := CountSpans(times, lo, hi, n - 1);
        j := n - 1;
      }
    } else {
      i, j := CountSpans(times, lo, hi, n - 1);
    }
  }

  /** Any half-open window of `n` intervals holds at most `n` requests. */
  lemma WindowHoldsFew(times: seq<real>, interval: real, lo: real, n: nat)
    requires interval > 0.0 && Spaced(times, interval)
    ensures CountWithin(times, lo, lo + n as real * interval, |times|) <= n
  {
    var hi := lo + n as real * interval;
    if CountWithin(times, lo, hi, |times|) > n {
      var i, j := CountSpans(times, lo, hi, |times|);
      SpacedApart(times, interval, i, j);
      TimesOrder(n, j - i, interval);
      TimesIsProduct(n, interval);
    }
  }

  // ----- the client -----

  function Lower(c: char): char { if 'A' <= c <= 'Z' then (c as int + 32) as char else c }

  function Folded(s: string): string { if s == "" then "" else [Lower(s[0])] + Folded(s[1..]) }

  predicate Blank(s: string) { forall c :: c in s ==> c in " \t\n\r" }

  const RESERVED: set<string> := {"user-agent", "accept", "accept-encoding", "host"}

  predicate BadHeader(name: string, value: string) {
    || Blank(name) || Folded(name) in RESERVED
    || '\r' in name || '\n' in name || '\r' in value || '\n' in value
  }

  predicate GoodHeaders(headers: seq<(string, string)>) {
    forall i :: 0 <= i < |headers| ==> !BadHeader(headers[i].0, headers[i].1)
  }

  class ProviderHTTPClient {
    const world: World
    const maxRetries: nat
    const minimumInterval: real
    const backoffBase: real
    const maxBackoff: real

    var lastRequestAt: Option<real>
    var requestCount: nat
    var retryCount: nat

    /** The recorded request times, the replies, the backoff pauses and the calls that reached the loop. */
    ghost var times: seq<real>
    ghost var sends: seq<Sent>
    ghost var pauses: seq<real>
    ghost var calls: nat

    /** Between any two requests. */
    ghost predicate Governed()
      reads this, world
    {
      && minimumInterval > 0.0 && backoffBase >= 0.0 && maxBackoff > 0.0
      && Spaced(times, minimumInterval)
      && lastRequestAt == (if times == [] then None else Some(times[|times| - 1]))
      && (times != [] ==> times[|times| - 1] <= world.now)
      && requestCount == |times| == |sends|
      && Capped(pauses, maxBackoff)
    }

    /** Between any two calls. */
    ghost predicate Valid()
      reads this, world
    {
      && Governed()
      && requestCount == retryCount + calls
      && |pauses| == retryCount
    }

    constructor (world: World, maxRetries: nat, requestsPerSecond: real, backoffBase: real, maxBackoff: real)
      requires requestsPerSecond > 0.0 && backoffBase >= 0.0 && maxBackoff > 0.0
      ensures Valid() && this.world == world && this.maxRetries == maxRetries
      ensures minimumInterval * requestsPerSecond == 1.0
      ensures times == [] && sends == [] && pauses == [] && calls == 0
    {
      this.world, this.maxRetries := world, maxRetries;
      this.minimumInterval := 1.0 / requestsPerSecond;
      this.backoffBase, this.maxBackoff := backoffBase, maxBackoff;
      lastRequestAt, requestCount, retryCount := None, 0, 0;
      times, sends, pauses, calls := [], [], [], 0;
    }

    method WaitForRateLimit()
      requires minimumInterval > 0.0 && Spaced(times, minimumInterval)
      requires lastRequestAt == (if times == [] then None else Some(times[|times| - 1]))
      modifies this`lastRequestAt, this`times, world
      ensures lastRequestAt == Some(world.now) && times == old(times) + [world.now]
      ensures world.now >= old(world.now) && Spaced(times, minimumInterval)
    {
      var now := world.Clock();
      match lastRequestAt {
        case None =>
        case Some(last) =>
          var wait := last + minimumInterval - now;
          if wait > 0.0 {
            world.Elapse(wait);
            now := world.Clock();
          }
      }
      lastRequestAt := Some(now);
      times := times + [now];
    }

    method SleepBeforeRetry(attempt: nat, sent: Sent) returns (ghost pause: real)
      requires Governed()
      modifies this`pauses, world
      ensures Governed() && pauses == old(pauses) + [pause]
      ensures PausedFor(sent, attempt, backoffBase, maxBackoff, pause)
      ensures world.now >= old(world.now) + pause
    {
      var wall := world.WallClock();
      var delay := Pause(sent, attempt, backoffBase, maxBackoff, wall);
      PauseIsCapped(sent, attempt, backoffBase, maxBackoff, wall);
      world.Elapse(delay);
      pause := delay;
      pauses := pauses + [pause];
    }

    /** One physical request: the rate limit, the counters, the send. */
    method Attempt(attempt: nat) returns (sent: Sent)
      requires Governed()
      modifies this`lastRequestAt, this`times, this`requestCount, this`retryCount, this`sends, world
      ensures Governed() && world.now >= old(world.now)
      ensures Extends(old(times), times) && sends == old(sends) + [sent]
      ensures retryCount == old(retryCount) + if attempt > 0 then 1 else 0
    {
      WaitForRateLimit();
      requestCount := requestCount + 1;
      if attempt > 0 {
        retryCount := retryCount + 1;
      }
      sent := world.Send();
      sends := sends + [sent];
    }

    /** The bounded loop: `mine` are the call's sends so far, `waits` its pauses. */
    method SendWithRetries() returns (r: Result<string, HttpError>, ghost mine: seq<Sent>, ghost waits: seq<real>)
      requires Valid()
      modifies this, world
      ensures Valid() && Extends(old(times), times) && calls == old(calls) + 1
      ensures sends == old(sends) + mine && pauses == old(pauses) + waits
      ensures Course(mine, maxRetries + 1) && r == Answer(mine[|mine| - 1], maxRetries + 1)
      ensures Paused(mine, waits, backoffBase, maxBackoff)
    {
      mine, waits := [], [];
      calls := calls + 1;
      var attempts := maxRetries + 1;
      var attempt := 0;
      while attempt < attempts
        invariant attempt < attempts && Governed() && calls == old(calls) + 1 && Extends(old(times), times)
        invariant sends == old(sends) + mine && pauses == old(pauses) + waits
        invariant |mine| == |waits| == attempt
        invariant retryCount == old(retryCount) + if attempt == 0 then 0 else attempt - 1
        invariant AllRetryable(mine) && Matched(mine, waits, attempt, backoffBase, maxBackoff)
      {
        var sent := Attempt(attempt);
        CourseEnds(mine, sent, attempts);
        MatchedMore(mine, waits, attempt, backoffBase, maxBackoff, sent);
        ConcatAssociative(old(sends), mine, [sent]);
        mine := mine + [sent];
        if sent.TransportFailure? {
          if attempt + 1 == attempts {
            return Err(Unavailable(attempts)), mine, waits;
          }
        } else {
          if 200 <= sent.status < 300 {
            return match sent.text case Some(t) => Ok(t) case None => Err(DecodingFailed), mine, waits;
          }
          if sent.status !in RETRYABLE || attempt + 1 == attempts {
            return Err(BadStatus(sent.status, match sent.text case Some(t) => t case None => "")), mine, waits;
          }
        }
        ghost var pause := SleepBeforeRetry(attempt, sent);
        MatchedPause(mine, waits, attempt, backoffBase, maxBackoff, pause);
        ConcatAssociative(old(pauses), waits, [pause]);
        waits := waits + [pause];
        attempt := attempt + 1;
      }
      assert false;
      r := Err(InsecureUrl);
    }

    /**
     A call either refuses its arguments without sending, or makes one to `maxRetries + 1` sends of
     which all but the last were retryable, pauses in between, and answers for the last.
     */
    method GetText(url: string, headers: seq<(string, string)>) returns (r: Result<string, HttpError>)
      requires Valid()
      modifies this, world
      ensures Valid() && Extends(old(times), times) && Extends(old(sends), sends) && Extends(old(pauses), pauses)
      ensures !("https://" <= url) ==> r == Err(InsecureUrl)
      ensures "https://" <= url && !GoodHeaders(headers) ==> r == Err(InvalidHeader)
      ensures !("https://" <= url && GoodHeaders(headers)) ==>
                sends == old(sends) && pauses == old(pauses) && calls == old(calls)
      ensures "https://" <= url && GoodHeaders(headers) ==>
                && calls == old(calls) + 1
                && Course(sends[|old(sends)|..], maxRetries + 1)
                && r == Answer(sends[|sends| - 1], maxRetries + 1)
                && Paused(sends[|old(sends)|..], pauses[|old(pauses)|..], backoffBase, maxBackoff)
    {
      if !("https://" <= url) {
        return Err(InsecureUrl);
      }
      if !GoodHeaders(headers) {
        return Err(InvalidHeader);
      }
      ghost var mine, waits;
      r, mine, waits := SendWithRetries();
      assert sends[|old(sends)|..] == mine && pauses[|old(pauses)|..] == waits;
    }

    /** The request ceiling, over everything the client ever sent. */
    lemma RateCeiling(lo: real, n: nat)
      requires Valid()
      ensures CountWithin(times, lo, lo + n as real * minimumInterval, |times|) <= n
    {
      WindowHoldsFew(times, minimumInterval, lo, n);
    }
  }
}
