/**
  The sliding-window rate limiter of backend/app/core/ratelimit.py: for every
  client address, the times of its recent admitted requests. A request is
  admitted when fewer than `limit` of them lie inside the window ending now.
  The clock is an integer in microseconds.
*/
module RateLimit {
  import opened JsonValue
  import opened Http
  import opened Wrappers

  const TicketLimit := 5
  const TicketWindowSeconds := 3600
  const MessageLimit := 20
  const MessageWindowSeconds := 60

  /** The times still inside the window ending at `now`, in their order. */
  function Prune(ts: seq<int>, now: int, windowSeconds: int): (r: seq<int>)
    ensures |r| <= |ts|
  {
    if ts == [] then []
    else
      var init := Prune(ts[..|ts| - 1], now, windowSeconds);
      var t := ts[|ts| - 1];
      if now - t < windowSeconds * MicrosPerSecond then init + [t] else init
  }

  /** Exactly the times younger than the window survive. */
  lemma {:induction false} PruneMembers(ts: seq<int>, now: int, windowSeconds: int)
    ensures forall t :: t in Prune(ts, now, windowSeconds) <==> t in ts && now - t < windowSeconds * MicrosPerSecond
  {
    if ts != [] {
      PruneMembers(ts[..|ts| - 1], now, windowSeconds);
      assert ts == ts[..|ts| - 1] + [ts[|ts| - 1]];
    }
  }

  function History(m: map<string, seq<int>>, ip: string): seq<int> {
    if ip in m then m[ip] else []
  }

  datatype Decision = Decision(allowed: bool, requests: map<string, seq<int>>)

  /** `is_allowed(ip, limit, window_seconds)` at clock reading `now`. */
  function Admit(m: map<string, seq<int>>, ip: string, limit: int, windowSeconds: int, now: int): (d: Decision)
    ensures ip in d.requests
    ensures var kept := Prune(History(m, ip), now, windowSeconds);
      && (d.allowed <==> |kept| < limit)
      && d.requests[ip] == if d.allowed then kept + [now] else kept
  {
    var kept := Prune(History(m, ip), now, windowSeconds);
    if |kept| >= limit then Decision(false, m[ip := kept])
    else Decision(true, m[ip := kept + [now]])
  }

  /** Every other address keeps its history untouched. */
  lemma AdmitLeavesOthers(m: map<string, seq<int>>, ip: string, limit: int, windowSeconds: int, now: int, other: string)
    requires other != ip
    ensures var d := Admit(m, ip, limit, windowSeconds, now);
      (other in d.requests <==> other in m) && History(d.requests, other) == History(m, other)
  {
  }

  /** No address ever holds more than `limit` recorded times. */
  ghost predicate Bounded(m: map<string, seq<int>>, limit: int) {
    forall ip :: ip in m ==> |m[ip]| <= limit
  }

  lemma AdmitKeepsBound(m: map<string, seq<int>>, ip: string, limit: int, windowSeconds: int, now: int)
    requires limit >= 0 && Bounded(m, limit)
    ensures Bounded(Admit(m, ip, limit, windowSeconds, now).requests, limit)
  {
  }

  /** Runs `is_allowed` for one address at each clock reading of `times`. */
  function Run(m: map<string, seq<int>>, ip: string, limit: int, windowSeconds: int, times: seq<int>): Decision
    ensures ip in m || times != [] ==> ip in Run(m, ip, limit, windowSeconds, times).requests
  {
    if times == [] then Decision(true, m)
    else
      var d := Run(m, ip, limit, windowSeconds, times[..|times| - 1]);
      Admit(d.requests, ip, limit, windowSeconds, times[|times| - 1])
  }

  predicate NonDecreasing(times: seq<int>) {
    forall i, j :: 0 <= i < j < |times| ==> times[i] <= times[j]
  }

  /** Every call comes less than one window after each earlier call. */
  predicate InOneWindow(times: seq<int>, windowSeconds: int)
    decreases |times|
  {
    times == [] ||
    (InOneWindow(times[..|times| - 1], windowSeconds)
     && forall i :: 0 <= i < |times| - 1 ==> times[|times| - 1] - times[i] < windowSeconds * MicrosPerSecond)
  }

  /** Non-decreasing times spanning less than one window lie in one window. */
  lemma {:induction false} SpanInOneWindow(times: seq<int>, windowSeconds: int)
    requires NonDecreasing(times)
    requires times != [] ==> times[|times| - 1] - times[0] < windowSeconds * MicrosPerSecond
    ensures InOneWindow(times, windowSeconds)
  {
    if times != [] {
      var init := times[..|times| - 1];
      assert NonDecreasing(init);
      if init != [] {
        assert init[|init| - 1] <= times[|times| - 1] && init[0] == times[0];
      }
      SpanInOneWindow(init, windowSeconds);
      forall i | 0 <= i < |times| - 1 ensures times[|times| - 1] - times[i] < windowSeconds * MicrosPerSecond {
        assert times[0] <= times[i];
      }
    }
  }

  /** Within one window, from an address with no history, the first `limit`
      calls are admitted and each records its time. */
  lemma {:induction false} BurstAdmitted(m: map<string, seq<int>>, ip: string, limit: int, windowSeconds: int, times: seq<int>)
    requires ip !in m && InOneWindow(times, windowSeconds) && |times| <= limit
    ensures times != [] ==> Run(m, ip, limit, windowSeconds, times).allowed
    ensures History(Run(m, ip, limit, windowSeconds, times).requests, ip) == times
  {
    if times != [] {
      var init := times[..|times| - 1];
      var now := times[|times| - 1];
      BurstAdmitted(m, ip, limit, windowSeconds, init);
      var d := Run(m, ip, limit, windowSeconds, init);
      AdmitRecent(d.requests, ip, limit, windowSeconds, init, now);
      assert times == init + [now];
    }
  }

  /** A call whose recorded history lies inside the window and is below the
      limit is admitted and appended. */
  lemma AdmitRecent(m: map<string, seq<int>>, ip: string, limit: int, windowSeconds: int, h: seq<int>, now: int)
    requires History(m, ip) == h && |h| < limit
    requires forall i :: 0 <= i < |h| ==> now - h[i] < windowSeconds * MicrosPerSecond
    ensures Admit(m, ip, limit, windowSeconds, now).allowed
    ensures History(Admit(m, ip, limit, windowSeconds, now).requests, ip) == h + [now]
  {
    PruneAllRecent(h, now, windowSeconds);
  }

  /** Times no older than the window are all kept. */
  lemma {:induction false} PruneAllRecent(ts: seq<int>, now: int, windowSeconds: int)
    requires forall i :: 0 <= i < |ts| ==> now - ts[i] < windowSeconds * MicrosPerSecond
    ensures Prune(ts, now, windowSeconds) == ts
  {
    if ts != [] {
      PruneAllRecent(ts[..|ts| - 1], now, windowSeconds);
    }
  }

  /** The `limit + 1`-th call inside one window is refused, and not recorded. */
  lemma BurstThenRefused(m: map<string, seq<int>>, ip: string, limit: int, windowSeconds: int, times: seq<int>)
    requires ip !in m && InOneWindow(times, windowSeconds) && |times| == limit + 1 && limit >= 0
    ensures !Run(m, ip, limit, windowSeconds, times).allowed
    ensures History(Run(m, ip, limit, windowSeconds, times).requests, ip) == times[..limit]
  {
    var init := times[..limit];
    BurstAdmitted(m, ip, limit, windowSeconds, init);
    PruneAllRecent(init, times[limit], windowSeconds);
  }

  /** With the ticket limit, five creations in an hour pass and the sixth is refused. */
  lemma SixthTicketRefused(ip: string, times: seq<int>)
    requires NonDecreasing(times) && |times| == 6
    requires times[5] - times[0] < TicketWindowSeconds * MicrosPerSecond
    ensures forall k :: 1 <= k <= 5 ==> Run(map[], ip, TicketLimit, TicketWindowSeconds, times[..k]).allowed
    ensures !Run(map[], ip, TicketLimit, TicketWindowSeconds, times).allowed
  {
    forall k | 1 <= k <= 5 ensures Run(map[], ip, TicketLimit, TicketWindowSeconds, times[..k]).allowed {
      var p := times[..k];
      assert NonDecreasing(p) && p[k - 1] <= times[5] && p[0] == times[0];
      SpanInOneWindow(p, TicketWindowSeconds);
      BurstAdmitted(map[], ip, TicketLimit, TicketWindowSeconds, p);
    }
    SpanInOneWindow(times, TicketWindowSeconds);
    BurstThenRefused(map[], ip, TicketLimit, TicketWindowSeconds, times);
  }

  class RateLimiter {
    var requests: map<string, seq<int>>

    constructor ()
      ensures requests == map[]
    {
      requests := map[];
    }

    method IsAllowed(ip: string, limit: int, windowSeconds: int, now: int) returns (allowed: bool)
      modifies this
      ensures Decision(allowed, requests) == Admit(old(requests), ip, limit, windowSeconds, now)
    {
      var history := if ip in requests then requests[ip] else [];
      requests := requests[ip := Prune(history, now, windowSeconds)];
      if |requests[ip]| >= limit {
        return false;
      }
      requests := requests[ip := requests[ip] + [now]];
      return true;
    }
  }

  /** `check_ticket_rate_limit`: 429 past five tickets an hour. */
  method CheckTicketRateLimit(limiter: RateLimiter, ip: string, now: int) returns (r: Option<HttpError>)
    modifies limiter
    ensures var d := Admit(old(limiter.requests), ip, TicketLimit, TicketWindowSeconds, now);
      limiter.requests == d.requests
      && r == if d.allowed then None
              else Some(HttpError(429, JStr("Trop de tickets créés. Veuillez patienter avant d'en créer un nouveau.")))
  {
    var ok := limiter.IsAllowed(ip, TicketLimit, TicketWindowSeconds, now);
    r := if ok then None
         else Some(HttpError(429, JStr("Trop de tickets créés. Veuillez patienter avant d'en créer un nouveau.")));
  }

  /** `check_message_rate_limit`: 429 past twenty messages a minute. */
  method CheckMessageRateLimit(limiter: RateLimiter, ip: string, now: int) returns (r: Option<HttpError>)
    modifies limiter
    ensures var d := Admit(old(limiter.requests), ip, MessageLimit, MessageWindowSeconds, now);
      limiter.requests == d.requests
      && r == if d.allowed then None
              else Some(HttpError(429, JStr("Vous envoyez des messages trop vite. Veuillez ralentir.")))
  {
    var ok := limiter.IsAllowed(ip, MessageLimit, MessageWindowSeconds, now);
    r := if ok then None else Some(HttpError(429, JStr("Vous envoyez des messages trop vite. Veuillez ralentir.")));
  }
}
