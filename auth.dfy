/** The authentication middleware: bearer-token extraction, the role and verification
    gates, and the sliding-window rate limiter whose closure keeps a map from client key
    to the timestamps of its accepted requests. */
module AuthMiddleware {
  import opened Common

  /** The fields of a user record the middleware reads. */
  datatype AuthUser = AuthUser(id: string, role: string, isActive: bool, isVerified: bool)

  /** What a middleware does with a request: hand it on, or answer with a status. */
  datatype Gate = Pass | Deny(status: nat)

  const Unauthorized: nat := 401
  const Forbidden: nat := 403
  const TooManyRequests: nat := 429

  // ---------------------------------------------------------------------------
  // Bearer tokens

  function IndexOfSpace(s: string): (k: nat)
    requires ' ' in s
    ensures k < |s| && s[k] == ' ' && ' ' !in s[..k]
  {
    if s[0] == ' ' then 0
    else
      assert s == [s[0]] + s[1..];
      var k := IndexOfSpace(s[1..]);
      assert s[..k + 1] == [s[0]] + s[1..][..k];
      k + 1
  }

  /** `s.split(' ')`: the fields between single spaces, empty ones included. */
  function Split(s: string): (fields: seq<string>)
    ensures |fields| >= 1
    ensures forall i :: 0 <= i < |fields| ==> ' ' !in fields[i]
    ensures Join(fields) == s
    decreases |s|
  {
    if ' ' !in s then [s]
    else
      var k := IndexOfSpace(s);
      assert s == s[..k] + " " + s[k + 1..];
      [s[..k]] + Split(s[k + 1..])
  }

  /** `fields.join(' ')`. */
  function Join(fields: seq<string>): string
    requires |fields| >= 1
  {
    if |fields| == 1 then fields[0] else fields[0] + " " + Join(fields[1..])
  }

  /** A field without a space, a space and the rest: the field comes first. */
  lemma SplitFirstField(f: string, rest: string)
    requires ' ' !in f
    ensures Split(f + " " + rest) == [f] + Split(rest)
  {
    var s := f + " " + rest;
    assert s[|f|] == ' ';
    assert s[..|f|] == f;
    assert IndexOfSpace(s) == |f|;
    assert s[|f| + 1..] == rest;
  }

  /** Splitting undoes joining fields that hold no space. */
  lemma {:induction false} SplitJoin(fields: seq<string>)
    requires |fields| >= 1 && forall i :: 0 <= i < |fields| ==> ' ' !in fields[i]
    ensures Split(Join(fields)) == fields
  {
    if |fields| > 1 {
      SplitFirstField(fields[0], Join(fields[1..]));
      SplitJoin(fields[1..]);
    }
  }

  const BearerPrefix: string := "Bearer"

  /** `authorization.startsWith('Bearer')` then `split(' ')[1]`. A missing header, another
      scheme, no second field, or an empty one (the falsy string) all give no token. */
  function BearerToken(authorization: Option<string>): (token: Option<string>)
    ensures token.Some? ==> token.value != [] && ' ' !in token.value
    ensures token.Some? ==> authorization.Some? && BearerPrefix <= authorization.value
  {
    if authorization.Some? && BearerPrefix <= authorization.value then
      var fields := Split(authorization.value);
      if |fields| >= 2 && fields[1] != [] then Some(fields[1]) else None
    else None
  }

  /** A header "Bearer <token>" gives back exactly the token. */
  lemma BearerTokenRoundTrip(token: string)
    requires token != [] && ' ' !in token
    ensures BearerToken(Some(BearerPrefix + " " + token)) == Some(token)
  {
    var header := BearerPrefix + " " + token;
    assert BearerPrefix <= header;
    assert Join([BearerPrefix, token]) == header;
    SplitJoin([BearerPrefix, token]);
  }

  /** A header holding only the scheme has no second field and is refused. */
  lemma BearerTokenMissing()
    ensures BearerToken(Some(BearerPrefix)) == None
  {
    assert Split(BearerPrefix) == [BearerPrefix];
  }

  /** Only the second field counts: with two spaces after the scheme it is empty and the
      header is refused, whatever follows. */
  lemma BearerTokenDoubleSpace(rest: string)
    ensures BearerToken(Some(BearerPrefix + "  " + rest)) == None
  {
    var header := BearerPrefix + "  " + rest;
    assert header == BearerPrefix + " " + (" " + rest);
    assert BearerPrefix <= header;
    SplitFirstField(BearerPrefix, " " + rest);
    assert " " + rest == [] + " " + rest;
    SplitFirstField([], rest);
  }

  /** Another scheme is refused. */
  lemma BearerTokenOtherScheme()
    ensures BearerToken(Some("Basic abc")) == None
  {
    assert "Basic abc"[1] != BearerPrefix[1];
  }

  /** `protect`: no token is refused first; verifying the token and loading its user is
      given as `resolve` (None when the signature, the expiry or the lookup fails); a
      deactivated account is refused too. Every refusal is a 401. */
  function Protect(authorization: Option<string>, resolve: string -> Option<AuthUser>): (r: Result<AuthUser, nat>)
    ensures r.Ok? <==> BearerToken(authorization).Some? && resolve(BearerToken(authorization).value).Some?
                        && resolve(BearerToken(authorization).value).value.isActive
    ensures r.Ok? ==> r.value == resolve(BearerToken(authorization).value).value
    ensures r.Err? ==> r.error == Unauthorized
  {
    var token := BearerToken(authorization);
    if token.None? then Err(Unauthorized)
    else
      var user := resolve(token.value);
      if user.None? || !user.value.isActive then Err(Unauthorized) else Ok(user.value)
  }

  /** `optionalAuth`: the request always goes on; it carries a user exactly when `protect`
      would have accepted the same header, and then the same user. */
  function OptionalAuth(authorization: Option<string>, resolve: string -> Option<AuthUser>): (user: Option<AuthUser>)
    ensures user.Some? <==> Protect(authorization, resolve).Ok?
    ensures user.Some? ==> user.value == Protect(authorization, resolve).value
  {
    var token := BearerToken(authorization);
    if token.Some? then
      var found := resolve(token.value);
      if found.Some? && found.value.isActive then found else None
    else None
  }

  // ---------------------------------------------------------------------------
  // Role and verification gates

  /** `authorize(...roles)`: 401 without an authenticated user, 403 for a role not listed. */
  function Authorize(user: Option<AuthUser>, roles: seq<string>): (g: Gate)
    ensures g == Pass <==> user.Some? && user.value.role in roles
    ensures user.None? ==> g == Deny(Unauthorized)
    ensures user.Some? && user.value.role !in roles ==> g == Deny(Forbidden)
  {
    if user.None? then Deny(Unauthorized)
    else if user.value.role !in roles then Deny(Forbidden)
    else Pass
  }

  /** Allowing more roles never turns a passing request away. */
  lemma AuthorizeMonotone(user: Option<AuthUser>, roles: seq<string>, more: seq<string>)
    requires forall r :: r in roles ==> r in more
    ensures Authorize(user, roles) == Pass ==> Authorize(user, more) == Pass
  {
  }

  /** `requireVerification`: 401 without a user, 403 for an unverified one. */
  function RequireVerification(user: Option<AuthUser>): (g: Gate)
    ensures g == Pass <==> user.Some? && user.value.isVerified
    ensures user.None? ==> g == Deny(Unauthorized)
    ensures user.Some? && !user.value.isVerified ==> g == Deny(Forbidden)
  {
    if user.None? then Deny(Unauthorized)
    else if !user.value.isVerified then Deny(Forbidden)
    else Pass
  }

  // ---------------------------------------------------------------------------
  // Sliding-window rate limiting

  /** The limiter's key: the user's id when authenticated, otherwise the address. */
  function ClientKey(user: Option<AuthUser>, ip: string): (key: string)
    ensures user.Some? ==> key == user.value.id
    ensures user.None? ==> key == ip
  {
    if user.Some? then user.value.id else ip
  }

  /** `times.filter(time => time > windowStart)`. */
  function Prune(times: seq<int>, windowStart: int): (kept: seq<int>)
    ensures |kept| <= |times|
    ensures forall t :: t in kept <==> t in times && t > windowStart
    ensures forall t :: multiset(kept)[t] == if t > windowStart then multiset(times)[t] else 0
  {
    if times == [] then []
    else
      assert times == [times[0]] + times[1..];
      (if times[0] > windowStart then [times[0]] else []) + Prune(times[1..], windowStart)
  }

  /** Pruning keeps the stored order: it distributes over concatenation. */
  lemma {:induction false} PruneAppend(a: seq<int>, b: seq<int>, windowStart: int)
    ensures Prune(a + b, windowStart) == Prune(a, windowStart) + Prune(b, windowStart)
  {
    if a == [] {
      assert a + b == b;
    } else {
      var t, rest := a[0], a[1..];
      var head := if t > windowStart then [t] else [];
      assert a == [t] + rest;
      assert a + b == [t] + (rest + b);
      calc {
        Prune(a + b, windowStart);
        { PruneCons(t, rest + b, windowStart); }
        head + Prune(rest + b, windowStart);
        { PruneAppend(rest, b, windowStart); }
        head + (Prune(rest, windowStart) + Prune(b, windowStart));
        (head + Prune(rest, windowStart)) + Prune(b, windowStart);
        { PruneCons(t, rest, windowStart); }
        Prune(a, windowStart) + Prune(b, windowStart);
      }
    }
  }

  lemma PruneCons(t: int, times: seq<int>, windowStart: int)
    ensures Prune([t] + times, windowStart) == (if t > windowStart then [t] else []) + Prune(times, windowStart)
  {
    assert ([t] + times)[0] == t && ([t] + times)[1..] == times;
  }

  /** The first kept timestamp, which `retryAfter` reads, is the first one inside the window. */
  lemma {:induction false} PruneOldest(times: seq<int>, windowStart: int, i: nat)
    requires i < |times| && times[i] > windowStart
    requires forall j :: 0 <= j < i ==> times[j] <= windowStart
    ensures Prune(times, windowStart) != [] && Prune(times, windowStart)[0] == times[i]
  {
    if i > 0 {
      PruneOldest(times[1..], windowStart, i - 1);
    }
  }

  /** `Math.ceil(x / d)` for a positive integer divisor. */
  function CeilDiv(x: int, d: int): (q: int)
    requires d > 0
    ensures (q - 1) * d < x <= q * d
  {
    -((-x) / d)
  }

  /** The answer to a request: through, or 429 with the message and the number of seconds
      until the oldest request in the window expires. With nothing in the window (a
      limit of zero or less) `currentRequests[0]` is undefined and so is the figure. */
  datatype Verdict = Allowed | Limited(message: string, retryAfter: Option<int>)

  const DefaultLimitMessage: string := "Too many requests. Please try again later."

  function Decide(recent: seq<int>, windowMs: int, max: int, message: Option<string>, now: int): (v: Verdict)
    ensures v == Allowed <==> |recent| < max
    ensures v.Limited? ==> v.message == (if message.Some? && message.value != [] then message.value else DefaultLimitMessage)
    ensures v.Limited? ==> (v.retryAfter.Some? <==> recent != [])
    ensures v.Limited? && recent != [] ==>
              (v.retryAfter.value - 1) * 1000 < recent[0] + windowMs - now <= v.retryAfter.value * 1000
  {
    if |recent| < max then Allowed
    else
      Limited(if message.Some? && message.value != [] then message.value else DefaultLimitMessage,
              if recent == [] then None else Some(CeilDiv(recent[0] + windowMs - now, 1000)))
  }

  /** The figure is at least one second: the oldest request kept is newer than the
      window's start. */
  lemma RetryAfterPositive(recent: seq<int>, windowMs: int, max: int, message: Option<string>, now: int)
    requires recent != [] && forall t :: t in recent ==> t > now - windowMs
    requires |recent| >= max
    ensures Decide(recent, windowMs, max, message, now).retryAfter.Some?
    ensures Decide(recent, windowMs, max, message, now).retryAfter.value >= 1
  {
    assert recent[0] in recent;
  }

  /** Once `max` requests fall inside the window, the next one is refused. */
  lemma FullWindowRefuses(times: seq<int>, windowMs: int, max: int, message: Option<string>, now: int)
    requires |times| >= max && forall t :: t in times ==> t > now - windowMs
    ensures Decide(Prune(times, now - windowMs), windowMs, max, message, now).Limited?
  {
    PruneKeepsRecent(times, now - windowMs);
  }

  lemma {:induction false} PruneKeepsRecent(times: seq<int>, windowStart: int)
    requires forall t :: t in times ==> t > windowStart
    ensures Prune(times, windowStart) == times
  {
    if times != [] {
      assert times[0] in times;
      assert forall t :: t in times[1..] ==> t in times;
      PruneKeepsRecent(times[1..], windowStart);
      assert times == [times[0]] + times[1..];
    }
  }

  lemma {:induction false} PruneDropsExpired(times: seq<int>, windowStart: int)
    requires forall t :: t in times ==> t <= windowStart
    ensures Prune(times, windowStart) == []
  {
    if times != [] {
      assert times[0] in times;
      assert forall t :: t in times[1..] ==> t in times;
      PruneDropsExpired(times[1..], windowStart);
    }
  }

  /** The list stored after a request: the pruned list, plus `now` when it is accepted. */
  lemma StoredListBounded(recent: seq<int>, windowMs: int, max: int, message: Option<string>, now: int)
    requires Decide(recent, windowMs, max, message, now) == Allowed
    ensures |recent + [now]| <= max
  {
  }

  /** `requests.get(key) || []` after the pruning step. */
  function InWindow(requests: map<string, seq<int>>, key: string, windowStart: int): (recent: seq<int>)
    ensures forall t :: t in recent ==> t > windowStart
    ensures key in requests ==> forall t :: t in requests[key] && t > windowStart ==> t in recent
    ensures key in requests ==> recent == Prune(requests[key], windowStart)
    ensures key !in requests ==> recent == []
  {
    if key in requests then Prune(requests[key], windowStart) else []
  }

  class RateLimiter {
    const windowMs: int
    const max: int
    const message: Option<string>
    /** The closure's `requests` map. */
    var requests: map<string, seq<int>>

    /** No key ever holds more than `max` timestamps. */
    predicate Valid()
      reads this
    {
      forall k :: k in requests ==> |requests[k]| <= max
    }

    /** `createRateLimit(windowMs, max, message)`: an empty map. */
    constructor (windowMs: int, max: int, message: Option<string>)
      ensures this.windowMs == windowMs && this.max == max && this.message == message
      ensures requests == map[] && Valid()
    {
      this.windowMs := windowMs;
      this.max := max;
      this.message := message;
      requests := map[];
    }

    /** The middleware body for one request from `key` at time `now`: the key's list is
        pruned to the window (when the key is known), then the request is refused if the
        window is full, and otherwise its time is appended. Other keys are untouched. */
    method Handle(key: string, now: int) returns (v: Verdict)
      requires Valid()
      modifies this`requests
      ensures Valid()
      ensures v == Decide(InWindow(old(requests), key, now - windowMs), windowMs, max, message, now)
      ensures v == Allowed ==> requests == old(requests)[key := InWindow(old(requests), key, now - windowMs) + [now]]
      ensures v.Limited? ==> requests == if key in old(requests) then old(requests)[key := InWindow(old(requests), key, now - windowMs)] else old(requests)
      ensures forall k :: k != key ==> (k in requests <==> k in old(requests))
      ensures forall k :: k != key && k in requests ==> requests[k] == old(requests)[k]
    {
      var windowStart := now - windowMs;
      if key in requests {
        requests := requests[key := Prune(requests[key], windowStart)];
      }
      var current := if key in requests then requests[key] else [];
      v := Decide(current, windowMs, max, message, now);
      if v.Limited? {
        return;
      }
      current := current + [now];
      requests := requests[key := current];
    }
  }

  const OtpWindowMs: int := 15 * 60 * 1000
  const OtpMax: int := 3
  const LoginWindowMs: int := 15 * 60 * 1000
  const LoginMax: int := 5
  const OrderWindowMs: int := 5 * 60 * 1000
  const OrderMax: int := 10

  const OtpMessage: string := "Too many OTP requests. Please wait 15 minutes before trying again."

  /** With three OTP requests stored at `start`, a fourth at the same time is refused for
      900 seconds, and one a full window later is let through. */
  lemma OtpLimitScenario(key: string, start: int)
    ensures var stored := map[key := [start, start, start]];
      && Decide(InWindow(stored, key, start - OtpWindowMs), OtpWindowMs, OtpMax, Some(OtpMessage), start)
           == Limited(OtpMessage, Some(900))
      && Decide(InWindow(stored, key, start), OtpWindowMs, OtpMax, Some(OtpMessage), start + OtpWindowMs)
           == Allowed
  {
    PruneKeepsRecent([start, start, start], start - OtpWindowMs);
    PruneDropsExpired([start, start, start], start);
  }
}
