/** The per-user sliding-window rate limiter, and what it guarantees over whole runs. */
module RateLimiting {
  import opened Results
  import opened Wrappers

  datatype Limit = Limit(maxRequests: nat, window: nat)

  datatype GuardrailError = RateLimited

  /** The requests that are still inside the window at `now`. */
  function Recent(requests: seq<int>, now: int, window: nat): seq<int> {
    if requests == [] then []
    else (if now - requests[0] < window then [requests[0]] else []) + Recent(requests[1..], now, window)
  }

  predicate Allows(limit: Limit, requests: seq<int>, now: int) {
    |Recent(requests, now, limit.window)| < limit.maxRequests
  }

  function Checked(limit: Limit, requests: seq<int>, now: int): seq<int> {
    Recent(requests, now, limit.window) + if Allows(limit, requests, now) then [now] else []
  }

  function RequestsOf(limits: map<string, seq<int>>, user: string): seq<int> {
    if user in limits then limits[user] else []
  }

  lemma {:induction false} RecentAppend(a: seq<int>, b: seq<int>, now: int, window: nat)
    ensures Recent(a + b, now, window) == Recent(a, now, window) + Recent(b, now, window)
  {
    if a == [] {
      assert a + b == b;
    } else {
      RecentAppend(a[1..], b, now, window);
      assert (a + b)[1..] == a[1..] + b && (a + b)[0] == a[0];
      var first := if now - a[0] < window then [a[0]] else [];
      Associates(first, Recent(a[1..], now, window), Recent(b, now, window));
    }
  }

  class RateLimiter {
    const limit: Limit
    var limits: map<string, seq<int>>

    constructor (limit: Limit)
      ensures this.limit == limit && limits == map[]
    {
      this.limit := limit;
      limits := map[];
    }

    /** A refusal still drops what has left the window; other users keep theirs. */
    method Check(user: string, now: int) returns (r: Result<(), GuardrailError>)
      modifies this
      ensures limits == old(limits)[user := Checked(limit, RequestsOf(old(limits), user), now)]
      ensures r.Ok? <==> Allows(limit, RequestsOf(old(limits), user), now)
    {
      var requests := RequestsOf(limits, user);
      var kept := [];
      for i := 0 to |requests|
        invariant limits == old(limits) && kept == Recent(requests[..i], now, limit.window)
      {
        RecentAppend(requests[..i], [requests[i]], now, limit.window);
        assert requests[..i + 1] == requests[..i] + [requests[i]];
        if now - requests[i] < limit.window { kept := kept + [requests[i]]; }
      }
      assert requests[..|requests|] == requests;
      if |kept| >= limit.maxRequests {
        assert Recent(requests, now, limit.window) + [] == kept;
        limits := limits[user := kept];
        return Err(RateLimited);
      }
      limits := limits[user := kept + [now]];
      return Ok(());
    }
  }

  // ---- whole runs ----

  datatype Request = Request(user: string, at: int)

  function Run(limit: Limit, requests: seq<Request>): map<string, seq<int>> {
    if requests == [] then map[]
    else
      var before, last := Run(limit, requests[..|requests| - 1]), requests[|requests| - 1];
      before[last.user := Checked(limit, RequestsOf(before, last.user), last.at)]
  }

  /** The limiter's answer to one more request. */
  predicate Accepts(limit: Limit, requests: seq<Request>, next: Request) {
    Allows(limit, RequestsOf(Run(limit, requests), next.user), next.at)
  }

  /** When this user's requests were accepted. */
  function Accepted(limit: Limit, requests: seq<Request>, user: string): seq<int> {
    if requests == [] then []
    else
      var before, last := requests[..|requests| - 1], requests[|requests| - 1];
      Accepted(limit, before, user) + if last.user == user && Accepts(limit, before, last) then [last.at] else []
  }

  ghost predicate InOrder(requests: seq<Request>) {
    forall i, j | 0 <= i < j < |requests| :: requests[i].at <= requests[j].at
  }

  /** How many of these times fall into [from, from + window). */
  function CountWithin(times: seq<int>, from: int, window: nat): nat {
    if times == [] then 0
    else CountWithin(times[..|times| - 1], from, window) + if from <= times[|times| - 1] < from + window then 1 else 0
  }

  /** Dropping what was outside an earlier window does not matter later. */
  lemma {:induction false} RecentOfRecent(times: seq<int>, earlier: int, now: int, window: nat)
    requires earlier <= now
    ensures Recent(Recent(times, earlier, window), now, window) == Recent(times, now, window)
  {
    if times != [] {
      var first := if earlier - times[0] < window then [times[0]] else [];
      RecentOfRecent(times[1..], earlier, now, window);
      RecentAppend(first, Recent(times[1..], earlier, window), now, window);
    }
  }

  lemma {:induction false} AcceptedInThePast(limit: Limit, requests: seq<Request>, user: string, now: int)
    requires forall i | 0 <= i < |requests| :: requests[i].at <= now
    ensures forall i | 0 <= i < |Accepted(limit, requests, user)| :: Accepted(limit, requests, user)[i] <= now
  {
    if requests != [] { AcceptedInThePast(limit, requests[..|requests| - 1], user, now); }
  }

  /** One check: what is remembered of a history is remembered of it with the request added. */
  lemma {:induction false} CheckRemembers(limit: Limit, had: seq<int>, times: seq<int>, at: int, now: int)
    requires at <= now && Recent(had, at, limit.window) == Recent(times, at, limit.window)
    ensures Recent(Checked(limit, had, at), now, limit.window)
      == Recent(times + if Allows(limit, had, at) then [at] else [], now, limit.window)
  {
    var added := if Allows(limit, had, at) then [at] else [];
    RecentAppend(Recent(had, at, limit.window), added, now, limit.window);
    RecentAppend(times, added, now, limit.window);
    RecentOfRecent(had, at, now, limit.window);
    RecentOfRecent(times, at, now, limit.window);
  }

  /** The limiter remembers exactly the accepted requests that were inside the window
      when it was last asked by that user. */
  lemma {:induction false} RemembersTheWindow(limit: Limit, requests: seq<Request>, user: string, now: int)
    requires InOrder(requests) && forall i | 0 <= i < |requests| :: requests[i].at <= now
    ensures Recent(RequestsOf(Run(limit, requests), user), now, limit.window)
      == Recent(Accepted(limit, requests, user), now, limit.window)
  {
    if requests != [] {
      var before, last := requests[..|requests| - 1], requests[|requests| - 1];
      if last.user == user {
        RemembersTheWindow(limit, before, user, last.at);
        CheckRemembers(limit, RequestsOf(Run(limit, before), user), Accepted(limit, before, user), last.at, now);
      } else {
        RemembersTheWindow(limit, before, user, now);
        assert Accepted(limit, before, user) + [] == Accepted(limit, before, user);
      }
    }
  }

  lemma {:induction false} CountIsRecent(times: seq<int>, now: int, window: nat)
    requires forall i | 0 <= i < |times| :: times[i] <= now
    ensures |Recent(times, now, window)| == CountWithin(times, now - window + 1, window)
  {
    if times != [] {
      var init, last := times[..|times| - 1], times[|times| - 1];
      CountIsRecent(init, now, window);
      RecentAppend(init, [last], now, window);
      assert times == init + [last];
    }
  }

  lemma {:induction false} CountBelow(times: seq<int>, from: int, now: int, window: nat)
    requires forall i | 0 <= i < |times| :: times[i] <= now
    requires from <= now < from + window
    ensures CountWithin(times, from, window) <= CountWithin(times, now - window + 1, window)
  {
    if times != [] {
      CountBelow(times[..|times| - 1], from, now, window);
    }
  }

  /** A request is refused exactly when the maximum was already accepted within the
      window that ends with it. */
  lemma {:induction false} RefusedExactlyWhenTheWindowIsFull(limit: Limit, requests: seq<Request>, next: Request)
    requires InOrder(requests + [next])
    ensures !Accepts(limit, requests, next)
      <==> CountWithin(Accepted(limit, requests, next.user), next.at - limit.window + 1, limit.window)
             >= limit.maxRequests
  {
    Prefix(requests, next);
    RemembersTheWindow(limit, requests, next.user, next.at);
    AcceptedInThePast(limit, requests, next.user, next.at);
    CountIsRecent(Accepted(limit, requests, next.user), next.at, limit.window);
  }

  lemma Prefix(requests: seq<Request>, next: Request)
    requires InOrder(requests + [next])
    ensures InOrder(requests) && forall i | 0 <= i < |requests| :: requests[i].at <= next.at
  {
    var all := requests + [next];
    forall i, j | 0 <= i < j < |requests| ensures requests[i].at <= requests[j].at {
      assert all[i] == requests[i] && all[j] == requests[j];
    }
    forall i | 0 <= i < |requests| ensures requests[i].at <= next.at {
      assert all[i] == requests[i] && all[|requests|] == next;
    }
  }

  /** The sliding window: wherever an interval of the window's length starts, a user
      has at most the maximum of requests accepted in it. */
  lemma {:induction false} SlidingWindow(limit: Limit, requests: seq<Request>, user: string, from: int)
    requires InOrder(requests)
    ensures CountWithin(Accepted(limit, requests, user), from, limit.window) <= limit.maxRequests
  {
    if requests != [] {
      var before, last := requests[..|requests| - 1], requests[|requests| - 1];
      assert requests == before + [last];
      SlidingWindow(limit, before, user, from);
      if last.user == user && Accepts(limit, before, last) {
        OneMore(limit, before, last, from);
      } else {
        assert Accepted(limit, before, user) + [] == Accepted(limit, before, user);
      }
    }
  }

  lemma {:induction false} OneMore(limit: Limit, before: seq<Request>, last: Request, from: int)
    requires InOrder(before + [last]) && Accepts(limit, before, last)
    requires CountWithin(Accepted(limit, before, last.user), from, limit.window) <= limit.maxRequests
    ensures CountWithin(Accepted(limit, before, last.user) + [last.at], from, limit.window) <= limit.maxRequests
  {
    RefusedExactlyWhenTheWindowIsFull(limit, before, last);
    Prefix(before, last);
    AcceptedInThePast(limit, before, last.user, last.at);
    FitsIn(Accepted(limit, before, last.user), last.at, from, limit.window, limit.maxRequests);
  }

  lemma FitsIn(times: seq<int>, at: int, from: int, window: nat, most: nat)
    requires forall i | 0 <= i < |times| :: times[i] <= at
    requires CountWithin(times, at - window + 1, window) < most && CountWithin(times, from, window) <= most
    ensures CountWithin(times + [at], from, window) <= most
  {
    assert (times + [at])[..|times|] == times;
    if from <= at < from + window { CountBelow(times, from, at, window); }
  }
}
