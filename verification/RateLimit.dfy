/** A fixed-window rate limiter: one bucket a key, expired buckets removed on the way. */
module RateLimit {
  import opened Options

  datatype Bucket = Bucket(count: nat, resetAt: int)

  datatype Request = Request(key: string, limit: nat, windowMs: nat, now: int)

  type Buckets = map<string, Bucket>

  /** The key's bucket, unless its window is over. */
  function Live(m: Buckets, key: string, now: int): Option<Bucket> {
    if key in m && now <= m[key].resetAt then Some(m[key]) else None
  }

  /** What a request does to its key's live bucket, and whether it is allowed. */
  function Decide(b: Option<Bucket>, r: Request): (Bucket, bool) {
    if b.None? then (Bucket(1, r.now + r.windowMs), true)
    else if b.value.count >= r.limit then (b.value, false)
    else (b.value.(count := b.value.count + 1), true)
  }

  function Allowed(m: Buckets, r: Request): bool { Decide(Live(m, r.key, r.now), r).1 }

  function Counted(m: Buckets, r: Request): Buckets { m[r.key := Decide(Live(m, r.key, r.now), r).0] }

  function Cleaned(m: Buckets, now: int): Buckets { map k | k in m && now <= m[k].resetAt :: m[k] }

  class RateLimiter {
    var buckets: Buckets

    constructor ()
      ensures buckets == map[]
    {
      buckets := map[];
    }

    /** Decides on a request; a refused one learns in how many seconds to come back. */
    method Limit(r: Request) returns (allowed: bool, retryAfter: int)
      modifies this
      ensures allowed == Allowed(old(buckets), r)
      ensures buckets == Counted(Cleaned(old(buckets), r.now), r)
      ensures !allowed ==> retryAfter == RetryAfter(old(buckets)[r.key], r.now)
    {
      RemoveExpired(r.now);
      retryAfter := 0;
      if r.key !in buckets || r.now > buckets[r.key].resetAt {
        buckets := buckets[r.key := Bucket(1, r.now + r.windowMs)];
        return true, 0;
      }
      var bucket := buckets[r.key];
      if bucket.count >= r.limit {
        assert buckets[r.key := bucket] == buckets;
        return false, RetryAfter(bucket, r.now);
      }
      buckets := buckets[r.key := bucket.(count := bucket.count + 1)];
      allowed := true;
    }

    method RemoveExpired(now: int)
      modifies this
      ensures buckets == Cleaned(old(buckets), now)
    {
      var keys := buckets.Keys;
      while keys != {}
        invariant keys <= buckets.Keys <= old(buckets).Keys
        invariant forall k :: k in buckets ==> buckets[k] == old(buckets)[k]
        invariant forall k :: k in old(buckets) && k !in keys ==> (k in buckets <==> now <= old(buckets)[k].resetAt)
        decreases keys
      {
        var k :| k in keys;
        keys := keys - {k};
        if now > buckets[k].resetAt {
          buckets := map j | j in buckets && j != k :: buckets[j];
        }
      }
    }
  }

  // ---------------------------------------------------------------------------------------------
  // Runs

  /** The decisions on a run of requests: as made, with removal, and with all buckets kept. */
  function Decisions(m: Buckets, reqs: seq<Request>): (d: seq<bool>)
    ensures |d| == |reqs|
    decreases |reqs|
  {
    if reqs == [] then []
    else [Allowed(m, reqs[0])] + Decisions(Counted(Cleaned(m, reqs[0].now), reqs[0]), reqs[1..])
  }

  function KeptDecisions(m: Buckets, reqs: seq<Request>): (d: seq<bool>)
    ensures |d| == |reqs|
    decreases |reqs|
  {
    if reqs == [] then [] else [Allowed(m, reqs[0])] + KeptDecisions(Counted(m, reqs[0]), reqs[1..])
  }

  /** The clock does not go back. */
  ghost predicate Ordered(reqs: seq<Request>) { forall i, j | 0 <= i < j < |reqs| :: reqs[i].now <= reqs[j].now }

  ghost predicate SameLive(m: Buckets, n: Buckets, now: int) { forall k :: Live(m, k, now) == Live(n, k, now) }

  lemma SameLiveLater(m: Buckets, n: Buckets, r: Request, later: int)
    requires SameLive(m, n, r.now) && r.now <= later
    ensures SameLive(Counted(Cleaned(m, r.now), r), Counted(n, r), later)
  {
    forall k
      ensures Live(Counted(Cleaned(m, r.now), r), k, later) == Live(Counted(n, r), k, later)
    {
      assert Live(m, k, r.now) == Live(n, k, r.now) && Live(m, r.key, r.now) == Live(n, r.key, r.now);
    }
  }

  lemma {:induction false} SameDecisions(m: Buckets, n: Buckets, reqs: seq<Request>)
    requires Ordered(reqs) && (reqs != [] ==> SameLive(m, n, reqs[0].now))
    ensures Decisions(m, reqs) == KeptDecisions(n, reqs)
    decreases |reqs|
  {
    if reqs != [] {
      var r := reqs[0];
      assert Live(m, r.key, r.now) == Live(n, r.key, r.now);
      SameLiveLater(m, n, r, if |reqs| > 1 then reqs[1].now else r.now);
      SameDecisions(Counted(Cleaned(m, r.now), r), Counted(n, r), reqs[1..]);
    }
  }

  /** Removing expired buckets never changes a decision. */
  lemma CleanupIsInvisible(m: Buckets, reqs: seq<Request>)
    requires Ordered(reqs)
    ensures Decisions(m, reqs) == KeptDecisions(m, reqs)
  {
    SameDecisions(m, m, reqs);
  }

  /** With a clock that goes back it can: of two requests, removal at the first changes the decision on the
      second exactly when it removes a used-up bucket of another key that is live again for the second. */
  lemma CleanupShowsWhenClockGoesBack(m: Buckets, first: Request, second: Request)
    ensures Decisions(m, [first, second])[1] != KeptDecisions(m, [first, second])[1] <==>
            first.key != second.key && second.key in m && second.now <= m[second.key].resetAt < first.now &&
            m[second.key].count >= second.limit
  {
    var reqs, later := [first, second], [second];
    assert reqs[1..] == later;
    assert Decisions(m, reqs)[1] == Decisions(Counted(Cleaned(m, first.now), first), later)[0];
    assert KeptDecisions(m, reqs)[1] == KeptDecisions(Counted(m, first), later)[0];
  }

  // ---------------------------------------------------------------------------------------------
  // Bounds

  /** How many requests of `key` at times from `a` to `b` are allowed. */
  function AllowedIn(reqs: seq<Request>, decisions: seq<bool>, key: string, a: int, b: int): nat
    requires |decisions| == |reqs|
    decreases |reqs|
  {
    if reqs == [] then 0
    else (if decisions[0] && reqs[0].key == key && a <= reqs[0].now <= b then 1 else 0)
         + AllowedIn(reqs[1..], decisions[1..], key, a, b)
  }

  /** The key is always used with one limit and one window. */
  ghost predicate Steady(reqs: seq<Request>, key: string, limit: nat, windowMs: nat) {
    forall i | 0 <= i < |reqs| && reqs[i].key == key :: reqs[i].limit == limit && reqs[i].windowMs == windowMs
  }

  /** The first request of a window is allowed whatever the limit. */
  function Most(limit: nat): nat { if limit == 0 then 1 else limit }

  /** How many requests can still be allowed from `a` to `a + windowMs`. */
  function Room(m: Buckets, key: string, limit: nat, a: int, windowMs: nat): int {
    if key !in m || m[key].resetAt < a then 2 * Most(limit)
    else if m[key].resetAt < a + windowMs then 2 * Most(limit) - m[key].count
    else Most(limit) - m[key].count
  }

  ghost predicate Sane(m: Buckets, key: string, limit: nat) { key in m ==> 1 <= m[key].count <= Most(limit) }

  lemma {:induction false} NoneLater(reqs: seq<Request>, decisions: seq<bool>, key: string, a: int, b: int)
    requires |decisions| == |reqs| && forall i | 0 <= i < |reqs| :: reqs[i].now > b
    ensures AllowedIn(reqs, decisions, key, a, b) == 0
    decreases |reqs|
  {
    if reqs != [] {
      NoneLater(reqs[1..], decisions[1..], key, a, b);
    }
  }

  lemma CountedIsSane(m: Buckets, r: Request, key: string, limit: nat)
    requires Sane(m, key, limit) && (r.key == key ==> r.limit == limit)
    ensures Sane(Counted(m, r), key, limit)
  {
  }

  /** One request uses up the room it takes. */
  lemma RoomShrinks(m: Buckets, r: Request, key: string, limit: nat, a: int, windowMs: nat)
    requires Sane(m, key, limit) && r.now <= a + windowMs
    requires r.key == key ==> r.limit == limit && r.windowMs == windowMs
    ensures (if Allowed(m, r) && r.key == key && a <= r.now then 1 else 0) + Room(Counted(m, r), key, limit, a, windowMs)
         <= Room(m, key, limit, a, windowMs)
  {
  }

  lemma {:induction false} AllowedFitsRoom(m: Buckets, reqs: seq<Request>, key: string, limit: nat, windowMs: nat, a: int)
    requires Ordered(reqs) && Steady(reqs, key, limit, windowMs) && Sane(m, key, limit)
    ensures AllowedIn(reqs, KeptDecisions(m, reqs), key, a, a + windowMs) <= Room(m, key, limit, a, windowMs)
    decreases |reqs|
  {
    if reqs != [] {
      var r := reqs[0];
      if r.now > a + windowMs {
        NoneLater(reqs, KeptDecisions(m, reqs), key, a, a + windowMs);
      } else {
        CountedIsSane(m, r, key, limit);
        AllowedFitsRoom(Counted(m, r), reqs[1..], key, limit, windowMs, a);
        RoomShrinks(m, r, key, limit, a, windowMs);
        assert KeptDecisions(m, reqs)[1..] == KeptDecisions(Counted(m, r), reqs[1..]);
      }
    }
  }

  /** At most twice the limit in any closed interval as long as the window, whatever other keys do. */
  lemma TwiceTheLimit(reqs: seq<Request>, key: string, limit: nat, windowMs: nat, a: int)
    requires Ordered(reqs) && Steady(reqs, key, limit, windowMs)
    ensures AllowedIn(reqs, Decisions(map[], reqs), key, a, a + windowMs) <= 2 * Most(limit)
  {
    CleanupIsInvisible(map[], reqs);
    AllowedFitsRoom(map[], reqs, key, limit, windowMs, a);
  }

  function RequestsIn(reqs: seq<Request>, key: string, b: int): nat {
    if reqs == [] then 0 else (if reqs[0].key == key && reqs[0].now <= b then 1 else 0) + RequestsIn(reqs[1..], key, b)
  }

  /** Within a window exactly the first requests are allowed, up to the limit. */
  lemma {:induction false} WindowFillsUp(m: Buckets, reqs: seq<Request>, key: string, limit: nat, windowMs: nat, a: int)
    requires Ordered(reqs) && Steady(reqs, key, limit, windowMs) && Sane(m, key, limit) && key in m
    requires forall i | 0 <= i < |reqs| :: a <= reqs[i].now
    ensures AllowedIn(reqs, KeptDecisions(m, reqs), key, a, m[key].resetAt)
         == Least(Most(limit) - m[key].count, RequestsIn(reqs, key, m[key].resetAt))
    decreases |reqs|
  {
    if reqs != [] {
      var r := reqs[0];
      if r.now > m[key].resetAt {
        NoneLater(reqs, KeptDecisions(m, reqs), key, a, m[key].resetAt);
        NoRequests(reqs, key, m[key].resetAt);
      } else {
        WindowFillsUp(Counted(m, r), reqs[1..], key, limit, windowMs, a);
        assert KeptDecisions(m, reqs)[1..] == KeptDecisions(Counted(m, r), reqs[1..]);
      }
    }
  }

  function Least(x: int, y: int): int { if x <= y then x else y }

  lemma {:induction false} NoRequests(reqs: seq<Request>, key: string, b: int)
    requires forall i | 0 <= i < |reqs| :: reqs[i].now > b
    ensures RequestsIn(reqs, key, b) == 0
  {
    if reqs != [] {
      NoRequests(reqs[1..], key, b);
    }
  }

  /** A window that a request opens allows exactly the limit, or as many requests as there are. */
  lemma WindowAllowsTheLimit(m: Buckets, reqs: seq<Request>, key: string, limit: nat, windowMs: nat)
    requires Ordered(reqs) && Steady(reqs, key, limit, windowMs)
    requires reqs != [] && reqs[0].key == key && Live(m, key, reqs[0].now) == None
    ensures AllowedIn(reqs, Decisions(m, reqs), key, reqs[0].now, reqs[0].now + windowMs)
         == Least(Most(limit), RequestsIn(reqs, key, reqs[0].now + windowMs))
  {
    var r := reqs[0];
    CleanupIsInvisible(m, reqs);
    WindowFillsUp(Counted(m, r), reqs[1..], key, limit, windowMs, r.now);
    assert KeptDecisions(m, reqs)[1..] == KeptDecisions(Counted(m, r), reqs[1..]);
  }

  // ---------------------------------------------------------------------------------------------
  // When to come back

  function RetryAfter(b: Bucket, now: int): int { (b.resetAt - now + 999) / 1000 }

  /** A refused client that comes back after as many seconds as it was told is allowed, if nothing else
      happens, unless the window ends on exactly that millisecond. */
  lemma RetryAfterIsEnough(m: Buckets, r: Request, again: Request)
    requires !Allowed(m, r)
    requires again == r.(now := r.now + 1000 * RetryAfter(m[r.key], r.now))
    ensures Allowed(Counted(Cleaned(m, r.now), r), again) <==> (m[r.key].resetAt - r.now) % 1000 != 0
  {
  }

  // ---------------------------------------------------------------------------------------------
  // Which bucket

  /** `${ip}:${route}`, with its own bucket for reads where the route has one. */
  function BucketKey(ip: string, route: string, separateReads: bool): string {
    ip + ":" + route + (if separateReads then ":read" else "")
  }

  /** A key tells its client, its route and whether it is for reads: no two share a bucket. */
  lemma KeyTellsItsBucket(ip: string, route: string, reading: bool, ip2: string, route2: string, reading2: bool)
    requires ':' !in route && ':' !in route2 && route != "read" && route2 != "read"
    requires BucketKey(ip, route, reading) == BucketKey(ip2, route2, reading2)
    ensures ip == ip2 && route == route2 && reading == reading2
  {
    var key := BucketKey(ip, route, reading);
    if reading == reading2 {
      var tail := if reading then ":read" else "";
      var front := key[..|key| - |tail|];
      assert front == ip + ":" + route && front == ip2 + ":" + route2;
      LastColon(ip, route, ip2, route2);
    } else if reading {
      assert key == ip + ":" + route + ":" + "read";
      LastColon(ip + ":" + route, "read", ip2, route2);
    } else {
      assert key == ip2 + ":" + route2 + ":" + "read";
      LastColon(ip, route, ip2 + ":" + route2, "read");
    }
  }

  lemma LastColon(a: string, b: string, c: string, d: string)
    requires ':' !in b && ':' !in d && a + ":" + b == c + ":" + d
    ensures a == c && b == d
  {
    var s, t := a + ":" + b, c + ":" + d;
    NoColonBehind(a, b);
    NoColonBehind(c, d);
    assert |a| == |c|;
    assert a == s[..|a|] && c == t[..|a|] && b == s[|a| + 1..] && d == t[|a| + 1..];
  }

  lemma NoColonBehind(a: string, b: string)
    requires ':' !in b
    ensures (a + ":" + b)[|a|] == ':' && forall k | |a| < k < |a + ":" + b| :: (a + ":" + b)[k] != ':'
  {
  }

  /** The longest route that the path starts with. */
  function RouteKey(routes: seq<string>, path: string): (r: Option<string>)
    ensures r.None? ==> forall x :: x in routes ==> !(x <= path)
    ensures r.Some? ==> r.value in routes && r.value <= path
    ensures r.Some? ==> forall x :: x in routes && x <= path ==> |x| <= |r.value|
  {
    if routes == [] then None
    else
      assert forall x :: x in routes <==> x == routes[0] || x in routes[1..];
      var rest := RouteKey(routes[1..], path);
      if routes[0] <= path && (rest.None? || |routes[0]| >= |rest.value|) then Some(routes[0]) else rest
  }

  /** The choice does not depend on the order in which the routes are listed. */
  lemma RouteOrderIsIrrelevant(routes: seq<string>, others: seq<string>, path: string)
    requires forall x :: x in routes <==> x in others
    ensures RouteKey(routes, path) == RouteKey(others, path)
  {
    var r, s := RouteKey(routes, path), RouteKey(others, path);
    if r.Some? && s.Some? {
      assert |r.value| == |s.value|;
      assert r.value == path[..|r.value|] && s.value == path[..|s.value|];
    }
  }
}
