/** The per-endpoint sliding-window rate limiter. Every handler keeps a
    module-level dictionary from client id to the timestamps (milliseconds) of
    its admitted requests. A check first replaces the caller's list by the
    entries younger than the window, then rejects when that list already holds
    the limit, and otherwise appends `now`. */
module RateLimit {

  /** The timestamps still inside the window at `now`, in their original
      order: `ts.filter(t => now - t < windowMs)`. */
  function Retained(ts: seq<int>, now: int, windowMs: int): (r: seq<int>)
    ensures |r| <= |ts|
    ensures forall k :: 0 <= k < |r| ==> now - r[k] < windowMs
  {
    if ts == [] then []
    else (if now - ts[0] < windowMs then [ts[0]] else []) + Retained(ts[1..], now, windowMs)
  }

  /** Filtering distributes over concatenation, so it keeps the relative
      order of the timestamps it retains. */
  lemma {:induction false} RetainedAppend(a: seq<int>, b: seq<int>, now: int, windowMs: int)
    ensures Retained(a + b, now, windowMs) == Retained(a, now, windowMs) + Retained(b, now, windowMs)
  {
    if a != [] {
      assert (a + b)[1..] == a[1..] + b;
      RetainedAppend(a[1..], b, now, windowMs);
    } else {
      assert a + b == b;
    }
  }

  /** A timestamp survives the filter exactly when it was there and is younger
      than the window: entries exactly `windowMs` old are evicted. */
  lemma {:induction false} RetainedMembers(ts: seq<int>, now: int, windowMs: int, t: int)
    ensures t in Retained(ts, now, windowMs) <==> t in ts && now - t < windowMs
  {
    if ts != [] {
      RetainedMembers(ts[1..], now, windowMs, t);
      assert t in ts <==> t == ts[0] || t in ts[1..];
    }
  }

  /** A list whose every entry is younger than the window is kept whole. */
  lemma {:induction false} RetainedAllFresh(ts: seq<int>, now: int, windowMs: int)
    requires forall k :: 0 <= k < |ts| ==> now - ts[k] < windowMs
    ensures Retained(ts, now, windowMs) == ts
  {
    if ts != [] {
      RetainedAllFresh(ts[1..], now, windowMs);
    }
  }

  /** A list whose every entry has reached the window's age is emptied. */
  lemma {:induction false} RetainedAllStale(ts: seq<int>, now: int, windowMs: int)
    requires forall k :: 0 <= k < |ts| ==> now - ts[k] >= windowMs
    ensures Retained(ts, now, windowMs) == []
  {
    if ts != [] {
      RetainedAllStale(ts[1..], now, windowMs);
    }
  }

  /** `RATE_LIMIT[ip] || []`: a client seen for the first time has no history. */
  function Bucket(buckets: map<string, seq<int>>, ip: string): (b: seq<int>)
    ensures ip !in buckets ==> b == []
    ensures ip in buckets ==> b == buckets[ip]
  {
    if ip in buckets then buckets[ip] else []
  }

  /** The outcome of one check: whether the request is admitted, and the
      dictionary afterwards. */
  datatype Verdict = Verdict(admitted: bool, buckets: map<string, seq<int>>)

  /** One check of client `ip` at time `now` against `limit` requests per
      `windowMs` milliseconds. */
  function Decide(buckets: map<string, seq<int>>, ip: string, now: int, limit: nat, windowMs: int): (v: Verdict)
    ensures v.admitted <==> |Retained(Bucket(buckets, ip), now, windowMs)| < limit
    ensures v.buckets.Keys == buckets.Keys + {ip}
    ensures forall other :: other in buckets && other != ip ==> v.buckets[other] == buckets[other]
    ensures v.admitted ==> v.buckets[ip] == Retained(Bucket(buckets, ip), now, windowMs) + [now]
    ensures !v.admitted ==> v.buckets[ip] == Retained(Bucket(buckets, ip), now, windowMs)
    ensures |Bucket(buckets, ip)| <= limit ==> |v.buckets[ip]| <= limit
    ensures windowMs > 0 ==> forall k :: 0 <= k < |v.buckets[ip]| ==> now - v.buckets[ip][k] < windowMs
  {
    var kept := Retained(Bucket(buckets, ip), now, windowMs);
    if |kept| >= limit then Verdict(false, buckets[ip := kept])
    else Verdict(true, buckets[ip := kept + [now]])
  }

  /** The limiter object: the handler module's `RATE_LIMIT` dictionary with
      its `MAX_REQUESTS` and `WINDOW_MS` constants. */
  class SlidingWindow {
    const limit: nat
    const windowMs: int
    var buckets: map<string, seq<int>>

    /** No client ever holds more than `limit` timestamps. */
    ghost predicate Valid()
      reads this
    {
      windowMs > 0 && forall ip :: ip in buckets ==> |buckets[ip]| <= limit
    }

    constructor (limit: nat, windowMs: int)
      requires windowMs > 0
      ensures Valid() && this.limit == limit && this.windowMs == windowMs
      ensures buckets == map[]
    {
      this.limit := limit;
      this.windowMs := windowMs;
      buckets := map[];
    }

    /** Checks client `ip` at time `now`; records `now` only when admitted. */
    method Check(ip: string, now: int) returns (admitted: bool)
      requires Valid()
      modifies this
      ensures Valid()
      ensures Verdict(admitted, buckets) == Decide(old(buckets), ip, now, limit, windowMs)
      ensures admitted <==> |Retained(Bucket(old(buckets), ip), now, windowMs)| < limit
      ensures forall k :: 0 <= k < |buckets[ip]| ==> now - buckets[ip][k] < windowMs
      ensures forall other :: other != ip && other in old(buckets) ==> other in buckets && buckets[other] == old(buckets)[other]
    {
      var existing := if ip in buckets then buckets[ip] else [];
      buckets := buckets[ip := Retained(existing, now, windowMs)];
      if |buckets[ip]| >= limit {
        return false;
      }
      buckets := buckets[ip := buckets[ip] + [now]];
      admitted := true;
    }
  }

  /** A client with no timestamp inside the window is admitted, whatever its
      history, as long as the limit is not zero. */
  lemma QuietWindowReadmits(buckets: map<string, seq<int>>, ip: string, now: int, limit: nat, windowMs: int)
    requires limit > 0
    requires forall k :: 0 <= k < |Bucket(buckets, ip)| ==> now - Bucket(buckets, ip)[k] >= windowMs
    ensures Decide(buckets, ip, now, limit, windowMs).admitted
  {
    RetainedAllStale(Bucket(buckets, ip), now, windowMs);
  }

  /** The admission flags of successive checks of one client at the given
      times. */
  function Replay(buckets: map<string, seq<int>>, ip: string, times: seq<int>, limit: nat, windowMs: int): (r: seq<bool>)
    ensures |r| == |times|
    decreases |times|
  {
    if times == [] then []
    else
      var v := Decide(buckets, ip, times[0], limit, windowMs);
      [v.admitted] + Replay(v.buckets, ip, times[1..], limit, windowMs)
  }

  predicate Nondecreasing(times: seq<int>) {
    forall i, j :: 0 <= i < j < |times| ==> times[i] <= times[j]
  }

  /** One check at `now` of a bucket whose entries are all inside the window
      that ends at a later `last`: nothing is evicted, and the bucket after
      the check is still inside that window. */
  lemma FreshStep(buckets: map<string, seq<int>>, ip: string, now: int, last: int, limit: nat, windowMs: int)
    requires now <= last && last - now < windowMs
    requires forall k :: 0 <= k < |Bucket(buckets, ip)| ==> last - Bucket(buckets, ip)[k] < windowMs
    ensures var v := Decide(buckets, ip, now, limit, windowMs);
      && v.admitted == (|Bucket(buckets, ip)| < limit)
      && Bucket(v.buckets, ip) == (if v.admitted then Bucket(buckets, ip) + [now] else Bucket(buckets, ip))
      && forall k :: 0 <= k < |Bucket(v.buckets, ip)| ==> last - Bucket(v.buckets, ip)[k] < windowMs
  {
    var pre := Bucket(buckets, ip);
    assert forall k :: 0 <= k < |pre| ==> now - pre[k] < windowMs;
    RetainedAllFresh(pre, now, windowMs);
  }

  /** Requests that all fall inside one window: the `i`-th of them is
      admitted exactly when the earlier timestamps still held plus the `i`
      admitted before it stay below the limit. */
  lemma {:induction false} BurstWithinWindow(buckets: map<string, seq<int>>, ip: string, times: seq<int>, limit: nat, windowMs: int)
    requires |Bucket(buckets, ip)| <= limit
    requires Nondecreasing(times)
    requires times != [] ==>
      (forall k :: 0 <= k < |Bucket(buckets, ip)| ==> times[|times| - 1] - Bucket(buckets, ip)[k] < windowMs)
      && times[|times| - 1] - times[0] < windowMs
    ensures forall i :: 0 <= i < |times| ==>
      Replay(buckets, ip, times, limit, windowMs)[i] == (|Bucket(buckets, ip)| + i < limit)
    decreases |times|
  {
    if times != [] {
      var pre := Bucket(buckets, ip);
      var last := times[|times| - 1];
      FreshStep(buckets, ip, times[0], last, limit, windowMs);
      var v := Decide(buckets, ip, times[0], limit, windowMs);
      var rest := times[1..];
      if rest != [] {
        assert rest[|rest| - 1] == last;
        assert times[0] <= rest[0];
      }
      BurstWithinWindow(v.buckets, ip, rest, limit, windowMs);
      var r := Replay(buckets, ip, times, limit, windowMs);
      assert r == [v.admitted] + Replay(v.buckets, ip, rest, limit, windowMs);
      forall i | 0 <= i < |times| ensures r[i] == (|pre| + i < limit) {
        if i > 0 {
          assert r[i] == Replay(v.buckets, ip, rest, limit, windowMs)[i - 1];
        }
      }
    }
  }

  /** A client with no history gets exactly `limit` requests through within
      one window; the next one inside the same window is rejected. */
  lemma LimitThenRejected(buckets: map<string, seq<int>>, ip: string, times: seq<int>, limit: nat, windowMs: int)
    requires ip !in buckets
    requires |times| == limit + 1 && Nondecreasing(times)
    requires times[limit] - times[0] < windowMs
    ensures forall i :: 0 <= i < limit ==> Replay(buckets, ip, times, limit, windowMs)[i]
    ensures !Replay(buckets, ip, times, limit, windowMs)[limit]
  {
    BurstWithinWindow(buckets, ip, times, limit, windowMs);
  }

  /** The names a plain JavaScript object `{}` inherits from
      `Object.prototype`. */
  const InheritedNames: set<string> := {
    "constructor", "__proto__", "hasOwnProperty", "isPrototypeOf",
    "propertyIsEnumerable", "toString", "toLocaleString", "valueOf",
    "__defineGetter__", "__defineSetter__", "__lookupGetter__", "__lookupSetter__"
  }

  /** How a check behaves on the dictionary as the handlers declare it, a
      plain object `{}`: for an inherited name `RATE_LIMIT[ip] || []` is a
      function or `Object.prototype`, not an array, so `.filter` throws a
      TypeError outside any `try`; every other id behaves as in `Decide`. */
  datatype PlainObjectCheck = Throws | Checked(verdict: Verdict)

  function CheckOnPlainObject(buckets: map<string, seq<int>>, ip: string, now: int, limit: nat, windowMs: int): (r: PlainObjectCheck)
    ensures r.Throws? <==> ip in InheritedNames
    ensures ip !in InheritedNames ==> r == Checked(Decide(buckets, ip, now, limit, windowMs))
  {
    if ip in InheritedNames then Throws else Checked(Decide(buckets, ip, now, limit, windowMs))
  }

  /** A first request from the client id "constructor" makes the handler throw
      instead of being admitted. */
  lemma ConstructorIdThrows(now: int, limit: nat, windowMs: int)
    ensures CheckOnPlainObject(map[], "constructor", now, limit, windowMs) == Throws
  {
  }

  /** With a dictionary keyed by every string, a client with no history is
      always admitted when the limit is not zero. */
  lemma FirstRequestAdmitted(buckets: map<string, seq<int>>, ip: string, now: int, limit: nat, windowMs: int)
    requires ip !in buckets && limit > 0
    ensures Decide(buckets, ip, now, limit, windowMs).admitted
  {
    assert Bucket(buckets, ip) == [];
  }
}
