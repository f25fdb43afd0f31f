/**
 * The fixed-window rate limiter: per client key, a window of at most sixty requests per minute.
 * The store maps a client key to its window and is updated in place on every request; a sweep
 * deletes the windows that have run out. Clock readings are integer milliseconds passed in.
 */
module RateLimit {
  import opened Common
  import Decimal

  const WindowMs := 60 * 1000
  const MaxRequests := 60

  datatype Window = Window(count: nat, resetTime: int)

  /** `split(',')[0]`: the text before the first comma, or all of it. */
  function BeforeFirstComma(s: string): (r: string)
    ensures r <= s && ',' !in r
    ensures |r| < |s| ==> s[|r|] == ','
  {
    if s == [] || s[0] == ',' then []
    else [s[0]] + BeforeFirstComma(s[1..])
  }

  /** The client key: the first entry of `x-forwarded-for`, or `anonymous` when the header is absent or empty. */
  function ClientKey(forwardedFor: Option<string>): (key: string)
    ensures forwardedFor.None? || forwardedFor.value == [] ==> key == "anonymous"
    ensures forwardedFor.Some? && forwardedFor.value != [] ==>
      key <= forwardedFor.value && ',' !in key &&
      (|key| < |forwardedFor.value| ==> forwardedFor.value[|key|] == ',')
  {
    if forwardedFor.None? || forwardedFor.value == [] then "anonymous"
    else BeforeFirstComma(forwardedFor.value)
  }

  /** A window opened now. */
  function Fresh(now: int): Window {
    Window(0, now + WindowMs)
  }

  /**
   * The window after one request at `now`: a missing window is opened, a window whose reset time
   * has strictly passed is reopened, and the request is counted.
   */
  function Advance(entry: Option<Window>, now: int): (w: Window)
    ensures entry.None? || now > entry.value.resetTime ==> w == Window(1, now + WindowMs)
    ensures entry.Some? && now <= entry.value.resetTime ==>
      w == Window(entry.value.count + 1, entry.value.resetTime)
  {
    var current := entry.GetOr(Fresh(now));
    var live := if now > current.resetTime then Fresh(now) else current;
    live.(count := live.count + 1)
  }

  function Lookup(store: map<string, Window>, key: string): Option<Window> {
    if key in store then Some(store[key]) else None
  }

  /** `Math.ceil(ms / 1000)`: the least whole number of seconds covering `ms` milliseconds. */
  function CeilSeconds(ms: int): (s: int)
    ensures 1000 * (s - 1) < ms <= 1000 * s
  {
    0 - ((0 - ms) / 1000)
  }

  datatype Rejection = Rejection(status: nat, retryAfter: int, body: string, headers: map<string, string>)

  const BodyPrefix := "{\"error\":\"Too many requests\",\"retryAfter\":"

  /** The 429 response: the JSON body and the `Retry-After` header carry the same number of seconds. */
  function Reject(w: Window, now: int): (r: Rejection)
    ensures r.status == 429
    ensures 1000 * (r.retryAfter - 1) < w.resetTime - now <= 1000 * r.retryAfter
  {
    var seconds := CeilSeconds(w.resetTime - now);
    Rejection(
      429,
      seconds,
      BodyPrefix + Decimal.IntToText(seconds) + "}",
      map["Content-Type" := "application/json", "Retry-After" := Decimal.IntToText(seconds)])
  }

  /** The verdict on the request just counted in `w`. */
  function Decide(w: Window, now: int): (r: Option<Rejection>)
    ensures r.Some? <==> w.count > MaxRequests
    ensures r.Some? ==> r.value == Reject(w, now)
  {
    if w.count > MaxRequests then Some(Reject(w, now)) else None
  }

  /** The store after a sweep at `now`: the windows whose reset time has not strictly passed. */
  function Unexpired(store: map<string, Window>, now: int): (r: map<string, Window>)
    ensures forall k :: k in r <==> k in store && now <= store[k].resetTime
    ensures forall k :: k in r ==> r[k] == store[k]
  {
    map k | k in store && now <= store[k].resetTime :: store[k]
  }

  class RateLimiter {
    var store: map<string, Window>

    constructor()
      ensures store == map[]
    {
      store := map[];
    }

    /** `rateLimiter`: counts the request against its client's window and rejects it past the limit. */
    method Check(forwardedFor: Option<string>, now: int) returns (r: Option<Rejection>)
      modifies this
      ensures store == old(store)[ClientKey(forwardedFor) := Advance(Lookup(old(store), ClientKey(forwardedFor)), now)]
      ensures r == Decide(store[ClientKey(forwardedFor)], now)
    {
      var key := ClientKey(forwardedFor);
      var data := if key in store then store[key] else Fresh(now);
      if now > data.resetTime {
        data := data.(count := 0, resetTime := now + WindowMs);
      }
      data := data.(count := data.count + 1);
      store := store[key := data];
      if data.count > MaxRequests {
        r := Some(Reject(data, now));
      } else {
        r := None;
      }
    }

    /** The periodic cleanup: deletes, one entry at a time, every window whose reset time has passed. */
    method Sweep(now: int)
      modifies this
      ensures store == Unexpired(old(store), now)
    {
      var pending := store.Keys;
      while pending != {}
        invariant pending <= old(store).Keys
        invariant forall k :: k in store <==> k in old(store) && (k in pending || now <= old(store)[k].resetTime)
        invariant forall k :: k in store ==> store[k] == old(store)[k]
        decreases pending
      {
        var key :| key in pending;
        if now > store[key].resetTime {
          store := store - {key};
        }
        pending := pending - {key};
      }
    }
  }

  // Properties.

  /** Every other client's window is left as it was by a request. */
  lemma RequestTouchesOnlyItsKey(store: map<string, Window>, key: string, now: int, other: string)
    requires other != key
    ensures Lookup(store[key := Advance(Lookup(store, key), now)], other) == Lookup(store, other)
  {
  }

  /** The windows a run of requests from one client leaves behind, the last request counted last. */
  function Replay(entry: Option<Window>, times: seq<int>): Option<Window>
    decreases |times|
  {
    if times == [] then entry
    else Some(Advance(Replay(entry, times[..|times| - 1]), times[|times| - 1]))
  }

  /**
   * Requests arriving in the window opened by the first of them are counted one by one; the
   * window keeps the reset time the first request gave it.
   */
  lemma {:induction false} ReplayCounts(entry: Option<Window>, times: seq<int>)
    requires |times| >= 1
    requires entry.None? || times[0] > entry.value.resetTime
    requires forall k :: 0 <= k < |times| ==> times[k] <= times[0] + WindowMs
    ensures Replay(entry, times) == Some(Window(|times|, times[0] + WindowMs))
  {
    if |times| > 1 {
      ReplayCounts(entry, times[..|times| - 1]);
    }
  }

  /** In one window the first sixty requests pass, and the sixty-first and every later one is rejected. */
  lemma SixtyPerWindow(entry: Option<Window>, times: seq<int>)
    requires |times| >= 1
    requires entry.None? || times[0] > entry.value.resetTime
    requires forall k :: 0 <= k < |times| ==> times[k] <= times[0] + WindowMs
    ensures Decide(Replay(entry, times).value, times[|times| - 1]).Some? <==> |times| > MaxRequests
  {
    ReplayCounts(entry, times);
  }

  /** The wait a rejection announces is at most one window: from 0 to 60 seconds. */
  lemma RetryAfterWithinWindow(entry: Option<Window>, now: int)
    requires entry.Some? ==> entry.value.resetTime <= now + WindowMs
    ensures 0 <= Reject(Advance(entry, now), now).retryAfter <= 60
  {
  }

  /** The `Retry-After` header reads back as the body's `retryAfter`, and the body embeds exactly that text. */
  lemma HeaderMatchesBody(w: Window, now: int)
    ensures "Retry-After" in Reject(w, now).headers
    ensures Decimal.TextValue(Reject(w, now).headers["Retry-After"]) == Reject(w, now).retryAfter
    ensures Reject(w, now).body == BodyPrefix + Reject(w, now).headers["Retry-After"] + "}"
  {
    Decimal.IntToTextRoundTrip(CeilSeconds(w.resetTime - now));
  }

  /**
   * Sweeping cannot change what any later request sees: a swept window had run out, so a
   * request at the sweep's time or later would have reopened it anyway.
   */
  lemma SweepIsUnobservable(store: map<string, Window>, sweptAt: int, now: int, key: string)
    requires sweptAt <= now
    ensures Advance(Lookup(Unexpired(store, sweptAt), key), now) == Advance(Lookup(store, key), now)
  {
  }

  lemma SweepIdempotent(store: map<string, Window>, now: int)
    ensures Unexpired(Unexpired(store, now), now) == Unexpired(store, now)
  {
  }
}
