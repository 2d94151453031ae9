/** The sliding-window limiter of the HTTP interface. */
module RateLimit {
  import opened Wrappers

  /** Microseconds. */
  type Time = int

  const MINUTE: Time := 60000000

  datatype Bucket = SearchBucket | Maintenance | Inspection | InspectionSettings | Mcp | Push

  /** Which requests are limited, and to how many a minute. */
  function BucketOf(httpMethod: string, path: string, pushLimit: int): Option<(Bucket, int)> {
    if httpMethod != "POST" then
      if httpMethod == "PATCH" && path == "/api/v1/settings/inspection" then Some((InspectionSettings, 10)) else None
    else if path == "/api/v1/search" then Some((SearchBucket, 30))
    else if path == "/api/v1/cache/retry" then Some((Maintenance, 2))
    else if path == "/api/v1/resources/inspect" then Some((Inspection, 10))
    else if path == "/api/v1/mcp" then Some((Mcp, 60))
    else if "/api/v1/tasks" <= path then Some((Push, pushLimit))
    else None
  }

  /** The limit goes with the bucket alone. */
  function LimitOf(b: Bucket, pushLimit: int): int {
    match b
    case SearchBucket => 30
    case Maintenance => 2
    case Inspection => 10
    case InspectionSettings => 10
    case Mcp => 60
    case Push => pushLimit
  }

  lemma LimitIsFixed(httpMethod: string, path: string, pushLimit: int)
    ensures
      var b := BucketOf(httpMethod, path, pushLimit);
      b.Some? ==> b.value.1 == LimitOf(b.value.0, pushLimit)
  {
  }

  type Key = (string, Bucket)

  /** What was decided for one limited request. */
  datatype Decision = Decision(key: Key, at: Time, accepted: bool)

  /** When requests of this key were let through, in order. */
  function Accepted(history: seq<Decision>, key: Key): seq<Time> {
    if history == [] then []
    else
      var last := history[|history| - 1];
      Accepted(history[..|history| - 1], key) + if last.key == key && last.accepted then [last.at] else []
  }

  predicate Sorted(times: seq<Time>) {
    forall i, j | 0 <= i < j < |times| :: times[i] <= times[j]
  }

  function CountIn(times: seq<Time>, from: Time, to: Time): nat {
    if times == [] then 0
    else CountIn(times[..|times| - 1], from, to) + if from <= times[|times| - 1] < to then 1 else 0
  }

  /** The times after `cutoff`. */
  function Recent(times: seq<Time>, cutoff: Time): seq<Time> {
    if times == [] then [] else if times[0] <= cutoff then Recent(times[1..], cutoff) else times
  }

  lemma {:induction false} RecentIsSuffix(times: seq<Time>, cutoff: Time)
    requires Sorted(times)
    ensures
      var r := Recent(times, cutoff);
      && |r| <= |times| && r == times[|times| - |r|..]
      && (forall i | 0 <= i < |times| - |r| :: times[i] <= cutoff)
      && (forall t | t in r :: t > cutoff)
  {
    if times != [] && times[0] <= cutoff {
      RecentIsSuffix(times[1..], cutoff);
    }
  }

  /** Old times that are gone already make no difference. */
  lemma {:induction false} RecentOfRecent(times: seq<Time>, earlier: Time, cutoff: Time)
    requires earlier <= cutoff
    ensures Recent(Recent(times, earlier), cutoff) == Recent(times, cutoff)
  {
    if times != [] && times[0] <= earlier {
      RecentOfRecent(times[1..], earlier, cutoff);
    }
  }

  lemma {:induction false} RecentOfLonger(times: seq<Time>, cutoff: Time, t: Time)
    requires t > cutoff
    ensures Recent(times + [t], cutoff) == Recent(times, cutoff) + [t]
  {
    if times != [] && times[0] <= cutoff {
      assert (times + [t])[1..] == times[1..] + [t];
      RecentOfLonger(times[1..], cutoff, t);
    }
  }

  /** Any two accepted times with `limit` steps between them are a minute apart. */
  ghost predicate Spread(times: seq<Time>, limit: int) {
    forall i, j | 0 <= i <= j < |times| && j - i >= limit :: times[j] - times[i] >= MINUTE
  }

  /** One key's deque against what was accepted for it. */
  ghost predicate KeyOk(accepted: seq<Time>, window: Option<seq<Time>>, cutoff: Time, clock: Time, limit: int) {
    && Sorted(accepted) && (forall i | 0 <= i < |accepted| :: accepted[i] <= clock)
    && (window.None? ==> accepted == [])
    && (window.Some? ==> window.value == Recent(accepted, cutoff) && cutoff <= clock - MINUTE)
    && Spread(accepted, limit)
  }

  function Deque(window: Option<seq<Time>>): seq<Time> {
    if window.Some? then window.value else []
  }

  lemma DequeIsRecent(accepted: seq<Time>, window: Option<seq<Time>>, cutoff: Time, clock: Time, limit: int, now: Time)
    requires KeyOk(accepted, window, cutoff, clock, limit) && clock <= now
    ensures Recent(Deque(window), now - MINUTE) == Recent(accepted, now - MINUTE)
  {
    if window.Some? {
      RecentOfRecent(accepted, cutoff, now - MINUTE);
    }
  }

  lemma Decided(accepted: seq<Time>, window: Option<seq<Time>>, cutoff: Time, clock: Time, limit: int, now: Time)
    requires KeyOk(accepted, window, cutoff, clock, limit) && clock <= now
    ensures
      var recent := Recent(accepted, now - MINUTE);
      if |recent| < limit then KeyOk(accepted + [now], Some(recent + [now]), now - MINUTE, now, limit)
      else KeyOk(accepted, Some(recent), now - MINUTE, now, limit)
  {
    RecentIsSuffix(accepted, now - MINUTE);
    RecentOfLonger(accepted, now - MINUTE, now);
  }

  function Lookup<T>(m: map<Key, T>, key: Key): Option<T> {
    if key in m then Some(m[key]) else None
  }

  /** What is kept for one key. */
  ghost predicate Kept(history: seq<Decision>, windows: map<Key, seq<Time>>, cutoffs: map<Key, Time>, clock: Time, pushLimit: int, key: Key) {
    var cutoff := Lookup(cutoffs, key);
    KeyOk(Accepted(history, key), Lookup(windows, key), if cutoff.Some? then cutoff.value else 0, clock, LimitOf(key.1, pushLimit))
  }

  class Limiter {
    const pushLimit: int
    var windows: map<Key, seq<Time>>
    /** All decisions so far, and for each key the last cutoff. */
    ghost var history: seq<Decision>
    ghost var cutoffs: map<Key, Time>
    ghost var clock: Time

    ghost predicate Valid()
      reads this
    {
      && windows.Keys == cutoffs.Keys
      && forall key: Key :: Kept(history, windows, cutoffs, clock, pushLimit, key)
    }

    constructor (pushLimit: int, start: Time)
      ensures Valid() && this.pushLimit == pushLimit && history == [] && clock == start
    {
      this.pushLimit := pushLimit;
      windows, history, cutoffs, clock := map[], [], map[], start;
    }

    /** With a clock that does not go back: a request is refused exactly when as many of its key
        were let through in the last minute as the limit allows. */
    method Check(httpMethod: string, path: string, identity: string, now: Time) returns (allowed: bool)
      requires Valid() && clock <= now
      modifies this
      ensures Valid()
      ensures BucketOf(httpMethod, path, pushLimit).None? ==> allowed && history == old(history) && windows == old(windows)
      ensures BucketOf(httpMethod, path, pushLimit).Some? ==>
        var (bucket, limit) := BucketOf(httpMethod, path, pushLimit).value;
        var key := (identity, bucket);
        && history == old(history) + [Decision(key, now, allowed)] && clock == now
        && (allowed <==> |Recent(Accepted(old(history), key), now - MINUTE)| < limit)
        && windows == old(windows)[key := Recent(Accepted(old(history), key), now - MINUTE) + if allowed then [now] else []]
    {
      var bucket := BucketOf(httpMethod, path, pushLimit);
      if bucket.None? {
        return true;
      }
      LimitIsFixed(httpMethod, path, pushLimit);
      allowed := Take((identity, bucket.value.0), bucket.value.1, now);
    }

    method Take(key: Key, limit: int, now: Time) returns (allowed: bool)
      requires Valid() && clock <= now && limit == LimitOf(key.1, pushLimit)
      modifies this
      ensures Valid() && clock == now && history == old(history) + [Decision(key, now, allowed)]
      ensures allowed <==> |Recent(Accepted(old(history), key), now - MINUTE)| < limit
      ensures windows == old(windows)[key := Recent(Accepted(old(history), key), now - MINUTE) + if allowed then [now] else []]
    {
      hide Kept, Recent, Accepted;
      ghost var accepted := Accepted(history, key);
      KeptDeque(history, windows, cutoffs, clock, pushLimit, key, now);
      var window := if key in windows then windows[key] else [];
      var cutoff := now - MINUTE;
      while window != [] && window[0] <= cutoff
        invariant Recent(window, cutoff) == Recent(accepted, cutoff)
        modifies {}
      {
        DropOld(window, cutoff);
        window := window[1..];
      }
      NothingOld(window, cutoff);
      allowed := |window| < limit;
      ghost var recent := window;
      if allowed {
        window := window + [now];
      }
      assert window == recent + if allowed then [now] else [];
      var windows' := windows[key := window];
      ghost var cutoffs' := cutoffs[key := cutoff];
      ghost var decision := Decision(key, now, allowed);
      KeptDecision(history, windows, cutoffs, clock, pushLimit, decision, limit, windows', cutoffs');
      forall other: Key | other != key ensures Kept(history + [decision], windows', cutoffs', now, pushLimit, other) {
        KeptOther(history, windows, cutoffs, clock, pushLimit, decision, other, windows', cutoffs');
      }
      windows, cutoffs, history, clock := windows', cutoffs', history + [decision], now;
    }
  }

  /** In every run, no minute, wherever it starts, sees more requests of one key let through than
      the limit allows. */
  lemma NeverTooMany(limiter: Limiter, key: Key, from: Time)
    requires limiter.Valid() && LimitOf(key.1, limiter.pushLimit) >= 0
    ensures CountIn(Accepted(limiter.history, key), from, from + MINUTE) <= LimitOf(key.1, limiter.pushLimit)
  {
    assert Kept(limiter.history, limiter.windows, limiter.cutoffs, limiter.clock, limiter.pushLimit, key);
    NoMinuteHoldsMore(Accepted(limiter.history, key), LimitOf(key.1, limiter.pushLimit), from);
  }

  lemma DropOld(window: seq<Time>, cutoff: Time)
    requires window != [] && window[0] <= cutoff
    ensures Recent(window[1..], cutoff) == Recent(window, cutoff)
  {
  }

  lemma NothingOld(window: seq<Time>, cutoff: Time)
    ensures window == [] || window[0] > cutoff ==> Recent(window, cutoff) == window
  {
  }

  lemma KeptDeque(history: seq<Decision>, windows: map<Key, seq<Time>>, cutoffs: map<Key, Time>, clock: Time, pushLimit: int, key: Key, now: Time)
    requires Kept(history, windows, cutoffs, clock, pushLimit, key) && clock <= now
    ensures Recent(if key in windows then windows[key] else [], now - MINUTE) == Recent(Accepted(history, key), now - MINUTE)
  {
    var cutoff := Lookup(cutoffs, key);
    DequeIsRecent(Accepted(history, key), Lookup(windows, key), if cutoff.Some? then cutoff.value else 0, clock, LimitOf(key.1, pushLimit), now);
  }

  lemma KeptDecision(history: seq<Decision>, windows: map<Key, seq<Time>>, cutoffs: map<Key, Time>, clock: Time, pushLimit: int,
                     d: Decision, limit: int, windows': map<Key, seq<Time>>, cutoffs': map<Key, Time>)
    requires Kept(history, windows, cutoffs, clock, pushLimit, d.key) && clock <= d.at && limit == LimitOf(d.key.1, pushLimit)
    requires d.accepted <==> |Recent(Accepted(history, d.key), d.at - MINUTE)| < limit
    requires Lookup(cutoffs', d.key) == Some(d.at - MINUTE)
    requires Lookup(windows', d.key) == Some(Recent(Accepted(history, d.key), d.at - MINUTE) + if d.accepted then [d.at] else [])
    ensures Kept(history + [d], windows', cutoffs', d.at, pushLimit, d.key)
  {
    hide KeyOk, Accepted, Recent, LimitOf, Spread, Sorted;
    var cutoff := Lookup(cutoffs, d.key);
    Untouched(history, d, d.key);
    Decided(Accepted(history, d.key), Lookup(windows, d.key), if cutoff.Some? then cutoff.value else 0, clock, limit, d.at);
    if !d.accepted {
      assert Recent(Accepted(history, d.key), d.at - MINUTE) + [] == Recent(Accepted(history, d.key), d.at - MINUTE);
      assert Accepted(history, d.key) + [] == Accepted(history, d.key);
    }
  }

  lemma KeptOther(history: seq<Decision>, windows: map<Key, seq<Time>>, cutoffs: map<Key, Time>, clock: Time, pushLimit: int,
                  d: Decision, key: Key, windows': map<Key, seq<Time>>, cutoffs': map<Key, Time>)
    requires Kept(history, windows, cutoffs, clock, pushLimit, key) && clock <= d.at && key != d.key
    requires Lookup(windows', key) == Lookup(windows, key) && Lookup(cutoffs', key) == Lookup(cutoffs, key)
    ensures Kept(history + [d], windows', cutoffs', d.at, pushLimit, key)
  {
    hide KeyOk, Accepted, LimitOf;
    var cutoff := Lookup(cutoffs, key);
    Untouched(history, d, key);
    Later(Accepted(history, key), Lookup(windows, key), if cutoff.Some? then cutoff.value else 0, clock, LimitOf(key.1, pushLimit), d.at);
    assert Accepted(history, key) + [] == Accepted(history, key);
  }

  lemma Untouched(history: seq<Decision>, d: Decision, key: Key)
    ensures Accepted(history + [d], key) == Accepted(history, key) + if d.key == key && d.accepted then [d.at] else []
  {
  }

  lemma Later(accepted: seq<Time>, window: Option<seq<Time>>, cutoff: Time, clock: Time, limit: int, now: Time)
    requires KeyOk(accepted, window, cutoff, clock, limit) && clock <= now
    ensures KeyOk(accepted, window, cutoff, now, limit)
  {
  }

  // ------------------------------------------------------------- no minute holds too many

  lemma {:induction false} CountOfLate(times: seq<Time>, from: Time, to: Time, k: nat)
    requires k <= |times| && forall i | 0 <= i < k :: times[i] < from
    ensures CountIn(times, from, to) <= |times| - k
  {
    if k < |times| {
      CountOfLate(times[..|times| - 1], from, to, k);
    } else if times != [] {
      CountOfLate(times[..|times| - 1], from, to, k - 1);
    }
  }

  /** No minute, wherever it starts, holds more than `limit` of them. */
  lemma {:induction false} NoMinuteHoldsMore(times: seq<Time>, limit: nat, from: Time)
    requires Sorted(times) && Spread(times, limit)
    ensures CountIn(times, from, from + MINUTE) <= limit
  {
    if times != [] {
      var init, last := times[..|times| - 1], |times| - 1;
      if from <= times[last] < from + MINUTE {
        var k := if |times| <= limit then 0 else |times| - limit;
        forall i | 0 <= i < k ensures times[i] < from {
          assert times[last] - times[i] >= MINUTE;
        }
        CountOfLate(times, from, from + MINUTE, k);
      } else {
        NoMinuteHoldsMore(init, limit, from);
      }
    }
  }
}
