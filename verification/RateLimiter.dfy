/** The fixed-window rate limiter: the in-process counter with its lazy cleanup, and the admission
    rule that prefers a Redis counter and falls back to the local one. */
module RateLimiter {
  import opened Prelude

  /** One minute in nanoseconds, the clock's unit. */
  const MINUTE: nat := 60_000_000_000

  const SECOND: nat := 1_000_000_000

  const CLEANUP_THRESHOLD: nat := 512

  function Window(now: nat): (w: nat)
    ensures w <= now < w + MINUTE && w % MINUTE == 0
  {
    now - now % MINUTE
  }

  lemma WindowMonotone(a: nat, b: nat)
    requires a <= b
    ensures Window(a) <= Window(b)
  {
  }

  datatype Bucket = Bucket(window: nat, count: nat)

  /** A call of the local counter. */
  datatype Tick = Tick(key: string, at: nat)

  /** The plain count that the map with its resets and deletions stands for. */
  function CountIn(calls: seq<Tick>, key: string, window: nat): nat {
    if calls == [] then 0
    else
      var last := calls[|calls| - 1];
      CountIn(calls[..|calls| - 1], key, window) + if last.key == key && Window(last.at) == window then 1 else 0
  }

  function KeysIn(calls: seq<Tick>, window: nat): set<string> {
    set i | 0 <= i < |calls| && Window(calls[i].at) == window :: calls[i].key
  }

  lemma CountAppend(calls: seq<Tick>, t: Tick, key: string, window: nat)
    ensures CountIn(calls + [t], key, window) == CountIn(calls, key, window) + if t.key == key
        && Window(t.at) == window then 1 else 0
  {
    assert (calls + [t])[..|calls|] == calls;
  }

  predicate InSlot(t: Tick, key: string, window: nat) {
    t.key == key && Window(t.at) == window
  }

  lemma {:induction false} CountedInSlot(calls: seq<Tick>, key: string, window: nat)
    ensures CountIn(calls, key, window) > 0 <==> exists i :: 0 <= i < |calls| && InSlot(calls[i], key, window)
  {
    if calls != [] {
      var rest := calls[..|calls| - 1];
      CountedInSlot(rest, key, window);
      assert forall i :: 0 <= i < |rest| ==> rest[i] == calls[i];
    }
  }

  lemma CountedIsSeen(calls: seq<Tick>, key: string, window: nat)
    ensures CountIn(calls, key, window) > 0 <==> key in KeysIn(calls, window)
  {
    CountedInSlot(calls, key, window);
  }

  lemma {:induction false} NothingInFuture(calls: seq<Tick>, key: string, window: nat)
    requires forall i :: 0 <= i < |calls| ==> Window(calls[i].at) < window
    ensures CountIn(calls, key, window) == 0
  {
    if calls != [] {
      NothingInFuture(calls[..|calls| - 1], key, window);
    }
  }

  lemma SubsetSize<T>(a: set<T>, b: set<T>)
    requires a <= b
    ensures |a| <= |b|
  {
    if a != {} {
      var x :| x in a;
      SubsetSize(a - {x}, b - {x});
    }
  }

  /** What cleanup keeps once the map has reached the threshold. */
  function Cleaned(local: map<string, Bucket>, current: nat): map<string, Bucket> {
    if |local| < CLEANUP_THRESHOLD then local
    else map k | k in local && !(local[k].window < current) :: local[k]
  }

  /** The map agrees with the calls: each bucket is exact for its own minute, and the latest minute is complete. */
  ghost predicate LocalValid(local: map<string, Bucket>, calls: seq<Tick>, latest: nat) {
    && (forall i :: 0 <= i < |calls| ==> Window(calls[i].at) <= Window(latest))
    && (forall k :: k in local ==>
        local[k].window <= Window(latest) && 0 < local[k].count == CountIn(calls, k, local[k].window))
    && (forall k :: k !in local || local[k].window != Window(latest) ==> CountIn(calls, k, Window(latest)) == 0)
  }

  /** The map after a call: cleaned, with the caller's bucket one larger, or fresh when it was of another minute. */
  function Bumped(local: map<string, Bucket>, key: string, window: nat): map<string, Bucket> {
    var cleaned := Cleaned(local, window);
    cleaned[key := Bucket(window, if key in cleaned && cleaned[key].window == window then cleaned[key].count + 1
        else 1)]
  }

  /** The map after a sequence of calls, whatever their clocks. */
  function TableAfter(calls: seq<Tick>): map<string, Bucket> {
    if calls == [] then map[]
    else
      var last := calls[|calls| - 1];
      Bumped(TableAfter(calls[..|calls| - 1]), last.key, Window(last.at))
  }

  lemma TableAppend(calls: seq<Tick>, t: Tick)
    ensures TableAfter(calls + [t]) == Bumped(TableAfter(calls), t.key, Window(t.at))
  {
    assert (calls + [t])[..|calls|] == calls;
  }

  /** What the map remembers of a key's calls in one minute. */
  function Remembered(calls: seq<Tick>, key: string, window: nat): nat {
    var local := TableAfter(calls);
    if key in local && local[key].window == window then local[key].count else 0
  }

  /** The call makes the map forget the key's bucket of this minute: it restarts the bucket in another minute, or it
      comes in a later minute and finds the map large enough to be cleaned. */
  predicate Forgets(calls: seq<Tick>, j: nat, key: string, window: nat)
    requires j < |calls|
  {
    var at := Window(calls[j].at);
    (calls[j].key == key && at != window) || (CLEANUP_THRESHOLD <= |TableAfter(calls[..j])| && window < at)
  }

  /** Nothing was forgotten since the key's first call in this minute. */
  ghost predicate NothingForgotten(calls: seq<Tick>, key: string, window: nat) {
    forall i, j :: 0 <= i < j < |calls| && InSlot(calls[i], key, window) ==> !Forgets(calls, j, key, window)
  }

  lemma RememberedAfter(calls: seq<Tick>, key: string, window: nat)
    requires calls != []
    ensures var n := |calls| - 1;
            var rest := Remembered(calls[..n], key, window);
            Remembered(calls, key, window) ==
            if InSlot(calls[n], key, window) then rest + 1 else if Forgets(calls, n, key, window) then 0 else rest
    ensures InSlot(calls[|calls| - 1], key, window) ==> !Forgets(calls, |calls| - 1, key, window)
  {
    hide Window;
  }

  lemma ForgottenAfter(calls: seq<Tick>, key: string, window: nat)
    requires calls != []
    ensures var n := |calls| - 1;
            NothingForgotten(calls, key, window) <==>
              && NothingForgotten(calls[..n], key, window)
              && (Forgets(calls, n, key, window) ==> CountIn(calls[..n], key, window) == 0)
  {
    hide Window;
    var n := |calls| - 1;
    var rest := calls[..n];
    forall j | 0 <= j < n
      ensures Forgets(calls, j, key, window) <==> Forgets(rest, j, key, window)
    {
      assert calls[..j] == rest[..j];
    }
    CountedInSlot(rest, key, window);
    assert forall i :: 0 <= i < n ==> rest[i] == calls[i];
  }

  lemma {:induction false} RememberedIff(calls: seq<Tick>, key: string, window: nat)
    ensures Remembered(calls, key, window) <= CountIn(calls, key, window)
    ensures Remembered(calls, key, window) == CountIn(calls, key, window) <==> NothingForgotten(calls, key, window)
  {
    hide Remembered, NothingForgotten, Forgets;
    if calls == [] {
      EmptyRemembered(key, window);
    } else {
      var rest := calls[..|calls| - 1];
      RememberedIff(rest, key, window);
      RememberedAfter(calls, key, window);
      ForgottenAfter(calls, key, window);
    }
  }

  lemma EmptyRemembered(key: string, window: nat)
    ensures Remembered([], key, window) == 0 && NothingForgotten([], key, window)
  {
  }

  /** For any clock at all: the count is exact, and otherwise too small, if and only if between the key's first call in
      this minute and now the key was not called in another minute and no call of a later minute cleaned the map. */
  lemma CountIsExactIff(calls: seq<Tick>, key: string, now: nat)
    ensures var local := TableAfter(calls + [Tick(key, now)]);
            && key in local
            && local[key].count <= CountIn(calls + [Tick(key, now)], key, Window(now))
            && (local[key].count == CountIn(calls + [Tick(key, now)], key, Window(now)) <==>
                NothingForgotten(calls, key, Window(now)))
  {
    hide Window, NothingForgotten, CountIn;
    TableAppend(calls, Tick(key, now));
    CountAppend(calls, Tick(key, now), key, Window(now));
    RememberedIff(calls, key, Window(now));
  }

  /** What has no bucket of the current minute after cleaning was not counted in it. */
  lemma UncountedAfterCleaning(local: map<string, Bucket>, calls: seq<Tick>, k: string, now: nat, latest: nat)
    requires LocalValid(local, calls, latest) && latest <= now
    requires var cleaned := Cleaned(local, Window(now)); k !in cleaned || cleaned[k].window != Window(now)
    ensures CountIn(calls, k, Window(now)) == 0
  {
    hide CountIn;
    WindowMonotone(latest, now);
    if Window(latest) < Window(now) {
      NothingInFuture(calls, k, Window(now));
    }
  }

  lemma CallRecorded(local: map<string, Bucket>, calls: seq<Tick>, key: string, now: nat, latest: nat)
    requires LocalValid(local, calls, latest) && latest <= now
    ensures var after := Bumped(local, key, Window(now));
            && after[key].count == CountIn(calls + [Tick(key, now)], key, Window(now))
            && LocalValid(after, calls + [Tick(key, now)], now)
  {
    hide CountIn;
    WindowMonotone(latest, now);
    forall k, w
      ensures CountIn(calls + [Tick(key, now)], k, w) == CountIn(calls, k, w) + if k == key && w == Window(now) then 1
          else 0
    {
      CountAppend(calls, Tick(key, now), k, w);
    }
    var cleaned := Cleaned(local, Window(now));
    forall k | k !in cleaned || cleaned[k].window != Window(now)
      ensures CountIn(calls, k, Window(now)) == 0
    {
      UncountedAfterCleaning(local, calls, k, now, latest);
    }
  }

  /** A large map keeps only keys seen in the current minute; a small one grows by at most one. */
  lemma TableBounded(local: map<string, Bucket>, calls: seq<Tick>, key: string, now: nat, latest: nat)
    requires LocalValid(local, calls, latest) && latest <= now
    ensures var after := Bumped(local, key, Window(now));
            |after| <= 512 || |after| <= |KeysIn(calls + [Tick(key, now)], Window(now))|
  {
    hide CountIn, KeysIn;
    WindowMonotone(latest, now);
    var after := Bumped(local, key, Window(now));
    CallRecorded(local, calls, key, now, latest);
    if |local| < CLEANUP_THRESHOLD {
      assert after.Keys == local.Keys + {key};
    } else {
      var seen := KeysIn(calls + [Tick(key, now)], Window(now));
      forall k | k in after
        ensures k in seen
      {
        CountedIsSeen(calls + [Tick(key, now)], k, Window(now));
      }
      SubsetSize(after.Keys, seen);
    }
  }

  datatype Backend = Redis | Local

  /** A request the middleware counted, and what it was counted as. */
  datatype Hit = Hit(key: string, backend: Backend, at: nat, count: nat)

  predicate SameSlot(h: Hit, key: string, backend: Backend, window: nat) {
    h.key == key && h.backend == backend && Window(h.at) == window
  }

  function SlotCount(hits: seq<Hit>, key: string, backend: Backend, window: nat): nat {
    if hits == [] then 0
    else SlotCount(hits[..|hits| - 1], key, backend, window) + if SameSlot(hits[|hits| - 1], key, backend, window)
        then 1 else 0
  }

  lemma SlotAppend(hits: seq<Hit>, h: Hit, key: string, backend: Backend, window: nat)
    ensures SlotCount(hits + [h], key, backend, window) ==
        SlotCount(hits, key, backend, window) + if SameSlot(h, key, backend, window) then 1 else 0
  {
    assert (hits + [h])[..|hits|] == hits;
  }

  /** Every request is counted as more than all earlier ones of its key, backend and minute. */
  ghost predicate WellCounted(hits: seq<Hit>) {
    forall i :: 0 <= i < |hits| ==>
        SlotCount(hits[..i], hits[i].key, hits[i].backend, Window(hits[i].at)) < hits[i].count
  }

  class Limiter {
    const limit: int
    var local: map<string, Bucket>

    ghost var calls: seq<Tick>
    ghost var latest: nat
    ghost var hits: seq<Hit>

    ghost predicate Valid()
      reads this
    {
      && local == TableAfter(calls)
      && LocalValid(local, calls, latest)
      && (forall k, w :: SlotCount(hits, k, Local, w) == CountIn(calls, k, w))
      && WellCounted(hits)
    }

    constructor (limit: int)
      ensures Valid() && this.limit == limit && local == map[] && calls == [] && hits == [] && latest == 0
    {
      this.limit := limit;
      local, calls, latest, hits := map[], [], 0, [];
    }

    /** Drops the buckets of past minutes, but only from a large map. */
    method CleanupLocal(currentWindow: nat)
      modifies `local
      ensures local == Cleaned(old(local), currentWindow)
      ensures forall k :: k in local <==>
          k in old(local) && (|old(local)| < 512 || currentWindow <= old(local)[k].window)
      ensures forall k :: k in local ==> local[k] == old(local)[k]
    {
      if |local| < CLEANUP_THRESHOLD {
        return;
      }
      var keys := local.Keys;
      while keys != {}
        invariant keys <= old(local).Keys
        invariant local == map k | k in old(local) && (k in keys || !(old(local)[k].window < currentWindow)) ::
            old(local)[k]
        decreases |keys|
      {
        var key :| key in keys;
        if local[key].window < currentWindow {
          local := local - {key};
        }
        keys := keys - {key};
      }
    }

    /** Whatever the clock does, the map is the one the calls so far determine. With a clock that does not run
        backwards the result is the number of calls so far for this key in the current minute, and the map stays
        within its bound. */
    method IncrementLocal(key: string, now: nat) returns (count: nat)
      requires local == TableAfter(calls)
      modifies `local, `calls, `latest
      ensures calls == old(calls) + [Tick(key, now)] && latest == now
      ensures local == TableAfter(calls) && key in local && count == local[key].count
      ensures old(LocalValid(local, calls, latest)) && old(latest) <= now ==>
                && count == CountIn(calls, key, Window(now))
                && LocalValid(local, calls, now)
                && (|local| <= 512 || |local| <= |KeysIn(calls, Window(now))|)
    {
      hide LocalValid, CountIn, KeysIn, Cleaned;
      if LocalValid(local, calls, latest) && latest <= now {
        CallRecorded(local, calls, key, now, latest);
        TableBounded(local, calls, key, now, latest);
      }
      TableAppend(calls, Tick(key, now));
      var window := Window(now);
      CleanupLocal(window);
      var value := if key in local then local[key] else Bucket(0, 0);
      if key !in local || value.window != window {
        value := Bucket(window, 0);
      }
      value := value.(count := value.count + 1);
      local := local[key := value];
      count := value.count;
      calls, latest := calls + [Tick(key, now)], now;
    }

    /** The middleware: Redis first, the local counter when that fails; a request over the limit is refused. The client
        is told how many more would be admitted, when the minute turns, and, when refused, after how many seconds to
        retry. `reply` is the Redis counter's answer, none when Redis is disabled or failing; `now`, `later` and `last`
        are the three readings of the clock. */
    method Admit(key: string, now: nat, reply: Option<nat>, later: nat, last: nat)
      returns (admitted: bool, remaining: nat, resetAt: nat, retryAfter: Option<nat>)
      requires Valid() && latest <= now
      requires reply.Some? ==> SlotCount(hits, key, Redis, Window(now)) < reply.value
      modifies this
      ensures Valid() && latest <= now
      ensures calls == if reply.Some? then old(calls) else old(calls) + [Tick(key, now)]
      ensures var h :=
                if reply.Some? then Hit(key, Redis, now, reply.value)
                else Hit(key, Local, now, CountIn(calls, key, Window(now)));
              && hits == old(hits) + [h]
              && admitted == (h.count <= limit)
              && remaining == if h.count <= limit then limit - h.count else 0
      ensures resetAt % (60 * SECOND) == 0 && later < resetAt <= later + 60 * SECOND
      ensures retryAfter.Some? <==> !admitted
      ensures retryAfter.Some? ==>
                && 1 <= retryAfter.value
                && (1 < retryAfter.value ==> last + retryAfter.value * SECOND <= resetAt)
                && resetAt < last + (retryAfter.value + 1) * SECOND
    {
      hide LocalValid, TableAfter, CountIn, WellCounted, SlotCount, Window;
      var count: nat;
      ghost var backend := Redis;
      ghost var before := hits;
      if reply.Some? {
        count := reply.value;
      } else {
        count := IncrementLocal(key, now);
        backend := Local;
        CountAppend(old(calls), Tick(key, now), key, Window(now));
        assert SlotCount(before, key, Local, Window(now)) < count;
      }
      admitted := count <= limit;
      remaining := if admitted then limit - count else 0;
      resetAt := Window(later) + MINUTE;
      TurnOfMinute(later);
      retryAfter := if admitted then None else Some(RetryAfter(resetAt, last));
      hits := hits + [Hit(key, backend, now, count)];
      HitRecorded(before, Hit(key, backend, now, count), old(calls), calls);
    }
  }

  lemma TurnOfMinute(at: nat)
    ensures (Window(at) + MINUTE) % MINUTE == 0
  {
  }

  /** Whole seconds from `last` to the reset, but at least one. */
  function RetryAfter(resetAt: nat, last: nat): (seconds: nat)
    ensures 1 <= seconds && (1 < seconds ==> last + seconds * SECOND <= resetAt)
        && resetAt < last + (seconds + 1) * SECOND
  {
    if last + SECOND <= resetAt then (resetAt - last) / SECOND else 1
  }

  lemma OneMore(hits: seq<Hit>, h: Hit)
    requires WellCounted(hits) && SlotCount(hits, h.key, h.backend, Window(h.at)) < h.count
    ensures WellCounted(hits + [h])
  {
    var all := hits + [h];
    forall i | 0 <= i < |all|
      ensures SlotCount(all[..i], all[i].key, all[i].backend, Window(all[i].at)) < all[i].count
    {
      assert all[..i] == hits[..i];
      if i == |hits| {
        assert hits[..i] == hits;
      }
    }
  }

  lemma HitRecorded(hits: seq<Hit>, h: Hit, before: seq<Tick>, after: seq<Tick>)
    requires WellCounted(hits) && SlotCount(hits, h.key, h.backend, Window(h.at)) < h.count
    requires forall k, w :: SlotCount(hits, k, Local, w) == CountIn(before, k, w)
    requires after == if h.backend == Local then before + [Tick(h.key, h.at)] else before
    ensures WellCounted(hits + [h])
    ensures forall k, w :: SlotCount(hits + [h], k, Local, w) == CountIn(after, k, w)
  {
    var all := hits + [h];
    OneMore(hits, h);
    forall k, w
      ensures SlotCount(all, k, Local, w) == CountIn(after, k, w)
    {
      SlotAppend(hits, h, k, Local, w);
      if h.backend == Local {
        CountAppend(before, Tick(h.key, h.at), k, w);
      }
    }
  }

  // ---- Sliding admission bound ----

  predicate AdmittedIn(h: Hit, limit: int, key: string, backend: Backend, from: nat, to: nat) {
    h.key == key && h.backend == backend && from <= h.at < to && h.count <= limit
  }

  /** Requests of a key that one backend admitted in the half-open interval. */
  function Admitted(hits: seq<Hit>, limit: int, key: string, backend: Backend, from: nat, to: nat): nat {
    if hits == [] then 0
    else
      Admitted(hits[..|hits| - 1], limit, key, backend, from, to)
      + if AdmittedIn(hits[|hits| - 1], limit, key, backend, from, to) then 1 else 0
  }

  function Quota(limit: int): nat {
    if limit < 0 then 0 else limit
  }

  lemma WellCountedPrefix(hits: seq<Hit>)
    requires WellCounted(hits) && hits != []
    ensures WellCounted(hits[..|hits| - 1])
    ensures SlotCount(hits[..|hits| - 1], hits[|hits| - 1].key, hits[|hits| - 1].backend,
        Window(hits[|hits| - 1].at)) < hits[|hits| - 1].count
  {
    var init := hits[..|hits| - 1];
    forall i | 0 <= i < |init|
      ensures SlotCount(init[..i], init[i].key, init[i].backend, Window(init[i].at)) < init[i].count
    {
      assert init[..i] == hits[..i];
    }
  }

  /** One backend admits at most the limit in one minute of the clock. */
  lemma {:induction false} MinuteBound(hits: seq<Hit>, limit: int, key: string, backend: Backend, window: nat)
    requires WellCounted(hits) && window % MINUTE == 0
    ensures Admitted(hits, limit, key, backend, window, window + MINUTE) <= Quota(limit)
    ensures Admitted(hits, limit, key, backend, window, window + MINUTE) <= SlotCount(hits, key, backend, window)
  {
    if hits != [] {
      WellCountedPrefix(hits);
      MinuteBound(hits[..|hits| - 1], limit, key, backend, window);
      InMinute(hits[|hits| - 1].at, window);
    }
  }

  lemma InMinute(at: nat, window: nat)
    requires window % MINUTE == 0
    ensures window <= at < window + MINUTE <==> Window(at) == window
  {
  }

  lemma {:induction false} TwoMinutesCover(hits: seq<Hit>, limit: int, key: string, backend: Backend, from: nat,
      window: nat)
    requires window <= from < window + MINUTE
    ensures Admitted(hits, limit, key, backend, from, from + MINUTE)
         <= Admitted(hits, limit, key, backend, window, window + MINUTE) + Admitted(hits, limit, key, backend,
             window + MINUTE, window + 2 * MINUTE)
  {
    if hits != [] {
      TwoMinutesCover(hits[..|hits| - 1], limit, key, backend, from, window);
    }
  }

  /** Sliding admission bound: any half-open minute admits at most twice the limit through one backend. */
  lemma OneBackendBound(hits: seq<Hit>, limit: int, key: string, backend: Backend, from: nat)
    requires WellCounted(hits)
    ensures Admitted(hits, limit, key, backend, from, from + 60 * SECOND) <= 2 * Quota(limit)
  {
    var w := Window(from);
    TwoMinutesCover(hits, limit, key, backend, from, w);
    MinuteBound(hits, limit, key, backend, w);
    MinuteBound(hits, limit, key, backend, w + MINUTE);
  }

  /** And at most four times the limit when requests fall back from Redis to the local counter at any point. */
  lemma FallbackBound(hits: seq<Hit>, limit: int, key: string, from: nat)
    requires WellCounted(hits)
    ensures Admitted(hits, limit, key, Redis, from, from + 60 * SECOND) + Admitted(hits, limit, key, Local, from,
        from + 60 * SECOND) <= 4 * Quota(limit)
  {
    OneBackendBound(hits, limit, key, Redis, from);
    OneBackendBound(hits, limit, key, Local, from);
  }

  /** Requests counted 1, 2, ... at one moment. */
  function Burst(n: nat, key: string, backend: Backend, at: nat): seq<Hit> {
    seq(n, i requires 0 <= i < n => Hit(key, backend, at, i + 1))
  }

  lemma BurstStep(hits: seq<Hit>, n: nat, key: string, backend: Backend, at: nat)
    requires n > 0
    ensures hits + Burst(n, key, backend, at) == (hits + Burst(n - 1, key, backend, at)) + [Hit(key, backend, at, n)]
  {
  }

  lemma {:induction false} BurstSlots(hits: seq<Hit>, n: nat, key: string, backend: Backend, at: nat, b: Backend,
      w: nat)
    ensures SlotCount(hits + Burst(n, key, backend, at), key, b, w)
         == SlotCount(hits, key, b, w) + if b == backend && w == Window(at) then n else 0
  {
    hide Window;
    if n == 0 {
      assert hits + Burst(n, key, backend, at) == hits;
    } else {
      BurstStep(hits, n, key, backend, at);
      BurstSlots(hits, n - 1, key, backend, at, b, w);
      SlotAppend(hits + Burst(n - 1, key, backend, at), Hit(key, backend, at, n), key, b, w);
    }
  }

  lemma AdmittedAppend(hits: seq<Hit>, h: Hit, limit: int, key: string, b: Backend, from: nat, to: nat)
    ensures Admitted(hits + [h], limit, key, b, from, to)
         == Admitted(hits, limit, key, b, from, to) + if AdmittedIn(h, limit, key, b, from, to) then 1 else 0
  {
    assert (hits + [h])[..|hits|] == hits;
  }

  lemma {:induction false} BurstAdmitted(hits: seq<Hit>, n: nat, limit: int, key: string, backend: Backend, at: nat,
      b: Backend, from: nat, to: nat)
    requires n <= limit && from <= at < to
    ensures Admitted(hits + Burst(n, key, backend, at), limit, key, b, from, to)
         == Admitted(hits, limit, key, b, from, to) + if b == backend then n else 0
  {
    if n == 0 {
      assert hits + Burst(n, key, backend, at) == hits;
    } else {
      BurstStep(hits, n, key, backend, at);
      BurstAdmitted(hits, n - 1, limit, key, backend, at, b, from, to);
      AdmittedAppend(hits + Burst(n - 1, key, backend, at), Hit(key, backend, at, n), limit, key, b, from, to);
    }
  }

  lemma {:induction false} BurstWellCounted(hits: seq<Hit>, n: nat, key: string, backend: Backend, at: nat)
    requires WellCounted(hits) && SlotCount(hits, key, backend, Window(at)) == 0
    ensures WellCounted(hits + Burst(n, key, backend, at))
  {
    hide Window;
    if n == 0 {
      assert hits + Burst(n, key, backend, at) == hits;
    } else {
      hide WellCounted;
      BurstStep(hits, n, key, backend, at);
      BurstWellCounted(hits, n - 1, key, backend, at);
      BurstSlots(hits, n - 1, key, backend, at, backend, Window(at));
      OneMore(hits + Burst(n - 1, key, backend, at), Hit(key, backend, at, n));
    }
  }

  /** A client that spends its quota just before and again just after the turn of a minute, through both backends. */
  function WorstHits(limit: nat, key: string): seq<Hit> {
    Burst(limit, key, Redis, MINUTE - 1) + Burst(limit, key, Local, MINUTE - 1)
    + Burst(limit, key, Redis, MINUTE) + Burst(limit, key, Local, MINUTE)
  }

  lemma AddBurst(hits: seq<Hit>, limit: nat, key: string, backend: Backend, at: nat, from: nat)
    requires WellCounted(hits) && SlotCount(hits, key, backend, Window(at)) == 0 && from <= at < from + MINUTE
    ensures var more := hits + Burst(limit, key, backend, at);
            && WellCounted(more)
            && (forall b, w ::
                  SlotCount(more, key, b, w) == SlotCount(hits, key, b, w) + if b == backend
                      && w == Window(at) then limit else 0)
            && var to := from + MINUTE;
               forall b ::
                 Admitted(more, limit, key, b, from, to) == Admitted(hits, limit, key, b, from, to) + if b == backend
                     then limit else 0
  {
    hide Window, WellCounted, Burst, SlotCount, Admitted;
    var more := hits + Burst(limit, key, backend, at);
    BurstWellCounted(hits, limit, key, backend, at);
    forall b, w
      ensures SlotCount(more, key, b, w) == SlotCount(hits, key, b, w) + if b == backend && w == Window(at) then limit
          else 0
    {
      BurstSlots(hits, limit, key, backend, at, b, w);
    }
    var to := from + MINUTE;
    forall b
      ensures Admitted(more, limit, key, b, from, to) == Admitted(hits, limit, key, b, from, to) + if b == backend
          then limit else 0
    {
      BurstAdmitted(hits, limit, limit, key, backend, at, b, from, to);
    }
  }

  /** Neither factor can be improved: for every limit these hits are admitted in full within one minute. */
  lemma BoundsAttained(limit: nat, key: string)
    ensures Admitted(WorstHits(limit, key), limit, key, Redis, MINUTE - 1, MINUTE - 1 + MINUTE) == 2 * limit
    ensures Admitted(WorstHits(limit, key), limit, key, Local, MINUTE - 1, MINUTE - 1 + MINUTE) == 2 * limit
  {
    hide Burst;
    var from := MINUTE - 1;
    var one := Burst(limit, key, Redis, from);
    var two := one + Burst(limit, key, Local, from);
    var three := two + Burst(limit, key, Redis, MINUTE);
    assert [] + one == one;
    AddBurst([], limit, key, Redis, from, from);
    AddBurst(one, limit, key, Local, from, from);
    AddBurst(two, limit, key, Redis, MINUTE, from);
    AddBurst(three, limit, key, Local, MINUTE, from);
  }

  /** The limiter itself counts `n` requests of a key at one moment as 1, 2, ..., n. */
  method Spend(l: Limiter, n: nat, key: string, now: nat, backend: Backend)
    requires l.Valid() && l.latest <= now && SlotCount(l.hits, key, backend, Window(now)) == 0
    modifies l
    ensures l.Valid() && l.latest <= now && l.hits == old(l.hits) + Burst(n, key, backend, now)
  {
    hide Window, SlotCount, CountIn, LocalValid, TableAfter, WellCounted;
    ghost var hits := l.hits;
    assert hits + Burst(0, key, backend, now) == hits;
    for i := 0 to n
      invariant l.Valid() && l.latest <= now && l.hits == hits + Burst(i, key, backend, now)
    {
      BurstSlots(hits, i, key, backend, now, backend, Window(now));
      CountAppend(l.calls, Tick(key, now), key, Window(now));
      var admitted, remaining, resetAt, retryAfter :=
        l.Admit(key, now, if backend == Redis then Some(i + 1) else None, now, now);
      BurstStep(hits, i + 1, key, backend, now);
    }
  }

  /** And such hits are what a limiter goes through: the bounds are reached by a run of the code. */
  method WorstMinute(limit: nat, key: string) returns (l: Limiter)
    ensures fresh(l) && l.Valid() && l.limit == limit && l.hits == WorstHits(limit, key)
  {
    hide Burst, LocalValid, TableAfter, CountIn;
    l := new Limiter(limit);
    var from := MINUTE - 1;
    var one := Burst(limit, key, Redis, from);
    var two := one + Burst(limit, key, Local, from);
    assert [] + one == one;
    AddBurst([], limit, key, Redis, from, from);
    AddBurst(one, limit, key, Local, from, from);
    AddBurst(two, limit, key, Redis, MINUTE, from);
    Spend(l, limit, key, from, Redis);
    Spend(l, limit, key, from, Local);
    Spend(l, limit, key, MINUTE, Redis);
    Spend(l, limit, key, MINUTE, Local);
  }

  /** The monotone clock is needed: when the clock steps back over the turn of a minute and forward again, the
      bucket is reset and the second call of that minute is counted as the first. */
  lemma BackwardClockForgets(key: string)
    ensures var there := Bumped(Bumped(Bumped(map[], key, MINUTE), key, 0), key, MINUTE);
            there[key].count == 1 && CountIn([Tick(key, MINUTE), Tick(key, 0), Tick(key, MINUTE)], key, MINUTE) == 2
  {
    hide CountIn;
    var one, two := [Tick(key, MINUTE)], [Tick(key, MINUTE), Tick(key, 0)];
    EmptyCount(key, MINUTE);
    CountAppend([], Tick(key, MINUTE), key, MINUTE);
    CountAppend(one, Tick(key, 0), key, MINUTE);
    CountAppend(two, Tick(key, MINUTE), key, MINUTE);
    assert [] + [Tick(key, MINUTE)] == one && one + [Tick(key, 0)] == two;
    assert two + [Tick(key, MINUTE)] == [Tick(key, MINUTE), Tick(key, 0), Tick(key, MINUTE)];
  }

  lemma EmptyCount(key: string, window: nat)
    ensures CountIn([], key, window) == 0
  {
  }
}
