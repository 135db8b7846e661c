/** The token-bucket rate limiter: lazy refill against a ticking reference, a bound on every window,
    and when the 60-second expiry of the key can be noticed. Times are in milliseconds; numbers are
    exact. */
module TokenBucket {
  import opened Types

  /** The key's hash, or no key. */
  datatype Bucket = Absent | Stored(tokens: real, last: int)

  const KEY_TTL := 60_000

  function Lesser(a: real, b: real): real { if a <= b then a else b }

  /** Tokens gained in n milliseconds. */
  function Gain(n: int, rate: real): real {
    (n as real) / 1000.0 * rate
  }

  lemma GainAdds(m: int, n: int, rate: real)
    ensures Gain(m + n, rate) == Gain(m, rate) + Gain(n, rate)
  {
    assert ((m + n) as real) / 1000.0 == (m as real) / 1000.0 + (n as real) / 1000.0;
  }

  lemma GainGrows(m: int, n: int, rate: real)
    requires m <= n && rate >= 0.0
    ensures Gain(m, rate) <= Gain(n, rate)
  {
    GainAdds(m, n - m, rate);
    assert ((n - m) as real) / 1000.0 >= 0.0;
  }

  /** What a call at `now` finds in the bucket. */
  function Level(b: Bucket, capacity: real, rate: real, now: int): real {
    match b
    case Absent => capacity
    case Stored(tokens, last) => Lesser(capacity, tokens + Gain(now - last, rate))
  }

  /** One call of the script on a key that never expires: the bucket after it and the reply. */
  function Take(b: Bucket, capacity: real, rate: real, now: int): (Bucket, int) {
    var tokens := Level(b, capacity, rate, now);
    if tokens < 1.0 then (b, -1) else (Stored(tokens - 1.0, now), (tokens - 1.0).Floor)
  }

  /** Redis drops the key 60 s after the last allowed call. */
  function Expire(b: Bucket, now: int): Bucket {
    if b.Stored? && now - b.last >= KEY_TTL then Absent else b
  }

  function TakeExpiring(b: Bucket, capacity: real, rate: real, now: int): (Bucket, int) {
    Take(Expire(b, now), capacity, rate, now)
  }

  class Limiter {
    const capacity: real
    const ratePerSec: real
    var buckets: map<UserId, Bucket>   // the stored hashes; an absent key has no entry

    constructor (capacity: real, ratePerSec: real)
      ensures this.capacity == capacity && this.ratePerSec == ratePerSec && buckets == map[]
    {
      this.capacity, this.ratePerSec, buckets := capacity, ratePerSec, map[];
    }

    function BucketOf(u: UserId): Bucket
      reads this
    {
      if u in buckets then buckets[u] else Absent
    }

    /** One request of user u, on one clock shared with Redis. */
    method Allow(u: UserId, now: int) returns (allowed: bool, remaining: int)
      modifies this`buckets
      ensures var t := TakeExpiring(old(BucketOf(u)), capacity, ratePerSec, now);
        && BucketOf(u) == t.0
        && allowed == (t.1 != -1) && remaining == (if allowed then t.1 else 0)
      ensures forall v | v != u :: BucketOf(v) == old(BucketOf(v))
    {
      if u in buckets && buckets[u].Stored? && now - buckets[u].last >= KEY_TTL {
        buckets := buckets - {u};
      }
      var tokens, last := capacity, now;
      if u in buckets && buckets[u].Stored? {
        tokens, last := buckets[u].tokens, buckets[u].last;
      }
      var elapsed := (now - last) as real / 1000.0;
      assert elapsed * ratePerSec == Gain(now - last, ratePerSec) && Gain(0, ratePerSec) == 0.0;
      tokens := Lesser(capacity, tokens + elapsed * ratePerSec);
      assert tokens == Level(Expire(old(BucketOf(u)), now), capacity, ratePerSec, now);
      if tokens < 1.0 { return false, 0; }
      tokens := tokens - 1.0;
      buckets := buckets[u := Stored(tokens, now)];
      return true, tokens.Floor;
    }
  }

  // ---- runs of calls at given times

  function Replies(b: Bucket, capacity: real, rate: real, ts: seq<int>): seq<int>
    decreases |ts|
  {
    if ts == [] then []
    else var (b', r) := Take(b, capacity, rate, ts[0]); [r] + Replies(b', capacity, rate, ts[1..])
  }

  function ExpiringReplies(b: Bucket, capacity: real, rate: real, ts: seq<int>): seq<int>
    decreases |ts|
  {
    if ts == [] then []
    else var (b', r) := TakeExpiring(b, capacity, rate, ts[0]); [r] + ExpiringReplies(b', capacity, rate, ts[1..])
  }

  function Allowed(replies: seq<int>): nat
    decreases |replies|
  {
    if replies == [] then 0 else (if replies[0] == -1 then 0 else 1) + Allowed(replies[1..])
  }

  predicate Clock(ts: seq<int>) {
    forall i, j | 0 <= i <= j < |ts| :: ts[i] <= ts[j]
  }

  /** What calls leave behind: between zero and one token less than the capacity. */
  predicate Sound(b: Bucket, capacity: real, ts: seq<int>) {
    b.Stored? ==> 0.0 <= b.tokens <= capacity - 1.0 && (ts != [] ==> b.last <= ts[0])
  }

  // ---- the window bound

  /** The bucket after the run, and the potential that every allowed call lowers by at least one. */
  function After(b: Bucket, capacity: real, rate: real, ts: seq<int>): Bucket
    decreases |ts|
  {
    if ts == [] then b else After(Take(b, capacity, rate, ts[0]).0, capacity, rate, ts[1..])
  }

  function Potential(b: Bucket, rate: real): real
    requires b.Stored?
  {
    b.tokens - Gain(b.last, rate)
  }

  lemma TakeLowersPotential(b: Bucket, capacity: real, rate: real, now: int)
    requires b.Stored? && Take(b, capacity, rate, now).1 != -1
    ensures var b' := Take(b, capacity, rate, now).0;
      b'.Stored? && b'.last == now && Potential(b', rate) <= Potential(b, rate) - 1.0
  {
    GainAdds(now - b.last, b.last, rate);
  }

  /** Whatever the clock does, even running backwards. */
  lemma {:induction false} RunLowersPotential(b: Bucket, capacity: real, rate: real, ts: seq<int>)
    requires b.Stored? && b.tokens >= 0.0
    ensures var e := After(b, capacity, rate, ts);
      && e.Stored? && e.tokens >= 0.0 && (e.last == b.last || e.last in ts)
      && Potential(e, rate) <= Potential(b, rate) - Allowed(Replies(b, capacity, rate, ts)) as real
    decreases |ts|
  {
    if ts != [] {
      var b' := Take(b, capacity, rate, ts[0]).0;
      if Take(b, capacity, rate, ts[0]).1 != -1 { TakeLowersPotential(b, capacity, rate, ts[0]); }
      RunLowersPotential(b', capacity, rate, ts[1..]);
    }
  }

  /** From any bucket that calls leave behind, a run is allowed at most the capacity plus what its
      duration refills. */
  lemma {:induction false} RunBound(b: Bucket, capacity: real, rate: real, ts: seq<int>)
    requires rate >= 0.0 && capacity >= 0.0 && ts != [] && Clock(ts) && Sound(b, capacity, ts)
    ensures Allowed(Replies(b, capacity, rate, ts)) as real <= capacity + Gain(ts[|ts| - 1] - ts[0], rate)
    decreases |ts|
  {
    var first, last, rest := ts[0], ts[|ts| - 1], ts[1..];
    var (b', r) := Take(b, capacity, rate, first);
    GainGrows(0, last - first, rate);
    if r != -1 {
      RunLowersPotential(b', capacity, rate, rest);
      var e := After(b', capacity, rate, rest);
      assert e.last <= last;
      GainGrows(e.last, last, rate);
      GainAdds(last - first, first, rate);
    } else if rest != [] {
      RunBound(b, capacity, rate, rest);
      GainGrows(last - rest[0], last - first, rate);
    }
  }

  lemma {:induction false} ReplyCount(b: Bucket, capacity: real, rate: real, ts: seq<int>)
    ensures |Replies(b, capacity, rate, ts)| == |ts|
    decreases |ts|
  {
    if ts != [] { ReplyCount(Take(b, capacity, rate, ts[0]).0, capacity, rate, ts[1..]); }
  }

  lemma {:induction false} RepliesConcat(b: Bucket, capacity: real, rate: real, us: seq<int>, vs: seq<int>)
    ensures Replies(b, capacity, rate, us + vs)
         == Replies(b, capacity, rate, us) + Replies(After(b, capacity, rate, us), capacity, rate, vs)
    decreases |us|
  {
    if us == [] {
      assert us + vs == vs;
    } else {
      assert (us + vs)[0] == us[0] && (us + vs)[1..] == us[1..] + vs;
      RepliesConcat(Take(b, capacity, rate, us[0]).0, capacity, rate, us[1..], vs);
    }
  }

  lemma {:induction false} AfterIsSound(b: Bucket, capacity: real, rate: real, ts: seq<int>, us: seq<int>)
    requires Clock(ts + us) && Sound(b, capacity, ts + us)
    ensures Sound(After(b, capacity, rate, ts), capacity, us)
    decreases |ts|
  {
    if ts == [] {
      assert ts + us == us;
    } else {
      var rest := ts[1..] + us;
      assert (ts + us)[1..] == rest;
      assert forall i | 0 <= i < |rest| :: rest[i] == (ts + us)[i + 1];
      assert (ts + us)[0] == ts[0];
      AfterIsSound(Take(b, capacity, rate, ts[0]).0, capacity, rate, ts[1..], us);
    }
  }

  // ---- the key's expiry

  /** When the bucket refills within the key's life, dropping the key cannot be noticed. */
  lemma TakeHidesExpiry(b: Bucket, capacity: real, rate: real, now: int)
    requires rate >= 0.0 && capacity <= 60.0 * rate
    requires b.Stored? ==> 0.0 <= b.tokens <= capacity - 1.0
    ensures TakeExpiring(b, capacity, rate, now) == Take(b, capacity, rate, now)
  {
    if b.Stored? && now - b.last >= KEY_TTL {
      GainGrows(KEY_TTL, now - b.last, rate);
      assert Gain(KEY_TTL, rate) == 60.0 * rate;
      assert Level(b, capacity, rate, now) == capacity;
    }
  }

  lemma {:induction false} ExpiryIsHidden(b: Bucket, capacity: real, rate: real, ts: seq<int>)
    requires rate >= 0.0 && capacity <= 60.0 * rate && Clock(ts) && Sound(b, capacity, ts)
    ensures ExpiringReplies(b, capacity, rate, ts) == Replies(b, capacity, rate, ts)
    decreases |ts|
  {
    if ts != [] {
      TakeHidesExpiry(b, capacity, rate, ts[0]);
      ExpiryIsHidden(Take(b, capacity, rate, ts[0]).0, capacity, rate, ts[1..]);
    }
  }

  lemma MiddleSlice(a: seq<int>, b: seq<int>, c: seq<int>)
    ensures (a + (b + c))[|a|..|a| + |b|] == b
  {
  }

  /** A window of a run is a run from the bucket that the calls before it leave. */
  lemma WindowIsARun(capacity: real, rate: real, ts: seq<int>, i: nat, j: nat)
    requires i <= j <= |ts|
    ensures |Replies(Absent, capacity, rate, ts)| == |ts|
    ensures Replies(Absent, capacity, rate, ts)[i..j]
         == Replies(After(Absent, capacity, rate, ts[..i]), capacity, rate, ts[i..j])
  {
    var us, vs, ws := ts[..i], ts[i..j], ts[j..];
    var b := After(Absent, capacity, rate, us);
    ReplyCount(Absent, capacity, rate, ts);
    ReplyCount(Absent, capacity, rate, us);
    ReplyCount(b, capacity, rate, vs);
    assert ts == us + (vs + ws);
    RepliesConcat(Absent, capacity, rate, us, vs + ws);
    RepliesConcat(b, capacity, rate, vs, ws);
    MiddleSlice(Replies(Absent, capacity, rate, us), Replies(b, capacity, rate, vs),
                Replies(After(b, capacity, rate, vs), capacity, rate, ws));
  }

  lemma WindowIsSound(capacity: real, rate: real, ts: seq<int>, i: nat, j: nat)
    requires Clock(ts) && i < j <= |ts|
    ensures Clock(ts[i..j]) && Sound(After(Absent, capacity, rate, ts[..i]), capacity, ts[i..j])
  {
    assert ts == ts[..i] + ts[i..];
    AfterIsSound(Absent, capacity, rate, ts[..i], ts[i..]);
    assert ts[i..][0] == ts[i..j][0];
  }

  /** Every window of every run on a non-decreasing clock. */
  lemma WindowBound(capacity: real, rate: real, ts: seq<int>, i: nat, j: nat)
    requires 0.0 <= capacity <= 60.0 * rate && Clock(ts) && i < j <= |ts|
    ensures |ExpiringReplies(Absent, capacity, rate, ts)| == |ts|
    ensures Allowed(ExpiringReplies(Absent, capacity, rate, ts)[i..j]) as real
         <= capacity + Gain(ts[j - 1] - ts[i], rate)
  {
    ExpiryIsHidden(Absent, capacity, rate, ts);
    WindowIsARun(capacity, rate, ts, i, j);
    WindowIsSound(capacity, rate, ts, i, j);
    RunBound(After(Absent, capacity, rate, ts[..i]), capacity, rate, ts[i..j]);
  }

  // ---- a reference bucket that ticks

  function Tick(level: real, capacity: real, rate: real): real {
    Lesser(capacity, level + rate / 1000.0)
  }

  function Ticks(level: real, capacity: real, rate: real, n: nat): real
    decreases n
  {
    if n == 0 then level else Tick(Ticks(level, capacity, rate, n - 1), capacity, rate)
  }

  /** The reference: tick once a millisecond, then take a token if there is one. */
  function TickingReplies(level: real, clock: int, capacity: real, rate: real, ts: seq<int>): seq<int>
    requires Clock(ts) && (ts != [] ==> clock <= ts[0])
    decreases |ts|
  {
    if ts == [] then []
    else
      var found := Ticks(level, capacity, rate, ts[0] - clock);
      if found < 1.0 then [-1] + TickingReplies(found, ts[0], capacity, rate, ts[1..])
      else [(found - 1.0).Floor] + TickingReplies(found - 1.0, ts[0], capacity, rate, ts[1..])
  }

  lemma {:induction false} TicksClosedForm(level: real, capacity: real, rate: real, n: nat)
    requires level <= capacity && rate >= 0.0
    ensures Ticks(level, capacity, rate, n) == Lesser(capacity, level + Gain(n, rate))
    decreases n
  {
    if n > 0 {
      TicksClosedForm(level, capacity, rate, n - 1);
      GainAdds(n - 1, 1, rate);
      GainGrows(0, 1, rate);
      assert Gain(1, rate) == rate / 1000.0;
    }
  }

  lemma TicksCatchUp(b: Bucket, capacity: real, rate: real, clock: int, now: int)
    requires rate >= 0.0 && clock <= now && (b.Stored? ==> b.last <= clock)
    ensures Ticks(Level(b, capacity, rate, clock), capacity, rate, now - clock) == Level(b, capacity, rate, now)
  {
    TicksClosedForm(Level(b, capacity, rate, clock), capacity, rate, now - clock);
    GainGrows(0, now - clock, rate);
    if b.Stored? { GainAdds(clock - b.last, now - clock, rate); }
  }

  /** Lazy refill refines the ticking bucket: same answers and same remaining counts, though denied
      calls write nothing. */
  lemma {:induction false} LazyRefill(b: Bucket, capacity: real, rate: real, clock: int, ts: seq<int>)
    requires rate >= 0.0 && Clock(ts) && (ts != [] ==> clock <= ts[0]) && (b.Stored? ==> b.last <= clock)
    ensures Replies(b, capacity, rate, ts)
         == TickingReplies(Level(b, capacity, rate, clock), clock, capacity, rate, ts)
    decreases |ts|
  {
    if ts != [] {
      var now := ts[0];
      TicksCatchUp(b, capacity, rate, clock, now);
      var (b', r) := Take(b, capacity, rate, now);
      assert r != -1 ==> Level(b', capacity, rate, now) == b'.tokens by {
        assert Gain(0, rate) == 0.0;
      }
      LazyRefill(b', capacity, rate, now, ts[1..]);
    }
  }

  // ---- the condition is exact for whole capacities

  function Burst(t: int, n: nat): seq<int> { seq(n, _ => t) }

  function ExpiringAfter(b: Bucket, capacity: real, rate: real, ts: seq<int>): Bucket
    decreases |ts|
  {
    if ts == [] then b else ExpiringAfter(TakeExpiring(b, capacity, rate, ts[0]).0, capacity, rate, ts[1..])
  }

  lemma {:induction false} ExpiringConcat(b: Bucket, capacity: real, rate: real, us: seq<int>, vs: seq<int>)
    ensures ExpiringReplies(b, capacity, rate, us + vs)
         == ExpiringReplies(b, capacity, rate, us)
          + ExpiringReplies(ExpiringAfter(b, capacity, rate, us), capacity, rate, vs)
    decreases |us|
  {
    if us == [] {
      assert us + vs == vs;
    } else {
      assert (us + vs)[0] == us[0] && (us + vs)[1..] == us[1..] + vs;
      ExpiringConcat(TakeExpiring(b, capacity, rate, us[0]).0, capacity, rate, us[1..], vs);
    }
  }

  lemma {:induction false} AllowedConcat(a: seq<int>, b: seq<int>)
    ensures Allowed(a + b) == Allowed(a) + Allowed(b)
    decreases |a|
  {
    if a == [] {
      assert a + b == b;
    } else {
      assert (a + b)[1..] == a[1..] + b;
      AllowedConcat(a[1..], b);
    }
  }

  /** n simultaneous calls are allowed by a bucket that shows at least n tokens at that moment,
      with or without the key's expiry. */
  lemma {:induction false} BurstIsAllowed(b: Bucket, capacity: real, rate: real, t: int, n: nat)
    requires Expire(b, t) == b && Level(b, capacity, rate, t) >= n as real
    ensures Replies(b, capacity, rate, Burst(t, n)) == ExpiringReplies(b, capacity, rate, Burst(t, n))
    ensures Allowed(Replies(b, capacity, rate, Burst(t, n))) == n
    ensures var e := After(b, capacity, rate, Burst(t, n));
      && ExpiringAfter(b, capacity, rate, Burst(t, n)) == e
      && (n > 0 ==> e == Stored(Level(b, capacity, rate, t) - n as real, t))
    decreases n
  {
    if n > 0 {
      var b' := Take(b, capacity, rate, t).0;
      assert Gain(0, rate) == 0.0;
      assert Burst(t, n)[1..] == Burst(t, n - 1);
      BurstIsAllowed(b', capacity, rate, t, n - 1);
    }
  }

  lemma SlowRefill(c: nat, rate: real)
    requires c >= 1 && 0.0 <= rate && c as real > 60.0 * rate
    ensures Level(Stored(0.0, 0), c as real, rate, KEY_TTL) == 60.0 * rate
  {
    assert Gain(KEY_TTL, rate) == 60.0 * rate;
  }

  /** Empty the bucket at time 0 and empty it again when the key has expired. */
  function TwoBursts(c: nat): seq<int> { Burst(0, c) + Burst(KEY_TTL, c) }

  lemma TwoBurstsAllowed(c: nat, rate: real)
    requires c >= 1 && rate >= 0.0
    ensures Clock(TwoBursts(c))
    ensures Allowed(ExpiringReplies(Absent, c as real, rate, TwoBursts(c))) == 2 * c
  {
    var cap := c as real;
    BurstIsAllowed(Absent, cap, rate, 0, c);
    ExpiringConcat(Absent, cap, rate, Burst(0, c), Burst(KEY_TTL, c));
    BurstIsAllowed(Absent, cap, rate, KEY_TTL, c);
    AsIfAbsent(Stored(0.0, 0), cap, rate, Burst(KEY_TTL, c));
    AllowedConcat(ExpiringReplies(Absent, cap, rate, Burst(0, c)),
                  ExpiringReplies(Stored(0.0, 0), cap, rate, Burst(KEY_TTL, c)));
  }

  lemma AsIfAbsent(b: Bucket, capacity: real, rate: real, ts: seq<int>)
    requires ts != [] && b.Stored? && ts[0] - b.last >= KEY_TTL
    ensures ExpiringReplies(b, capacity, rate, ts) == ExpiringReplies(Absent, capacity, rate, ts)
  {
  }

  ghost predicate EveryRunBounded(capacity: real, rate: real) {
    forall ts | ts != [] && Clock(ts) ::
      Allowed(ExpiringReplies(Absent, capacity, rate, ts)) as real <= capacity + Gain(ts[|ts| - 1] - ts[0], rate)
  }

  /** The bound is a law of the deployed bucket exactly when it refills within the key's life. */
  lemma WindowBoundExactly(c: nat, rate: real)
    requires c >= 1 && rate >= 0.0
    ensures EveryRunBounded(c as real, rate) <==> c as real <= 60.0 * rate
  {
    var cap := c as real;
    if cap <= 60.0 * rate {
      forall ts | ts != [] && Clock(ts)
        ensures Allowed(ExpiringReplies(Absent, cap, rate, ts)) as real <= cap + Gain(ts[|ts| - 1] - ts[0], rate)
      {
        ExpiryIsHidden(Absent, cap, rate, ts);
        RunBound(Absent, cap, rate, ts);
      }
    } else {
      var ts := TwoBursts(c);
      TwoBurstsAllowed(c, rate);
      assert Gain(KEY_TTL, rate) == 60.0 * rate;
      assert ts[0] == 0 && ts[|ts| - 1] == KEY_TTL;
      assert !EveryRunBounded(cap, rate);
    }
  }

  ghost predicate ExpiryInvisible(capacity: real, rate: real) {
    forall ts | Clock(ts) ::
      ExpiringReplies(Absent, capacity, rate, ts) == Replies(Absent, capacity, rate, ts)
  }

  lemma LateReplyDiffers(c: nat, rate: real)
    requires c >= 1 && 0.0 <= rate && c as real > 60.0 * rate
    ensures Take(Stored(0.0, 0), c as real, rate, KEY_TTL).1 != Take(Absent, c as real, rate, KEY_TTL).1
  {
    SlowRefill(c, rate);
    assert c as real - 1.0 == (c - 1) as real;
    FloorBelow(60.0 * rate - 1.0, c - 1);
    FloorOfWhole(c - 1);
  }

  lemma FloorBelow(x: real, n: int)
    requires x < n as real
    ensures x.Floor < n
  {
  }

  lemma FloorOfWhole(n: int)
    ensures (n as real).Floor == n
  {
  }

  lemma ExpiryShows(c: nat, rate: real)
    requires c >= 1 && 0.0 <= rate && c as real > 60.0 * rate
    ensures ExpiringReplies(Absent, c as real, rate, Burst(0, c) + [KEY_TTL])
         != Replies(Absent, c as real, rate, Burst(0, c) + [KEY_TTL])
  {
    var cap, us, e := c as real, Burst(0, c), Stored(0.0, 0);
    BurstIsAllowed(Absent, cap, rate, 0, c);
    RepliesConcat(Absent, cap, rate, us, [KEY_TTL]);
    ExpiringConcat(Absent, cap, rate, us, [KEY_TTL]);
    LateReplyDiffers(c, rate);
    LastDiffers(Replies(Absent, cap, rate, us),
                ExpiringReplies(e, cap, rate, [KEY_TTL]), Replies(e, cap, rate, [KEY_TTL]));
  }

  lemma LastDiffers(s: seq<int>, a: seq<int>, b: seq<int>)
    requires |a| == |b| == 1 && a[0] != b[0]
    ensures s + a != s + b
  {
    assert (s + a)[|s|] == a[0] && (s + b)[|s|] == b[0];
  }

  /** Dropping the key is invisible to every client exactly under the same condition. */
  lemma ExpiryInvisibleExactly(c: nat, rate: real)
    requires c >= 1 && rate >= 0.0
    ensures ExpiryInvisible(c as real, rate) <==> c as real <= 60.0 * rate
  {
    if c as real <= 60.0 * rate {
      forall ts | Clock(ts)
        ensures ExpiringReplies(Absent, c as real, rate, ts) == Replies(Absent, c as real, rate, ts)
      {
        ExpiryIsHidden(Absent, c as real, rate, ts);
      }
    } else {
      ExpiryShows(c, rate);
    }
  }
  lemma {:induction false} AllDenied(capacity: real, rate: real, ts: seq<int>)
    requires capacity < 1.0
    ensures ExpiringReplies(Absent, capacity, rate, ts) == Replies(Absent, capacity, rate, ts)
    ensures Allowed(Replies(Absent, capacity, rate, ts)) == 0
    decreases |ts|
  {
    if ts != [] { AllDenied(capacity, rate, ts[1..]); }
  }

  /** A bucket that never holds a whole token keeps both laws at every rate. */
  lemma BelowOneNothingIsAllowed(capacity: real, rate: real)
    requires 0.0 <= capacity < 1.0 && rate >= 0.0
    ensures EveryRunBounded(capacity, rate) && ExpiryInvisible(capacity, rate)
  {
    forall ts | ts != [] && Clock(ts)
      ensures Allowed(ExpiringReplies(Absent, capacity, rate, ts)) as real
           <= capacity + Gain(ts[|ts| - 1] - ts[0], rate)
    {
      AllDenied(capacity, rate, ts);
      GainGrows(0, ts[|ts| - 1] - ts[0], rate);
    }
    forall ts | Clock(ts)
      ensures ExpiringReplies(Absent, capacity, rate, ts) == Replies(Absent, capacity, rate, ts)
    {
      AllDenied(capacity, rate, ts);
    }
  }
}
