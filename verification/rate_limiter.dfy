/** model/rate_limiter.go: the token bucket, the sliding window, and both together. */
module RateLimiting {
  import opened Wrappers
  import opened Ring

  function Seconds(nanos: int): (s: real)
    ensures s * 1_000_000_000.0 == nanos as real
  {
    nanos as real / SECOND as real
  }

  /** The clock that all limiters read. It never goes back, and a timer fires after the time it was set to. */
  class Clock {
    var now: int

    method Now() returns (t: int)
      modifies this
      ensures old(now) <= now == t
    {
      var passed :| passed >= 0;
      now := now + passed;
      t := now;
    }

    method Sleep(nanos: int)
      modifies this
      ensures now > old(now) && now > old(now) + nanos
    {
      var late :| late > 0;
      now := now + late + if nanos > 0 then nanos else 0;
    }
  }

  datatype WaitResult = Admitted | ContextDone | IndexPanic | StillWaiting

  // ----- token bucket -----

  datatype Bucket = Bucket(capacity: real, rate: real, tokens: real, last: int)

  function Refilled(b: Bucket, now: int): Bucket {
    var tokens := b.tokens + Seconds(now - b.last) * b.rate;
    b.(tokens := if tokens > b.capacity then b.capacity else tokens, last := now)
  }

  /** One attempt to take a token at a clock reading. */
  function Taken(b: Bucket, now: int): (Bucket, bool) {
    var r := Refilled(b, now);
    if r.tokens >= 1.0 then (r.(tokens := r.tokens - 1.0), true) else (r, false)
  }

  /** How long `Wait` sleeps when it gets no token: the exact time cut to whole nanoseconds, towards zero. With a
      negative rate that is no time at all. */
  function WaitTime(b: Bucket): int
    requires b.rate != 0.0 && b.tokens < 1.0
  {
    if b.rate > 0.0 then ((1.0 - b.tokens) / b.rate * SECOND as real).Floor
    else -((1.0 - b.tokens) / -b.rate * SECOND as real).Floor
  }

  class TokenBucket {
    const clock: Clock
    const capacity: real
    const refillRate: real
    var tokens: real
    var lastRefill: int

    ghost function Abs(): Bucket
      reads this
    {
      Bucket(capacity, refillRate, tokens, lastRefill)
    }

    ghost predicate Valid()
      reads this, clock
    {
      lastRefill <= clock.now
    }

    constructor (clock: Clock, capacity: int, refillRate: real)
      modifies clock
      ensures Valid() && this.clock == clock && clock.now >= old(clock.now)
      ensures Abs() == NewBucket(capacity, refillRate, clock.now)
      ensures this.capacity == capacity as real && this.refillRate == refillRate && tokens == this.capacity && lastRefill == clock.now
    {
      this.clock, this.capacity, this.tokens, this.refillRate := clock, capacity as real, capacity as real, refillRate;
      var t := clock.Now();
      lastRefill := t;
    }

    method Refill()
      requires Valid()
      modifies this, clock
      ensures Valid() && clock.now >= old(clock.now)
      ensures Abs() == Refilled(old(Abs()), clock.now)
    {
      var now := clock.Now();
      var elapsed := Seconds(now - lastRefill);
      var addTokens := elapsed * refillRate;
      tokens := tokens + addTokens;
      if tokens > capacity {
        tokens := capacity;
      }
      lastRefill := now;
    }

    method Allow() returns (ok: bool)
      requires Valid()
      modifies this, clock
      ensures Valid() && clock.now >= old(clock.now)
      ensures (Abs(), ok) == Taken(old(Abs()), clock.now)
    {
      Refill();
      if tokens >= 1.0 {
        tokens := tokens - 1.0;
        return true;
      }
      return false;
    }

    /** One round of `Wait`: an attempt, and the time to sleep if it fails. With rate 0 the time is infinite, and
        what that is as a duration depends on the machine. */
    method WaitRound() returns (ok: bool, waitTime: int)
      requires Valid()
      modifies this, clock
      ensures Valid() && clock.now >= old(clock.now)
      ensures (Abs(), ok) == Taken(old(Abs()), clock.now) && lastRefill == clock.now
      ensures !ok ==> tokens < 1.0 && (refillRate != 0.0 ==> waitTime == WaitTime(Abs()))
    {
      Refill();
      if tokens >= 1.0 {
        tokens := tokens - 1.0;
        return true, 0;
      }
      if refillRate > 0.0 {
        waitTime := ((1.0 - tokens) / refillRate * SECOND as real).Floor;
      } else if refillRate < 0.0 {
        waitTime := -((1.0 - tokens) / -refillRate * SECOND as real).Floor;
      } else {
        waitTime :| true;
      }
      return false, waitTime;
    }

    /** The first rounds of `Wait`. `done(k)` says whether the context is done at its k-th check. */
    method Wait(done: nat -> bool, rounds: nat) returns (r: WaitResult, ghost readings: seq<int>)
      requires Valid()
      modifies this, clock
      ensures Valid() && clock.now >= old(clock.now)
      ensures Ordered(old(clock.now), readings) && LastReading(old(clock.now), readings) <= clock.now
      ensures RunBucket(old(Abs()), readings) == (Abs(), if r.Admitted? then 1 else 0)
      ensures r.ContextDone? ==> exists k :: 0 <= k < 2 * rounds && done(k)
      ensures !r.IndexPanic?
      ensures rounds >= 2 && old(Filled(Abs())) && refillRate > 0.0 && capacity >= 1.0 ==> !r.StillWaiting?
      ensures refillRate <= 0.0 && old(tokens) < 1.0 ==> !r.Admitted?
    {
      hide Taken, WaitTime;
      ghost var start, rich := Abs(), Filled(Abs()) && refillRate > 0.0 && capacity >= 1.0;
      ghost var poor := refillRate <= 0.0 && tokens < 1.0;
      readings := [];
      var k := 0;
      while k < rounds
        invariant 0 <= k <= rounds && Valid() && clock.now >= old(clock.now)
        invariant RunBucket(start, readings) == (Abs(), 0)
        invariant Ordered(old(clock.now), readings) && LastReading(old(clock.now), readings) <= clock.now
        invariant poor ==> tokens < 1.0
        invariant rich ==> Filled(Abs()) && k <= 1
        invariant rich && k == 1 ==> tokens < 1.0 && clock.now >= lastRefill + WaitTime(Abs()) + 1
      {
        if done(2 * k) { return ContextDone, readings; }
        ghost var before := Abs();
        var ok, waitTime := WaitRound();
        RunBucketSnoc(start, old(clock.now), readings, clock.now);
        readings := readings + [clock.now];
        if poor { PoorStaysPoor(before, clock.now); }
        if rich {
          TakenAccount(before, clock.now);
          if k == 1 { WaitTimeSuffices(before, clock.now); }
        }
        if ok { return Admitted, readings; }
        if done(2 * k + 1) { return ContextDone, readings; }
        clock.Sleep(waitTime);
        k := k + 1;
      }
      return StillWaiting, readings;
    }
  }

  /** Without a positive rate nothing is refilled. */
  lemma PoorStaysPoor(b: Bucket, now: int)
    requires b.rate <= 0.0 && b.tokens < 1.0 && b.last <= now
    ensures !Taken(b, now).1
  {
    assert Seconds(now - b.last) >= 0.0;
    assert Seconds(now - b.last) * b.rate <= 0.0;
  }

  lemma {:induction false} RunBucketSnoc(b: Bucket, from: int, readings: seq<int>, t: int)
    requires Ordered(from, readings) && LastReading(from, readings) <= t
    ensures Ordered(from, readings + [t]) && LastReading(from, readings + [t]) == t
    ensures var (b1, n) := RunBucket(b, readings);
            var (b2, ok) := Taken(b1, t);
            RunBucket(b, readings + [t]) == (b2, n + if ok then 1 else 0)
    decreases |readings|
  {
    hide Taken;
    if readings == [] {
      assert [] + [t] == [t] && [t][1..] == [];
    } else {
      assert (readings + [t])[1..] == readings[1..] + [t];
      RunBucketSnoc(Taken(b, readings[0]).0, readings[0], readings[1..], t);
    }
  }

  function NewBucket(capacity: int, rate: real, now: int): Bucket {
    Bucket(capacity as real, rate, capacity as real, now)
  }

  predicate Filled(b: Bucket) {
    0.0 <= b.rate && 0.0 <= b.tokens <= b.capacity
  }

  /** The bucket after attempts at the given readings, and how many of them were admitted. */
  function RunBucket(b: Bucket, readings: seq<int>): (Bucket, nat)
    decreases |readings|
  {
    if readings == [] then (b, 0)
    else
      var (b1, ok) := Taken(b, readings[0]);
      var (b2, n) := RunBucket(b1, readings[1..]);
      (b2, n + if ok then 1 else 0)
  }

  predicate Ordered(from: int, readings: seq<int>)
    decreases |readings|
  {
    readings == [] || (from <= readings[0] && Ordered(readings[0], readings[1..]))
  }

  /** Tokens refilled between two readings. */
  function Gain(rate: real, from: int, to: int): real {
    Seconds(to - from) * rate
  }

  lemma GainSplits(rate: real, a: int, b: int, c: int)
    ensures Gain(rate, a, b) + Gain(rate, b, c) == Gain(rate, a, c)
  {
    assert Seconds(b - a) + Seconds(c - b) == Seconds(c - a);
  }

  /** One attempt keeps the tokens in range, and what it takes has been there or been refilled. */
  lemma TakenAccount(b: Bucket, now: int)
    requires Filled(b) && b.last <= now
    ensures var (b1, ok) := Taken(b, now);
            && Filled(b1) && b1.capacity == b.capacity && b1.rate == b.rate && b1.last == now
            && b1.tokens + (if ok then 1.0 else 0.0) <= b.tokens + Gain(b.rate, b.last, now)
            && b1.tokens + (if ok then 1.0 else 0.0) <= b.capacity
  {
    NoLoss(Seconds(now - b.last), b.rate);
  }

  lemma NoLoss(seconds: real, rate: real)
    requires seconds >= 0.0 && rate >= 0.0
    ensures seconds * rate >= 0.0
  {
  }

  function LastReading(from: int, readings: seq<int>): int {
    if readings == [] then from else readings[|readings| - 1]
  }

  /** Tokens stay between 0 and the capacity; what has been admitted and what is left was there at the start or
      has been refilled since. */
  lemma {:induction false} TokensAccount(b: Bucket, readings: seq<int>)
    requires Filled(b) && Ordered(b.last, readings)
    ensures var (b', n) := RunBucket(b, readings);
            && Filled(b') && b'.capacity == b.capacity && b'.rate == b.rate
            && b'.last == LastReading(b.last, readings)
            && n as real + b'.tokens <= b.tokens + Gain(b.rate, b.last, b'.last)
    decreases |readings|
  {
    hide Gain, Taken;
    GainSplits(b.rate, b.last, b.last, b.last);
    if readings != [] {
      TakenAccount(b, readings[0]);
      var b1 := Taken(b, readings[0]).0;
      TokensAccount(b1, readings[1..]);
      GainSplits(b.rate, b.last, b1.last, RunBucket(b1, readings[1..]).0.last);
    }
  }

  /** Over any contiguous segment of a run, the bucket admits at most its capacity plus what it refills between
      the first and the last attempt of the segment. */
  lemma {:induction false} BucketIntervalBound(b: Bucket, before: seq<int>, segment: seq<int>)
    requires Filled(b) && Ordered(b.last, before + segment) && segment != []
    ensures var n := RunBucket(RunBucket(b, before).0, segment).1;
            n as real <= b.capacity + Gain(b.rate, segment[0], segment[|segment| - 1])
  {
    hide Taken, Gain;
    SplitOrdered(b.last, before, segment);
    TokensAccount(b, before);
    SegmentBound(RunBucket(b, before).0, segment);
  }

  lemma SegmentBound(b: Bucket, segment: seq<int>)
    requires Filled(b) && Ordered(b.last, segment) && segment != []
    ensures RunBucket(b, segment).1 as real <= b.capacity + Gain(b.rate, segment[0], segment[|segment| - 1])
  {
    hide Gain, Taken;
    TakenAccount(b, segment[0]);
    TokensAccount(Taken(b, segment[0]).0, segment[1..]);
  }

  lemma {:induction false} SplitOrdered(from: int, before: seq<int>, segment: seq<int>)
    requires Ordered(from, before + segment)
    ensures Ordered(from, before) && Ordered(LastReading(from, before), segment)
    decreases |before|
  {
    if before == [] {
      assert before + segment == segment;
    } else {
      assert (before + segment)[1..] == before[1..] + segment;
      SplitOrdered(before[0], before[1..], segment);
    }
  }

  /** The range holds in every run from a new bucket exactly if neither the capacity nor the rate is negative;
      the constructor checks neither. */
  lemma RangeHoldsIff(capacity: int, rate: real)
    ensures (forall readings: seq<int> :: Ordered(0, readings) ==>
               0.0 <= RunBucket(NewBucket(capacity, rate, 0), readings).0.tokens <= capacity as real)
        <==> capacity >= 0 && rate >= 0.0
  {
    var b := NewBucket(capacity, rate, 0);
    if capacity >= 0 && rate >= 0.0 {
      forall readings: seq<int> | Ordered(0, readings)
        ensures 0.0 <= RunBucket(b, readings).0.tokens <= capacity as real
      {
        TokensAccount(b, readings);
      }
    } else if capacity < 0 {
      assert Ordered(0, []);
      assert RunBucket(b, []).0.tokens < 0.0;
    } else {
      var t := DrainTime(capacity, rate);
      assert Ordered(0, [t]);
      assert [t][1..] == [];
      assert RunBucket(b, [t]).0 == Taken(b, t).0;
    }
  }

  /** A time after which a negative rate has drained the bucket. */
  lemma DrainTime(capacity: int, rate: real) returns (t: nat)
    requires capacity >= 0 && rate < 0.0
    ensures Taken(NewBucket(capacity, rate, 0), t).0.tokens < 0.0
  {
    var need := (capacity as real + 1.0) / -rate;
    var whole := need.Floor + 1;
    assert whole as real >= need;
    assert need >= 0.0;
    t := whole * SECOND;
    assert Seconds(t) == whole as real;
    DrainProduct(whole as real, rate, capacity as real + 1.0);
  }

  lemma DrainProduct(x: real, rate: real, amount: real)
    requires rate < 0.0 && x >= amount / -rate
    ensures x * rate <= -amount
  {
    assert amount / -rate * -rate == amount;
    assert (x - amount / -rate) * rate <= 0.0;
  }

  /** After the computed sleep and one more nanosecond, an attempt of a bucket that can hold a token succeeds. */
  lemma WaitTimeSuffices(b: Bucket, now: int)
    requires Filled(b) && b.rate > 0.0 && b.tokens < 1.0 <= b.capacity
    requires now >= b.last + WaitTime(b) + 1
    ensures Taken(b, now).1
  {
    var exact := (1.0 - b.tokens) / b.rate * SECOND as real;
    var slept := now - b.last;
    assert slept as real >= exact;
    assert Seconds(slept) >= (1.0 - b.tokens) / b.rate;
    DrainProduct(Seconds(slept), -b.rate, 1.0 - b.tokens);
  }

  /** Before the computed sleep is over, an attempt fails. */
  lemma WaitTimeIsNeeded(b: Bucket, now: int)
    requires b.rate > 0.0 && b.tokens < 1.0
    requires b.last <= now < b.last + WaitTime(b)
    ensures !Taken(b, now).1
  {
    var exact := (1.0 - b.tokens) / b.rate * SECOND as real;
    var slept := now - b.last;
    assert slept as real <= exact - 1.0 < exact;
    assert Seconds(slept) < (1.0 - b.tokens) / b.rate;
    StillShort(Seconds(slept), b.rate, 1.0 - b.tokens);
  }

  lemma StillShort(seconds: real, rate: real, missing: real)
    requires rate > 0.0 && seconds < missing / rate
    ensures seconds * rate < missing
  {
    assert missing / rate * rate == missing;
    assert (missing / rate - seconds) * rate > 0.0;
  }

  /** How many of the attempts from the i-th on are admitted. */
  function AdmittedFrom(b: Bucket, readings: seq<int>, i: nat): nat
    requires i <= |readings|
  {
    RunBucket(RunBucket(b, readings[..i]).0, readings[i..]).1
  }

  lemma AdmittedLater(b: Bucket, readings: seq<int>, i: nat)
    requires readings != [] && i < |readings|
    ensures AdmittedFrom(b, readings, i + 1) == AdmittedFrom(Taken(b, readings[0]).0, readings[1..], i)
    ensures AdmittedFrom(b, readings, 0) == RunBucket(b, readings).1
  {
    hide Taken;
    assert readings[..i + 1][1..] == readings[1..][..i] && readings[i + 1..] == readings[1..][i..];
    assert readings[..0] == [] && readings[0..] == readings;
  }

  /** The tokens there are for an attempt. */
  function TokensFor(b: Bucket, readings: seq<int>, t: int): real {
    Refilled(RunBucket(b, readings).0, t).tokens
  }

  /** A bound on the tokens that a full bucket at the i-th attempt gives. */
  function SinceAttempt(b: Bucket, readings: seq<int>, t: int, i: nat): real
    requires i < |readings|
  {
    b.capacity + Gain(b.rate, readings[i], t) - AdmittedFrom(b, readings, i) as real
  }

  function SinceStart(b: Bucket, readings: seq<int>, t: int): real {
    b.tokens + Gain(b.rate, b.last, t) - RunBucket(b, readings).1 as real
  }

  /** x is the least of the capacity, what a bucket that was never full would have, and what it would have if it was
      full at one of the attempts. */
  ghost predicate IsLeast(x: real, b: Bucket, readings: seq<int>, t: int) {
    && x <= b.capacity && x <= SinceStart(b, readings, t)
    && (forall i :: 0 <= i < |readings| ==> x <= SinceAttempt(b, readings, t, i))
    && (x == b.capacity || x == SinceStart(b, readings, t)
        || exists i :: 0 <= i < |readings| && x == SinceAttempt(b, readings, t, i))
  }

  lemma {:induction false} TokensExactly(b: Bucket, readings: seq<int>, t: int)
    requires Filled(b) && Ordered(b.last, readings) && LastReading(b.last, readings) <= t
    ensures IsLeast(TokensFor(b, readings, t), b, readings, t)
    decreases |readings|
  {
    if readings == [] {
      NoReadings(b);
    } else {
      hide IsLeast, Ordered, TokensFor, Taken, Gain, Filled;
      var (r, rest) := (readings[0], readings[1..]);
      OrderedTail(b.last, readings);
      TakenAccount(b, r);
      LastOfTail(b.last, readings);
      TokensExactly(Taken(b, r).0, rest, t);
      StartStep(b, readings, t);
      forall i: nat | i < |rest| ensures SinceAttempt(b, readings, t, i + 1) == SinceAttempt(Taken(b, r).0, rest, t, i) {
        AttemptStep(b, readings, t, i);
      }
      LeastStep(TokensFor(b, readings, t), b, Taken(b, r).0, readings, t);
    }
  }

  lemma StartStep(b: Bucket, readings: seq<int>, t: int)
    requires readings != [] && b.last <= readings[0]
    ensures var (b1, rest) := (Taken(b, readings[0]).0, readings[1..]);
            && TokensFor(b, readings, t) == TokensFor(b1, rest, t)
            && b1.capacity == b.capacity
            && var x := SinceStart(b1, rest, t);
               && x <= SinceStart(b, readings, t) && x <= SinceAttempt(b, readings, t, 0)
               && (x == SinceStart(b, readings, t) || x == SinceAttempt(b, readings, t, 0))
  {
    hide AdmittedFrom, Refilled, Taken, Gain;
    TakenExactly(b, readings[0]);
    TakenKeeps(b, readings[0]);
    GainSplits(b.rate, b.last, readings[0], t);
    AdmittedLater(b, readings, 0);
  }

  lemma TakenKeeps(b: Bucket, r: int)
    ensures var b1 := Taken(b, r).0; b1.capacity == b.capacity && b1.rate == b.rate && b1.last == r
  {
  }

  lemma AttemptStep(b: Bucket, readings: seq<int>, t: int, i: nat)
    requires readings != [] && i < |readings| - 1
    ensures SinceAttempt(b, readings, t, i + 1) == SinceAttempt(Taken(b, readings[0]).0, readings[1..], t, i)
  {
    hide AdmittedFrom, Taken, Gain;
    TakenKeeps(b, readings[0]);
    AdmittedLater(b, readings, i);
  }

  lemma LeastStep(x: real, b: Bucket, b1: Bucket, readings: seq<int>, t: int)
    requires readings != [] && IsLeast(x, b1, readings[1..], t) && b1.capacity == b.capacity
    requires var y := SinceStart(b1, readings[1..], t);
             && y <= SinceStart(b, readings, t) && y <= SinceAttempt(b, readings, t, 0)
             && (y == SinceStart(b, readings, t) || y == SinceAttempt(b, readings, t, 0))
    requires forall i: nat :: i < |readings| - 1 ==> SinceAttempt(b, readings, t, i + 1) == SinceAttempt(b1, readings[1..], t, i)
    ensures IsLeast(x, b, readings, t)
  {
    hide SinceStart, SinceAttempt;
    var rest := readings[1..];
    forall i | 0 <= i < |readings| ensures x <= SinceAttempt(b, readings, t, i) {
      if i > 0 { assert SinceAttempt(b, readings, t, (i - 1) + 1) == SinceAttempt(b1, rest, t, i - 1); }
    }
    if i :| 0 <= i < |rest| && x == SinceAttempt(b1, rest, t, i) { assert x == SinceAttempt(b, readings, t, i + 1); }
  }

  lemma OrderedTail(from: int, readings: seq<int>)
    requires Ordered(from, readings) && readings != []
    ensures from <= readings[0] && Ordered(readings[0], readings[1..])
  {
  }

  lemma LastOfTail(from: int, readings: seq<int>)
    requires readings != []
    ensures LastReading(readings[0], readings[1..]) == LastReading(from, readings)
  {
  }

  lemma TakenExactly(b: Bucket, r: int)
    requires b.last <= r
    ensures var (b1, ok) := Taken(b, r);
            b1.tokens + (if ok then 1.0 else 0.0)
            == if b.tokens + Gain(b.rate, b.last, r) > b.capacity then b.capacity else b.tokens + Gain(b.rate, b.last, r)
  {
  }

  /** Over every run an attempt is refused exactly if admitting it would break a bound: the bucket cannot hold one
      token, or the tokens at the start with the refill since then, or a full bucket at one of the earlier attempts
      with the refill since that one, do not pay for all that has been admitted since and this one. */
  lemma {:induction false} RefusedIff(b: Bucket, readings: seq<int>, t: int)
    requires Filled(b) && Ordered(b.last, readings) && LastReading(b.last, readings) <= t
    ensures !Taken(RunBucket(b, readings).0, t).1 <==>
              || b.capacity < 1.0
              || b.tokens + Gain(b.rate, b.last, t) < (RunBucket(b, readings).1 + 1) as real
              || (exists i :: 0 <= i < |readings|
                    && b.capacity + Gain(b.rate, readings[i], t) < (AdmittedFrom(b, readings, i) + 1) as real)
  {
    hide RunBucket, Gain, AdmittedFrom, Ordered, Filled;
    TokensExactly(b, readings, t);
    var x := TokensFor(b, readings, t);
    assert !Taken(RunBucket(b, readings).0, t).1 <==> x < 1.0;
    forall i | 0 <= i < |readings|
      ensures SinceAttempt(b, readings, t, i) < 1.0 <==>
                b.capacity + Gain(b.rate, readings[i], t) < (AdmittedFrom(b, readings, i) + 1) as real
    {
    }
  }

  // ----- sliding window -----

  /** One attempt reads the clock for the cleanup and again for the entry. */
  datatype Attempt = Attempt(now: int, at: int)

  function Cleaned(queue: seq<int>, cutoff: int): seq<int> {
    queue[ExpiredCount(queue, cutoff)..]
  }

  function Entered(queue: seq<int>, windowSize: int, maxReqs: nat, a: Attempt): (seq<int>, bool) {
    var q := Cleaned(queue, a.now - windowSize);
    if |q| < maxReqs then (q + [a.at], true) else (q, false)
  }

  class SlidingWindow {
    const clock: Clock
    const windowSize: int
    const maxReqs: nat
    var requests: array<int>
    var head: nat
    var count: nat

    ghost predicate Valid()
      reads this
    {
      requests.Length == maxReqs && Fits(maxReqs, head, count)
    }

    ghost function Queue(): seq<int>
      requires Valid()
      reads this, requests
    {
      Live(requests[..], head, count)
    }

    constructor (clock: Clock, windowSize: int, maxReqs: nat)
      ensures Valid() && fresh(requests) && Queue() == []
      ensures this.clock == clock && this.windowSize == windowSize && this.maxReqs == maxReqs
    {
      this.clock, this.windowSize, this.maxReqs := clock, windowSize, maxReqs;
      requests := new int[maxReqs](_ => ZERO_TIME);
      head, count := 0, 0;
    }

    method Cleanup()
      requires Valid()
      modifies this`head, this`count, requests, clock
      ensures Valid() && clock.now >= old(clock.now)
      ensures Queue() == Cleaned(old(Queue()), clock.now - windowSize)
    {
      hide Slot;
      var now := clock.Now();
      ghost var queue := Queue();
      var expiredCount := ClearExpired(now - windowSize);
      if expiredCount > 0 {
        DropLive(requests[..], queue, head, count, expiredCount);
        head := Slot(head, expiredCount, requests.Length);
        count := count - expiredCount;
      } else {
        assert Queue() == queue;
      }
    }

    /** Clears the expired slots at the head. */
    method ClearExpired(cutoff: int) returns (expiredCount: nat)
      requires Valid()
      modifies requests
      ensures expiredCount == ExpiredCount(old(Queue()), cutoff)
      ensures forall k :: expiredCount <= k < count ==> requests[Slot(head, k, requests.Length)] == old(Queue())[k]
    {
      hide Live, Slot, ExpiredCount;
      ghost var queue := Queue();
      expiredCount := 0;
      while expiredCount < count
        invariant 0 <= expiredCount <= count
        invariant forall k :: 0 <= k < expiredCount ==> queue[k] <= cutoff
        invariant forall k :: expiredCount <= k < count ==> requests[Slot(head, k, requests.Length)] == queue[k]
      {
        var idx := Slot(head, expiredCount, requests.Length);
        if requests[idx] > cutoff { break; }
        requests[idx] := ZERO_TIME;
        expiredCount := expiredCount + 1;
      }
      ExpiredIs(queue, cutoff, expiredCount);
    }

    method AddRequest(t: int)
      requires Valid() && maxReqs > 0
      modifies this`head, this`count, requests
      ensures Valid()
      ensures Queue() == (if |old(Queue())| < maxReqs then old(Queue()) else old(Queue())[1..]) + [t]
    {
      hide Live, Slot;
      ghost var before := requests[..];
      if count < requests.Length { PushFree(before, head, count, t); } else { PushFull(before, head, t); }
      var idx := Slot(head, count, requests.Length);
      requests[idx] := t;
      assert requests[..] == before[idx := t];
      if count < requests.Length {
        count := count + 1;
      } else {
        head := Slot(head, 1, requests.Length);
      }
    }

    method Allow() returns (ok: bool, ghost a: Attempt)
      requires Valid()
      modifies this`head, this`count, requests, clock
      ensures Valid()
      ensures old(clock.now) <= a.now <= a.at == clock.now
      ensures (Queue(), ok) == Entered(old(Queue()), windowSize, maxReqs, a)
    {
      hide Live, Cleaned, Slot;
      Cleanup();
      ghost var read := clock.now;
      if count < maxReqs {
        var t := clock.Now();
        AddRequest(t);
        return true, Attempt(read, clock.now);
      }
      return false, Attempt(read, read);
    }

    method Count() returns (n: nat)
      requires Valid()
      modifies this`head, this`count, requests, clock
      ensures Valid() && clock.now >= old(clock.now)
      ensures Queue() == Cleaned(old(Queue()), clock.now - windowSize) && n == |Queue()|
    {
      Cleanup();
      n := count;
    }

    lemma HeadIsOldest()
      requires Valid() && count > 0
      ensures requests[head] == Queue()[0]
    {
    }

    /** One round of `Wait`: an attempt, and the time to sleep if it fails; None if there is no oldest entry. */
    method WaitRound() returns (ok: bool, waitTime: Option<int>, ghost a: Attempt)
      requires Valid()
      modifies this`head, this`count, requests, clock
      ensures Valid()
      ensures old(clock.now) <= a.now <= a.at <= clock.now
      ensures (Queue(), ok) == Entered(old(Queue()), windowSize, maxReqs, a)
      ensures ok ==> maxReqs > 0
      ensures !ok ==> (waitTime.None? <==> maxReqs == 0)
      ensures !ok && waitTime.Some? ==> |Queue()| > 0 && clock.now + waitTime.value == Queue()[0] + windowSize
    {
      hide Live, Cleaned, Slot;
      Cleanup();
      ghost var read := clock.now;
      if count < maxReqs {
        var t := clock.Now();
        AddRequest(t);
        return true, None, Attempt(read, t);
      }
      if requests.Length == 0 { return false, None, Attempt(read, read); }
      HeadIsOldest();
      var oldest := requests[head];
      var t := clock.Now();
      return false, Some(windowSize - (t - oldest)), Attempt(read, read);
    }

    /** Other callers use the window n times. */
    method Others(n: nat) returns (ghost attempts: seq<Attempt>)
      requires Valid()
      modifies this`head, this`count, requests, clock
      ensures Valid() && clock.now >= old(clock.now) && |attempts| == n
      ensures OrderedAttempts(old(clock.now), attempts) && LastTime(old(clock.now), attempts) <= clock.now
      ensures RunWindow(old(Queue()), windowSize, maxReqs, attempts).0 == Queue()
    {
      hide Live, Entered, OrderedAttempts, RunWindow;
      ghost var start := Queue();
      attempts := [];
      var i := 0;
      NoAttempts(clock.now, start, windowSize, maxReqs);
      while i < n
        invariant Valid() && clock.now >= old(clock.now) && |attempts| == i <= n
        invariant OrderedAttempts(old(clock.now), attempts) && LastTime(old(clock.now), attempts) <= clock.now
        invariant RunWindow(start, windowSize, maxReqs, attempts).0 == Queue()
      {
        var _, a := Allow();
        RunWindowConcat(old(clock.now), start, windowSize, maxReqs, attempts, [a]);
        RunOne(LastTime(old(clock.now), attempts), RunWindow(start, windowSize, maxReqs, attempts).0, windowSize, maxReqs, a);
        attempts := attempts + [a];
        i := i + 1;
      }
    }

    /** The first rounds of `Wait`. `done(k)` says whether the context is done at its k-th check, and `others(k)`
        how often other callers use the window during its k-th sleep. */
    method Wait(done: nat -> bool, rounds: nat, others: nat -> nat) returns (r: WaitResult, ghost attempts: seq<Attempt>)
      requires Valid()
      modifies this`head, this`count, requests, clock
      ensures Valid() && clock.now >= old(clock.now)
      ensures OrderedAttempts(old(clock.now), attempts) && LastTime(old(clock.now), attempts) <= clock.now
      ensures RunWindow(old(Queue()), windowSize, maxReqs, attempts).0 == Queue()
      ensures var log := RunWindow(old(Queue()), windowSize, maxReqs, attempts).1;
              && (r.Admitted? ==> attempts != [] && log != [] && log[|log| - 1] == attempts[|attempts| - 1].at)
              && ((forall k :: others(k) == 0) ==> log == if r.Admitted? then [attempts[|attempts| - 1].at] else [])
      ensures r.ContextDone? ==> exists k :: 0 <= k < 2 * rounds && done(k)
      ensures r.IndexPanic? <==> maxReqs == 0 && rounds > 0 && !done(0)
      ensures rounds >= 2 && (forall k :: others(k) == 0) ==> !r.StillWaiting?
    {
      hide Live, Entered, OrderedAttempts, RunWindow;
      ghost var start, quiet := Queue(), forall k :: others(k) == 0;
      attempts := [];
      ghost var log: seq<int> := [];
      NoAttempts(clock.now, start, windowSize, maxReqs);
      var k := 0;
      while k < rounds
        invariant 0 <= k <= rounds && Valid() && clock.now >= old(clock.now)
        invariant OrderedAttempts(old(clock.now), attempts) && LastTime(old(clock.now), attempts) <= clock.now
        invariant RunWindow(start, windowSize, maxReqs, attempts) == (Queue(), log)
        invariant k > 0 ==> maxReqs > 0 && !done(0)
        invariant quiet ==> log == [] && k <= 1
        invariant quiet && k == 1 ==> 0 < |Queue()| && Queue()[0] + windowSize <= clock.now
      {
        if done(2 * k) { return ContextDone, attempts; }
        ghost var before, t := Queue(), LastTime(old(clock.now), attempts);
        ghost var a;
        var ok, waitTime;
        ok, waitTime, a := WaitRound();
        RunOne(t, before, windowSize, maxReqs, a);
        RunWindowConcat(old(clock.now), start, windowSize, maxReqs, attempts, [a]);
        if quiet && k == 1 { FullExpires(before, windowSize, maxReqs, a); }
        attempts := attempts + [a];
        log := log + if ok then [a.at] else [];
        if ok { return Admitted, attempts; }
        if waitTime == None { return IndexPanic, attempts; }
        if done(2 * k + 1) { return ContextDone, attempts; }
        clock.Sleep(waitTime.value);
        ghost var refused, now := Queue(), clock.now;
        ghost var foreign := Others(others(k));
        LaterStart(LastTime(old(clock.now), attempts), now, foreign);
        RunWindowConcat(old(clock.now), start, windowSize, maxReqs, attempts, foreign);
        NoAttempts(now, refused, windowSize, maxReqs);
        log := log + RunWindow(refused, windowSize, maxReqs, foreign).1;
        attempts := attempts + foreign;
        k := k + 1;
      }
      return StillWaiting, attempts;
    }
  }

  lemma NoAttempts(from: int, queue: seq<int>, windowSize: int, maxReqs: nat)
    ensures OrderedAttempts(from, []) && RunWindow(queue, windowSize, maxReqs, []) == (queue, [])
  {
  }

  lemma LaterStart(from: int, later: int, attempts: seq<Attempt>)
    requires from <= later && OrderedAttempts(later, attempts)
    ensures OrderedAttempts(from, attempts)
    ensures LastTime(from, attempts) <= LastTime(later, attempts)
  {
  }

  /** A run of attempts after another. */
  lemma {:induction false} RunWindowConcat(from: int, queue: seq<int>, windowSize: int, maxReqs: nat, a: seq<Attempt>, b: seq<Attempt>)
    ensures OrderedAttempts(from, a) && OrderedAttempts(LastTime(from, a), b) ==> OrderedAttempts(from, a + b)
    ensures LastTime(from, a + b) == LastTime(LastTime(from, a), b)
    ensures var (q, log) := RunWindow(queue, windowSize, maxReqs, a);
            var (q', log') := RunWindow(q, windowSize, maxReqs, b);
            RunWindow(queue, windowSize, maxReqs, a + b) == (q', log + log')
    decreases |a|
  {
    hide Entered;
    if a == [] {
      assert a + b == b;
      assert [] + RunWindow(queue, windowSize, maxReqs, b).1 == RunWindow(queue, windowSize, maxReqs, b).1;
    } else {
      assert (a + b)[1..] == a[1..] + b && (a + b)[0] == a[0];
      var (q, ok) := Entered(queue, windowSize, maxReqs, a[0]);
      RunWindowConcat(a[0].at, q, windowSize, maxReqs, a[1..], b);
      var (q1, log) := RunWindow(q, windowSize, maxReqs, a[1..]);
      var first := if ok then [a[0].at] else [];
      assert first + (log + RunWindow(q1, windowSize, maxReqs, b).1) == first + log + RunWindow(q1, windowSize, maxReqs, b).1;
    }
  }

  lemma FullExpires(queue: seq<int>, windowSize: int, maxReqs: nat, a: Attempt)
    requires 0 < |queue| <= maxReqs && queue[0] + windowSize <= a.now
    ensures Entered(queue, windowSize, maxReqs, a).1
  {
  }

  lemma RunOne(from: int, queue: seq<int>, windowSize: int, maxReqs: nat, a: Attempt)
    ensures from <= a.now <= a.at ==> OrderedAttempts(from, [a])
    ensures var (q, ok) := Entered(queue, windowSize, maxReqs, a);
            RunWindow(queue, windowSize, maxReqs, [a]) == (q, if ok then [a.at] else [])
  {
    hide Entered;
    assert [a][1..] == [];
    var (q, ok) := Entered(queue, windowSize, maxReqs, a);
    var rest := RunWindow(q, windowSize, maxReqs, [a][1..]);
    assert rest == (q, []);
    var first := if ok then [a.at] else [];
    assert first + rest.1 == first;
  }

  predicate OrderedAttempts(from: int, attempts: seq<Attempt>)
    decreases |attempts|
  {
    attempts == [] || (from <= attempts[0].now <= attempts[0].at && OrderedAttempts(attempts[0].at, attempts[1..]))
  }

  /** The queue after a run of attempts, and the times of the admissions. */
  function RunWindow(queue: seq<int>, windowSize: int, maxReqs: nat, attempts: seq<Attempt>): (seq<int>, seq<int>)
    decreases |attempts|
  {
    if attempts == [] then (queue, [])
    else
      var (q, ok) := Entered(queue, windowSize, maxReqs, attempts[0]);
      var (q', log) := RunWindow(q, windowSize, maxReqs, attempts[1..]);
      (q', (if ok then [attempts[0].at] else []) + log)
  }

  function LastTime(from: int, attempts: seq<Attempt>): int {
    if attempts == [] then from else attempts[|attempts| - 1].at
  }

  /** Any maxReqs + 1 consecutive admissions span at least the window. */
  ghost predicate Spaced(log: seq<int>, maxReqs: nat, windowSize: int) {
    forall i, j :: 0 <= i && j == i + maxReqs && j < |log| ==> log[j] - log[i] >= windowSize
  }

  /** The queue is the end of the whole admission history; what precedes it has left the window. */
  ghost predicate Holds(queue: seq<int>, log: seq<int>, windowSize: int, maxReqs: nat, last: int) {
    && |queue| <= |log| && |queue| <= maxReqs
    && queue == log[|log| - |queue|..]
    && (forall i :: 0 <= i < |log| - |queue| ==> log[i] <= last - windowSize)
    && Sorted(log) && (forall i :: 0 <= i < |log| ==> log[i] <= last)
    && Spaced(log, maxReqs, windowSize)
  }

  /** Cleaning the queue leaves exactly the admissions still inside the window. */
  lemma CleanedIsUnexpired(queue: seq<int>, log: seq<int>, windowSize: int, maxReqs: nat, last: int, now: int)
    requires Holds(queue, log, windowSize, maxReqs, last) && last <= now
    ensures Cleaned(queue, now - windowSize) == log[ExpiredCount(log, now - windowSize)..]
    ensures forall i :: 0 <= i < |log| ==> (i < ExpiredCount(log, now - windowSize) <==> log[i] <= now - windowSize)
    ensures Holds(Cleaned(queue, now - windowSize), log, windowSize, maxReqs, now)
  {
    hide Spaced, ExpiredCount;
    CleanedIsSuffix(queue, log, windowSize, maxReqs, last, now);
    ExpiredExactly(log, now - windowSize);
  }

  lemma CleanedIsSuffix(queue: seq<int>, log: seq<int>, windowSize: int, maxReqs: nat, last: int, now: int)
    requires Holds(queue, log, windowSize, maxReqs, last) && last <= now
    ensures |log| - |queue| <= ExpiredCount(log, now - windowSize)
    ensures Cleaned(queue, now - windowSize) == log[ExpiredCount(log, now - windowSize)..]
  {
    hide Spaced, Sorted, ExpiredCount;
    var from := |log| - |queue|;
    ExpireSuffix(log, from, now - windowSize);
    assert log[from..][ExpiredCount(queue, now - windowSize)..] == log[from + ExpiredCount(queue, now - windowSize)..];
  }

  lemma EnteredSpaced(queue: seq<int>, log: seq<int>, windowSize: int, maxReqs: nat, now: int, at: int)
    requires Holds(queue, log, windowSize, maxReqs, now) && now <= at && |queue| < maxReqs
    ensures Sorted(log + [at]) && Spaced(log + [at], maxReqs, windowSize)
  {
  }

  lemma AppendHolds(queue: seq<int>, log: seq<int>, windowSize: int, maxReqs: nat, now: int, at: int)
    requires Holds(queue, log, windowSize, maxReqs, now) && now <= at
    ensures Holds(queue, log, windowSize, maxReqs, at)
    ensures |queue| < maxReqs ==> Holds(queue + [at], log + [at], windowSize, maxReqs, at)
  {
    hide Sorted, Spaced;
    if |queue| < maxReqs {
      EnteredSpaced(queue, log, windowSize, maxReqs, now, at);
      assert (log + [at])[|log| - |queue|..] == queue + [at];
    }
  }

  lemma {:induction false} EnteredHolds(queue: seq<int>, log: seq<int>, windowSize: int, maxReqs: nat, last: int, a: Attempt)
    requires Holds(queue, log, windowSize, maxReqs, last) && last <= a.now <= a.at
    ensures var (q, ok) := Entered(queue, windowSize, maxReqs, a);
            Holds(q, if ok then log + [a.at] else log, windowSize, maxReqs, a.at)
  {
    hide Holds, Cleaned;
    CleanedIsUnexpired(queue, log, windowSize, maxReqs, last, a.now);
    AppendHolds(Cleaned(queue, a.now - windowSize), log, windowSize, maxReqs, a.now, a.at);
  }

  lemma {:induction false} RunHolds(queue: seq<int>, log: seq<int>, windowSize: int, maxReqs: nat, last: int, attempts: seq<Attempt>)
    requires Holds(queue, log, windowSize, maxReqs, last) && OrderedAttempts(last, attempts)
    ensures var (q, more) := RunWindow(queue, windowSize, maxReqs, attempts);
            Holds(q, log + more, windowSize, maxReqs, LastTime(last, attempts))
    decreases |attempts|
  {
    hide Holds, Entered;
    if attempts == [] {
      assert log + [] == log;
    } else {
      var a := attempts[0];
      EnteredHolds(queue, log, windowSize, maxReqs, last, a);
      var (q, ok) := Entered(queue, windowSize, maxReqs, a);
      var first := if ok then [a.at] else [];
      assert log + first == if ok then log + [a.at] else log;
      RunHolds(q, log + first, windowSize, maxReqs, a.at, attempts[1..]);
      var more := RunWindow(q, windowSize, maxReqs, attempts[1..]).1;
      assert log + first + more == log + (first + more);
    }
  }

  function CountIn(log: seq<int>, from: int, to: int): nat {
    if log == [] then 0 else (if from <= log[0] < to then 1 else 0) + CountIn(log[1..], from, to)
  }

  /** In a sorted log, the entries of an interval are consecutive. */
  lemma {:induction false} CountIsConsecutive(log: seq<int>, from: int, to: int) returns (first: nat)
    requires Sorted(log)
    ensures first + CountIn(log, from, to) <= |log|
    ensures forall i :: first <= i < first + CountIn(log, from, to) ==> from <= log[i] < to
  {
    if log == [] {
      first := 0;
    } else {
      var rest := CountIsConsecutive(log[1..], from, to);
      var n := CountIn(log[1..], from, to);
      assert forall i :: rest <= i < rest + n ==> log[1..][i] == log[i + 1];
      if from <= log[0] < to {
        first := 0;
        CountFromFront(log, from, to);
      } else {
        first := rest + 1;
      }
    }
  }

  lemma {:induction false} CountFromFront(log: seq<int>, from: int, to: int)
    requires Sorted(log) && log != [] && from <= log[0]
    ensures CountIn(log, from, to) <= |log|
    ensures forall i :: 0 <= i < CountIn(log, from, to) ==> from <= log[i] < to
    decreases |log|
  {
    if log[0] >= to {
      CountNone(log, from, to);
    } else if |log| > 1 {
      CountFromFront(log[1..], from, to);
    }
  }

  lemma {:induction false} CountNone(log: seq<int>, from: int, to: int)
    requires forall i :: 0 <= i < |log| ==> log[i] >= to
    ensures CountIn(log, from, to) == 0
  {
    if log != [] { CountNone(log[1..], from, to); }
  }

  lemma SpacedBoundsCount(log: seq<int>, maxReqs: nat, windowSize: int, from: int)
    requires Sorted(log) && Spaced(log, maxReqs, windowSize)
    ensures CountIn(log, from, from + windowSize) <= maxReqs
  {
    var first := CountIsConsecutive(log, from, from + windowSize);
    var n := CountIn(log, from, from + windowSize);
    var later := if n > maxReqs then first + maxReqs else first;
    assert n > 0 ==> log[later] - log[first] < windowSize;
  }

  /** Over a whole run from an empty window: any maxReqs + 1 consecutive admissions span at least the window
      size, so no interval of that length, wherever it starts, holds more than maxReqs of them. */
  lemma {:induction false} WindowGuarantee(windowSize: int, maxReqs: nat, attempts: seq<Attempt>, last: int, from: int)
    requires OrderedAttempts(last, attempts)
    ensures var log := RunWindow([], windowSize, maxReqs, attempts).1;
            Sorted(log) && Spaced(log, maxReqs, windowSize) && CountIn(log, from, from + windowSize) <= maxReqs
  {
    hide RunWindow, OrderedAttempts;
    RunHolds([], [], windowSize, maxReqs, last, attempts);
    var log := RunWindow([], windowSize, maxReqs, attempts).1;
    assert [] + log == log;
    SpacedBoundsCount(log, maxReqs, windowSize, from);
  }

  lemma {:induction false} CountFrom(log: seq<int>, e: nat, from: int, to: int)
    requires e <= |log| && (forall i :: 0 <= i < e ==> log[i] < from) && forall i :: e <= i < |log| ==> from <= log[i] < to
    ensures CountIn(log, from, to) == |log| - e
    decreases |log|
  {
    if log != [] { CountFrom(log[1..], if e > 0 then e - 1 else 0, from, to); }
  }

  lemma NothingHeld(windowSize: int, maxReqs: nat, last: int)
    ensures Holds([], [], windowSize, maxReqs, last)
  {
  }

  lemma HeldBefore(queue: seq<int>, log: seq<int>, windowSize: int, maxReqs: nat, last: int)
    requires Holds(queue, log, windowSize, maxReqs, last)
    ensures forall i :: 0 <= i < |log| ==> log[i] <= last
  {
  }

  /** The cleaned queue is as long as there are admissions in the window. */
  lemma {:induction false} HeldCount(queue: seq<int>, log: seq<int>, windowSize: int, maxReqs: nat, last: int, now: int)
    requires Holds(queue, log, windowSize, maxReqs, last) && last <= now
    ensures |Cleaned(queue, now - windowSize)| == CountIn(log, now - windowSize + 1, now + 1)
  {
    hide Holds, CountIn, ExpiredCount;
    CleanedIsUnexpired(queue, log, windowSize, maxReqs, last, now);
    HeldBefore(queue, log, windowSize, maxReqs, last);
    CountFrom(log, ExpiredCount(log, now - windowSize), now - windowSize + 1, now + 1);
  }

  /** Over a whole run from an empty window an attempt is admitted exactly if fewer than maxReqs admissions are newer
      than one window before its reading. */
  lemma {:induction false} WindowAdmitsIff(windowSize: int, maxReqs: nat, attempts: seq<Attempt>, last: int, a: Attempt)
    requires OrderedAttempts(last, attempts) && LastTime(last, attempts) <= a.now <= a.at
    ensures var (q, log) := RunWindow([], windowSize, maxReqs, attempts);
            Entered(q, windowSize, maxReqs, a).1 <==> CountIn(log, a.now - windowSize + 1, a.now + 1) < maxReqs
  {
    hide RunWindow, OrderedAttempts, CountIn, Holds, Cleaned;
    var (q, log) := RunWindow([], windowSize, maxReqs, attempts);
    NothingHeld(windowSize, maxReqs, last);
    RunHolds([], [], windowSize, maxReqs, last, attempts);
    assert [] + log == log;
    HeldCount(q, log, windowSize, maxReqs, LastTime(last, attempts), a.now);
  }

  // ----- both together -----

  datatype Limiter = Limiter(bucket: Bucket, queue: seq<int>, windowSize: int, maxReqs: nat)

  /** What one call of Allow or Wait does: its attempts on the bucket, then those on the window. */
  datatype Request = Request(readings: seq<int>, attempts: seq<Attempt>)

  /** The limiter after a request, and the times of its admissions. */
  function Requested(l: Limiter, r: Request): (Limiter, seq<int>) {
    var (b, n) := RunBucket(l.bucket, r.readings);
    var (q, log) := RunWindow(l.queue, l.windowSize, l.maxReqs, r.attempts);
    (l.(bucket := b, queue := q), log)
  }

  /** A request enters the window only with a token of its own, and at most once. */
  predicate Proper(l: Limiter, r: Request) {
    var n := RunBucket(l.bucket, r.readings).1;
    n <= 1 && (n == 0 ==> r.attempts == []) && |Requested(l, r).1| <= n
  }

  /** The request's attempts are in time order, from `from` on. */
  predicate InTime(from: int, r: Request) {
    Ordered(from, r.readings) && OrderedAttempts(LastReading(from, r.readings), r.attempts)
  }

  function EndTime(from: int, r: Request): int {
    LastTime(LastReading(from, r.readings), r.attempts)
  }

  class RateLimiter {
    const tokenBucket: TokenBucket
    const slidingWindow: SlidingWindow

    ghost predicate Valid()
      reads this, tokenBucket, slidingWindow, tokenBucket.clock
    {
      tokenBucket.clock == slidingWindow.clock && tokenBucket.Valid() && slidingWindow.Valid()
    }

    ghost function Abs(): Limiter
      requires Valid()
      reads this, tokenBucket, slidingWindow, slidingWindow.requests, tokenBucket.clock
    {
      Limiter(tokenBucket.Abs(), slidingWindow.Queue(), slidingWindow.windowSize, slidingWindow.maxReqs)
    }

    constructor (tokenBucket: TokenBucket, slidingWindow: SlidingWindow)
      requires tokenBucket.clock == slidingWindow.clock && tokenBucket.Valid() && slidingWindow.Valid()
      ensures Valid() && this.tokenBucket == tokenBucket && this.slidingWindow == slidingWindow
    {
      this.tokenBucket, this.slidingWindow := tokenBucket, slidingWindow;
    }

    method Allow() returns (ok: bool, ghost r: Request)
      requires Valid()
      modifies tokenBucket, tokenBucket.clock, slidingWindow`head, slidingWindow`count, slidingWindow.requests
      ensures Valid()
      ensures var l, now := old(Abs()), tokenBucket.clock.now;
              && InTime(old(tokenBucket.clock.now), r) && EndTime(old(tokenBucket.clock.now), r) <= now
              && |r.readings| == 1 && |r.attempts| == (if Taken(l.bucket, r.readings[0]).1 then 1 else 0)
              && Requested(l, r) == (Abs(), if ok then [now] else []) && Proper(l, r)
    {
      hide Live, Taken, Entered;
      ghost var l, t0 := Abs(), tokenBucket.clock.now;
      ok := tokenBucket.Allow();
      ghost var read := tokenBucket.clock.now;
      BucketOnce(t0, l.bucket, read);
      r := Request([read], []);
      NoAttempts(read, l.queue, l.windowSize, l.maxReqs);
      if ok {
        ghost var a: Attempt;
        ok, a := slidingWindow.Allow();
        RunOne(read, l.queue, l.windowSize, l.maxReqs, a);
        r := Request([read], [a]);
      }
    }

    /** First the bucket, then the window; the window is not asked unless the bucket has given a token. */
    method Wait(bucketDone: nat -> bool, bucketRounds: nat, windowDone: nat -> bool, windowRounds: nat)
      returns (result: WaitResult, ghost r: Request)
      requires Valid()
      modifies tokenBucket, tokenBucket.clock, slidingWindow`head, slidingWindow`count, slidingWindow.requests
      ensures Valid()
      ensures var l, now := old(Abs()), tokenBucket.clock.now;
              && InTime(old(tokenBucket.clock.now), r) && EndTime(old(tokenBucket.clock.now), r) <= now
              && Requested(l, r).0 == Abs() && |Requested(l, r).1| == (if result.Admitted? then 1 else 0) && Proper(l, r)
    {
      hide Live, Taken, Entered;
      ghost var l := Abs();
      ghost var readings;
      result, readings := tokenBucket.Wait(bucketDone, bucketRounds);
      r := Request(readings, []);
      ghost var read := LastReading(old(tokenBucket.clock.now), readings);
      NoAttempts(read, l.queue, l.windowSize, l.maxReqs);
      if result != Admitted { return; }
      ghost var attempts;
      ghost var t := tokenBucket.clock.now;
      result, attempts := slidingWindow.Wait(windowDone, windowRounds, _ => 0);
      LaterStart(read, t, attempts);
      r := Request(readings, attempts);
    }
  }

  lemma BucketOnce(from: int, b: Bucket, t: int)
    requires from <= t
    ensures Ordered(from, [t]) && LastReading(from, [t]) == t
    ensures var (b', ok) := Taken(b, t); RunBucket(b, [t]) == (b', if ok then 1 else 0)
  {
    hide Taken;
    assert [t][1..] == [];
  }

  /** A request that the window turns away has spent its token. */
  lemma WindowRejectionSpendsToken(l: Limiter, t: int, a: Attempt)
    requires Taken(l.bucket, t).1 && Requested(l, Request([t], [a])).1 == []
    ensures var l' := Requested(l, Request([t], [a])).0;
            && l'.bucket.tokens == Refilled(l.bucket, t).tokens - 1.0
            && l'.queue == Cleaned(l.queue, a.now - l.windowSize) && |l'.queue| >= l.maxReqs
  {
    BucketOnce(t, l.bucket, t);
    RunOne(a.now, l.queue, l.windowSize, l.maxReqs, a);
  }

  predicate AllInTime(from: int, rs: seq<Request>)
    decreases |rs|
  {
    rs == [] || (InTime(from, rs[0]) && AllInTime(EndTime(from, rs[0]), rs[1..]))
  }

  predicate AllProper(l: Limiter, rs: seq<Request>)
    decreases |rs|
  {
    rs == [] || (Proper(l, rs[0]) && AllProper(Requested(l, rs[0]).0, rs[1..]))
  }

  /** The limiter after a run of requests, and the times of all admissions. */
  function RunRequests(l: Limiter, rs: seq<Request>): (Limiter, seq<int>)
    decreases |rs|
  {
    if rs == [] then (l, [])
    else
      var (l1, first) := Requested(l, rs[0]);
      var (l2, log) := RunRequests(l1, rs[1..]);
      (l2, first + log)
  }

  /** All attempts on the bucket. */
  function Takes(rs: seq<Request>): seq<int> {
    if rs == [] then [] else rs[0].readings + Takes(rs[1..])
  }

  /** All attempts on the window. */
  function Tries(rs: seq<Request>): seq<Attempt> {
    if rs == [] then [] else rs[0].attempts + Tries(rs[1..])
  }

  lemma {:induction false} RunBucketConcat(b: Bucket, a: seq<int>, c: seq<int>)
    ensures var (b1, n) := RunBucket(b, a);
            var (b2, m) := RunBucket(b1, c);
            RunBucket(b, a + c) == (b2, n + m)
    decreases |a|
  {
    hide Taken;
    if a == [] {
      assert a + c == c;
    } else {
      assert (a + c)[1..] == a[1..] + c && (a + c)[0] == a[0];
      RunBucketConcat(Taken(b, a[0]).0, a[1..], c);
    }
  }

  /** The combined limiter is its bucket on all bucket attempts and its window on all window attempts, and
      admits at most what the bucket does. */
  lemma {:induction false} LimiterSplits(l: Limiter, rs: seq<Request>)
    ensures var (l', log) := RunRequests(l, rs);
            && l'.bucket == RunBucket(l.bucket, Takes(rs)).0
            && (l'.queue, log) == RunWindow(l.queue, l.windowSize, l.maxReqs, Tries(rs))
            && l'.windowSize == l.windowSize && l'.maxReqs == l.maxReqs
            && (AllProper(l, rs) ==> |log| <= RunBucket(l.bucket, Takes(rs)).1)
    decreases |rs|
  {
    if rs != [] {
      hide RunBucket, RunWindow;
      var l1 := Requested(l, rs[0]).0;
      LimiterSplits(l1, rs[1..]);
      RunBucketConcat(l.bucket, rs[0].readings, Takes(rs[1..]));
      RunWindowConcat(0, l.queue, l.windowSize, l.maxReqs, rs[0].attempts, Tries(rs[1..]));
    }
  }

  lemma StartEarlier(from: int, later: int, readings: seq<int>)
    requires from <= later && Ordered(later, readings)
    ensures Ordered(from, readings)
  {
  }

  lemma {:induction false} OrderedConcat(from: int, a: seq<int>, c: seq<int>)
    requires Ordered(from, a) && Ordered(LastReading(from, a), c)
    ensures Ordered(from, a + c)
    decreases |a|
  {
    if a == [] {
      assert a + c == c;
    } else {
      assert (a + c)[1..] == a[1..] + c && (a + c)[0] == a[0];
      OrderedConcat(a[0], a[1..], c);
    }
  }

  lemma {:induction false} EndsLater(from: int, attempts: seq<Attempt>)
    requires OrderedAttempts(from, attempts)
    ensures from <= LastTime(from, attempts)
    decreases |attempts|
  {
    if attempts != [] {
      var a := attempts[0];
      EndsLater(a.at, attempts[1..]);
      assert attempts[1..] == [] || LastTime(a.at, attempts[1..]) == LastTime(from, attempts);
    }
  }

  lemma {:induction false} ReadsLater(from: int, readings: seq<int>)
    requires Ordered(from, readings)
    ensures from <= LastReading(from, readings)
    decreases |readings|
  {
    if readings != [] {
      ReadsLater(readings[0], readings[1..]);
      assert readings[1..] == [] || LastReading(readings[0], readings[1..]) == LastReading(from, readings);
    }
  }

  lemma {:induction false} RequestsOrdered(from: int, rs: seq<Request>)
    requires AllInTime(from, rs)
    ensures Ordered(from, Takes(rs)) && OrderedAttempts(from, Tries(rs))
    decreases |rs|
  {
    if rs != [] {
      hide Ordered, OrderedAttempts, LastReading, LastTime;
      var r := rs[0];
      var read := LastReading(from, r.readings);
      var end := EndTime(from, r);
      RequestsOrdered(end, rs[1..]);
      ReadsLater(from, r.readings);
      EndsLater(read, r.attempts);
      StartEarlier(read, end, Takes(rs[1..]));
      OrderedConcat(from, r.readings, Takes(rs[1..]));
      RunWindowConcat(read, [], 0, 0, r.attempts, Tries(rs[1..]));
      LaterStart(from, read, Tries(rs));
    }
  }

  lemma {:induction false} TakesConcat(a: seq<Request>, b: seq<Request>)
    ensures Takes(a + b) == Takes(a) + Takes(b)
    decreases |a|
  {
    if a == [] {
      assert a + b == b;
    } else {
      assert (a + b)[1..] == a[1..] + b;
      TakesConcat(a[1..], b);
    }
  }

  lemma {:induction false} ProperLater(l: Limiter, before: seq<Request>, segment: seq<Request>)
    requires AllProper(l, before + segment)
    ensures AllProper(RunRequests(l, before).0, segment)
    decreases |before|
  {
    hide Proper, Requested;
    if before == [] {
      assert before + segment == segment;
    } else {
      assert (before + segment)[1..] == before[1..] + segment;
      ProperLater(Requested(l, before[0]).0, before[1..], segment);
    }
  }

  /** Over any mix of Allow and Wait calls: on every contiguous segment the combined limiter meets the bucket's
      bound, and over the whole run the window's, although rejected requests cost tokens. */
  lemma {:induction false} CombinedGuarantee(l: Limiter, before: seq<Request>, segment: seq<Request>, from: int)
    requires Filled(l.bucket) && l.queue == []
    requires AllInTime(l.bucket.last, before + segment) && AllProper(l, before + segment)
    ensures var n, readings := |RunRequests(RunRequests(l, before).0, segment).1|, Takes(segment);
            n as real <= if readings == [] then 0.0
                         else l.bucket.capacity + Gain(l.bucket.rate, readings[0], readings[|readings| - 1])
    ensures var log := RunRequests(l, before + segment).1;
            Sorted(log) && Spaced(log, l.maxReqs, l.windowSize)
            && CountIn(log, from, from + l.windowSize) <= l.maxReqs
  {
    hide Gain, RunBucket, RunWindow, RunRequests, AllInTime, AllProper, Takes, Tries, Filled, Sorted, Spaced, Ordered,
         OrderedAttempts;
    var mid := RunRequests(l, before).0;
    LimiterSplits(l, before);
    LimiterSplits(mid, segment);
    LimiterSplits(l, before + segment);
    ProperLater(l, before, segment);
    RequestsOrdered(l.bucket.last, before + segment);
    TakesConcat(before, segment);
    if Takes(segment) == [] {
      NoReadings(mid.bucket);
    } else {
      BucketIntervalBound(l.bucket, Takes(before), Takes(segment));
    }
    WindowGuarantee(l.windowSize, l.maxReqs, Tries(before + segment), l.bucket.last, from);
  }

  lemma NoReadings(b: Bucket)
    ensures RunBucket(b, []) == (b, 0)
  {
  }
}
