/** metrics/metrics.go: calls and tokens of a sliding window, in two rings that overwrite their oldest entry. */
module Metrics {
  import opened Ring

  /** Calls and their token counts, oldest first. */
  datatype Samples = Samples(calls: seq<int>, tokens: seq<int>)

  predicate Matched(s: Samples) {
    |s.calls| == |s.tokens|
  }

  function From(s: Samples, n: nat): (r: Samples)
    requires Matched(s) && n <= |s.calls|
    ensures Matched(r)
  {
    Samples(s.calls[n..], s.tokens[n..])
  }

  function Cleaned(s: Samples, cutoff: int): (r: Samples)
    requires Matched(s)
    ensures Matched(r)
  {
    From(s, ExpiredCount(s.calls, cutoff))
  }

  /** Appends a sample, dropping the oldest if there is no room. */
  function Pushed(s: Samples, capacity: nat, now: int, tokenCount: int): (r: Samples)
    requires Matched(s)
    ensures Matched(r)
  {
    var kept := if |s.calls| < capacity || s.calls == [] then s else From(s, 1);
    Samples(kept.calls + [now], kept.tokens + [tokenCount])
  }

  function Sum(xs: seq<int>): int {
    if xs == [] then 0 else Sum(xs[..|xs| - 1]) + xs[|xs| - 1]
  }

  function PerMinute(amount: int, windowSize: int): real {
    if windowSize <= 0 then 0.0 else amount as real / (windowSize as real / SECOND as real) * 60.0
  }

  /** The rate times the window is the amount times a minute. */
  lemma PerMinuteMeans(amount: int, windowSize: int)
    requires windowSize > 0
    ensures PerMinute(amount, windowSize) * windowSize as real == amount as real * 60_000_000_000.0
    ensures windowSize == 60_000_000_000 ==> PerMinute(amount, windowSize) == amount as real
  {
    var (w, s, x) := (windowSize as real, SECOND as real, amount as real);
    SecondsSign(windowSize);
    RateIdentity(x, w, s);
  }

  lemma RateIdentity(x: real, w: real, s: real)
    requires w > 0.0 && s > 0.0 && w / s > 0.0
    ensures x / (w / s) * 60.0 * w == x * 60.0 * s
  {
    var q := w / s;
    assert q * s == w;
    assert x / q * q == x;
    assert x / q * 60.0 * w == (x / q * q) * 60.0 * s;
  }

  lemma SecondsSign(windowSize: int)
    ensures windowSize as real / SECOND as real <= 0.0 <==> windowSize <= 0
  {
  }

  lemma NothingPerMinute(windowSize: int)
    ensures PerMinute(0, windowSize) == 0.0
  {
  }

  class SlidingWindowCounter {
    const windowSize: int
    var calls: array<int>
    var tokens: array<int>
    var head: nat
    var count: nat

    ghost predicate Valid()
      reads this
    {
      calls != tokens && tokens.Length == calls.Length && Fits(calls.Length, head, count)
    }

    ghost function Abs(): (s: Samples)
      requires Valid()
      reads this, calls, tokens
      ensures Matched(s) && |s.calls| == count
    {
      Samples(Live(calls[..], head, count), Live(tokens[..], head, count))
    }

    constructor (windowSize: int, maxSamples: nat)
      ensures Valid() && fresh(calls) && fresh(tokens) && calls.Length == maxSamples
      ensures this.windowSize == windowSize && Abs() == Samples([], [])
    {
      this.windowSize := windowSize;
      calls := new int[maxSamples](_ => ZERO_TIME);
      tokens := new int[maxSamples](_ => 0);
      head, count := 0, 0;
    }

    method Cleanup(now: int)
      requires Valid()
      modifies this`head, this`count, calls, tokens
      ensures Valid() && Abs() == Cleaned(old(Abs()), now - windowSize)
    {
      hide Live, Slot, ExpiredCount;
      ghost var s := Abs();
      var expiredCount := ClearExpired(now - windowSize);
      if expiredCount > 0 {
        DropLive(calls[..], s.calls, head, count, expiredCount);
        DropLive(tokens[..], s.tokens, head, count, expiredCount);
        head := Slot(head, expiredCount, calls.Length);
        count := count - expiredCount;
      } else {
        assert Live(calls[..], head, count) == s.calls && Live(tokens[..], head, count) == s.tokens;
      }
    }

    /** Clears the expired slots at the head. */
    method ClearExpired(cutoff: int) returns (expiredCount: nat)
      requires Valid()
      modifies calls, tokens
      ensures expiredCount == ExpiredCount(old(Abs()).calls, cutoff)
      ensures forall k :: expiredCount <= k < count ==>
        calls[Slot(head, k, calls.Length)] == old(Abs()).calls[k]
        && tokens[Slot(head, k, calls.Length)] == old(Abs()).tokens[k]
    {
      hide Live, Slot, ExpiredCount;
      ghost var s := Abs();
      expiredCount := 0;
      while expiredCount < count
        invariant 0 <= expiredCount <= count
        invariant forall k :: 0 <= k < expiredCount ==> s.calls[k] <= cutoff
        invariant forall k :: expiredCount <= k < count ==> calls[Slot(head, k, calls.Length)] == s.calls[k]
        invariant forall k :: expiredCount <= k < count ==> tokens[Slot(head, k, calls.Length)] == s.tokens[k]
      {
        var idx := Slot(head, expiredCount, calls.Length);
        if calls[idx] > cutoff { break; }
        calls[idx] := ZERO_TIME;
        tokens[idx] := 0;
        expiredCount := expiredCount + 1;
      }
      ExpiredIs(s.calls, cutoff, expiredCount);
    }

    /** Without room for a single sample the index computation divides by zero: `panicked`. */
    method Add(now: int, tokenCount: int) returns (panicked: bool)
      requires Valid()
      modifies this`head, this`count, calls, tokens
      ensures Valid() && panicked == (calls.Length == 0)
      ensures !panicked ==> Abs() == Pushed(Cleaned(old(Abs()), now - windowSize), calls.Length, now, tokenCount)
      ensures panicked ==> Abs() == old(Abs())
    {
      hide Live, Slot;
      Cleanup(now);
      if calls.Length == 0 { return true; }
      Append(now, tokenCount);
      return false;
    }

    method Append(now: int, tokenCount: int)
      requires Valid() && calls.Length > 0
      modifies this`head, this`count, calls, tokens
      ensures Valid() && Abs() == Pushed(old(Abs()), calls.Length, now, tokenCount)
    {
      ghost var c, t := calls[..], tokens[..];
      if count < calls.Length {
        PushFree(c, head, count, now);
        PushFree(t, head, count, tokenCount);
      } else {
        PushFull(c, head, now);
        PushFull(t, head, tokenCount);
      }
      var idx := Slot(head, count, calls.Length);
      calls[idx] := now;
      tokens[idx] := tokenCount;
      assert calls[..] == c[idx := now] && tokens[..] == t[idx := tokenCount];
      if count < calls.Length {
        count := count + 1;
      } else {
        head := Slot(head, 1, calls.Length);
      }
    }

    method RPM(now: int) returns (r: real)
      requires Valid()
      modifies this`head, this`count, calls, tokens
      ensures Valid() && Abs() == Cleaned(old(Abs()), now - windowSize)
      ensures r == PerMinute(|Abs().calls|, windowSize)
    {
      hide Live, Cleaned;
      Cleanup(now);
      NothingPerMinute(windowSize);
      SecondsSign(windowSize);
      if count == 0 { return 0.0; }
      var windowSeconds := windowSize as real / SECOND as real;
      if windowSeconds <= 0.0 { return 0.0; }
      return count as real / windowSeconds * 60.0;
    }

    method TPM(now: int) returns (r: real)
      requires Valid()
      modifies this`head, this`count, calls, tokens
      ensures Valid() && Abs() == Cleaned(old(Abs()), now - windowSize)
      ensures r == PerMinute(Sum(Abs().tokens), windowSize)
    {
      hide Live, Cleaned;
      Cleanup(now);
      NothingPerMinute(windowSize);
      SecondsSign(windowSize);
      if count == 0 { return 0.0; }
      var totalTokens := SumLive();
      var windowSeconds := windowSize as real / SECOND as real;
      if windowSeconds <= 0.0 { return 0.0; }
      return totalTokens as real / windowSeconds * 60.0;
    }

    method SumLive() returns (total: int)
      requires Valid()
      ensures total == Sum(Abs().tokens)
    {
      hide Live, Slot;
      ghost var q := Abs().tokens;
      total := 0;
      var i := 0;
      while i < count
        invariant 0 <= i <= count && total == Sum(q[..i])
      {
        var idx := Slot(head, i, tokens.Length);
        assert q[..i + 1][..i] == q[..i] && tokens[idx] == q[i];
        total := total + tokens[idx];
        i := i + 1;
      }
      assert q[..count] == q;
    }
  }

  // ----- against the full history -----

  datatype Op = Record(now: int, tokenCount: int) | Query(now: int)

  predicate Ordered(from: int, ops: seq<Op>)
    decreases |ops|
  {
    ops == [] || (from <= ops[0].now && Ordered(ops[0].now, ops[1..]))
  }

  function LastTime(from: int, ops: seq<Op>): int {
    if ops == [] then from else ops[|ops| - 1].now
  }

  /** What the counter does with an operation. */
  function Applied(s: Samples, windowSize: int, capacity: nat, op: Op): Samples
    requires Matched(s)
  {
    var c := Cleaned(s, op.now - windowSize);
    if op.Record? then Pushed(c, capacity, op.now, op.tokenCount) else c
  }

  function RunCounter(s: Samples, windowSize: int, capacity: nat, ops: seq<Op>): (r: Samples)
    requires Matched(s)
    ensures Matched(r)
    decreases |ops|
  {
    if ops == [] then s else RunCounter(Applied(s, windowSize, capacity, ops[0]), windowSize, capacity, ops[1..])
  }

  /** All calls ever recorded. */
  function History(ops: seq<Op>): (h: Samples)
    ensures Matched(h)
    decreases |ops|
  {
    if ops == [] then Samples([], [])
    else
      var rest := History(ops[1..]);
      if ops[0].Record? then Samples([ops[0].now] + rest.calls, [ops[0].tokenCount] + rest.tokens) else rest
  }

  function Joined(a: Samples, b: Samples): Samples {
    Samples(a.calls + b.calls, a.tokens + b.tokens)
  }

  /** The ring holds the end of the history; what it lacks has expired, or has been overwritten by as many
      later calls as the ring has room for. */
  ghost predicate Holds(s: Samples, history: Samples, windowSize: int, capacity: nat, last: int) {
    && Matched(s) && Matched(history) && |s.calls| <= |history.calls| && |s.calls| <= capacity
    && s == From(history, |history.calls| - |s.calls|)
    && Sorted(history.calls) && (forall i :: 0 <= i < |history.calls| ==> history.calls[i] <= last)
    && (|s.calls| == capacity
        || forall i :: 0 <= i < |history.calls| - |s.calls| ==> history.calls[i] <= last - windowSize)
  }

  /** Position of the first call that a complete counter of this capacity would show. */
  function FirstShown(history: Samples, capacity: nat, cutoff: int): (n: nat)
    requires Matched(history)
    ensures n <= |history.calls|
  {
    var expired := ExpiredCount(history.calls, cutoff);
    if |history.calls| - expired > capacity then |history.calls| - capacity else expired
  }

  lemma FromCalls(s: Samples, n: nat)
    requires Matched(s) && n <= |s.calls|
    ensures From(s, n).calls == s.calls[n..]
  {
  }

  lemma FromFrom(s: Samples, m: nat, n: nat)
    requires Matched(s) && m + n <= |s.calls|
    ensures From(From(s, m), n) == From(s, m + n)
  {
    assert s.calls[m..][n..] == s.calls[m + n..] && s.tokens[m..][n..] == s.tokens[m + n..];
  }

  lemma ShownFrom(history: Samples, from: nat, capacity: nat, cutoff: int)
    requires Matched(history) && Sorted(history.calls) && from <= |history.calls| <= from + capacity
    requires |history.calls| == from + capacity || forall i :: 0 <= i < from ==> history.calls[i] <= cutoff
    ensures from + ExpiredCount(history.calls[from..], cutoff) == FirstShown(history, capacity, cutoff)
  {
    hide ExpiredCount;
    var n := ExpiredCount(history.calls, cutoff);
    ExpiredExactly(history.calls, cutoff);
    if n < from {
      var rest := history.calls[from..];
      assert rest != [] ==> rest[0] == history.calls[from];
      ExpiredIs(rest, cutoff, 0);
    } else {
      ExpireSuffix(history.calls, from, cutoff);
    }
  }

  /** After a cleanup the ring shows exactly the last `capacity` of all calls newer than the cutoff. */
  lemma CleanedShowsHistory(s: Samples, history: Samples, windowSize: int, capacity: nat, last: int, now: int)
    requires Holds(s, history, windowSize, capacity, last) && last <= now
    ensures Cleaned(s, now - windowSize) == From(history, FirstShown(history, capacity, now - windowSize))
  {
    hide Sorted, From, FirstShown, ExpiredCount;
    var from := |history.calls| - |s.calls|;
    assert s.calls == history.calls[from..] by { FromCalls(history, from); }
    ShownFrom(history, from, capacity, now - windowSize);
    FromFrom(history, from, ExpiredCount(s.calls, now - windowSize));
  }

  lemma CleanedHolds(s: Samples, history: Samples, windowSize: int, capacity: nat, last: int, now: int)
    requires Holds(s, history, windowSize, capacity, last) && last <= now
    ensures Holds(Cleaned(s, now - windowSize), history, windowSize, capacity, now)
  {
    hide ExpiredCount;
    var from := |history.calls| - |s.calls|;
    var n := ExpiredCount(s.calls, now - windowSize);
    FromFrom(history, from, n);
    assert forall i :: from <= i < from + n ==> history.calls[i] == s.calls[i - from];
    assert n > 0 ==> forall i :: 0 <= i < from ==> history.calls[i] <= history.calls[from];
  }

  lemma PushedHolds(s: Samples, history: Samples, windowSize: int, capacity: nat, now: int, tokenCount: int)
    requires Holds(s, history, windowSize, capacity, now) && capacity > 0
    ensures Holds(Pushed(s, capacity, now, tokenCount), Joined(history, Samples([now], [tokenCount])), windowSize, capacity, now)
  {
  }

  lemma {:induction false} RunHolds(s: Samples, history: Samples, windowSize: int, capacity: nat, last: int, ops: seq<Op>)
    requires Matched(s) && Matched(history)
    requires Holds(s, history, windowSize, capacity, last) && Ordered(last, ops) && capacity > 0
    ensures Holds(RunCounter(s, windowSize, capacity, ops), Joined(history, History(ops)), windowSize, capacity, LastTime(last, ops))
    decreases |ops|
  {
    hide Holds, Cleaned, Pushed;
    if ops == [] {
      assert history.calls + [] == history.calls && history.tokens + [] == history.tokens;
    } else {
      var op := ops[0];
      CleanedHolds(s, history, windowSize, capacity, last, op.now);
      if op.Record? {
        PushedHolds(Cleaned(s, op.now - windowSize), history, windowSize, capacity, op.now, op.tokenCount);
        var h := Joined(history, Samples([op.now], [op.tokenCount]));
        RunHolds(Applied(s, windowSize, capacity, op), h, windowSize, capacity, op.now, ops[1..]);
        assert Joined(h, History(ops[1..])) == Joined(history, History(ops));
      } else {
        RunHolds(Applied(s, windowSize, capacity, op), history, windowSize, capacity, op.now, ops[1..]);
      }
    }
  }

  lemma FirstShownExactly(h: Samples, capacity: nat, cutoff: int)
    requires Matched(h) && Sorted(h.calls)
    ensures var first := FirstShown(h, capacity, cutoff);
            forall i :: 0 <= i < |h.calls| ==> (first <= i <==> h.calls[i] > cutoff && |h.calls| - i <= capacity)
  {
  }

  /** For calls and queries in time order, what a cleanup leaves is exactly the last maxSamples of all calls
      newer than now - windowSize, in order; so RPM counts just those and TPM sums their tokens. */
  lemma CounterShowsFullHistory(windowSize: int, capacity: nat, last: int, ops: seq<Op>, now: int)
    requires capacity > 0 && Ordered(last, ops) && LastTime(last, ops) <= now
    ensures var shown := Cleaned(RunCounter(Samples([], []), windowSize, capacity, ops), now - windowSize);
            var h := History(ops);
            var first := FirstShown(h, capacity, now - windowSize);
            && shown == From(h, first)
            && forall i :: 0 <= i < |h.calls| ==> (first <= i <==> h.calls[i] > now - windowSize && |h.calls| - i <= capacity)
  {
    hide Cleaned, FirstShown, RunCounter, Ordered, From, History, Joined, LastTime;
    var empty := Samples([], []);
    EmptyHolds(windowSize, capacity, last);
    RunHolds(empty, empty, windowSize, capacity, last, ops);
    JoinedEmpty(History(ops));
    CleanedShowsHistory(RunCounter(empty, windowSize, capacity, ops), History(ops), windowSize, capacity,
                        LastTime(last, ops), now);
    FirstShownExactly(History(ops), capacity, now - windowSize);
  }

  lemma JoinedEmpty(s: Samples)
    ensures Joined(Samples([], []), s) == s
  {
  }

  lemma EmptyHolds(windowSize: int, capacity: nat, last: int)
    ensures Holds(Samples([], []), Samples([], []), windowSize, capacity, last)
  {
  }
}
