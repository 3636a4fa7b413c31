/** The circular buffers of model/rate_limiter.go and metrics/metrics.go, as queues of time stamps. */
module Ring {

  /** Times and durations are in nanoseconds. */
  const SECOND: int := 1_000_000_000

  /** What a slot holds before it is used and after it has been cleared. */
  const ZERO_TIME: int := 0

  /** Position of the i-th entry behind the head. */
  function Slot(head: nat, i: nat, size: nat): (s: nat)
    requires head < size && i <= size
    ensures s == if head + i < size then head + i else head + i - size
    ensures s < size
  {
    WrapsOnce(head + i, size);
    (head + i) % size
  }

  lemma WrapsOnce(x: nat, size: nat)
    requires 0 < size && x < 2 * size
    ensures x % size == if x < size then x else x - size
  {
    if x >= size {
      assert x == 1 * size + (x - size);
      assert x / size == 1;
    }
  }

  predicate Fits(size: nat, head: nat, count: nat) {
    count <= size && (if size == 0 then head == 0 else head < size)
  }

  /** The queue that the ring holds. */
  function Live<T>(buf: seq<T>, head: nat, count: nat): (q: seq<T>)
    requires Fits(|buf|, head, count)
    ensures |q| == count
    ensures forall i :: 0 <= i < count ==> q[i] == buf[Slot(head, i, |buf|)]
  {
    seq(count, i requires 0 <= i < count => buf[Slot(head, i, |buf|)])
  }

  lemma PushFree<T>(buf: seq<T>, head: nat, count: nat, x: T)
    requires Fits(|buf|, head, count) && count < |buf|
    ensures Live(buf[Slot(head, count, |buf|) := x], head, count + 1) == Live(buf, head, count) + [x]
  {
  }

  lemma PushFull<T>(buf: seq<T>, head: nat, x: T)
    requires |buf| > 0 && head < |buf|
    ensures Slot(head, |buf|, |buf|) == head
    ensures Live(buf[head := x], Slot(head, 1, |buf|), |buf|) == Live(buf, head, |buf|)[1..] + [x]
  {
  }

  /** Moving the head forward past k entries, whatever has been written over them, drops them from the queue. */
  lemma DropLive<T>(buf: seq<T>, queue: seq<T>, head: nat, count: nat, k: nat)
    requires Fits(|buf|, head, count) && k <= count && |buf| > 0 && |queue| == count
    requires forall i :: k <= i < count ==> buf[Slot(head, i, |buf|)] == queue[i]
    ensures Live(buf, Slot(head, k, |buf|), count - k) == queue[k..]
  {
  }

  predicate Sorted(times: seq<int>) {
    forall i, j :: 0 <= i < j < |times| ==> times[i] <= times[j]
  }

  /** How many entries at the front are no newer than the cutoff. */
  function ExpiredCount(times: seq<int>, cutoff: int): (n: nat)
    ensures n <= |times|
    ensures forall i :: 0 <= i < n ==> times[i] <= cutoff
    ensures n < |times| ==> times[n] > cutoff
  {
    if times == [] || times[0] > cutoff then 0 else 1 + ExpiredCount(times[1..], cutoff)
  }

  /** In a sorted list, those are all the entries no newer than the cutoff. */
  lemma ExpiredExactly(times: seq<int>, cutoff: int)
    requires Sorted(times)
    ensures forall i :: 0 <= i < |times| ==> (i < ExpiredCount(times, cutoff) <==> times[i] <= cutoff)
  {
  }

  lemma ExpiredIs(times: seq<int>, cutoff: int, n: nat)
    requires n <= |times|
    requires forall i :: 0 <= i < n ==> times[i] <= cutoff
    requires n < |times| ==> times[n] > cutoff
    ensures ExpiredCount(times, cutoff) == n
  {
  }

  /** Expiring the rest of a list whose front is expired expires the whole list. */
  lemma ExpireSuffix(times: seq<int>, from: nat, cutoff: int)
    requires from <= |times|
    requires forall i :: 0 <= i < from ==> times[i] <= cutoff
    ensures from + ExpiredCount(times[from..], cutoff) == ExpiredCount(times, cutoff)
  {
  }
}
