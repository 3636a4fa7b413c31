/** memory/store_inmem.go and memory/buffer.go: a message list behind a sliding window. */
module BufferedMemory {
  import opened Chat
  import opened Transcript

  /** The default store. Every operation first looks at its context: `live` says whether the context is still
      usable then, and an operation on a dead context fails without touching the list. */
  class InMemoryMessageStore {
    var messages: seq<Message>

    constructor ()
      ensures messages == []
    {
      messages := [];
    }

    method Append(live: bool, msgs: seq<Message>) returns (ok: bool)
      modifies this
      ensures ok == live
      ensures messages == if live then old(messages) + msgs else old(messages)
    {
      if !live { return false; }
      if |msgs| == 0 { return true; }
      messages := messages + msgs;
      return true;
    }

    method List(live: bool) returns (ok: bool, msgs: seq<Message>)
      ensures ok == live
      ensures live ==> msgs == messages
    {
      if !live { return false, []; }
      return true, messages;
    }

    method Replace(live: bool, msgs: seq<Message>) returns (ok: bool)
      modifies this
      ensures ok == live
      ensures messages == if live then msgs else old(messages)
    {
      if !live { return false; }
      messages := msgs;
      return true;
    }

    method Len(live: bool) returns (ok: bool, n: nat)
      ensures ok == live
      ensures live ==> n == |messages|
    {
      if !live { return false, 0; }
      return true, |messages|;
    }

    method TrimHead(live: bool, n: int) returns (ok: bool)
      modifies this
      ensures ok == live
      ensures messages == if !live || n <= 0 then old(messages)
                          else if n >= |old(messages)| then []
                          else old(messages)[n..]
    {
      if !live { return false; }
      if n <= 0 { return true; }
      if n >= |messages| {
        messages := [];
        return true;
      }
      messages := messages[n..];
      return true;
    }

    method Clear(live: bool) returns (ok: bool)
      modifies this
      ensures ok == live
      ensures messages == if live then [] else old(messages)
    {
      if !live { return false; }
      messages := [];
      return true;
    }
  }

  function Last(ms: seq<Message>, n: nat): seq<Message> {
    if n >= |ms| then ms else ms[|ms| - n..]
  }

  function Room(maxSize: int, used: nat): nat {
    if maxSize <= used then 0 else maxSize - used
  }

  /** What the window lets through: the leading system messages and the newest of the rest. */
  function Windowed(ms: seq<Message>, maxSize: int): seq<Message> {
    var h := LeadingSystem(ms);
    if maxSize <= 0 || |ms| <= maxSize then ms
    else ms[..h] + Last(ms[h..], Room(maxSize, h))
  }

  /** Whether the context is still usable at each store operation of one `Add`. */
  datatype AddIO = AddIO(append: bool, len: bool, list: bool, write: bool)

  const Working := AddIO(true, true, true, true)

  /** The stored list after adding a batch. A failure after the append leaves the list untrimmed. */
  function Added(ms: seq<Message>, batch: seq<Message>, maxSize: int, io: AddIO): seq<Message> {
    if batch == [] || !io.append then ms
    else if io.len && io.list && io.write then Windowed(ms + batch, maxSize)
    else ms + batch
  }

  lemma LeadingSystemIs(ms: seq<Message>, n: nat)
    requires n <= |ms| && (forall i :: 0 <= i < n ==> ms[i].role.System?) && (n < |ms| ==> !ms[n].role.System?)
    ensures LeadingSystem(ms) == n
  {
    hide LeadingSystem;
  }

  lemma LastOfSuffix(ms: seq<Message>, h: nat, room: nat)
    requires h <= |ms|
    ensures Last(ms[h..], room) == if room >= |ms| - h then ms[h..] else ms[|ms| - room..]
    ensures Last(ms[h..], 0) == []
  {
  }

  /** The window in terms of how many messages are too many. */
  lemma LastFrom(ms: seq<Message>, h: nat, maxSize: int)
    requires 0 < maxSize < |ms| && h == LeadingSystem(ms)
    ensures var drop := |ms| - maxSize;
            Windowed(ms, maxSize) == if drop >= |ms| - h then ms[..h] else ms[..h] + ms[h + drop..]
  {
    hide LeadingSystem;
    hide Last;
    var room := Room(maxSize, h);
    var kept := Last(ms[h..], room);
    LastOfSuffix(ms, h, room);
    assert Windowed(ms, maxSize) == ms[..h] + kept;
    if h < maxSize {
      assert room < |ms| - h && |ms| - room == h + (|ms| - maxSize);
    } else {
      assert kept == [] && ms[..h] + kept == ms[..h];
    }
  }

  class BufferMemory {
    const store: InMemoryMessageStore
    const maxSize: int

    constructor (store: InMemoryMessageStore, maxSize: int)
      ensures this.store == store && this.maxSize == maxSize
    {
      this.store, this.maxSize := store, maxSize;
    }

    method Messages(live: bool) returns (ok: bool, msgs: seq<Message>)
      ensures ok == live
      ensures live ==> msgs == store.messages
    {
      ok, msgs := store.List(live);
    }

    method Add(io: AddIO, msgs: seq<Message>) returns (ok: bool)
      modifies store
      ensures io == Working ==> ok
      ensures store.messages == Added(old(store.messages), msgs, maxSize, io)
      ensures ok ==> store.messages == Added(old(store.messages), msgs, maxSize, Working)
    {
      if |msgs| == 0 { return true; }
      ok := store.Append(io.append, msgs);
      if !ok { return false; }
      if maxSize <= 0 { return true; }
      var n: nat;
      ok, n := store.Len(io.len);
      if !ok { return false; }
      if n <= maxSize { return true; }
      ok := TrimPreservingSystem(io, n - maxSize);
    }

    method Clear(live: bool) returns (ok: bool)
      modifies store
      ensures ok == live
      ensures store.messages == if live then [] else old(store.messages)
    {
      ok := store.Clear(live);
    }

    method TrimPreservingSystem(io: AddIO, drop: nat) returns (ok: bool)
      requires 0 < drop && maxSize > 0 && |store.messages| == maxSize + drop
      modifies store
      ensures ok == (io.list && io.write)
      ensures store.messages == if ok then Windowed(old(store.messages), maxSize) else old(store.messages)
    {
      hide LeadingSystem;
      var msgs;
      ok, msgs := store.List(io.list);
      if !ok { return false; }
      var sysHead := 0;
      while sysHead < |msgs| && msgs[sysHead].role == System
        invariant 0 <= sysHead <= |msgs|
        invariant forall i :: 0 <= i < sysHead ==> msgs[i].role.System?
      {
        sysHead := sysHead + 1;
      }
      LeadingSystemIs(msgs, sysHead);
      LastFrom(msgs, sysHead, maxSize);
      if sysHead == 0 {
        ok := store.TrimHead(io.write, drop);
        return;
      }
      var bodyStart := sysHead;
      if drop >= |msgs| - bodyStart {
        ok := store.Replace(io.write, msgs[..bodyStart]);
        return;
      }
      var kept := msgs[..bodyStart];
      kept := kept + msgs[bodyStart + drop..];
      ok := store.Replace(io.write, kept);
    }
  }

  /** The window never holds more than `maxSize` messages, unless the system head alone is longer; it is the
      system head followed by a suffix of the rest. */
  lemma WindowBound(ms: seq<Message>, maxSize: int)
    requires maxSize > 0
    ensures var h := LeadingSystem(ms);
            && |Windowed(ms, maxSize)| <= (if h > maxSize then h else maxSize)
            && ms[..h] <= Windowed(ms, maxSize)
            && (|ms| > maxSize && h <= maxSize ==> |Windowed(ms, maxSize)| == maxSize)
  {
  }

  /** System messages stand at the head only. */
  predicate SystemAtHead(ms: seq<Message>) {
    forall i :: LeadingSystem(ms) <= i < |ms| ==> !ms[i].role.System?
  }

  lemma {:induction false} LeadingSystemOf(head: seq<Message>, body: seq<Message>)
    requires forall i :: 0 <= i < |head| ==> head[i].role.System?
    requires body != [] ==> !body[0].role.System?
    ensures LeadingSystem(head + body) == |head|
  {
    if head == [] {
      assert head + body == body;
    } else {
      assert (head + body)[1..] == head[1..] + body;
      LeadingSystemOf(head[1..], body);
    }
  }

  lemma LastOfLast(a: seq<Message>, b: seq<Message>, n: nat)
    ensures Last(Last(a, n) + b, n) == Last(a + b, n)
  {
  }

  /** The window over a system head and a body without one. */
  lemma WindowedSplit(head: seq<Message>, body: seq<Message>, maxSize: int)
    requires forall i :: 0 <= i < |head| ==> head[i].role.System?
    requires body != [] ==> !body[0].role.System?
    ensures Windowed(head + body, maxSize)
         == head + (if maxSize <= 0 then body else Last(body, Room(maxSize, |head|)))
  {
    LeadingSystemOf(head, body);
    assert (head + body)[..|head|] == head && (head + body)[|head|..] == body;
  }

  /** Where the window goes on after the system head; at the head's end if it lets everything through. */
  function Cut(ms: seq<Message>, maxSize: int): (c: nat)
    ensures LeadingSystem(ms) <= c <= |ms|
  {
    var h := LeadingSystem(ms);
    if maxSize <= 0 || |ms| <= maxSize || Room(maxSize, h) >= |ms| - h then h else |ms| - Room(maxSize, h)
  }

  lemma WindowedIsCut(ms: seq<Message>, maxSize: int)
    ensures Windowed(ms, maxSize) == ms[..LeadingSystem(ms)] + ms[Cut(ms, maxSize)..]
  {
    hide LeadingSystem;
    var h := LeadingSystem(ms);
    assert ms == ms[..h] + ms[h..];
  }

  // ----- adding in batches -----

  /** The window over x, if it trims at all, does not bring a system message to the end of the kept head. */
  predicate Harmless(x: seq<Message>, batch: seq<Message>, maxSize: int)
    requires batch != []
  {
    var c := Cut(x, maxSize);
    c == LeadingSystem(x) || !(x + batch)[c].role.System?
  }

  predicate NonEmpty(batches: seq<seq<Message>>) {
    forall k :: 0 <= k < |batches| ==> batches[k] != []
  }

  predicate AllHarmless(x: seq<Message>, batches: seq<seq<Message>>, maxSize: int)
    requires NonEmpty(batches)
    decreases |batches|
  {
    batches == [] || (Harmless(x, batches[0], maxSize) && AllHarmless(x + batches[0], batches[1..], maxSize))
  }

  function AddedAll(ms: seq<Message>, batches: seq<seq<Message>>, maxSize: int): seq<Message>
    decreases |batches|
  {
    if batches == [] then ms else AddedAll(Added(ms, batches[0], maxSize, Working), batches[1..], maxSize)
  }

  function Flatten(batches: seq<seq<Message>>): seq<Message> {
    if batches == [] then [] else batches[0] + Flatten(batches[1..])
  }

  predicate Distinct(ms: seq<Message>) {
    forall i, j :: 0 <= i < j < |ms| ==> ms[i] != ms[j]
  }

  /** After a trim, the window over what remains and a harmless batch is the window over everything. */
  lemma {:induction false} HarmlessBatch(x: seq<Message>, batch: seq<Message>, maxSize: int)
    requires batch != [] && Harmless(x, batch, maxSize)
    ensures Windowed(Windowed(x, maxSize) + batch, maxSize) == Windowed(x + batch, maxSize)
  {
    hide Windowed, LeadingSystem;
    var h, c := LeadingSystem(x), Cut(x, maxSize);
    var head, body, kept := x[..h], x[h..], x[c..];
    WindowedIsCut(x, maxSize);
    if c == h {
      assert head + kept == x;
    } else {
      assert kept == Last(body, Room(maxSize, h));
      assert x + batch == head + (body + batch) && (body + batch)[0] == x[h];
      assert (head + kept) + batch == head + (kept + batch) && (kept + batch)[0] == (x + batch)[c];
      WindowedSplit(head, body + batch, maxSize);
      WindowedSplit(head, kept + batch, maxSize);
      LastOfLast(body, batch, Room(maxSize, h));
    }
  }

  predicate AllSystem(ms: seq<Message>) {
    forall i :: 0 <= i < |ms| ==> ms[i].role.System?
  }

  lemma {:induction false} LeadingSystemAtLeast(ms: seq<Message>, p: seq<Message>)
    requires p <= ms && AllSystem(p)
    ensures |p| <= LeadingSystem(ms)
  {
    hide LeadingSystem;
    assert forall i :: 0 <= i < |p| ==> ms[i] == p[i];
  }

  /** A system head is never trimmed again. */
  lemma {:induction false} HeadStays(ms: seq<Message>, batches: seq<seq<Message>>, maxSize: int, p: seq<Message>)
    requires p <= ms && AllSystem(p)
    ensures p <= AddedAll(ms, batches, maxSize)
    decreases |batches|
  {
    if batches != [] {
      WindowKeepsHead(ms + batches[0], maxSize, p);
      HeadStays(Added(ms, batches[0], maxSize, Working), batches[1..], maxSize, p);
    }
  }

  lemma WindowKeepsHead(ms: seq<Message>, maxSize: int, p: seq<Message>)
    requires p <= ms && AllSystem(p)
    ensures p <= Windowed(ms, maxSize)
  {
    hide Windowed, LeadingSystem;
    LeadingSystemAtLeast(ms, p);
    WindowedIsCut(ms, maxSize);
  }

  /** The kept head and the system message that a harmful batch brings behind it. */
  function Harm(x: seq<Message>, batch: seq<Message>, maxSize: int): seq<Message>
    requires batch != []
  {
    x[..LeadingSystem(x)] + [(x + batch)[Cut(x, maxSize)]]
  }

  /** It stays at the head. */
  lemma {:induction false} HarmIsDone(x: seq<Message>, batch: seq<Message>, maxSize: int)
    requires batch != [] && !Harmless(x, batch, maxSize)
    ensures AllSystem(Harm(x, batch, maxSize))
    ensures Harm(x, batch, maxSize) <= Windowed(Windowed(x, maxSize) + batch, maxSize)
  {
    hide Windowed, LeadingSystem, Cut;
    var h, c := LeadingSystem(x), Cut(x, maxSize);
    var head, tail := x[..h], x[c..] + batch;
    WindowedIsCut(x, maxSize);
    assert tail[0] == (x + batch)[c];
    HeadThenNext(head, tail, Harm(x, batch, maxSize));
    assert head + tail == Windowed(x, maxSize) + batch;
    WindowKeepsHead(head + tail, maxSize, Harm(x, batch, maxSize));
  }

  /** It is not there if everything is added at once. */
  lemma {:induction false} HarmNotAtOnce(x: seq<Message>, batch: seq<Message>, rest: seq<Message>, maxSize: int)
    requires batch != [] && !Harmless(x, batch, maxSize) && Distinct(x + batch + rest)
    ensures !(Harm(x, batch, maxSize) <= Windowed(x + batch + rest, maxSize))
  {
    hide Windowed, LeadingSystem, Last, Distinct;
    var h, c := LeadingSystem(x), Cut(x, maxSize);
    var w := x + batch + rest;
    assert w[..h] == x[..h] && w[c] == (x + batch)[c];
    assert forall i :: 0 <= i <= h ==> w[i] == x[i];
    LeadingSystemIs(w, h);
    LastFrom(w, h, maxSize);
    var drop := |w| - maxSize;
    var k := if drop >= |w| - h then |w| else h + drop;
    assert w[..h] + w[|w|..] == w[..h];
    assert Windowed(w, maxSize) == w[..h] + w[k..];
    NotAtHead(w, h, c, k);
  }

  lemma HeadThenNext(head: seq<Message>, tail: seq<Message>, p: seq<Message>)
    requires tail != [] && p == head + [tail[0]]
    ensures p <= head + tail
  {
  }

  lemma NotAtHead(w: seq<Message>, h: nat, c: nat, k: nat)
    requires Distinct(w) && h <= c < k <= |w|
    ensures !(w[..h] + [w[c]] <= w[..h] + w[k..])
  {
    if k < |w| { assert (w[..h] + w[k..])[h] == w[k]; }
  }

  lemma {:induction false} BatchesAgree(x: seq<Message>, batches: seq<seq<Message>>, maxSize: int)
    requires NonEmpty(batches)
    ensures AllHarmless(x, batches, maxSize) ==>
              AddedAll(Windowed(x, maxSize), batches, maxSize) == Windowed(x + Flatten(batches), maxSize)
    ensures Distinct(x + Flatten(batches)) && !AllHarmless(x, batches, maxSize) ==>
              AddedAll(Windowed(x, maxSize), batches, maxSize) != Windowed(x + Flatten(batches), maxSize)
    decreases |batches|
  {
    hide Windowed, LeadingSystem, Harmless, Distinct, Harm, AllSystem;
    if batches == [] {
      assert x + [] == x;
    } else {
      var b, rest := batches[0], batches[1..];
      assert x + Flatten(batches) == x + b + Flatten(rest);
      if Harmless(x, b, maxSize) {
        HarmlessBatch(x, b, maxSize);
        BatchesAgree(x + b, rest, maxSize);
      } else if Distinct(x + b + Flatten(rest)) {
        HarmIsDone(x, b, maxSize);
        HarmNotAtOnce(x, b, Flatten(rest), maxSize);
        HeadStays(Windowed(Windowed(x, maxSize) + b, maxSize), rest, maxSize, Harm(x, b, maxSize));
      }
    }
  }

  /** Adding batch by batch is adding everything at once if no trim but the last brings a system message to the
      end of the kept head; and if all messages are different, only then. */
  lemma {:induction false} BatchesAgreeIff(ms: seq<Message>, batches: seq<seq<Message>>, maxSize: int)
    requires batches != [] && NonEmpty(batches)
    ensures AllHarmless(ms + batches[0], batches[1..], maxSize) ==>
              AddedAll(ms, batches, maxSize) == Added(ms, Flatten(batches), maxSize, Working)
    ensures Distinct(ms + Flatten(batches)) ==>
              (AddedAll(ms, batches, maxSize) == Added(ms, Flatten(batches), maxSize, Working)
               <==> AllHarmless(ms + batches[0], batches[1..], maxSize))
  {
    hide Windowed, AllHarmless, Distinct;
    var x := ms + batches[0];
    assert ms + Flatten(batches) == x + Flatten(batches[1..]);
    BatchesAgree(x, batches[1..], maxSize);
  }

  /** In particular if system messages stand at the head only. */
  lemma {:induction false} AddInBatches(ms: seq<Message>, batches: seq<seq<Message>>, maxSize: int)
    requires batches != [] && NonEmpty(batches) && SystemAtHead(ms + Flatten(batches))
    ensures AddedAll(ms, batches, maxSize) == Added(ms, Flatten(batches), maxSize, Working)
  {
    hide Windowed, AllHarmless;
    assert ms + Flatten(batches) == ms + batches[0] + Flatten(batches[1..]);
    HeadOnlyIsHarmless(ms + batches[0], batches[1..], maxSize);
    BatchesAgreeIff(ms, batches, maxSize);
  }

  lemma {:induction false} HeadOnlyIsHarmless(x: seq<Message>, batches: seq<seq<Message>>, maxSize: int)
    requires NonEmpty(batches) && SystemAtHead(x + Flatten(batches))
    ensures AllHarmless(x, batches, maxSize)
    decreases |batches|
  {
    hide LeadingSystem;
    if batches != [] {
      var all := x + Flatten(batches);
      assert all == x + batches[0] + Flatten(batches[1..]);
      HeadOnlyIsHarmless(x + batches[0], batches[1..], maxSize);
      var h, c := LeadingSystem(x), Cut(x, maxSize);
      if c != h {
        assert all[h] == x[h] && all[c] == (x + batches[0])[c];
        assert LeadingSystem(all) <= h by { assert !all[h].role.System?; }
      }
    }
  }

  /** Without that condition it is not: a system message that a first trim brings to the head survives the
      second one. */
  lemma BatchesMatterWithInnerSystemMessage()
    ensures exists ms: seq<Message>, b1: seq<Message>, b2: seq<Message>, n: int ::
      b1 != [] && b2 != [] && n > 0
      && Added(Added(ms, b1, n, Working), b2, n, Working) != Added(ms, b1 + b2, n, Working)
  {
    var u, s, v, w := Plain(User, "1"), Plain(System, "s"), Plain(User, "2"), Plain(User, "3");
    hide Windowed, LeadingSystem;
    assert Windowed([u, s] + [v], 2) == [s, v] by {
      assert [u, s] + [v] == [] + [u, s, v];
      WindowedSplit([], [u, s, v], 2);
    }
    assert Windowed([s, v] + [w], 2)[0] == s by {
      assert [s, v] + [w] == [s] + [v, w];
      WindowedSplit([s], [v, w], 2);
    }
    assert Windowed([u, s] + ([v] + [w]), 2)[0] == v by {
      assert [u, s] + ([v] + [w]) == [] + [u, s, v, w];
      WindowedSplit([], [u, s, v, w], 2);
    }
    var batched, atOnce := Added(Added([u, s], [v], 2, Working), [w], 2, Working), Added([u, s], [v] + [w], 2, Working);
    assert batched != atOnce;
  }
}
