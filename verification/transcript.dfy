/** When a message list is a well-formed conversation: every tool call is answered directly after the
    assistant message that makes it, and no tool message stands anywhere else. */
module Transcript {
  import opened Chat

  function CallIds(m: Message): set<string> {
    set tc | tc in m.toolCalls :: tc.id
  }

  /** Index of the last non-tool message at or before j, or -1. */
  function Owner(ms: seq<Message>, j: int): (i: int)
    requires -1 <= j < |ms|
    ensures -1 <= i <= j
    ensures 0 <= i ==> !ms[i].role.Tool?
    ensures forall k :: i < k <= j ==> ms[k].role.Tool?
    decreases j
  {
    if j < 0 || !ms[j].role.Tool? then j else Owner(ms, j - 1)
  }

  /** The message at j is a tool message that answers a call of the assistant message it belongs to. */
  predicate Answers(ms: seq<Message>, j: int)
    requires 0 <= j < |ms|
  {
    var i := Owner(ms, j);
    ms[j].role.Tool? && 0 <= i && CallsTools(ms[i]) && ms[j].toolCallId in CallIds(ms[i])
  }

  /** The message at j is a tool message with this ID, with only tool messages between i and it. */
  predicate Replies(ms: seq<Message>, i: int, id: string, j: int)
    requires 0 <= j < |ms|
  {
    i < j && ms[j].toolCallId == id && Owner(ms, j) == i
  }

  ghost predicate AnsweredAfter(ms: seq<Message>, i: int, id: string)
    requires 0 <= i < |ms|
  {
    exists j :: 0 <= j < |ms| && Replies(ms, i, id, j)
  }

  ghost predicate NoOrphans(ms: seq<Message>) {
    forall j :: 0 <= j < |ms| && ms[j].role.Tool? ==> Answers(ms, j)
  }

  ghost predicate AllAnswered(ms: seq<Message>) {
    forall i, id :: 0 <= i < |ms| && CallsTools(ms[i]) && id in CallIds(ms[i]) ==> AnsweredAfter(ms, i, id)
  }

  ghost predicate WellFormed(ms: seq<Message>) {
    NoOrphans(ms) && AllAnswered(ms)
  }

  /** What has to be known about a prefix to go on reading: the IDs that a tool message may carry now, and
      those still unanswered. */
  datatype Tail = Broken | Tail(ids: set<string>, open: set<string>)

  const Closed := Tail({}, {})

  function Next(t: Tail, m: Message): Tail {
    if t.Broken? then Broken
    else if m.role.Tool? then
      if m.toolCallId in t.ids then Tail(t.ids, t.open - {m.toolCallId}) else Broken
    else if t.open != {} then Broken
    else if CallsTools(m) then Tail(CallIds(m), CallIds(m))
    else Closed
  }

  function Scan(t: Tail, ms: seq<Message>): Tail
    decreases |ms|
  {
    if ms == [] then t else Scan(Next(t, ms[0]), ms[1..])
  }

  predicate Complete(t: Tail) {
    t.Tail? && t.open == {}
  }

  lemma {:induction false} ScanBroken(ms: seq<Message>)
    ensures Scan(Broken, ms) == Broken
  {
    if ms != [] { ScanBroken(ms[1..]); }
  }

  lemma {:induction false} ScanConcat(t: Tail, a: seq<Message>, b: seq<Message>)
    ensures Scan(t, a + b) == Scan(Scan(t, a), b)
    decreases |a|
  {
    if a == [] {
      assert a + b == b;
    } else {
      assert (a + b)[1..] == a[1..] + b;
      ScanConcat(Next(t, a[0]), a[1..], b);
    }
  }

  lemma ScanSnoc(t: Tail, ms: seq<Message>)
    requires ms != []
    ensures Scan(t, ms) == Next(Scan(t, ms[..|ms| - 1]), ms[|ms| - 1])
  {
    var last := ms[|ms| - 1];
    ScanConcat(t, ms[..|ms| - 1], [last]);
    assert ms == ms[..|ms| - 1] + [last];
    assert Scan(Scan(t, ms[..|ms| - 1]), [last]) == Next(Scan(t, ms[..|ms| - 1]), last);
  }

  lemma {:induction false} OwnerOfPrefix(ms: seq<Message>, n: nat, j: int)
    requires n <= |ms| && -1 <= j < n
    ensures Owner(ms[..n], j) == Owner(ms, j)
    decreases j + 1
  {
  }

  /** Every call of every assistant message is answered, except possibly those of the last non-tool message,
      whose unanswered calls are `open`. */
  ghost predicate Describes(ms: seq<Message>, t: Tail)
    requires t.Tail?
  {
    var last := Owner(ms, |ms| - 1);
    && NoOrphans(ms)
    && (forall i, id :: 0 <= i < |ms| && CallsTools(ms[i]) && id in CallIds(ms[i])
          ==> (AnsweredAfter(ms, i, id) <==> !(i == last && id in t.open)))
    && t.ids == (if 0 <= last && CallsTools(ms[last]) then CallIds(ms[last]) else {})
    && t.open <= t.ids
  }

  /** Reading never fails on a conversation without orphans whose calls are answered before the next
      non-tool message, and then the tail says what is still unanswered. */
  lemma {:induction false} ScanDescribes(ms: seq<Message>)
    ensures Scan(Closed, ms).Tail? ==> Describes(ms, Scan(Closed, ms))
    decreases |ms|
  {
    if ms != [] {
      hide Describes, Scan;
      ScanDescribes(ms[..|ms| - 1]);
      ScanSnoc(Closed, ms);
      if Scan(Closed, ms).Tail? { ExtendDescribes(ms, Scan(Closed, ms[..|ms| - 1])); }
    }
  }

  /** Where the reading fails, nothing that follows can mend the conversation. */
  lemma {:induction false} ScanStuck(ms: seq<Message>, more: seq<Message>)
    requires Scan(Closed, ms).Broken?
    ensures !WellFormed(ms + more)
    decreases |ms|
  {
    hide Describes, WellFormed, Next;
    var n := |ms| - 1;
    var before := ms[..n];
    ScanSnoc(Closed, ms);
    if Scan(Closed, before).Broken? {
      ScanStuck(before, [ms[n]] + more);
      assert ms + more == before + ([ms[n]] + more);
    } else {
      ScanDescribes(before);
      StuckForever(ms, more, Scan(Closed, before));
    }
  }

  lemma StuckForever(ms: seq<Message>, more: seq<Message>, t: Tail)
    requires ms != [] && t.Tail? && Describes(ms[..|ms| - 1], t)
    requires Next(t, ms[|ms| - 1]).Broken?
    ensures !WellFormed(ms + more)
  {
    var n := |ms| - 1;
    var all := ms + more;
    assert all[..n] == ms[..n];
    assert all[n] == ms[n];
    var last := Owner(ms[..n], n - 1);
    OwnerOfPrefix(all, n, n - 1);
    if ms[n].role.Tool? {
      assert Owner(all, n) == last;
      if last >= 0 { assert all[last] == ms[..n][last]; }
      assert !Answers(all, n);
      assert all[n].role.Tool?;
    } else {
      var id :| id in t.open;
      assert ms[..n][last] == all[last];
      assert CallsTools(all[last]) && id in CallIds(all[last]);
      AnsweredBeforeNext(all, n, last, id);
    }
  }

  /** What is not a tool message ends the replies to everything before it. */
  lemma AnsweredBeforeNext(ms: seq<Message>, n: nat, i: nat, id: string)
    requires i < n < |ms| && !ms[n].role.Tool?
    ensures AnsweredAfter(ms, i, id) ==> AnsweredAfter(ms[..n], i, id)
  {
    if AnsweredAfter(ms, i, id) {
      var j :| 0 <= j < |ms| && Replies(ms, i, id, j);
      OwnerOfPrefix(ms, n, if j < n then j else -1);
      assert Replies(ms[..n], i, id, j);
    }
  }

  lemma AnsweredAfterSnoc(ms: seq<Message>, i: nat, id: string)
    requires i < |ms| - 1
    ensures AnsweredAfter(ms, i, id)
        <==> AnsweredAfter(ms[..|ms| - 1], i, id)
             || (ms[|ms| - 1].toolCallId == id && Owner(ms, |ms| - 1) == i)
  {
    hide Owner, Replies;
    var n := |ms| - 1;
    RepliesAtEnd(ms, i, id);
    forall j: nat | j < n ensures Replies(ms[..n], i, id, j) <==> Replies(ms, i, id, j) {
      RepliesInPrefix(ms, n, i, id, j);
    }
    if AnsweredAfter(ms, i, id) {
      var j :| 0 <= j < |ms| && Replies(ms, i, id, j);
      assert j < n ==> Replies(ms[..n], i, id, j);
    }
  }

  lemma RepliesAtEnd(ms: seq<Message>, i: nat, id: string)
    requires i < |ms| - 1
    ensures Replies(ms, i, id, |ms| - 1) <==> ms[|ms| - 1].toolCallId == id && Owner(ms, |ms| - 1) == i
  {
  }

  lemma RepliesInPrefix(ms: seq<Message>, n: nat, i: int, id: string, j: nat)
    requires j < n <= |ms|
    ensures Replies(ms[..n], i, id, j) <==> Replies(ms, i, id, j)
  {
  }

  lemma ExtendNoOrphans(ms: seq<Message>, t: Tail)
    requires ms != [] && t.Tail? && Describes(ms[..|ms| - 1], t)
    requires Next(t, ms[|ms| - 1]).Tail?
    ensures NoOrphans(ms)
  {
    var n := |ms| - 1;
    var before := ms[..n];
    forall j | 0 <= j < |ms| && ms[j].role.Tool? ensures Answers(ms, j) {
      if j < n {
        OwnerOfPrefix(ms, n, j);
        assert before[j] == ms[j];
        assert Answers(before, j);
      } else {
        OwnerOfPrefix(ms, n, n - 1);
        assert CallsTools(before[Owner(before, n - 1)]);
      }
    }
  }

  lemma ExtendDescribes(ms: seq<Message>, t: Tail)
    requires ms != [] && t.Tail? && Describes(ms[..|ms| - 1], t)
    requires Next(t, ms[|ms| - 1]).Tail?
    ensures Describes(ms, Next(t, ms[|ms| - 1]))
  {
    var n := |ms| - 1;
    ExtendNoOrphans(ms, t);
    OwnerOfPrefix(ms, n, n - 1);
    var t' := Next(t, ms[n]);
    forall i, id | 0 <= i < |ms| && CallsTools(ms[i]) && id in CallIds(ms[i])
      ensures AnsweredAfter(ms, i, id) <==> !(i == Owner(ms, n) && id in t'.open)
    {
      if i < n {
        assert ms[..n][i] == ms[i];
        AnsweredAfterSnoc(ms, i, id);
      }
    }
  }

  /** The one-pass reading decides well-formedness. */
  lemma WellFormedIffScan(ms: seq<Message>)
    ensures WellFormed(ms) <==> Complete(Scan(Closed, ms))
  {
    ScanDescribes(ms);
    var t := Scan(Closed, ms);
    if t.Broken? {
      ScanStuck(ms, []);
      assert ms + [] == ms;
    } else if t.open != {} {
      var id :| id in t.open;
      assert !AnsweredAfter(ms, Owner(ms, |ms| - 1), id);
    }
  }
}
