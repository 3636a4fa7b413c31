/** memory/compressor.go: dropping superseded failures, clearing stale tool results, and rebuilding the list
    around a summary. */
module Compressor {
  import opened Chat
  import Text

  const CLEARED: string := "[Old tool result content cleared]"

  predicate IsToolFailureContent(content: string) {
    var lower := Text.ToLower(Text.TrimSpace(content));
    "error" <= lower || Text.Contains(lower, "error:")
  }

  /** The content is a failure if, in capitals or not, it starts with "error" behind any space, or has "error:"
      anywhere. */
  lemma FailureIff(content: string)
    ensures IsToolFailureContent(content) <==>
              || (exists i: nat :: Text.WordAt(content, i, "error") && forall k :: 0 <= k < i ==> Text.IsSpace(content[k]))
              || (exists i: nat :: Text.WordAt(content, i, "error:"))
  {
    hide Text.TrimSpace, Text.ToLower, Text.Contains, Text.WordAt;
    Text.TrimmedStartsWithWord(content, "error");
    Text.TrimmedContainsWord(content, "error:");
  }

  /** A tool call at i whose direct answer is a failure. */
  predicate FailPair(ms: seq<Message>, i: int) {
    && 0 <= i && i + 1 < |ms|
    && CallsTools(ms[i])
    && ms[i + 1].role.Tool?
    && IsToolFailureContent(ms[i + 1].content)
  }

  /** The failing pair at i is directly followed by another failing pair of the same tool. */
  predicate Superseded(ms: seq<Message>, i: int) {
    FailPair(ms, i) && FailPair(ms, i + 2) && ms[i + 1].name == ms[i + 3].name
  }

  predicate Dropped(ms: seq<Message>, i: int) {
    Superseded(ms, i) || Superseded(ms, i - 1)
  }

  function KeptFrom(ms: seq<Message>, i: nat): seq<Message>
    decreases |ms| - i
  {
    if i >= |ms| then []
    else if Dropped(ms, i) then KeptFrom(ms, i + 1)
    else [ms[i]] + KeptFrom(ms, i + 1)
  }

  /** The messages outside superseded pairs, in order. */
  function Pruned(ms: seq<Message>): seq<Message> {
    KeptFrom(ms, 0)
  }

  lemma ConcatAssociative<T>(a: seq<T>, b: seq<T>, c: seq<T>)
    ensures (a + b) + c == a + (b + c)
  {
  }

  method PruneConsecutiveFailures(messages: seq<Message>) returns (out: seq<Message>)
    ensures out == Pruned(messages)
  {
    hide KeptFrom, IsToolFailureContent, CallsTools;
    if |messages| < 2 {
      NormalFormIsKept(messages, 0);
      return messages;
    }
    KeptNothing(messages);
    out := [];
    var i := 0;
    while i < |messages|
      invariant 0 <= i <= |messages|
      invariant Boundary(messages, i)
      invariant out + KeptFrom(messages, i) == Pruned(messages)
    {
      if i + 1 < |messages| && CallsTools(messages[i]) && messages[i + 1].role == Tool
         && IsToolFailureContent(messages[i + 1].content)
      {
        var toolName := messages[i + 1].name;
        var run := [(i, i + 1)];
        var j := i + 2;
        while j + 1 < |messages| && CallsTools(messages[j]) && messages[j + 1].role == Tool
              && IsToolFailureContent(messages[j + 1].content) && messages[j + 1].name == toolName
          invariant i + 2 <= j <= |messages|
          invariant |run| > 0 && run[|run| - 1] == (j - 2, j - 1)
          invariant FailPair(messages, j - 2) && messages[j - 1].name == toolName
          invariant Boundary(messages, j - 2)
          invariant KeptFrom(messages, i) == KeptFrom(messages, j - 2)
        {
          KeptSuperseded(messages, j - 2);
          run := run + [(j, j + 1)];
          j := j + 2;
        }
        var last := run[|run| - 1];
        KeptLast(messages, j - 2);
        ConcatAssociative(out, [messages[j - 2], messages[j - 1]], KeptFrom(messages, j));
        out := out + [messages[last.0], messages[last.1]];
        i := j;
        continue;
      }
      KeptPlain(messages, i);
      ConcatAssociative(out, [messages[i]], KeptFrom(messages, i + 1));
      out := out + [messages[i]];
      i := i + 1;
    }
  }

  /** A position that is not the second half of a superseded pair. */
  predicate Boundary(ms: seq<Message>, i: int) {
    0 <= i <= |ms| && !Superseded(ms, i - 1)
  }

  predicate NormalForm(ms: seq<Message>) {
    forall i :: 0 <= i < |ms| ==> !Superseded(ms, i)
  }

  lemma KeptSuperseded(ms: seq<Message>, i: nat)
    requires Superseded(ms, i)
    ensures KeptFrom(ms, i) == KeptFrom(ms, i + 2) && Boundary(ms, i + 2)
  {
  }

  lemma KeptNothing(ms: seq<Message>)
    ensures KeptFrom(ms, |ms|) == []
  {
  }

  lemma NothingPast(ms: seq<Message>, i: nat)
    requires i >= |ms|
    ensures KeptFrom(ms, i) == [] && !FailPair(ms, i)
  {
  }

  lemma KeptPlain(ms: seq<Message>, i: nat)
    requires i < |ms| && Boundary(ms, i) && !FailPair(ms, i)
    ensures KeptFrom(ms, i) == [ms[i]] + KeptFrom(ms, i + 1) && Boundary(ms, i + 1)
  {
  }

  lemma KeptLast(ms: seq<Message>, i: nat)
    requires FailPair(ms, i) && !Superseded(ms, i) && Boundary(ms, i)
    ensures KeptFrom(ms, i) == [ms[i], ms[i + 1]] + KeptFrom(ms, i + 2) && Boundary(ms, i + 2)
  {
  }

  /** What is kept from a boundary on starts with a failing pair exactly if the input does there (of the same
      tool), and has no superseded pair left. */
  lemma {:induction false} KeptIsNormal(ms: seq<Message>, i: nat)
    requires Boundary(ms, i)
    ensures i < |ms| ==> KeptFrom(ms, i) != []
    ensures FailPair(KeptFrom(ms, i), 0) <==> FailPair(ms, i)
    ensures FailPair(ms, i) ==> KeptFrom(ms, i)[1].name == ms[i + 1].name
    ensures i < |ms| && !FailPair(ms, i) ==> KeptFrom(ms, i)[0] == ms[i]
    ensures NormalForm(KeptFrom(ms, i))
    decreases |ms| - i
  {
    hide KeptFrom, IsToolFailureContent;
    var p := KeptFrom(ms, i);
    if i >= |ms| {
      NothingPast(ms, i);
    } else if Superseded(ms, i) {
      KeptSuperseded(ms, i);
      KeptIsNormal(ms, i + 2);
    } else if FailPair(ms, i) {
      KeptLast(ms, i);
      KeptIsNormal(ms, i + 2);
      var q := KeptFrom(ms, i + 2);
      forall k | 0 <= k < |p| ensures !Superseded(p, k) {
        if k == 0 {
          assert FailPair(p, 2) <==> FailPair(q, 0);
        } else if k >= 2 {
          assert Superseded(p, k) ==> Superseded(q, k - 2);
        }
      }
    } else {
      KeptPlain(ms, i);
      KeptIsNormal(ms, i + 1);
      var q := KeptFrom(ms, i + 1);
      assert p == [ms[i]] + q;
      if i + 1 < |ms| { assert FailPair(q, 0) <==> FailPair(ms, i + 1); } else { KeptNothing(ms); }
      forall k | 1 <= k < |p| ensures !Superseded(p, k) {
        assert Superseded(p, k) ==> Superseded(q, k - 1);
      }
    }
  }

  /** No two adjacent failing pairs of one tool remain. */
  lemma PruneYieldsNormalForm(ms: seq<Message>)
    ensures NormalForm(Pruned(ms))
  {
    KeptIsNormal(ms, 0);
  }

  lemma {:induction false} NormalFormIsKept(ms: seq<Message>, i: nat)
    requires NormalForm(ms) && i <= |ms|
    ensures KeptFrom(ms, i) == ms[i..]
    decreases |ms| - i
  {
    if i < |ms| { NormalFormIsKept(ms, i + 1); }
  }

  /** Pruning changes nothing exactly on normal forms. */
  lemma PruneFixesNormalForms(ms: seq<Message>)
    ensures Pruned(ms) == ms <==> NormalForm(ms)
  {
    if NormalForm(ms) {
      NormalFormIsKept(ms, 0);
    }
    PruneYieldsNormalForm(ms);
  }

  lemma PruneIdempotent(ms: seq<Message>)
    ensures Pruned(Pruned(ms)) == Pruned(ms)
  {
    PruneYieldsNormalForm(ms);
    PruneFixesNormalForms(Pruned(ms));
  }

  function KeptIndices(ms: seq<Message>, i: nat): seq<nat>
    decreases |ms| - i
  {
    if i >= |ms| then []
    else if Dropped(ms, i) then KeptIndices(ms, i + 1)
    else [i] + KeptIndices(ms, i + 1)
  }

  /** `at` embeds `part` into `whole` in order. */
  ghost predicate Embeds(part: seq<Message>, whole: seq<Message>, at: seq<nat>) {
    && |at| == |part|
    && (forall k :: 0 <= k < |at| ==> at[k] < |whole| && part[k] == whole[at[k]])
    && (forall k, l :: 0 <= k < l < |at| ==> at[k] < at[l])
  }

  lemma {:induction false} KeptIndicesExact(ms: seq<Message>, i: nat)
    ensures forall k :: k in KeptIndices(ms, i) <==> i <= k < |ms| && !Dropped(ms, k)
    decreases |ms| - i
  {
    if i < |ms| {
      KeptIndicesExact(ms, i + 1);
    }
  }

  lemma {:induction false} KeptEmbeds(ms: seq<Message>, i: nat)
    ensures Embeds(KeptFrom(ms, i), ms, KeptIndices(ms, i))
    decreases |ms| - i
  {
    hide Embeds, Dropped;
    if i >= |ms| {
      NothingEmbeds(ms);
    } else {
      var part, at := KeptFrom(ms, i + 1), KeptIndices(ms, i + 1);
      KeptEmbeds(ms, i + 1);
      KeptIndicesExact(ms, i + 1);
      assert forall l :: 0 <= l < |at| ==> at[l] in at;
      EmbedsCons(part, ms, at, i);
    }
  }

  lemma NothingEmbeds(ms: seq<Message>)
    ensures Embeds([], ms, [])
  {
  }

  lemma EmbedsCons(part: seq<Message>, whole: seq<Message>, at: seq<nat>, i: nat)
    requires Embeds(part, whole, at) && i < |whole| && forall k :: 0 <= k < |at| ==> i < at[k]
    ensures Embeds([whole[i]] + part, whole, [i] + at)
  {
  }

  /** The output is the subsequence of the input at the positions that are not dropped. */
  lemma {:induction false} PruneIsSubsequence(ms: seq<Message>)
    ensures Embeds(Pruned(ms), ms, KeptIndices(ms, 0))
    ensures forall k :: k in KeptIndices(ms, 0) <==> 0 <= k < |ms| && !Dropped(ms, k)
  {
    KeptEmbeds(ms, 0);
    KeptIndicesExact(ms, 0);
  }

  /** A failing pair goes as a whole exactly if a failing pair of the same tool follows it directly, so the
      last pair of every run stays; what is in no failing pair stays. */
  lemma {:induction false} PruneDropsWholePairs(ms: seq<Message>, i: nat)
    requires i < |ms|
    ensures FailPair(ms, i) ==> (i in KeptIndices(ms, 0) <==> !Superseded(ms, i))
    ensures FailPair(ms, i) ==> (i + 1 in KeptIndices(ms, 0) <==> !Superseded(ms, i))
    ensures !FailPair(ms, i) && !FailPair(ms, i - 1) ==> i in KeptIndices(ms, 0)
  {
    KeptIndicesExact(ms, 0);
    assert i in KeptIndices(ms, 0) <==> !Dropped(ms, i);
    assert i + 1 in KeptIndices(ms, 0) <==> i + 1 < |ms| && !Dropped(ms, i + 1);
  }

  /** An assistant message with tool calls, directly followed by a tool message with a failure. */
  predicate CallFails(call: Message, answer: Message) {
    call.role == Assistant && call.toolCalls != [] && answer.role == Tool && IsToolFailureContent(answer.content)
  }

  /** Four messages in a row: two failing calls of one tool. */
  predicate FailsTwice(ms: seq<Message>, i: int) {
    0 <= i && i + 3 < |ms| && CallFails(ms[i], ms[i + 1]) && CallFails(ms[i + 2], ms[i + 3]) && ms[i + 1].name == ms[i + 3].name
  }

  /** What is dropped is exactly the first half of every such four. */
  lemma {:induction false} PruneDropsExactly(ms: seq<Message>, i: nat)
    requires i < |ms|
    ensures i !in KeptIndices(ms, 0) <==> FailsTwice(ms, i) || FailsTwice(ms, i - 1)
  {
    KeptIndicesExact(ms, 0);
    assert i in KeptIndices(ms, 0) <==> !Dropped(ms, i);
  }

  // ----- stale tool results -----

  function EstimateTokens(s: string): (n: nat)
    ensures 4 * n <= |s| < 4 * n + 4
  {
    |s| / 4
  }

  /** A tool result still shown in full. */
  predicate InFull(m: Message) {
    m.role.Tool? && m.content != CLEARED
  }

  function Cleared(m: Message): Message {
    Message(Tool, CLEARED, [], m.toolCallId, m.name)
  }

  /** Tokens of the tool results shown in full, from position i on. */
  function FullTokens(ms: seq<Message>, i: nat): nat
    decreases |ms| - i
  {
    if i >= |ms| then 0
    else (if InFull(ms[i]) then EstimateTokens(ms[i].content) else 0) + FullTokens(ms, i + 1)
  }

  /** A result is cleared if it and the newer ones still in full do not fit the budget together. */
  function Compacted(ms: seq<Message>, budget: int): seq<Message> {
    seq(|ms|, i requires 0 <= i < |ms| =>
      if InFull(ms[i]) && FullTokens(ms, i) > budget then Cleared(ms[i]) else ms[i])
  }

  lemma {:induction false} FullTokensAntitone(ms: seq<Message>, i: nat, j: nat)
    requires i <= j
    ensures FullTokens(ms, j) <= FullTokens(ms, i)
    decreases j - i
  {
    if i < j {
      FullTokensAntitone(ms, i + 1, j);
    }
  }

  /** Blanks every tool result up to position i that is still in full. */
  method ClearUpTo(out: array<Message>, i: nat)
    requires i < out.Length
    modifies out
    ensures forall k :: 0 <= k <= i ==> out[k] == old(if InFull(out[k]) then Cleared(out[k]) else out[k])
    ensures forall k :: i < k < out.Length ==> out[k] == old(out[k])
  {
    var j: int := i;
    while j >= 0
      invariant -1 <= j <= i
      invariant forall k :: 0 <= k <= j || i < k < out.Length ==> out[k] == old(out[k])
      invariant forall k :: j < k <= i ==> out[k] == old(if InFull(out[k]) then Cleared(out[k]) else out[k])
    {
      if out[j].role == Tool && out[j].content != CLEARED {
        out[j] := Message(Tool, CLEARED, [], out[j].toolCallId, out[j].name);
      }
      j := j - 1;
    }
  }

  method CompactStaleToolResults(messages: seq<Message>, tokenBudget: int) returns (result: seq<Message>)
    ensures result == Compacted(messages, tokenBudget)
  {
    var n := |messages|;
    var out := new Message[n](i requires 0 <= i < n => messages[i]);
    var running := 0;
    var i := n - 1;
    while i >= 0
      invariant -1 <= i < n
      invariant forall k :: 0 <= k < n ==> out[k] == messages[k]
      invariant running == FullTokens(messages, i + 1)
      invariant forall k :: i < k < n && InFull(messages[k]) ==> FullTokens(messages, k) <= tokenBudget
    {
      if out[i].role != Tool {
        i := i - 1;
        continue;
      }
      if out[i].content == CLEARED {
        i := i - 1;
        continue;
      }
      var tok := EstimateTokens(out[i].content);
      if running + tok <= tokenBudget {
        running := running + tok;
        i := i - 1;
        continue;
      }
      forall k | 0 <= k <= i ensures FullTokens(messages, k) > tokenBudget {
        FullTokensAntitone(messages, k, i);
      }
      ClearUpTo(out, i);
      break;
    }
    result := out[..];
  }

  lemma {:induction false} FullTokensOfSuffix(ms: seq<Message>, other: seq<Message>, i: nat)
    requires |other| == |ms|
    requires forall k :: i <= k < |ms| ==> other[k] == ms[k]
    ensures FullTokens(other, i) == FullTokens(ms, i)
    decreases |ms| - i
  {
    if i < |ms| {
      FullTokensOfSuffix(ms, other, i + 1);
    }
  }

  /** Everything before the cut is cleared, nothing from the cut on is, and the cut could not be earlier. */
  ghost predicate IsCut(ms: seq<Message>, budget: int, cut: nat) {
    && cut <= |ms|
    && (forall i :: cut <= i < |ms| ==> Compacted(ms, budget)[i] == ms[i])
    && (forall i :: 0 <= i < cut ==> Compacted(ms, budget)[i] == if InFull(ms[i]) then Cleared(ms[i]) else ms[i])
    && (FullTokens(ms, cut) <= budget || FullTokens(ms, cut) == 0)
    && (cut > 0 ==> InFull(ms[cut - 1])
                    && EstimateTokens(ms[cut - 1].content) + FullTokens(ms, cut) > budget)
  }

  lemma {:induction false} CutFrom(ms: seq<Message>, budget: int, i: nat) returns (cut: nat)
    requires i <= |ms|
    requires forall k :: i <= k < |ms| ==> !(InFull(ms[k]) && FullTokens(ms, k) > budget)
    requires FullTokens(ms, i) <= budget || FullTokens(ms, i) == 0
    ensures IsCut(ms, budget, cut)
    decreases i
  {
    if i == 0 {
      cut := 0;
    } else {
      if InFull(ms[i - 1]) && FullTokens(ms, i - 1) > budget {
        cut := i;
        forall k | 0 <= k < i ensures FullTokens(ms, k) > budget {
          FullTokensAntitone(ms, k, i - 1);
        }
      } else {
        cut := CutFrom(ms, budget, i - 1);
      }
    }
  }

  /** Compaction keeps a longest suffix of results in full: they fit the budget, and the newest cleared one
      would not have fitted too. */
  lemma CompactKeepsMaximalSuffix(ms: seq<Message>, budget: int) returns (cut: nat)
    ensures IsCut(ms, budget, cut)
    ensures FullTokens(Compacted(ms, budget), 0) == FullTokens(ms, cut)
    ensures budget >= 0 ==> FullTokens(Compacted(ms, budget), 0) <= budget
  {
    cut := CutFrom(ms, budget, |ms|);
    FullTokensAfterCut(ms, budget, cut, cut);
  }

  lemma {:induction false} FullTokensAfterCut(ms: seq<Message>, budget: int, cut: nat, i: nat)
    requires IsCut(ms, budget, cut) && i <= cut
    ensures FullTokens(Compacted(ms, budget), cut - i) == FullTokens(ms, cut)
  {
    var out := Compacted(ms, budget);
    if i == 0 {
      FullTokensOfSuffix(ms, out, cut);
    } else {
      FullTokensAfterCut(ms, budget, cut, i - 1);
      assert !InFull(out[cut - i]);
    }
  }

  /** Tokens of all tool results but the blanked ones. */
  function ShownTokens(ms: seq<Message>): nat {
    if ms == [] then 0
    else
      var m := ms[|ms| - 1];
      ShownTokens(ms[..|ms| - 1])
      + if m.role == Tool && m.content != "[Old tool result content cleared]" then |m.content| / 4 else 0
  }

  lemma {:induction false} FullTokensSnoc(ms: seq<Message>, m: Message, i: nat)
    requires i <= |ms|
    ensures FullTokens(ms + [m], i) == FullTokens(ms, i) + FullTokens([m], 0)
    decreases |ms| - i
  {
    if i < |ms| {
      FullTokensSnoc(ms, m, i + 1);
    } else {
      assert (ms + [m])[i] == [m][0];
      assert FullTokens(ms + [m], i + 1) == FullTokens([m], 1) == 0;
    }
  }

  lemma {:induction false} FullIsShown(ms: seq<Message>)
    ensures FullTokens(ms, 0) == ShownTokens(ms)
  {
    if ms != [] {
      var before, m := ms[..|ms| - 1], ms[|ms| - 1];
      FullIsShown(before);
      FullTokensSnoc(before, m, 0);
      assert before + [m] == ms;
      assert FullTokens([m], 1) == 0;
    }
  }

  /** What compaction leaves in full fits a non-negative budget; it changes nothing exactly if everything fits. */
  lemma CompactFits(ms: seq<Message>, budget: int)
    requires budget >= 0
    ensures ShownTokens(Compacted(ms, budget)) <= budget
    ensures Compacted(ms, budget) == ms <==> ShownTokens(ms) <= budget
  {
    hide Compacted;
    var cut := CompactKeepsMaximalSuffix(ms, budget);
    FullIsShown(Compacted(ms, budget));
    FullIsShown(ms);
    FullTokensAntitone(ms, 0, cut);
    CompactKeepsShape(ms, budget);
    if cut > 0 {
      ClearedPaid(ms, cut);
      assert Compacted(ms, budget)[cut - 1].content == CLEARED != ms[cut - 1].content;
    } else {
      assert forall i :: 0 <= i < |ms| ==> Compacted(ms, budget)[i] == ms[i];
    }
  }

  lemma ClearedPaid(ms: seq<Message>, cut: nat)
    requires 0 < cut <= |ms| && InFull(ms[cut - 1])
    ensures FullTokens(ms, 0) >= EstimateTokens(ms[cut - 1].content) + FullTokens(ms, cut)
  {
    FullTokensAntitone(ms, 0, cut - 1);
  }

  /** Only the content of tool messages changes (a cleared tool message also loses tool calls, which no
      assistant made). */
  lemma CompactKeepsShape(ms: seq<Message>, budget: int)
    ensures |Compacted(ms, budget)| == |ms|
    ensures forall i :: 0 <= i < |ms| ==>
      var m, c := ms[i], Compacted(ms, budget)[i];
      && c.role == m.role && c.toolCallId == m.toolCallId && c.name == m.name
      && (m.role != Tool ==> c == m)
      && (c == m || c.content == CLEARED)
  {
  }

  lemma CompactIdempotent(ms: seq<Message>, budget: int)
    ensures Compacted(Compacted(ms, budget), budget) == Compacted(ms, budget)
  {
    var out := Compacted(ms, budget);
    var cut := CompactKeepsMaximalSuffix(ms, budget);
    forall i | 0 <= i < |out| ensures Compacted(out, budget)[i] == out[i] {
      if i >= cut {
        FullTokensOfSuffix(ms, out, i);
      }
    }
  }

  lemma ClearedIsNoFailure()
    ensures !IsToolFailureContent(CLEARED)
  {
    var lower := Text.ToLower(CLEARED);
    assert Text.TrimSpace(CLEARED) == CLEARED;
    assert lower[0] == '[' && "error"[0] == 'e';
    NoColon();
    NoColonInLower(CLEARED);
    forall i | 0 <= i <= |lower| ensures !("error:" <= lower[i..]) {
      CharOfPrefix("error:", lower[i..], 5);
    }
  }

  lemma CharOfPrefix(p: string, s: string, k: nat)
    requires k < |p|
    ensures p <= s ==> k < |s| && s[k] == p[k]
  {
  }

  lemma NoColon()
    ensures forall k :: 0 <= k < |CLEARED| ==> CLEARED[k] != ':'
  {
  }

  lemma NoColonInLower(s: string)
    requires forall k :: 0 <= k < |s| ==> s[k] != ':'
    ensures forall k :: 0 <= k < |s| ==> Text.ToLower(s)[k] != ':'
  {
  }

  /** What the run loop does to the memory after every execution. */
  function Tidied(ms: seq<Message>, budget: int): seq<Message> {
    Compacted(Pruned(ms), budget)
  }

  lemma CompactAddsNoFailure(ms: seq<Message>, budget: int, k: int)
    requires FailPair(Compacted(ms, budget), k)
    ensures FailPair(ms, k)
  {
    ClearedIsNoFailure();
    CompactKeepsShape(ms, budget);
  }

  lemma CompactAddsNoSupersededPair(ms: seq<Message>, budget: int, i: int)
    requires Superseded(Compacted(ms, budget), i)
    ensures Superseded(ms, i)
  {
    var out := Compacted(ms, budget);
    CompactAddsNoFailure(ms, budget, i);
    CompactAddsNoFailure(ms, budget, i + 2);
    assert out[i + 1].name == ms[i + 1].name && out[i + 3].name == ms[i + 3].name;
  }

  lemma CompactKeepsNormalForm(ms: seq<Message>, budget: int)
    requires NormalForm(ms)
    ensures NormalForm(Compacted(ms, budget))
  {
    var out := Compacted(ms, budget);
    if i :| 0 <= i < |out| && Superseded(out, i) {
      CompactAddsNoSupersededPair(ms, budget, i);
    }
  }

  /** Tidying a second time changes nothing. */
  lemma TidyIdempotent(ms: seq<Message>, budget: int)
    ensures Tidied(Tidied(ms, budget), budget) == Tidied(ms, budget)
  {
    PruneYieldsNormalForm(ms);
    CompactKeepsNormalForm(Pruned(ms), budget);
    PruneFixesNormalForms(Tidied(ms, budget));
    CompactIdempotent(Pruned(ms), budget);
  }

  // ----- summarising the whole conversation -----

  /** Index of the last assistant message, or -1. */
  function LastAssistant(ms: seq<Message>): (i: int)
    ensures -1 <= i < |ms|
    ensures 0 <= i ==> ms[i].role.Assistant?
    ensures forall k :: i < k < |ms| ==> !ms[k].role.Assistant?
  {
    if ms == [] then -1
    else if ms[|ms| - 1].role.Assistant? then |ms| - 1
    else LastAssistant(ms[..|ms| - 1])
  }

  /** The leading system messages, the summary, and everything from the last assistant message on. */
  function Compressed(ms: seq<Message>, summary: string): seq<Message> {
    var last := LastAssistant(ms);
    ms[..LeadingSystem(ms)] + [Plain(User, summary)] + (if last >= 0 then ms[last..] else [])
  }

  /** The list rebuilding of `Compress`, once the model has produced the summary text. */
  method Compress(messages: seq<Message>, summaryText: string) returns (out: seq<Message>)
    ensures out == Compressed(messages, summaryText)
  {
    var leadingSys := 0;
    while leadingSys < |messages| && messages[leadingSys].role == System
      invariant 0 <= leadingSys <= |messages|
      invariant forall i :: 0 <= i < leadingSys ==> messages[i].role.System?
    {
      leadingSys := leadingSys + 1;
    }
    var lastAsst := -1;
    for i := 0 to |messages|
      invariant -1 <= lastAsst < i
      invariant 0 <= lastAsst ==> messages[lastAsst].role.Assistant?
      invariant forall k :: lastAsst < k < i ==> !messages[k].role.Assistant?
    {
      if messages[i].role == Assistant {
        lastAsst := i;
      }
    }
    var recent := [];
    if lastAsst >= 0 {
      recent := messages[lastAsst..];
    }
    assert leadingSys == LeadingSystem(messages);
    out := messages[..leadingSys];
    out := out + [Plain(User, summaryText)];
    out := out + recent;
  }
}
