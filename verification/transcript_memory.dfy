/** Pruning, compaction and compression keep a conversation well-formed. */
module TranscriptMemory {
  import opened Chat
  import opened Transcript
  import opened BufferedMemory
  import opened Compressor

  /** Leaving out superseded pairs does not change what the rest of the conversation has to answer. */
  lemma {:induction false} PruneKeepsScan(t: Tail, ms: seq<Message>, i: nat)
    requires Boundary(ms, i)
    requires Scan(t, ms[i..]).Tail?
    ensures Scan(t, KeptFrom(ms, i)) == Scan(t, ms[i..])
    decreases |ms| - i
  {
    if i >= |ms| {
    } else if Superseded(ms, i) {
      KeptSuperseded(ms, i);
      ScanPair(t, ms, i);
      ScanFirst(t, ms, i);
      var rest := ms[i + 3..];
      var t2 := Next(Next(t, ms[i]), ms[i + 1]);
      assert Scan(t2, ms[i + 2..]) == Scan(Next(t2, ms[i + 2]), rest) by { ScanFirst(t2, ms, i + 2); }
      assert Scan(t, ms[i + 2..]) == Scan(Next(t, ms[i + 2]), rest) by { ScanFirst(t, ms, i + 2); }
      ScanBroken(rest);
      ScanBroken(ms[i + 1..]);
      assert Next(t2, ms[i + 2]) == Next(t, ms[i + 2]);
      PruneKeepsScan(t, ms, i + 2);
    } else if FailPair(ms, i) {
      KeptLast(ms, i);
      ScanPair(t, ms, i);
      var t2 := Next(Next(t, ms[i]), ms[i + 1]);
      PruneKeepsScan(t2, ms, i + 2);
      ScanConcat(t, [ms[i], ms[i + 1]], KeptFrom(ms, i + 2));
      ScanTwo(t, ms[i], ms[i + 1]);
    } else {
      ScanFirst(t, ms, i);
      PruneKeepsScan(Next(t, ms[i]), ms, i + 1);
      assert KeptFrom(ms, i)[1..] == KeptFrom(ms, i + 1);
    }
  }

  lemma ScanFirst(t: Tail, ms: seq<Message>, i: nat)
    requires i < |ms|
    ensures Scan(t, ms[i..]) == Scan(Next(t, ms[i]), ms[i + 1..])
  {
  }

  lemma ScanPair(t: Tail, ms: seq<Message>, i: nat)
    requires i + 1 < |ms|
    ensures Scan(t, ms[i..]) == Scan(Next(Next(t, ms[i]), ms[i + 1]), ms[i + 2..])
  {
  }

  lemma ScanTwo(t: Tail, a: Message, b: Message)
    ensures Scan(t, [a, b]) == Next(Next(t, a), b)
  {
    assert [a, b][1..] == [b];
    assert Scan(Next(t, a), [b]) == Scan(Next(Next(t, a), b), [b][1..]);
  }

  lemma {:induction false} CompactKeepsScan(t: Tail, ms: seq<Message>, budget: int, i: nat)
    requires i <= |ms|
    ensures Scan(t, Compacted(ms, budget)[i..]) == Scan(t, ms[i..])
    decreases |ms| - i
  {
    var out := Compacted(ms, budget);
    if i < |ms| {
      ScanFirst(t, ms, i);
      ScanFirst(t, out, i);
      assert Next(t, out[i]) == Next(t, ms[i]);
      CompactKeepsScan(Next(t, ms[i]), ms, budget, i + 1);
    }
  }

  lemma TidyKeepsScan(ms: seq<Message>, budget: int)
    requires Scan(Closed, ms).Tail?
    ensures Scan(Closed, Tidied(ms, budget)) == Scan(Closed, ms)
  {
    assert ms[0..] == ms;
    PruneKeepsScan(Closed, ms, 0);
    CompactKeepsScan(Closed, Pruned(ms), budget, 0);
    assert Pruned(ms)[0..] == Pruned(ms);
    assert Tidied(ms, budget)[0..] == Tidied(ms, budget);
  }

  lemma TidyKeepsWellFormed(ms: seq<Message>, budget: int)
    requires WellFormed(ms)
    ensures WellFormed(Pruned(ms)) && WellFormed(Compacted(ms, budget)) && WellFormed(Tidied(ms, budget))
  {
    WellFormedIffScan(ms);
    assert ms[0..] == ms;
    PruneKeepsScan(Closed, ms, 0);
    CompactKeepsScan(Closed, ms, budget, 0);
    assert Compacted(ms, budget)[0..] == Compacted(ms, budget);
    TidyKeepsScan(ms, budget);
    WellFormedIffScan(Pruned(ms));
    WellFormedIffScan(Compacted(ms, budget));
    WellFormedIffScan(Tidied(ms, budget));
  }

  lemma {:induction false} ScanSystem(ms: seq<Message>)
    requires forall i :: 0 <= i < |ms| ==> ms[i].role.System?
    ensures Scan(Closed, ms) == Closed
  {
    if ms != [] { ScanSystem(ms[1..]); }
  }

  lemma ScanSummarised(head: seq<Message>, summary: string)
    requires forall i :: 0 <= i < |head| ==> head[i].role.System?
    ensures Scan(Closed, head + [Plain(User, summary)]) == Closed
  {
    var m := Plain(User, summary);
    ScanConcat(Closed, head, [m]);
    ScanSystem(head);
    assert Scan(Closed, [m]) == Scan(Next(Closed, m), [m][1..]);
  }

  /** Reading can start afresh at an assistant message. */
  lemma ScanFromAssistant(ms: seq<Message>, i: nat)
    requires i < |ms| && ms[i].role.Assistant?
    requires Scan(Closed, ms).Tail?
    ensures Scan(Closed, ms[i..]) == Scan(Closed, ms)
  {
    hide Scan, CallIds;
    ScanConcat(Closed, ms[..i], ms[i..]);
    assert ms == ms[..i] + ms[i..];
    var t := Scan(Closed, ms[..i]);
    ScanFirst(t, ms, i);
    ScanFirst(Closed, ms, i);
    ScanBroken(ms[i + 1..]);
  }

  /** Rebuilding the list around a summary keeps the conversation well-formed, because it cuts directly
      before an assistant message. */
  lemma CompressKeepsWellFormed(ms: seq<Message>, summary: string)
    requires WellFormed(ms)
    ensures WellFormed(Compressed(ms, summary))
  {
    WellFormedIffScan(ms);
    var last := LastAssistant(ms);
    var recent := if last >= 0 then ms[last..] else [];
    var front := ms[..LeadingSystem(ms)] + [Plain(User, summary)];
    ScanSummarised(ms[..LeadingSystem(ms)], summary);
    ScanConcat(Closed, front, recent);
    if last >= 0 {
      ScanFromAssistant(ms, last);
    } else {
      assert front + recent == front;
    }
    WellFormedIffScan(Compressed(ms, summary));
  }

  lemma ScanNothing(t: Tail)
    ensures Scan(t, []) == t
  {
  }

  lemma ScanCut(ms: seq<Message>, c: nat)
    requires Complete(Scan(Closed, ms)) && c <= |ms|
    ensures Complete(Scan(Closed, ms[c..])) <==> c == |ms| || !ms[c].role.Tool?
  {
    hide Scan, CallIds;
    var t := Scan(Closed, ms[..c]);
    ScanConcat(Closed, ms[..c], ms[c..]);
    assert ms == ms[..c] + ms[c..];
    if c == |ms| {
      ScanNothing(Closed);
      assert ms[c..] == [];
    } else {
      ScanFirst(t, ms, c);
      ScanFirst(Closed, ms, c);
      ScanBroken(ms[c + 1..]);
    }
  }

  /** A window keeps a well-formed conversation well-formed exactly if it does not cut in front of a tool
      message. */
  lemma {:induction false} WindowKeepsWellFormedIff(ms: seq<Message>, maxSize: int)
    requires WellFormed(ms)
    ensures var c := Cut(ms, maxSize);
            WellFormed(Windowed(ms, maxSize)) <==> c == |ms| || !ms[c].role.Tool?
  {
    hide Windowed, LeadingSystem, WellFormed, Scan, Cut;
    var h, c := LeadingSystem(ms), Cut(ms, maxSize);
    WellFormedIffScan(ms);
    WellFormedIffScan(Windowed(ms, maxSize));
    WindowedIsCut(ms, maxSize);
    ScanConcat(Closed, ms[..h], ms[c..]);
    ScanSystem(ms[..h]);
    ScanCut(ms, c);
  }

  /** A window that is too small separates a tool result from its call. */
  lemma TrimmingCanOrphanToolMessage()
    ensures exists ms: seq<Message>, n: int :: n > 0 && WellFormed(ms) && !WellFormed(Windowed(ms, n))
  {
    var call := Message(Assistant, "", [ToolCall("id", "t", NilParams)], "", "");
    var answer := Message(Tool, "ok", [], "id", "t");
    var ms := [call, answer];
    assert WellFormed(ms) by {
      assert [call, answer][1..] == [answer];
      assert call.toolCalls[0] in call.toolCalls;
      assert CallIds(call) == {"id"};
      assert Scan(Closed, ms) == Scan(Next(Closed, call), [answer]);
      assert Scan(Next(Closed, call), [answer]) == Scan(Next(Next(Closed, call), answer), []);
      WellFormedIffScan(ms);
    }
    assert Windowed(ms, 1) == [answer];
    assert !Answers([answer], 0);
    assert !NoOrphans([answer]) by { assert [answer][0].role.Tool?; }
  }
}
