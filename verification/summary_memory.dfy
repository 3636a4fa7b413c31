/** memory/summary.go: folding the head of a long history into a summary. */
module SummarisedMemory {
  import opened Wrappers
  import opened Chat
  import opened BufferedMemory

  /** One round of the summarising loop: whether the context is usable at each store operation, and the model
      as a function of the existing summary and the messages to fold. */
  datatype Round = Round(len: bool, list: bool, model: (string, seq<Message>) -> Returned<string>, replace: bool)

  function KeepCount(threshold: nat): nat {
    if threshold / 2 < 1 then 1 else threshold / 2
  }

  /** The messages that a round folds into the summary. */
  function Head(ms: seq<Message>, threshold: nat): (head: seq<Message>)
    requires |ms| > threshold >= 1
    ensures head <= ms && |ms| - |head| == if threshold <= 3 then 1 else threshold / 2
  {
    ms[..|ms| - KeepCount(threshold)]
  }

  class SummaryMemory {
    const store: InMemoryMessageStore
    const threshold: int
    var summary: string

    ghost var added: seq<Message>   // everything appended since the last Clear
    ghost var folded: seq<Message>  // everything given to a summary that was kept, in that order
    ghost var intact: bool          // no summary was kept while rewriting the store failed

    ghost predicate Valid()
      reads this, store
    {
      && (intact ==> added == folded + store.messages)
      && |folded| + |store.messages| >= |added|
      && (!intact ==> |folded| + |store.messages| > |added|)
    }

    /** Messages are conserved exactly as long as no rewrite has failed. */
    lemma ConservedIffIntact()
      requires Valid()
      ensures added == folded + store.messages <==> intact
    {
    }

    constructor (store: InMemoryMessageStore, threshold: int)
      requires store.messages == []
      ensures Valid() && this.store == store && this.threshold == threshold
      ensures summary == "" && added == [] && folded == [] && intact
    {
      this.store, this.threshold := store, threshold;
      summary := "";
      added, folded, intact := [], [], true;
    }

    method Messages(live: bool) returns (ok: bool, msgs: seq<Message>)
      ensures ok == live
      ensures live ==> msgs == (if summary == "" then [] else [Plain(System, summary)]) + store.messages
    {
      var raw;
      ok, raw := store.List(live);
      if !ok { return false, []; }
      if summary == "" { return true, raw; }
      return true, [Plain(System, summary)] + raw;
    }

    method Add(append: bool, rounds: nat -> Round, msgs: seq<Message>) returns (ok: bool, panicked: bool)
      requires Valid()
      modifies this, store
      ensures Valid()
      ensures added == if append then old(added) + msgs else old(added)
      // nothing to fold, or the append failed
      ensures var all := old(store.messages) + (if append then msgs else []);
              (!append || msgs == [] || threshold <= 0 || |all| <= threshold)
              ==> store.messages == all && summary == old(summary) && folded == old(folded) && intact == old(intact)
      // one round folds the head, and what it keeps is within the threshold
      ensures var all := old(store.messages) + msgs;
              var r := rounds(0);
              append && msgs != [] && threshold >= 1 && |all| > threshold ==>
                var head := Head(all, threshold);
                if r.len && r.list && r.model(old(summary), head).Given? then
                  && summary == r.model(old(summary), head).value
                  && folded == old(folded) + head
                  && intact == (old(intact) && r.replace)
                  && store.messages == (if r.replace then all[|head|..] else all)
                  && ok == (r.replace && rounds(1).len)
                else
                  !ok && store.messages == all && summary == old(summary) && folded == old(folded) && intact == old(intact)
      ensures ok && append && msgs != [] && threshold > 0 ==> |store.messages| <= threshold
      // the model's answer is used without looking whether it is nil
      ensures var all := old(store.messages) + msgs;
              var r := rounds(0);
              panicked <==> append && msgs != [] && threshold >= 1 && |all| > threshold && r.len && r.list
                            && r.model(old(summary), Head(all, threshold)).Nil?
      ensures panicked ==> !ok
      ensures ok && append && threshold >= 1 ==>
                (folded, store.messages) == Split(old(folded), old(store.messages), [msgs], threshold)
    {
      panicked := false;
      if |msgs| == 0 { return true, false; }
      ok := store.Append(append, msgs);
      if !ok { return false, false; }
      added := added + msgs;
      assert intact ==> added == folded + store.messages;
      ghost var all := store.messages;
      var k: nat := 0;
      while threshold > 0
        invariant Valid() && added == old(added) + msgs && !panicked
        invariant k == 0 ==> store.messages == all && summary == old(summary) && folded == old(folded)
                             && intact == old(intact)
        invariant k > 0 ==>
          && k == 1 && |all| > threshold && |store.messages| <= threshold
          && rounds(0).len && rounds(0).list && rounds(0).replace
          && threshold >= 1
          && rounds(0).model(old(summary), Head(all, threshold)) == Given(summary)
          && folded == old(folded) + Head(all, threshold)
          && store.messages == all[|Head(all, threshold)|..]
          && intact == old(intact)
        decreases 1 - k
      {
        var n;
        ok, n := store.Len(rounds(k).len);
        if !ok { return false, false; }
        if n <= threshold { return true, false; }
        ok, panicked := Summarize(rounds(k));
        if !ok { return; }
        k := k + 1;
      }
      return true, false;
    }

    method Clear(live: bool) returns (ok: bool)
      requires Valid()
      modifies this, store
      ensures Valid() && ok == live && summary == ""
      ensures live ==> store.messages == [] && added == [] && folded == [] && intact
      ensures !live ==> store.messages == old(store.messages) && added == old(added) && folded == old(folded)
                        && intact == old(intact)
    {
      summary := "";
      ok := store.Clear(live);
      if ok {
        added, folded, intact := [], [], true;
      }
    }

    /** One summarisation of a list that is over the threshold. */
    method Summarize(r: Round) returns (ok: bool, panicked: bool)
      requires Valid() && threshold >= 1 && |store.messages| > threshold
      modifies this, store
      ensures Valid() && added == old(added)
      ensures panicked <==> r.list && r.model(old(summary), Head(old(store.messages), threshold)).Nil?
      ensures var all := old(store.messages);
              var head := Head(all, threshold);
              if r.list && r.model(old(summary), head).Given? then
                && Given(summary) == r.model(old(summary), head)
                && folded == old(folded) + head
                && intact == (old(intact) && r.replace)
                && ok == r.replace
                && store.messages == (if r.replace then all[|head|..] else all)
              else
                !ok && store.messages == all && summary == old(summary) && folded == old(folded) && intact == old(intact)
    {
      panicked := false;
      var msgs;
      ok, msgs := store.List(r.list);
      if !ok { return false, false; }
      if |msgs| <= threshold { return true, false; }
      var keepN := threshold / 2;
      if keepN < 1 { keepN := 1; }
      if |msgs| <= keepN { return true, false; }
      var head := msgs[..|msgs| - keepN];
      var tail := msgs[|msgs| - keepN..];
      assert head == Head(msgs, threshold);
      var resp := r.model(summary, head);
      if !resp.Given? { return false, resp.Nil?; }
      summary := resp.value;
      ok := store.Replace(r.replace, tail);
      ghost var before := folded;
      folded := folded + head;
      if ok {
        assert before + msgs == folded + tail;
      } else {
        intact := false;
      }
    }
  }

  /** How a sequence of successful additions is split between summary and store. `Add` is proved to take the
      step that this takes for one batch. */
  function Split(folded: seq<Message>, stored: seq<Message>, batches: seq<seq<Message>>, threshold: nat)
    : (seq<Message>, seq<Message>)
    requires threshold >= 1
    decreases |batches|
  {
    if batches == [] then (folded, stored)
    else
      var all := stored + batches[0];
      if batches[0] != [] && |all| > threshold
      then Split(folded + Head(all, threshold), all[|Head(all, threshold)|..], batches[1..], threshold)
      else Split(folded, all, batches[1..], threshold)
  }

  function Joined(batches: seq<seq<Message>>): seq<Message> {
    if batches == [] then [] else batches[0] + Joined(batches[1..])
  }

  /** Over any run of successful additions every message is folded once or still stored, in order. */
  lemma {:induction false} RunConserves(folded: seq<Message>, stored: seq<Message>, batches: seq<seq<Message>>, threshold: nat)
    requires threshold >= 1
    ensures var (f, s) := Split(folded, stored, batches, threshold);
            f + s == folded + stored + Joined(batches) && folded <= f
    ensures |stored| <= threshold ==> |Split(folded, stored, batches, threshold).1| <= threshold
    decreases |batches|
  {
    if batches != [] {
      var all := stored + batches[0];
      assert folded + stored + Joined(batches) == folded + all + Joined(batches[1..]);
      if batches[0] != [] && |all| > threshold {
        var head, tail := Head(all, threshold), all[|Head(all, threshold)|..];
        assert folded + all == folded + head + tail;
        RunConserves(folded + head, tail, batches[1..], threshold);
      } else {
        RunConserves(folded, all, batches[1..], threshold);
      }
    }
  }
}
