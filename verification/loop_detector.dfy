/** agent/loop_detector.go: noticing that one tool is called again and again with the same input. */
module LoopDetection {
  import opened Chat
  import Text

  const DEFAULT_LOOP_THRESHOLD: nat := 3

  datatype LoopStatus = LoopNormal | LoopWarning | LoopTerminate

  /** The recorded call. The source keeps a hash of the input instead of the input itself. */
  datatype Signature = Signature(toolName: string, params: Params)

  /** The last n calls exist and are identical. */
  predicate Repeats(history: seq<Signature>, n: nat) {
    n <= |history| && forall i :: |history| - n <= i < |history| ==> history[i] == history[|history| - 1]
  }

  lemma TooShort(history: seq<Signature>, n: nat)
    requires |history| < n
    ensures !Repeats(history, n)
  {
  }

  lemma WindowRepeats(history: seq<Signature>, n: nat, window: seq<Signature>)
    requires 1 <= n <= |history| && window == history[|history| - n..]
    requires forall k :: 0 <= k < n ==> window[k] == window[0]
    ensures Repeats(history, n)
  {
    assert forall i :: |history| - n <= i < |history| ==> history[i] == window[i - (|history| - n)];
  }

  lemma WindowDiffers(history: seq<Signature>, n: nat, window: seq<Signature>, i: nat)
    requires i < n <= |history| && window == history[|history| - n..] && window[i] != window[0]
    ensures !Repeats(history, n)
  {
    assert history[|history| - n] != history[|history| - n + i];
  }

  /** What `Record` answers once `history` ends with the recorded call, as a function of the history alone. */
  function Verdict(threshold: nat, history: seq<Signature>): LoopStatus
    requires history != []
  {
    if !Repeats(history, threshold) then LoopNormal
    else if Repeats(history[..|history| - 1], threshold) then LoopTerminate
    else LoopWarning
  }

  class LoopDetector {
    const threshold: nat
    var history: seq<Signature>
    var warned: bool

    /** `warned` remembers whether the previous window was already constant. */
    ghost predicate Valid()
      reads this
    {
      threshold >= 1 && (warned <==> Repeats(history, threshold))
    }

    constructor (threshold: int)
      ensures Valid() && history == []
      ensures this.threshold == if threshold <= 0 then DEFAULT_LOOP_THRESHOLD else threshold
    {
      this.threshold := if threshold <= 0 then DEFAULT_LOOP_THRESHOLD else threshold;
      history, warned := [], false;
    }

    method Record(toolName: string, params: Params) returns (status: LoopStatus)
      requires Valid()
      modifies this
      ensures Valid()
      ensures history == old(history) + [Signature(toolName, params)]
      ensures status == Verdict(threshold, history)
    {
      hide Repeats;
      ghost var before := history;
      history := history + [Signature(toolName, params)];
      assert history[..|history| - 1] == before;
      if |history| < threshold {
        TooShort(before, threshold);
        TooShort(history, threshold);
        return LoopNormal;
      }
      var window := history[|history| - threshold..];
      var first := window[0];
      var i := 1;
      while i < |window|
        invariant 1 <= i <= |window|
        invariant forall k :: 0 <= k < i ==> window[k] == first
      {
        if window[i] != first {
          WindowDiffers(history, threshold, window, i);
          warned := false;
          return LoopNormal;
        }
        i := i + 1;
      }
      WindowRepeats(history, threshold, window);
      if !warned {
        warned := true;
        return LoopWarning;
      }
      return LoopTerminate;
    }
  }

  const CALLED := "<loop_detection_warning>\nYou have called tool \""
  const ADVICE := " times consecutively with identical parameters. Please reconsider your approach:\n"
                  + "1. Check if previous results already satisfy the requirement\n"
                  + "2. Consider using a different tool or modifying the parameters\n"
                  + "3. If the task is complete, output your final answer directly\n"
                  + "WARNING: Calling the same tool with the same parameters again will terminate execution.\n"
                  + "</loop_detection_warning>\n\n"

  /** The notice that precedes the tool result when the detector warns. */
  function InjectLoopWarning(toolResult: string, toolName: string, threshold: nat): string {
    CALLED + toolName + ("\" " + Text.Itoa(threshold) + ADVICE) + toolResult
  }

  /** A notice that names the tool. */
  predicate IsNotice(notice: string, toolName: string) {
    CALLED + toolName + "\" " <= notice
  }

  /** The tool result is all there, behind a notice. */
  lemma WarningKeepsResult(toolResult: string, toolName: string, threshold: nat) returns (notice: string)
    ensures IsNotice(notice, toolName) && InjectLoopWarning(toolResult, toolName, threshold) == notice + toolResult
  {
    hide CALLED, ADVICE, Text.Itoa;
    notice := CALLED + toolName + ("\" " + Text.Itoa(threshold) + ADVICE);
    assert notice == CALLED + toolName + "\" " + (Text.Itoa(threshold) + ADVICE);
  }

  /** The answer depends on nothing but how many of the last calls are identical. */
  ghost predicate CountsRepeats(threshold: nat, history: seq<Signature>)
    requires history != []
  {
    && (Verdict(threshold, history) == LoopTerminate <==> Repeats(history, threshold + 1))
    && (Verdict(threshold, history) == LoopWarning
        <==> Repeats(history, threshold) && !Repeats(history, threshold + 1))
    && (Verdict(threshold, history) == LoopNormal <==> !Repeats(history, threshold))
  }

  lemma VerdictCountsRepeats(threshold: nat, history: seq<Signature>)
    requires threshold >= 2 && history != []
    ensures CountsRepeats(threshold, history)
  {
  }

  /** With threshold 1 every window is constant, so the second call ends the run whatever it calls. */
  lemma VerdictAtThresholdOne(history: seq<Signature>)
    requires history != []
    ensures Verdict(1, history) == if |history| >= 2 then LoopTerminate else LoopWarning
  {
  }

  /** Exactly the thresholds for which the detector counts repetitions over every history. */
  lemma CountsRepeatsIffThresholdAtLeastTwo(threshold: nat)
    requires threshold >= 1
    ensures (forall history: seq<Signature> :: history != [] ==> CountsRepeats(threshold, history)) <==> threshold >= 2
  {
    if threshold >= 2 {
      forall history: seq<Signature> | history != [] ensures CountsRepeats(threshold, history) {
        VerdictCountsRepeats(threshold, history);
      }
    } else {
      var history := [Signature("a", NilParams), Signature("b", NilParams)];
      assert history[0] != history[1];
      assert !Repeats(history, 2);
      VerdictAtThresholdOne(history);
      assert !CountsRepeats(threshold, history);
    }
  }

  /** The number of identical calls at the end of the history. */
  function Streak(history: seq<Signature>): (n: nat)
    ensures n <= |history|
    ensures history != [] ==> n >= 1
  {
    if |history| <= 1 then |history|
    else if history[|history| - 2] == history[|history| - 1] then Streak(history[..|history| - 1]) + 1
    else 1
  }

  lemma {:induction false} RepeatsIffStreak(history: seq<Signature>, n: nat)
    requires n >= 1
    ensures Repeats(history, n) <==> n <= Streak(history)
  {
    var m := |history|;
    if m >= 2 && n >= 2 {
      var shorter := history[..m - 1];
      RepeatsIffStreak(shorter, n - 1);
      if history[m - 2] == history[m - 1] {
        if Repeats(shorter, n - 1) {
          forall i | m - n <= i < m ensures history[i] == history[m - 1] {
            if i < m - 1 { assert shorter[i] == history[i]; }
          }
        }
        if Repeats(history, n) {
          forall i | |shorter| - (n - 1) <= i < |shorter| ensures shorter[i] == shorter[|shorter| - 1] {
            assert shorter[i] == history[i];
          }
        }
      }
    }
  }

  /** A call that does not end the run leaves at most `threshold` identical calls in a row. */
  lemma ContinuingBoundsStreak(threshold: nat, history: seq<Signature>)
    requires threshold >= 1 && history != []
    requires Verdict(threshold, history) != LoopTerminate
    ensures Streak(history) <= threshold
  {
    if threshold == 1 {
      VerdictAtThresholdOne(history);
    } else {
      VerdictCountsRepeats(threshold, history);
      RepeatsIffStreak(history, threshold + 1);
    }
  }
}
