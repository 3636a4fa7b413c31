/** model/provider/openai/openai.go: tool calls put together from the interleaved deltas of a stream. */
module ToolStream {
  import opened Wrappers
  import opened Chat

  datatype FunctionPart = FunctionPart(name: string, arguments: string)

  datatype Delta = Delta(index: int, id: string, func: Option<FunctionPart>)

  /** What a line of the response means; blank, foreign and undecodable lines are skipped. */
  datatype Line = Skipped | DoneMark | Chunk(content: string, calls: seq<Delta>)

  /** A call before its arguments are decoded. */
  datatype RawCall = RawCall(id: string, name: string, arguments: string)

  datatype Outcome =
    | Cancelled
    | ReadFailed
    | Undecodable(index: int)
    | Complete(calls: seq<ToolCall>)

  // ----- reference definition: what the deltas of one index say -----

  function Project(ds: seq<Delta>, k: int): seq<Delta> {
    if ds == [] then []
    else Project(ds[..|ds| - 1], k) + if ds[|ds| - 1].index == k then [ds[|ds| - 1]] else []
  }

  function NameOf(d: Delta): string {
    if d.func.Some? then d.func.value.name else ""
  }

  function ArgumentsOf(d: Delta): string {
    if d.func.Some? then d.func.value.arguments else ""
  }

  /** The last ID that is not empty. */
  function LastId(ds: seq<Delta>): string {
    if ds == [] then "" else if ds[|ds| - 1].id != "" then ds[|ds| - 1].id else LastId(ds[..|ds| - 1])
  }

  function LastName(ds: seq<Delta>): string {
    if ds == [] then "" else if NameOf(ds[|ds| - 1]) != "" then NameOf(ds[|ds| - 1]) else LastName(ds[..|ds| - 1])
  }

  /** What is said behind the n-th delta does not change the ID. */
  ghost predicate IsLastId(ds: seq<Delta>, n: nat) {
    n <= |ds| && (forall j :: n <= j < |ds| ==> ds[j].id == "")
    && LastId(ds) == (if n == 0 then "" else ds[n - 1].id) && (n > 0 ==> ds[n - 1].id != "")
  }

  ghost predicate IsLastName(ds: seq<Delta>, n: nat) {
    n <= |ds| && (forall j :: n <= j < |ds| ==> NameOf(ds[j]) == "")
    && LastName(ds) == (if n == 0 then "" else NameOf(ds[n - 1])) && (n > 0 ==> NameOf(ds[n - 1]) != "")
  }

  /** The ID is that of the last delta with one, and the name likewise. */
  lemma {:induction false} LastOnes(ds: seq<Delta>) returns (i: nat, n: nat)
    ensures IsLastId(ds, i) && IsLastName(ds, n)
  {
    i, n := 0, 0;
    if ds != [] {
      var k := |ds| - 1;
      var before := ds[..k];
      i, n := LastOnes(before);
      assert forall j :: 0 <= j < k ==> ds[j] == before[j];
      if ds[k].id != "" { i := k + 1; }
      if NameOf(ds[k]) != "" { n := k + 1; }
    }
  }

  function AllArguments(ds: seq<Delta>): string {
    if ds == [] then "" else AllArguments(ds[..|ds| - 1]) + ArgumentsOf(ds[|ds| - 1])
  }

  function Said(ds: seq<Delta>): RawCall {
    RawCall(LastId(ds), LastName(ds), AllArguments(ds))
  }

  /** The call of index k. */
  function CallAt(ds: seq<Delta>, k: int): RawCall {
    Said(Project(ds, k))
  }

  predicate Mentions(ds: seq<Delta>, k: int) {
    exists i :: 0 <= i < |ds| && ds[i].index == k
  }

  /** The deltas of a response, in order, up to its end mark. */
  function Deltas(lines: seq<Line>): seq<Delta> {
    if lines == [] || lines[0].DoneMark? then []
    else (if lines[0].Chunk? then lines[0].calls else []) + Deltas(lines[1..])
  }

  function Content(lines: seq<Line>): string {
    if lines == [] || lines[0].DoneMark? then ""
    else (if lines[0].Chunk? then lines[0].content else "") + Content(lines[1..])
  }

  predicate Ends(lines: seq<Line>, n: nat) {
    n <= |lines| && (forall i :: 0 <= i < n ==> !lines[i].DoneMark?) && (n < |lines| ==> lines[n].DoneMark?)
  }

  function Join(chunks: seq<string>): string {
    if chunks == [] then "" else Join(chunks[..|chunks| - 1]) + chunks[|chunks| - 1]
  }

  /** Decodes a call; no arguments and JSON's null become the empty object. */
  function Decoded(call: RawCall, decode: string -> Option<Params>): Option<ToolCall> {
    if call.arguments == "" then Some(ToolCall(call.id, call.name, Params("{}")))
    else match decode(call.arguments)
      case None => None
      case Some(NilParams) => Some(ToolCall(call.id, call.name, Params("{}")))
      case Some(params) => Some(ToolCall(call.id, call.name, params))
  }

  predicate Increasing(ks: seq<int>) {
    forall i, j :: 0 <= i < j < |ks| ==> ks[i] < ks[j]
  }

  ghost predicate IndicesOf(ks: seq<int>, ds: seq<Delta>) {
    Increasing(ks) && forall k :: k in ks <==> Mentions(ds, k)
  }

  /** How a stream that was read to its end is finished: the calls of all indices in increasing order, or the
      first index whose arguments are malformed. */
  ghost predicate Finished(ds: seq<Delta>, ks: seq<int>, decode: string -> Option<Params>, out: Outcome) {
    match out
    case Complete(calls) =>
      |calls| == |ks| && forall i :: 0 <= i < |ks| ==> Decoded(CallAt(ds, ks[i]), decode) == Some(calls[i])
    case Undecodable(k) =>
      exists n :: 0 <= n < |ks| && ks[n] == k && Decoded(CallAt(ds, k), decode) == None
                  && forall i :: 0 <= i < n ==> Decoded(CallAt(ds, ks[i]), decode).Some?
    case _ => false
  }

  ghost predicate Assembles(ds: seq<Delta>, decode: string -> Option<Params>, out: Outcome) {
    exists ks :: IndicesOf(ks, ds) && Finished(ds, ks, decode, out)
  }

  // ----- the stream reader -----

  class ToolCallAccumulator {
    var id: string
    var name: string
    var argChunks: seq<string>

    constructor ()
      ensures Value() == Said([])
    {
      id, name, argChunks := "", "", [];
    }

    function Value(): RawCall
      reads this
    {
      RawCall(id, name, Join(argChunks))
    }

    method AddDelta(d: Delta, ghost before: seq<Delta>)
      requires Value() == Said(before)
      modifies this
      ensures Value() == Said(before + [d])
    {
      assert (before + [d])[..|before|] == before;
      if d.id != "" {
        id := d.id;
      }
      if d.func.Some? {
        if d.func.value.name != "" {
          name := d.func.value.name;
        }
        if d.func.value.arguments != "" {
          argChunks := argChunks + [d.func.value.arguments];
          assert argChunks[..|argChunks| - 1] == old(argChunks);
        }
      }
    }

    method ToModel(decode: string -> Option<Params>) returns (call: Option<ToolCall>)
      ensures call == Decoded(Value(), decode)
      ensures call.Some? <==> Decodes(Value().arguments, decode)
      ensures call.Some? ==> Delivered(Value(), decode, call.value)
    {
      var argStr := Join(argChunks);
      var args := NilParams;
      if argStr != "" {
        match decode(argStr) {
          case None => return None;
          case Some(params) => args := params;
        }
      }
      if args.NilParams? {
        args := Params("{}");
      }
      call := Some(ToolCall(id, name, args));
    }
  }

  /** The accumulators are different objects, one for every index seen, and each holds what its own deltas say. */
  ghost predicate Holds(accum: map<int, ToolCallAccumulator>, ds: seq<Delta>)
    reads accum.Values
  {
    && (forall k :: k in accum <==> Mentions(ds, k))
    && (forall k :: k in accum ==> accum[k].Value() == CallAt(ds, k))
    && (forall j, k :: j in accum && k in accum && j != k ==> accum[j] != accum[k])
  }

  lemma ProjectSnoc(ds: seq<Delta>, d: Delta, k: int)
    ensures Project(ds + [d], k) == if d.index == k then Project(ds, k) + [d] else Project(ds, k)
    ensures Mentions(ds + [d], k) <==> Mentions(ds, k) || d.index == k
  {
  }

  lemma {:induction false} ProjectUnmentioned(ds: seq<Delta>, k: int)
    ensures Mentions(ds, k) <==> Project(ds, k) != []
  {
    if ds != [] {
      var n := |ds| - 1;
      assert ds[..n] + [ds[n]] == ds;
      ProjectSnoc(ds[..n], ds[n], k);
      ProjectUnmentioned(ds[..n], k);
    }
  }

  method Absorb(accum: map<int, ToolCallAccumulator>, td: Delta, ghost before: seq<Delta>)
    returns (m: map<int, ToolCallAccumulator>)
    requires Holds(accum, before)
    modifies accum.Values
    ensures Holds(m, before + [td])
    ensures fresh(m.Values - accum.Values)
  {
    hide Said, Project, Mentions;
    forall k ensures Project(before + [td], k) == (if td.index == k then Project(before, k) + [td] else Project(before, k))
                     && (Mentions(before + [td], k) <==> Mentions(before, k) || td.index == k) {
      ProjectSnoc(before, td, k);
    }
    ProjectUnmentioned(before, td.index);
    m := accum;
    if td.index !in m {
      var acc := new ToolCallAccumulator();
      m := m[td.index := acc];
    }
    m[td.index].AddDelta(td, Project(before, td.index));
    forall k | k in m ensures m[k].Value() == CallAt(before + [td], k) {
      if k != td.index { assert m[k] != m[td.index]; }
    }
  }

  method AbsorbAll(accum: map<int, ToolCallAccumulator>, calls: seq<Delta>, ghost before: seq<Delta>)
    returns (m: map<int, ToolCallAccumulator>)
    requires Holds(accum, before)
    modifies accum.Values
    ensures Holds(m, before + calls)
    ensures fresh(m.Values - accum.Values)
  {
    m := accum;
    var i := 0;
    assert before + calls[..0] == before;
    while i < |calls|
      invariant 0 <= i <= |calls|
      invariant Holds(m, before + calls[..i])
      invariant fresh(m.Values - accum.Values)
    {
      m := Absorb(m, calls[i], before + calls[..i]);
      assert before + calls[..i] + [calls[i]] == before + calls[..i + 1];
      i := i + 1;
    }
    assert calls[..i] == calls;
  }

  /** The map's keys, met in any order, then sorted. */
  method SortedKeys(keys: set<int>) returns (ks: seq<int>)
    ensures Increasing(ks) && forall k :: k in ks <==> k in keys
  {
    ks := [];
    var left := keys;
    while left != {}
      invariant left <= keys && Increasing(ks)
      invariant forall k :: k in ks <==> k in keys - left
      decreases |left|
    {
      SetHasMember(left);
      var k :| k in left;
      left := left - {k};
      ks := InsertKey(ks, k);
    }
  }

  lemma SetHasMember(s: set<int>)
    ensures s == {} || exists k :: k in s
  {
    if forall k :: k !in s { assert s == {}; }
  }

  method InsertKey(ks: seq<int>, k: int) returns (r: seq<int>)
    requires Increasing(ks) && k !in ks
    ensures Increasing(r) && forall x :: x in r <==> x in ks || x == k
  {
    var i := 0;
    while i < |ks| && ks[i] < k
      invariant 0 <= i <= |ks|
      invariant forall j :: 0 <= j < i ==> ks[j] < k
    {
      i := i + 1;
    }
    r := ks[..i] + [k] + ks[i..];
  }

  lemma {:induction false} DeltasSnoc(lines: seq<Line>, line: Line)
    requires !line.DoneMark? && forall i :: 0 <= i < |lines| ==> !lines[i].DoneMark?
    ensures Deltas(lines + [line]) == Deltas(lines) + if line.Chunk? then line.calls else []
  {
    if lines == [] {
      assert [line][1..] == [] && lines + [line] == [line];
    } else {
      assert (lines + [line])[1..] == lines[1..] + [line];
      DeltasSnoc(lines[1..], line);
    }
  }

  lemma {:induction false} ContentSnoc(lines: seq<Line>, line: Line)
    requires !line.DoneMark? && forall i :: 0 <= i < |lines| ==> !lines[i].DoneMark?
    ensures Content(lines + [line]) == Content(lines) + if line.Chunk? then line.content else ""
  {
    if lines == [] {
      assert [line][1..] == [] && lines + [line] == [line];
    } else {
      assert (lines + [line])[1..] == lines[1..] + [line];
      ContentSnoc(lines[1..], line);
    }
  }

  lemma {:induction false} DeltasStop(lines: seq<Line>, n: nat)
    requires Ends(lines, n)
    ensures Deltas(lines) == Deltas(lines[..n]) && Content(lines) == Content(lines[..n])
  {
    if n > 0 {
      DeltasStop(lines[1..], n - 1);
      assert lines[1..][..n - 1] == lines[..n][1..];
    }
  }

  lemma NothingSaid(lines: seq<Line>)
    ensures Deltas(lines[..0]) == [] && Content(lines[..0]) == ""
  {
  }

  /** The reader's goroutine: `cancelledAt` lines are read before the context is done, and `readFails` says what
      the scanner reports after its last line. */
  method Stream(lines: seq<Line>, cancelledAt: nat, readFails: bool, decode: string -> Option<Params>)
    returns (emitted: seq<string>, out: Outcome)
    ensures out == Cancelled <==> cancelledAt < |lines| && forall i :: 0 <= i < cancelledAt ==> !lines[i].DoneMark?
    ensures out == Cancelled ==> Join(emitted) == Content(lines[..cancelledAt])
    ensures out == ReadFailed ==> readFails
    ensures out != Cancelled && readFails ==> out == ReadFailed
    ensures out != Cancelled ==> Join(emitted) == Content(lines)
    ensures out != Cancelled && !readFails ==> Assembles(Deltas(lines), decode, out)
  {
    hide Deltas, Content, Assembles, Project, Said;
    emitted := [];
    var accum: map<int, ToolCallAccumulator> := map[];
    var i := 0;
    NothingSaid(lines);
    while i < |lines|
      invariant 0 <= i <= |lines|
      invariant forall j :: 0 <= j < i ==> !lines[j].DoneMark?
      invariant i <= cancelledAt
      invariant Holds(accum, Deltas(lines[..i]))
      invariant fresh(accum.Values)
      invariant Join(emitted) == Content(lines[..i])
    {
      if i >= cancelledAt { return emitted, Cancelled; }
      if lines[i].DoneMark? { break; }
      DeltasSnoc(lines[..i], lines[i]);
      ContentSnoc(lines[..i], lines[i]);
      assert lines[..i] + [lines[i]] == lines[..i + 1];
      assert Deltas(lines[..i]) + [] == Deltas(lines[..i]);
      if lines[i].Chunk? {
        if lines[i].content != "" {
          emitted := emitted + [lines[i].content];
          assert emitted[..|emitted| - 1] + [lines[i].content] == emitted;
        }
        accum := AbsorbAll(accum, lines[i].calls, Deltas(lines[..i]));
      }
      i := i + 1;
    }
    DeltasStop(lines, i);
    if readFails { return emitted, ReadFailed; }
    out := Finalise(accum, Deltas(lines), decode);
  }

  method Finalise(accum: map<int, ToolCallAccumulator>, ghost ds: seq<Delta>, decode: string -> Option<Params>)
    returns (out: Outcome)
    requires Holds(accum, ds)
    ensures out.Complete? || out.Undecodable?
    ensures Assembles(ds, decode, out)
  {
    hide Decoded, CallAt, Mentions, Increasing;
    var indices := SortedKeys(accum.Keys);
    var toolCalls: seq<ToolCall> := [];
    var i := 0;
    while i < |indices|
      invariant 0 <= i <= |indices| && |toolCalls| == i
      invariant forall j :: 0 <= j < i ==> Decoded(CallAt(ds, indices[j]), decode) == Some(toolCalls[j])
    {
      var idx := indices[i];
      assert idx in indices;
      var call := accum[idx].ToModel(decode);
      if call.None? {
        out := Undecodable(idx);
        assert Finished(ds, indices, decode, out);
        return;
      }
      toolCalls := toolCalls + [call.value];
      i := i + 1;
    }
    out := Complete(toolCalls);
    assert Finished(ds, indices, decode, out);
  }

  // ----- properties -----

  lemma {:induction false} IncreasingUnique(a: seq<int>, b: seq<int>)
    requires Increasing(a) && Increasing(b)
    requires forall k :: k in a <==> k in b
    ensures a == b
    decreases |a|
  {
    if a != [] && b != [] {
      assert a[0] in b && b[0] in a;
      assert a[0] == b[0];
      TailMembers(a);
      TailMembers(b);
      IncreasingUnique(a[1..], b[1..]);
    } else {
      HasMember(a);
      HasMember(b);
    }
  }

  lemma HasMember(ks: seq<int>)
    ensures ks == [] || exists k :: k in ks
  {
    if ks != [] { var k := ks[0]; assert k in ks; }
  }

  lemma TailMembers(ks: seq<int>)
    requires Increasing(ks) && ks != []
    ensures forall k :: k in ks[1..] <==> k in ks && k != ks[0]
  {
  }

  /** Two streams that say the same about every index have the same outcome. */
  ghost predicate SameCalls(a: seq<Delta>, b: seq<Delta>) {
    forall k :: (Mentions(a, k) <==> Mentions(b, k)) && CallAt(a, k) == CallAt(b, k)
  }

  lemma {:induction false} SameCallsSameOutcome(a: seq<Delta>, b: seq<Delta>, decode: string -> Option<Params>, x: Outcome, y: Outcome)
    requires SameCalls(a, b)
    requires Assembles(a, decode, x) && Assembles(b, decode, y)
    ensures x == y
  {
    hide Decoded, CallAt, Mentions, Increasing;
    var ks :| IndicesOf(ks, a) && Finished(a, ks, decode, x);
    var js :| IndicesOf(js, b) && Finished(b, js, decode, y);
    IncreasingUnique(ks, js);
    if x.Complete? && y.Complete? {
      assert x.calls == y.calls;
    }
  }

  /** Interleaving is irrelevant: only the order of the deltas within each index counts. In particular the
      outcome of a stream is unique, whatever the order in which the map of accumulators is read. */
  lemma InterleavingInvariance(a: seq<Delta>, b: seq<Delta>, decode: string -> Option<Params>, x: Outcome, y: Outcome)
    requires forall k :: Project(a, k) == Project(b, k)
    requires Assembles(a, decode, x) && Assembles(b, decode, y)
    ensures x == y
  {
    forall k ensures Mentions(a, k) <==> Mentions(b, k) {
      ProjectUnmentioned(a, k);
      ProjectUnmentioned(b, k);
    }
    SameCallsSameOutcome(a, b, decode, x, y);
  }

  lemma {:induction false} ProjectConcat(a: seq<Delta>, b: seq<Delta>, k: int)
    ensures Project(a + b, k) == Project(a, k) + Project(b, k)
    decreases |b|
  {
    if b == [] {
      assert a + b == a;
    } else {
      assert (a + b)[..|a + b| - 1] == a + b[..|b| - 1];
      ProjectConcat(a, b[..|b| - 1], k);
    }
  }

  function Only(d: Delta, k: int): seq<Delta> {
    if d.index == k then [d] else []
  }

  lemma ProjectAround(pre: seq<Delta>, d: Delta, e: Delta, post: seq<Delta>, k: int)
    ensures Project(pre + [d, e] + post, k) == Project(pre, k) + (Only(d, k) + Only(e, k)) + Project(post, k)
  {
    ProjectConcat(pre + [d, e], post, k);
    ProjectConcat(pre, [d, e], k);
    assert [d, e] == [] + [d] + [e];
    ProjectSnoc([], d, k);
    ProjectSnoc([] + [d], e, k);
  }

  /** Neighbouring deltas of different indices may arrive in either order. */
  lemma SwapNeighbours(pre: seq<Delta>, d: Delta, e: Delta, post: seq<Delta>, decode: string -> Option<Params>,
                       x: Outcome, y: Outcome)
    requires d.index != e.index
    requires Assembles(pre + [d, e] + post, decode, x) && Assembles(pre + [e, d] + post, decode, y)
    ensures x == y
  {
    forall k ensures Project(pre + [d, e] + post, k) == Project(pre + [e, d] + post, k) {
      ProjectAround(pre, d, e, post, k);
      ProjectAround(pre, e, d, post, k);
    }
    InterleavingInvariance(pre + [d, e] + post, pre + [e, d] + post, decode, x, y);
  }

  lemma {:induction false} LastConcat(a: seq<Delta>, b: seq<Delta>)
    ensures LastId(a + b) == if LastId(b) != "" then LastId(b) else LastId(a)
    ensures LastName(a + b) == if LastName(b) != "" then LastName(b) else LastName(a)
    decreases |b|
  {
    if b == [] {
      assert a + b == a;
    } else {
      assert (a + b)[..|a + b| - 1] == a + b[..|b| - 1];
      LastConcat(a, b[..|b| - 1]);
    }
  }

  lemma {:induction false} ArgumentsConcat(a: seq<Delta>, b: seq<Delta>)
    ensures AllArguments(a + b) == AllArguments(a) + AllArguments(b)
    decreases |b|
  {
    if b == [] {
      assert a + b == a;
    } else {
      assert (a + b)[..|a + b| - 1] == a + b[..|b| - 1];
      ArgumentsConcat(a, b[..|b| - 1]);
    }
  }

  lemma SaidConcat(a: seq<Delta>, b: seq<Delta>)
    ensures Said(a + b) == RawCall(if LastId(b) != "" then LastId(b) else LastId(a),
                                   if LastName(b) != "" then LastName(b) else LastName(a),
                                   AllArguments(a) + AllArguments(b))
  {
    LastConcat(a, b);
    ArgumentsConcat(a, b);
  }

  /** A call as a provider may send it: its head, then its argument text cut anywhere. */
  function Sent(k: int, call: RawCall, cuts: seq<string>): seq<Delta> {
    if cuts == [] then [Delta(k, call.id, Some(FunctionPart(call.name, "")))]
    else Sent(k, call, cuts[..|cuts| - 1]) + [Delta(k, "", Some(FunctionPart("", cuts[|cuts| - 1])))]
  }

  lemma {:induction false} SentSaysCall(k: int, call: RawCall, cuts: seq<string>)
    ensures Sent(k, call, cuts) != []
    ensures Said(Sent(k, call, cuts)) == call.(arguments := Join(cuts))
    decreases |cuts|
  {
    if cuts == [] {
      var ds := Sent(k, call, cuts);
      SaidOne(ds[0]);
      assert ds == [ds[0]];
    } else {
      var ds := Sent(k, call, cuts);
      SentSaysCall(k, call, cuts[..|cuts| - 1]);
      assert ds[..|ds| - 1] == Sent(k, call, cuts[..|cuts| - 1]);
    }
  }

  /** The argument text is empty or can be decoded. */
  predicate Decodes(text: string, decode: string -> Option<Params>) {
    text == "" || decode(text).Some?
  }

  /** The call that is delivered has the ID and the name that were sent, and as arguments the value of the argument
      text, or the empty object if there is no text or its value is null. */
  predicate Delivered(sent: RawCall, decode: string -> Option<Params>, call: ToolCall) {
    && call.id == sent.id && call.name == sent.name
    && if sent.arguments != "" && decode(sent.arguments).Some? && decode(sent.arguments).value != NilParams
       then call.arguments == decode(sent.arguments).value
       else call.arguments == Params("{}")
  }

  lemma DecodedDelivers(call: RawCall, decode: string -> Option<Params>)
    ensures Decoded(call, decode).Some? <==> Decodes(call.arguments, decode)
    ensures Decoded(call, decode).Some? ==> Delivered(call, decode, Decoded(call, decode).value)
  {
  }

  /** The calls that deltas describe, index by index, are those that were sent. */
  lemma SentIsSaid(calls: seq<RawCall>, cuts: seq<seq<string>>, ds: seq<Delta>, ks: seq<int>)
    requires |cuts| == |calls| && forall k :: 0 <= k < |calls| ==> Join(cuts[k]) == calls[k].arguments
    requires forall k :: Project(ds, k) == if 0 <= k < |calls| then Sent(k, calls[k], cuts[k]) else []
    requires IndicesOf(ks, ds)
    ensures |ks| == |calls| && forall k :: 0 <= k < |calls| ==> ks[k] == k && CallAt(ds, k) == calls[k]
  {
    hide Project, Mentions, LastId, LastName, AllArguments, Sent, Join;
    var all := seq(|calls|, i => i);
    forall k ensures Mentions(ds, k) <==> k in all {
      ProjectUnmentioned(ds, k);
      if 0 <= k < |calls| {
        SentSaysCall(k, calls[k], cuts[k]);
        assert all[k] == k;
      }
    }
    IncreasingUnique(ks, all);
    forall k | 0 <= k < |calls| ensures CallAt(ds, k) == calls[k] {
      SentSaysCall(k, calls[k], cuts[k]);
    }
  }

  /** Round trip: calls that are cut into fragments and interleaved in any way come out whole, in order and with
      their decoded arguments, unless some argument text cannot be decoded; then the first such call is named. */
  lemma {:induction false} StreamRoundTrip(calls: seq<RawCall>, cuts: seq<seq<string>>, ds: seq<Delta>,
                                           decode: string -> Option<Params>, out: Outcome)
    requires |cuts| == |calls|
    requires forall k :: 0 <= k < |calls| ==> Join(cuts[k]) == calls[k].arguments
    requires forall k :: Project(ds, k) == if 0 <= k < |calls| then Sent(k, calls[k], cuts[k]) else []
    requires Assembles(ds, decode, out)
    ensures out.Complete? <==> forall k :: 0 <= k < |calls| ==> Decodes(calls[k].arguments, decode)
    ensures out.Complete? ==> |out.calls| == |calls| && forall k :: 0 <= k < |calls| ==> Delivered(calls[k], decode, out.calls[k])
    ensures !out.Complete? ==>
              && out.Undecodable? && 0 <= out.index < |calls| && !Decodes(calls[out.index].arguments, decode)
              && forall k :: 0 <= k < out.index ==> Decodes(calls[k].arguments, decode)
  {
    hide Decoded, Delivered, Decodes, Project, CallAt, Sent, Join, Mentions, Increasing;
    var ks :| IndicesOf(ks, ds) && Finished(ds, ks, decode, out);
    SentIsSaid(calls, cuts, ds, ks);
    forall k | 0 <= k < |calls|
      ensures Decoded(CallAt(ds, ks[k]), decode).Some? <==> Decodes(calls[k].arguments, decode)
      ensures Decoded(CallAt(ds, ks[k]), decode).Some? ==> Delivered(calls[k], decode, Decoded(CallAt(ds, ks[k]), decode).value)
    {
      DecodedDelivers(calls[k], decode);
    }
  }

  /** Cutting one argument text in two changes nothing. */
  lemma ResplitArguments(pre: seq<Delta>, d: Delta, a: string, b: string, post: seq<Delta>,
                         decode: string -> Option<Params>, x: Outcome, y: Outcome)
    requires d.func.Some? && d.func.value.arguments == a + b
    requires var first, second := d.(func := Some(FunctionPart(d.func.value.name, a))),
                                  Delta(d.index, "", Some(FunctionPart("", b)));
             Assembles(pre + [d] + post, decode, x) && Assembles(pre + [first, second] + post, decode, y)
    ensures x == y
  {
    hide Assembles;
    var first, second := d.(func := Some(FunctionPart(d.func.value.name, a))),
                         Delta(d.index, "", Some(FunctionPart("", b)));
    var whole, parts := pre + [d] + post, pre + [first, second] + post;
    forall k ensures (Mentions(whole, k) <==> Mentions(parts, k)) && CallAt(whole, k) == CallAt(parts, k) {
      ResplitAt(pre, d, first, second, post, k);
    }
    SameCallsSameOutcome(whole, parts, decode, x, y);
  }

  lemma ResplitAt(pre: seq<Delta>, d: Delta, first: Delta, second: Delta, post: seq<Delta>, k: int)
    requires first.index == second.index == d.index && first.id == d.id && second.id == ""
    requires NameOf(first) == NameOf(d) && NameOf(second) == "" && ArgumentsOf(first) + ArgumentsOf(second) == ArgumentsOf(d)
    ensures Mentions(pre + [d] + post, k) <==> Mentions(pre + [first, second] + post, k)
    ensures CallAt(pre + [d] + post, k) == CallAt(pre + [first, second] + post, k)
  {
    hide Mentions, Said, Project;
    var whole, parts := pre + [d] + post, pre + [first, second] + post;
    ProjectUnmentioned(whole, k);
    ProjectUnmentioned(parts, k);
    ProjectAround(pre, first, second, post, k);
    ProjectConcat(pre + [d], post, k);
    ProjectSnoc(pre, d, k);
    assert Only(first, k) + Only(second, k) == if k == d.index then [first] + [second] else [];
    if k == d.index {
      SameWords(Project(pre, k), d, first, second, Project(post, k));
    } else {
      assert Project(pre, k) + [] + Project(post, k) == Project(pre, k) + Project(post, k);
    }
  }

  lemma SameWords(a: seq<Delta>, d: Delta, first: Delta, second: Delta, b: seq<Delta>)
    requires first.id == d.id && second.id == ""
    requires NameOf(first) == NameOf(d) && NameOf(second) == "" && ArgumentsOf(first) + ArgumentsOf(second) == ArgumentsOf(d)
    ensures Said(a + [d] + b) == Said(a + ([first] + [second]) + b)
  {
    hide LastId, LastName, AllArguments;
    SaidConcat(a + [d], b);
    SaidConcat(a, [d]);
    SaidConcat(a + ([first] + [second]), b);
    SaidConcat(a, [first] + [second]);
    SaidConcat([first], [second]);
    SaidOne(d);
    SaidOne(first);
    SaidOne(second);
  }

  lemma SaidOne(d: Delta)
    ensures Said([d]) == RawCall(d.id, NameOf(d), ArgumentsOf(d))
  {
    var ds := [d];
    assert ds[..|ds| - 1] == [];
    assert AllArguments(ds) == "" + ArgumentsOf(d);
    assert LastId(ds) == d.id;
    assert LastName(ds) == NameOf(d);
  }
}
