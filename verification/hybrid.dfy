/** retriever/hybrid.go: reciprocal rank fusion of two result lists. */
module Hybrid {
  import opened Text

  datatype Document = Document(id: string, content: string, score: real, metadata: map<string, string>, source: string)

  /** One occurrence of a document in a list: its key, its first-seen form, and what it contributes. */
  datatype Entry = Entry(key: string, doc: Document, contribution: real)

  datatype Agg = Agg(doc: Document, score: real)

  function Key(d: Document, i: nat, prefix: string): string {
    if d.id == "" then prefix + Itoa(i) else d.id
  }

  function Entries(list: seq<Document>, weight: real, prefix: string, k: nat): seq<Entry>
    requires k > 0
  {
    seq(|list|, i requires 0 <= i < |list| =>
      Entry(Key(list[i], i, prefix), list[i].(id := Key(list[i], i, prefix)), weight / (k + i + 1) as real))
  }

  /** All occurrences, in the order in which they are added up. */
  function AllEntries(m: RRFMerger, semantic: seq<Document>, keyword: seq<Document>): seq<Entry> {
    Entries(semantic, m.Weights().0, "sem:", m.Rank()) + Entries(keyword, m.Weights().1, "kw:", m.Rank())
  }

  predicate Has(es: seq<Entry>, id: string) {
    exists i :: 0 <= i < |es| && es[i].key == id
  }

  /** The sum of what the occurrences of an ID contribute. */
  function Score(es: seq<Entry>, id: string): real {
    if es == [] then 0.0
    else Score(es[..|es| - 1], id) + if es[|es| - 1].key == id then es[|es| - 1].contribution else 0.0
  }

  function First(es: seq<Entry>, id: string): Document
    requires Has(es, id)
  {
    if Has(es[..|es| - 1], id) then First(es[..|es| - 1], id) else es[|es| - 1].doc
  }

  /** The map that the merger builds holds every ID with its score and its first occurrence. */
  ghost predicate Aggregates(byId: map<string, Agg>, es: seq<Entry>) {
    && (forall id :: id in byId <==> Has(es, id))
    && (forall id :: id in byId ==> byId[id] == Agg(First(es, id), Score(es, id)))
  }

  lemma {:induction false} ScoreOfAbsent(es: seq<Entry>, id: string)
    requires !Has(es, id)
    ensures Score(es, id) == 0.0
  {
    if es != [] {
      assert forall i :: 0 <= i < |es| - 1 ==> es[..|es| - 1][i] == es[i];
      ScoreOfAbsent(es[..|es| - 1], id);
    }
  }

  lemma AggregateSnoc(byId: map<string, Agg>, es: seq<Entry>, e: Entry)
    requires Aggregates(byId, es)
    ensures Aggregates(byId[e.key := if e.key in byId then Agg(byId[e.key].doc, byId[e.key].score + e.contribution)
                                     else Agg(e.doc, e.contribution)], es + [e])
  {
    var all := es + [e];
    assert all[..|all| - 1] == es;
    forall id ensures Has(all, id) <==> Has(es, id) || id == e.key {
      if Has(es, id) { var i :| 0 <= i < |es| && es[i].key == id; assert all[i].key == id; }
      if id == e.key { assert all[|es|].key == id; }
    }
    if e.key !in byId { ScoreOfAbsent(es, e.key); }
  }

  /** A higher score comes first; equal scores are ordered by ID. */
  predicate Before(a: Document, b: Document) {
    a.score > b.score || (a.score == b.score && Less(a.id, b.id))
  }

  /** The fused list: every ID once, with its first occurrence and its total score, in strict order. */
  ghost predicate IsRanking(r: seq<Document>, es: seq<Entry>) {
    && (forall i :: 0 <= i < |r| ==> Has(es, r[i].id) && r[i] == Ranked(es, r[i].id))
    && (forall id :: Has(es, id) ==> Ranked(es, id) in r)
    && StrictlyOrdered(r)
  }

  ghost predicate StrictlyOrdered(r: seq<Document>) {
    forall i, j :: 0 <= i < j < |r| ==> Before(r[i], r[j])
  }

  function Ranked(es: seq<Entry>, id: string): Document
    requires Has(es, id)
  {
    First(es, id).(score := Score(es, id))
  }

  lemma {:induction false} FirstHasKey(es: seq<Entry>, id: string)
    requires Has(es, id)
    requires forall i :: 0 <= i < |es| ==> es[i].doc.id == es[i].key
    ensures First(es, id).id == id
  {
    if Has(es[..|es| - 1], id) { FirstHasKey(es[..|es| - 1], id); }
  }

  datatype RRFMerger = RRFMerger(k: int, semanticWeight: real, keywordWeight: real) {

    function Rank(): (r: nat)
      ensures r > 0
    {
      if k <= 0 then 60 else k
    }

    function Weights(): (real, real) {
      if semanticWeight == 0.0 && keywordWeight == 0.0 then (1.0, 1.0) else (semanticWeight, keywordWeight)
    }

    /** Adds up one list. */
    method Add(byId: map<string, Agg>, list: seq<Document>, weight: real, prefix: string, ghost before: seq<Entry>)
      returns (m: map<string, Agg>)
      requires Aggregates(byId, before)
      ensures Aggregates(m, before + Entries(list, weight, prefix, Rank()))
    {
      hide Aggregates, Itoa;
      m := byId;
      ghost var es := Entries(list, weight, prefix, Rank());
      var i := 0;
      assert before + es[..0] == before;
      while i < |list|
        invariant 0 <= i <= |list|
        invariant Aggregates(m, before + es[..i])
      {
        var d := list[i];
        var id := d.id;
        if id == "" {
          id := prefix + Itoa(i);
        }
        var rank := i + 1;
        var contrib := weight / (Rank() + rank) as real;
        AggregateSnoc(m, before + es[..i], es[i]);
        assert before + es[..i] + [es[i]] == before + es[..i + 1];
        if id in m {
          m := m[id := Agg(m[id].doc, m[id].score + contrib)];
        } else {
          m := m[id := Agg(d.(id := id), contrib)];
        }
        i := i + 1;
      }
      assert es[..|list|] == es;
    }

    method Merge(semantic: seq<Document>, keyword: seq<Document>) returns (out: seq<Document>)
      ensures IsRanking(out, AllEntries(this, semantic, keyword))
    {
      var (sw, kw) := Weights();
      var byId := Add(map[], semantic, sw, "sem:", []);
      assert [] + Entries(semantic, sw, "sem:", Rank()) == Entries(semantic, sw, "sem:", Rank());
      byId := Add(byId, keyword, kw, "kw:", Entries(semantic, sw, "sem:", Rank()));
      ghost var es := AllEntries(this, semantic, keyword);
      AllEntriesNamed(this, semantic, keyword);
      out := Collect(byId, es);
      ghost var collected := out;
      out := Sort(out);
      SameMembersRanked(es, collected, out);
    }

    /** The map's values, in an order nobody controls. */
    static method Collect(byId: map<string, Agg>, ghost es: seq<Entry>) returns (out: seq<Document>)
      requires Aggregates(byId, es) && forall i :: 0 <= i < |es| ==> es[i].doc.id == es[i].key
      ensures forall i :: 0 <= i < |out| ==> Has(es, out[i].id) && out[i] == Ranked(es, out[i].id)
      ensures forall id :: Has(es, id) ==> Ranked(es, id) in out
      ensures forall i, j :: 0 <= i < j < |out| ==> out[i].id != out[j].id
    {
      hide Score, First;
      out := [];
      var left := byId.Keys;
      while left != {}
        invariant left <= byId.Keys
        invariant forall i :: 0 <= i < |out| ==> Has(es, out[i].id) && out[i].id !in left && out[i] == Ranked(es, out[i].id)
        invariant forall id :: id in byId.Keys - left ==> Ranked(es, id) in out
        invariant forall i, j :: 0 <= i < j < |out| ==> out[i].id != out[j].id
        decreases |left|
      {
        var id :| id in left;
        FirstHasKey(es, id);
        out := out + [byId[id].doc.(score := byId[id].score)];
        left := left - {id};
      }
    }
  }

  lemma AllEntriesNamed(m: RRFMerger, semantic: seq<Document>, keyword: seq<Document>)
    ensures var es := AllEntries(m, semantic, keyword); forall i :: 0 <= i < |es| ==> es[i].doc.id == es[i].key
  {
  }

  lemma BeforeTransitive(a: Document, b: Document, c: Document)
    requires Before(a, b) && Before(b, c)
    ensures Before(a, c)
  {
    if a.score == b.score == c.score { LessTransitive(a.id, b.id, c.id); }
  }

  lemma BeforeTotal(a: Document, b: Document)
    ensures a.id != b.id ==> Before(a, b) || Before(b, a)
    ensures !(Before(a, b) && Before(b, a)) && !Before(a, a)
  {
    LessTotal(a.id, b.id);
    LessTotal(a.id, a.id);
  }

  /** Inserts into a sorted list. */
  method Insert(sorted: seq<Document>, d: Document) returns (r: seq<Document>)
    requires StrictlyOrdered(sorted) && forall i :: 0 <= i < |sorted| ==> sorted[i].id != d.id
    ensures StrictlyOrdered(r)
    ensures forall x :: x in r <==> x in sorted || x == d
  {
    hide Less;
    var i := 0;
    while i < |sorted| && Before(sorted[i], d)
      invariant 0 <= i <= |sorted|
      invariant forall j :: 0 <= j < i ==> Before(sorted[j], d)
    {
      i := i + 1;
    }
    forall j | i <= j < |sorted| ensures Before(d, sorted[j]) {
      BeforeTotal(sorted[i], d);
      if i < j { BeforeTransitive(d, sorted[i], sorted[j]); }
    }
    r := sorted[..i] + [d] + sorted[i..];
  }

  lemma SameMembersRanked(es: seq<Entry>, a: seq<Document>, b: seq<Document>)
    requires forall i :: 0 <= i < |a| ==> Has(es, a[i].id) && a[i] == Ranked(es, a[i].id)
    requires forall x :: x in b <==> x in a
    ensures forall i :: 0 <= i < |b| ==> Has(es, b[i].id) && b[i] == Ranked(es, b[i].id)
  {
    forall i | 0 <= i < |b| ensures Has(es, b[i].id) && b[i] == Ranked(es, b[i].id) {
      assert b[i] in a;
      var j :| 0 <= j < |a| && a[j] == b[i];
    }
  }

  /** Sorts by the merger's order; all IDs are different. */
  method Sort(docs: seq<Document>) returns (r: seq<Document>)
    requires forall i, j :: 0 <= i < j < |docs| ==> docs[i].id != docs[j].id
    ensures StrictlyOrdered(r)
    ensures forall x :: x in r <==> x in docs
  {
    hide Before;
    r := [];
    var i := 0;
    while i < |docs|
      invariant 0 <= i <= |docs|
      invariant StrictlyOrdered(r)
      invariant forall x :: x in r <==> x in docs[..i]
    {
      assert docs[..i + 1] == docs[..i] + [docs[i]];
      forall j | 0 <= j < |r| ensures r[j].id != docs[i].id {
        assert r[j] in docs[..i];
      }
      r := Insert(r, docs[i]);
      i := i + 1;
    }
    assert docs[..i] == docs;
  }

  // ----- properties of the ranking -----

  lemma {:induction false} StrictOrderUnique(a: seq<Document>, b: seq<Document>)
    requires StrictlyOrdered(a) && StrictlyOrdered(b)
    requires forall x :: x in a <==> x in b
    ensures a == b
    decreases |a|
  {
    if a == [] {
      HasMember(b);
    } else {
      assert a[0] in b;
      var j :| 0 <= j < |b| && b[j] == a[0];
      assert b[0] in a;
      var i :| 0 <= i < |a| && a[i] == b[0];
      BeforeTotal(a[0], b[0]);
      assert a[0] == b[0];
      SameTails(a, b);
      SameTails(b, a);
      StrictOrderUnique(a[1..], b[1..]);
    }
  }

  lemma HasMember(s: seq<Document>)
    ensures s == [] || exists x :: x in s
  {
    if s != [] { assert s[0] in s; }
  }

  lemma SameTails(a: seq<Document>, b: seq<Document>)
    requires StrictlyOrdered(a) && StrictlyOrdered(b) && a != [] && b != [] && a[0] == b[0]
    requires forall x :: x in a ==> x in b
    ensures forall x :: x in a[1..] ==> x in b[1..]
  {
    hide Less;
    forall x | x in a[1..] ensures x in b[1..] {
      var i :| 0 <= i < |a[1..]| && a[1..][i] == x;
      assert a[i + 1] == x && Before(a[0], x);
      BeforeTotal(x, x);
      assert x in a;
      var j :| 0 <= j < |b| && b[j] == x;
      assert b[1..][j - 1] == x;
    }
  }

  /** The result does not depend on the order in which the map is read: there is only one ranking. */
  lemma RankingUnique(es: seq<Entry>, r1: seq<Document>, r2: seq<Document>)
    requires IsRanking(r1, es) && IsRanking(r2, es)
    ensures r1 == r2
  {
    hide Before, Ranked;
    forall x | x in r1 ensures x in r2 { var i :| 0 <= i < |r1| && r1[i] == x; }
    forall x | x in r2 ensures x in r1 { var i :| 0 <= i < |r2| && r2[i] == x; }
    StrictOrderUnique(r1, r2);
  }

  lemma RankingDistinct(es: seq<Entry>, r: seq<Document>)
    requires IsRanking(r, es)
    ensures forall i, j :: 0 <= i < j < |r| ==> r[i].id != r[j].id
  {
    hide Less;
    forall i, j | 0 <= i < j < |r| ensures r[i].id != r[j].id {
      BeforeTotal(r[i], r[i]);
    }
  }

  function TotalScore(r: seq<Document>): real {
    if r == [] then 0.0 else r[0].score + TotalScore(r[1..])
  }

  function TotalContribution(es: seq<Entry>): real {
    if es == [] then 0.0 else TotalContribution(es[..|es| - 1]) + es[|es| - 1].contribution
  }

  function SumOver(ids: seq<string>, es: seq<Entry>): real {
    if ids == [] then 0.0 else Score(es, ids[0]) + SumOver(ids[1..], es)
  }

  lemma {:induction false} SumOverSnoc(ids: seq<string>, es: seq<Entry>)
    requires es != [] && forall i, j :: 0 <= i < j < |ids| ==> ids[i] != ids[j]
    ensures SumOver(ids, es) == SumOver(ids, es[..|es| - 1])
                                + if es[|es| - 1].key in ids then es[|es| - 1].contribution else 0.0
    decreases |ids|
  {
    if ids != [] {
      SumOverSnoc(ids[1..], es);
      assert es[|es| - 1].key in ids <==> es[|es| - 1].key == ids[0] || es[|es| - 1].key in ids[1..];
    }
  }

  lemma {:induction false} SumOverAll(ids: seq<string>, es: seq<Entry>)
    requires forall i, j :: 0 <= i < j < |ids| ==> ids[i] != ids[j]
    requires forall i :: 0 <= i < |es| ==> es[i].key in ids
    ensures SumOver(ids, es) == TotalContribution(es)
    decreases |es|
  {
    if es == [] {
      SumOverNothing(ids);
    } else {
      SumOverSnoc(ids, es);
      SumOverAll(ids, es[..|es| - 1]);
    }
  }

  lemma {:induction false} SumOverNothing(ids: seq<string>)
    ensures SumOver(ids, []) == 0.0
  {
    if ids != [] { SumOverNothing(ids[1..]); }
  }

  function Ids(r: seq<Document>): seq<string> {
    seq(|r|, i requires 0 <= i < |r| => r[i].id)
  }

  lemma {:induction false} TotalIsSum(r: seq<Document>, es: seq<Entry>)
    requires forall i :: 0 <= i < |r| ==> r[i].score == Score(es, r[i].id)
    ensures TotalScore(r) == SumOver(Ids(r), es)
  {
    if r != [] {
      TotalIsSum(r[1..], es);
      assert Ids(r)[1..] == Ids(r[1..]);
    }
  }

  /** No contribution is lost or counted twice: the scores add up to all contributions. */
  lemma {:induction false} RankingConserves(es: seq<Entry>, r: seq<Document>)
    requires IsRanking(r, es) && forall i :: 0 <= i < |es| ==> es[i].doc.id == es[i].key
    ensures TotalScore(r) == TotalContribution(es)
  {
    RankingDistinct(es, r);
    forall i | 0 <= i < |es| ensures es[i].key in Ids(r) {
      assert Has(es, es[i].key);
      FirstHasKey(es, es[i].key);
      var d := Ranked(es, es[i].key);
      var j :| 0 <= j < |r| && r[j] == d;
      assert Ids(r)[j] == es[i].key;
    }
    TotalIsSum(r, es);
    SumOverAll(Ids(r), es);
  }

  lemma {:induction false} ScoreConcat(a: seq<Entry>, b: seq<Entry>, id: string)
    ensures Score(a + b, id) == Score(a, id) + Score(b, id)
    decreases |b|
  {
    if b == [] {
      assert a + b == a;
    } else {
      assert (a + b)[..|a + b| - 1] == a + b[..|b| - 1];
      ScoreConcat(a, b[..|b| - 1], id);
    }
  }

  predicate DistinctKeys(es: seq<Entry>) {
    forall i, j :: 0 <= i < j < |es| ==> es[i].key != es[j].key
  }

  lemma {:induction false} ScoreOfDistinct(es: seq<Entry>, i: nat)
    requires DistinctKeys(es) && i < |es|
    ensures Score(es, es[i].key) == es[i].contribution
    decreases |es|
  {
    var n := |es| - 1;
    if i == n {
      assert !Has(es[..n], es[n].key);
      ScoreOfAbsent(es[..n], es[n].key);
    } else {
      ScoreOfDistinct(es[..n], i);
    }
  }

  lemma EarlierContributesMore(weight: real, a: nat, b: nat)
    requires weight > 0.0 && 0 < a < b
    ensures weight / a as real > weight / b as real
  {
    var x, y := weight / a as real, weight / b as real;
    assert x * a as real == weight == y * b as real;
    if x <= y {
      assert x > 0.0;
      assert x * a as real < x * b as real <= y * b as real;
    }
  }

  /** In a duplicate-free list with a positive weight, an earlier document contributes more. */
  lemma ListScores(list: seq<Document>, weight: real, prefix: string, k: nat, i: nat, j: nat)
    requires k > 0 && weight > 0.0 && i < j < |list| && DistinctKeys(Entries(list, weight, prefix, k))
    ensures var es := Entries(list, weight, prefix, k);
            Score(es, Key(list[i], i, prefix)) > Score(es, Key(list[j], j, prefix))
  {
    hide Itoa, Score, DistinctKeys;
    var es := Entries(list, weight, prefix, k);
    ScoreOfDistinct(es, i);
    ScoreOfDistinct(es, j);
    EarlierContributesMore(weight, k + i + 1, k + j + 1);
  }

  /** In duplicate-free lists with positive weights, a document that is ahead of another in both lists is ahead
      of it in the result. */
  lemma {:induction false} AheadInBothStaysAhead(m: RRFMerger, semantic: seq<Document>, keyword: seq<Document>, r: seq<Document>,
                              s1: nat, s2: nat, k1: nat, k2: nat, p: nat, q: nat)
    requires m.Weights().0 > 0.0 && m.Weights().1 > 0.0
    requires IsRanking(r, AllEntries(m, semantic, keyword))
    requires DistinctKeys(Entries(semantic, m.Weights().0, "sem:", m.Rank()))
    requires DistinctKeys(Entries(keyword, m.Weights().1, "kw:", m.Rank()))
    requires s1 < s2 < |semantic| && k1 < k2 < |keyword| && p < |r| && q < |r|
    requires r[p].id == Key(semantic[s1], s1, "sem:") == Key(keyword[k1], k1, "kw:")
    requires r[q].id == Key(semantic[s2], s2, "sem:") == Key(keyword[k2], k2, "kw:")
    ensures p < q && r[p].score > r[q].score
  {
    hide Less, Key, Score, First, Entries, DistinctKeys;
    var sem := Entries(semantic, m.Weights().0, "sem:", m.Rank());
    var kw := Entries(keyword, m.Weights().1, "kw:", m.Rank());
    ScoreConcat(sem, kw, r[p].id);
    ScoreConcat(sem, kw, r[q].id);
    ListScores(semantic, m.Weights().0, "sem:", m.Rank(), s1, s2);
    ListScores(keyword, m.Weights().1, "kw:", m.Rank(), k1, k2);
    assert r[p].score > r[q].score;
    var lo, hi := if q < p then q else p, if q < p then p else q;
    assert lo < hi ==> Before(r[lo], r[hi]);
  }

  // ----- the ranking in terms of the two lists -----

  /** The document at position i goes by this ID: its own, or one made from its list and position. */
  predicate Names(d: Document, i: nat, prefix: string, id: string) {
    if d.id == "" then id == prefix + Itoa(i) else id == d.id
  }

  predicate InList(list: seq<Document>, prefix: string, id: string) {
    exists i :: 0 <= i < |list| && Names(list[i], i, prefix, id)
  }

  /** What a list gives an ID: weight / (k + rank) for each position, ranks counted from 1. */
  function ListScore(list: seq<Document>, weight: real, k: nat, prefix: string, id: string): real
    requires k > 0
  {
    if list == [] then 0.0
    else
      var n := |list| - 1;
      ListScore(list[..n], weight, k, prefix, id) + if Names(list[n], n, prefix, id) then weight / (k + |list|) as real else 0.0
  }

  lemma {:induction false} ScoreOfList(list: seq<Document>, weight: real, k: nat, prefix: string, id: string)
    requires k > 0
    ensures Score(Entries(list, weight, prefix, k), id) == ListScore(list, weight, k, prefix, id)
  {
    hide Itoa;
    if list != [] {
      var n := |list| - 1;
      ScoreOfList(list[..n], weight, k, prefix, id);
      var es := Entries(list, weight, prefix, k);
      assert es[..n] == Entries(list[..n], weight, prefix, k);
      assert k + n + 1 == k + |list|;
    }
  }

  /** The merger's weights and rank constant. */
  function SemanticWeight(m: RRFMerger): real {
    if m.semanticWeight == 0.0 == m.keywordWeight then 1.0 else m.semanticWeight
  }

  function KeywordWeight(m: RRFMerger): real {
    if m.semanticWeight == 0.0 == m.keywordWeight then 1.0 else m.keywordWeight
  }

  function RankConstant(m: RRFMerger): (k: nat)
    ensures k > 0
  {
    if m.k > 0 then m.k else 60
  }

  /** The score of an ID is what it gets in both lists. */
  lemma FusedScore(m: RRFMerger, semantic: seq<Document>, keyword: seq<Document>, id: string)
    ensures Score(AllEntries(m, semantic, keyword), id)
         == ListScore(semantic, SemanticWeight(m), RankConstant(m), "sem:", id)
            + ListScore(keyword, KeywordWeight(m), RankConstant(m), "kw:", id)
  {
    hide Score, ListScore, Entries;
    var (sem, kw) := (Entries(semantic, SemanticWeight(m), "sem:", RankConstant(m)), Entries(keyword, KeywordWeight(m), "kw:", RankConstant(m)));
    ScoreOfList(semantic, SemanticWeight(m), RankConstant(m), "sem:", id);
    ScoreOfList(keyword, KeywordWeight(m), RankConstant(m), "kw:", id);
    ScoreConcat(sem, kw, id);
  }

  /** d is the first document of the lists with this ID, semantic list first. */
  ghost predicate FirstNamed(semantic: seq<Document>, keyword: seq<Document>, id: string, d: Document) {
    if InList(semantic, "sem:", id) then FirstIn(semantic, "sem:", id, d) else FirstIn(keyword, "kw:", id, d)
  }

  ghost predicate FirstIn(list: seq<Document>, prefix: string, id: string, d: Document) {
    exists i :: 0 <= i < |list| && Names(list[i], i, prefix, id) && d == list[i].(id := id)
                && forall j :: 0 <= j < i ==> !Names(list[j], j, prefix, id)
  }

  lemma EntryNames(list: seq<Document>, weight: real, prefix: string, k: nat, i: nat, id: string)
    requires k > 0 && i < |list|
    ensures var e := Entries(list, weight, prefix, k)[i];
            (e.key == id <==> Names(list[i], i, prefix, id)) && (e.key == id ==> e.doc == list[i].(id := id))
  {
    hide Itoa;
  }

  lemma {:induction false} FirstIndex(es: seq<Entry>, id: string) returns (i: nat)
    requires Has(es, id)
    ensures i < |es| && es[i].key == id && First(es, id) == es[i].doc && forall j :: 0 <= j < i ==> es[j].key != id
  {
    var before := es[..|es| - 1];
    if Has(before, id) {
      i := FirstIndex(before, id);
      assert before[i] == es[i] && forall j :: 0 <= j < i ==> es[j] == before[j];
    } else {
      i := |es| - 1;
      assert forall j :: 0 <= j < i ==> es[j] == before[j];
    }
  }

  /** Which document an occurrence stands for. */
  lemma OccurrenceNames(m: RRFMerger, semantic: seq<Document>, keyword: seq<Document>, id: string)
    ensures var (es, n) := (AllEntries(m, semantic, keyword), |semantic|);
            && |es| == n + |keyword|
            && (forall i :: 0 <= i < n ==> (es[i].key == id <==> Names(semantic[i], i, "sem:", id))
                                           && (es[i].key == id ==> es[i].doc == semantic[i].(id := id)))
            && (forall i :: n <= i < |es| ==> (es[i].key == id <==> Names(keyword[i - n], i - n, "kw:", id))
                                              && (es[i].key == id ==> es[i].doc == keyword[i - n].(id := id)))
  {
    hide Names, Itoa, Key;
    var (es, n) := (AllEntries(m, semantic, keyword), |semantic|);
    forall i | 0 <= i < n
      ensures (es[i].key == id <==> Names(semantic[i], i, "sem:", id)) && (es[i].key == id ==> es[i].doc == semantic[i].(id := id))
    {
      EntryNames(semantic, m.Weights().0, "sem:", m.Rank(), i, id);
    }
    forall i | n <= i < |es|
      ensures (es[i].key == id <==> Names(keyword[i - n], i - n, "kw:", id)) && (es[i].key == id ==> es[i].doc == keyword[i - n].(id := id))
    {
      EntryNames(keyword, m.Weights().1, "kw:", m.Rank(), i - n, id);
    }
  }

  lemma {:induction false} NamedIsThere(m: RRFMerger, semantic: seq<Document>, keyword: seq<Document>, id: string)
    ensures Has(AllEntries(m, semantic, keyword), id) <==> InList(semantic, "sem:", id) || InList(keyword, "kw:", id)
  {
    hide Names, AllEntries;
    var (es, n) := (AllEntries(m, semantic, keyword), |semantic|);
    OccurrenceNames(m, semantic, keyword, id);
    if i :| 0 <= i < |keyword| && Names(keyword[i], i, "kw:", id) { assert es[n + i].key == id; }
    if i :| 0 <= i < |semantic| && Names(semantic[i], i, "sem:", id) { assert es[i].key == id; }
    if i :| 0 <= i < |es| && es[i].key == id {
      assert i < n ==> Names(semantic[i], i, "sem:", id);
      assert i >= n ==> Names(keyword[i - n], i - n, "kw:", id);
    }
  }

  lemma {:induction false} FirstIsNamed(m: RRFMerger, semantic: seq<Document>, keyword: seq<Document>, id: string)
    requires Has(AllEntries(m, semantic, keyword), id)
    ensures FirstNamed(semantic, keyword, id, First(AllEntries(m, semantic, keyword), id))
  {
    hide Names, First, AllEntries, Has;
    var (es, n) := (AllEntries(m, semantic, keyword), |semantic|);
    OccurrenceNames(m, semantic, keyword, id);
    var i := FirstIndex(es, id);
    if i < n {
      assert InList(semantic, "sem:", id) && FirstIn(semantic, "sem:", id, First(es, id));
    } else {
      assert forall j :: 0 <= j < n ==> es[j].key != id;
      forall j | 0 <= j < i - n ensures !Names(keyword[j], j, "kw:", id) { assert es[n + j].key != id; }
      assert FirstIn(keyword, "kw:", id, First(es, id));
    }
  }

  /** What the result is, in terms of the lists: of every ID in them exactly the first document, with the sum of what
      the ID gets in both lists as score; by falling score, and by ID where scores are equal. */
  lemma {:induction false} FusedRanking(m: RRFMerger, semantic: seq<Document>, keyword: seq<Document>, r: seq<Document>)
    requires IsRanking(r, AllEntries(m, semantic, keyword))
    ensures forall p :: 0 <= p < |r| ==>
              && r[p].score == ListScore(semantic, SemanticWeight(m), RankConstant(m), "sem:", r[p].id)
                               + ListScore(keyword, KeywordWeight(m), RankConstant(m), "kw:", r[p].id)
              && exists d :: FirstNamed(semantic, keyword, r[p].id, d) && r[p] == d.(score := r[p].score)
    ensures forall id :: InList(semantic, "sem:", id) || InList(keyword, "kw:", id) ==> exists p :: 0 <= p < |r| && r[p].id == id
    ensures forall p, q :: 0 <= p < q < |r| ==>
              r[p].id != r[q].id && (r[p].score > r[q].score || (r[p].score == r[q].score && Less(r[p].id, r[q].id)))
  {
    hide Score, ListScore, AllEntries, First, Less, FirstNamed, InList, Has, SemanticWeight, KeywordWeight;
    var es := AllEntries(m, semantic, keyword);
    RankingDistinct(es, r);
    AllEntriesNamed(m, semantic, keyword);
    forall p | 0 <= p < |r|
      ensures r[p].score == ListScore(semantic, SemanticWeight(m), RankConstant(m), "sem:", r[p].id)
                            + ListScore(keyword, KeywordWeight(m), RankConstant(m), "kw:", r[p].id)
      ensures exists d :: FirstNamed(semantic, keyword, r[p].id, d) && r[p] == d.(score := r[p].score)
    {
      FusedScore(m, semantic, keyword, r[p].id);
      FirstIsNamed(m, semantic, keyword, r[p].id);
      var d := First(es, r[p].id);
      assert r[p] == d.(score := r[p].score);
    }
    forall id | InList(semantic, "sem:", id) || InList(keyword, "kw:", id) ensures exists p :: 0 <= p < |r| && r[p].id == id {
      NamedIsThere(m, semantic, keyword, id);
      FirstHasKey(es, id);
      var p :| 0 <= p < |r| && r[p] == Ranked(es, id);
    }
  }
}
