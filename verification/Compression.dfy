/** Bounded JSON contexts cut from a recall trace: exact de-duplication, greedy selection under a character budget,
    and the strict constructor that checks the result. */
module Compression {
  import opened Common
  import opened Traces
  import Json
  import Sorting

  datatype Algorithm = RankedExtractive | ExactDeduplicated

  datatype Source = Source(recordId: Id, revisionId: Id, rank: int, score: real)

  /** A candidate segment: one rendered object and the sources it represents. */
  datatype Segment = Segment(content: string, sources: seq<Source>)

  const PREFIX: string := "{\"memories\":["
  const SUFFIX: string := "]}"
  const MIN_BUDGET := 64
  const MAX_BUDGET := 100_000

  function Join(cs: seq<string>): string {
    if cs == [] then "" else if |cs| == 1 then cs[0] else cs[0] + "," + Join(cs[1..])
  }

  function Document(cs: seq<string>): string {
    PREFIX + Join(cs) + SUFFIX
  }

  /** The object rendered for one item. `sort_keys` leaves this order: "context" < "key" < "value", and facets are
      canonically sorted by key. */
  function ItemValue(context: Context, key: string, value: string): Json.Value {
    Json.Obj([
      Json.Member("context", Json.Obj(seq(|context.facets|, i requires 0 <= i < |context.facets| =>
        Json.Member(context.facets[i].0, Json.Str(context.facets[i].1))))),
      Json.Member("key", Json.Str(key)),
      Json.Member("value", Json.Str(value))])
  }

  function Render(i: RecalledItem): string {
    Json.Print(ItemValue(i.context, i.key, i.value))
  }

  function Candidate(i: RecalledItem): Segment {
    Segment(Render(i), [Source(i.recordId, i.revisionId, i.rank, i.score)])
  }

  function Candidates(items: seq<RecalledItem>): (r: seq<Segment>)
    ensures |r| == |items| && forall i | 0 <= i < |items| :: r[i] == Candidate(items[i])
  {
    seq(|items|, i requires 0 <= i < |items| => Candidate(items[i]))
  }

  function Contents(ss: seq<Segment>): (r: seq<string>)
    ensures |r| == |ss| && forall i | 0 <= i < |ss| :: r[i] == ss[i].content
  {
    seq(|ss|, i requires 0 <= i < |ss| => ss[i].content)
  }

  /** The rendered object determines context, key and value. */
  lemma RenderIsInjective(a: RecalledItem, b: RecalledItem)
    ensures Render(a) == Render(b) <==> a.context == b.context && a.key == b.key && a.value == b.value
  {
    if Render(a) == Render(b) {
      Json.PrintIsInjective(ItemValue(a.context, a.key, a.value), ItemValue(b.context, b.key, b.value));
      var x, y := ItemValue(a.context, a.key, a.value), ItemValue(b.context, b.key, b.value);
      assert x.members[1].value == Json.Str(a.key) && x.members[2].value == Json.Str(a.value);
      assert y.members[1].value == Json.Str(b.key) && y.members[2].value == Json.Str(b.value);
      var f, g := x.members[0].value.members, y.members[0].value.members;
      assert f == g && |f| == |a.context.facets| && |g| == |b.context.facets|;
      forall i | 0 <= i < |f| ensures a.context.facets[i] == b.context.facets[i] {
        assert f[i] == Json.Member(a.context.facets[i].0, Json.Str(a.context.facets[i].1));
        assert g[i] == Json.Member(b.context.facets[i].0, Json.Str(b.context.facets[i].1));
      }
      assert a.context.facets == b.context.facets;
    }
  }

  lemma {:induction false} JoinPrints(vs: seq<Json.Value>, cs: seq<string>)
    requires |vs| == |cs| && forall i | 0 <= i < |vs| :: cs[i] == Json.Print(vs[i])
    ensures Join(cs) == Json.PrintElements(vs)
  {
    if |vs| > 1 {
      JoinPrints(vs[1..], cs[1..]);
    }
  }

  /** The document is the JSON text of its list of objects, and reads back to exactly that list. */
  lemma DocumentReads(items: seq<RecalledItem>)
    ensures var vs := seq(|items|,
                          i requires 0 <= i < |items| => ItemValue(items[i].context, items[i].key, items[i].value));
            Json.Parse(Document(Contents(Candidates(items))))
                == Some((Json.Obj([Json.Member("memories", Json.Arr(vs))]), ""))
  {
    var vs := seq(|items|, i requires 0 <= i < |items| => ItemValue(items[i].context, items[i].key, items[i].value));
    var document := Json.Obj([Json.Member("memories", Json.Arr(vs))]);
    JoinPrints(vs, Contents(Candidates(items)));
    PrintDocument(vs);
    Json.PrintReads(document, "");
    assert Json.Print(document) + "" == Json.Print(document);
  }

  lemma PrintDocument(vs: seq<Json.Value>)
    ensures Json.Print(Json.Obj([Json.Member("memories", Json.Arr(vs))])) == PREFIX + Json.PrintElements(vs) + SUFFIX
  {
    var m := Json.Member("memories", Json.Arr(vs));
    var body := Json.PrintElements(vs);
    QuoteMemories();
    assert Json.Print(m.value) == "[" + body + "]";
    assert Json.PrintMembers([m]) == Json.Quote("memories") + ":" + Json.Print(m.value);
    Brackets(body);
  }

  lemma Brackets(body: string)
    ensures "{" + ("\"memories\"" + ":" + ("[" + body + "]")) + "}" == PREFIX + body + SUFFIX
  {
  }

  lemma {:induction false} PlainText(s: string)
    requires forall i | 0 <= i < |s| :: 'a' <= s[i] <= 'z'
    ensures Json.EscapeAll(s) == s
  {
    if s != "" {
      PlainText(s[1..]);
      assert Json.Escape(s[0]) == [s[0]] && s == [s[0]] + s[1..];
    }
  }

  lemma QuoteMemories()
    ensures Json.Quote("memories") == "\"memories\""
  {
    PlainText("memories");
    assert "\"" + "memories" + "\"" == "\"memories\"";
  }

  // ---------------------------------------------------------------- selection within a budget

  /** Each content with its separator. */
  function Weight(cs: seq<string>): nat {
    if cs == [] then 0 else |cs[0]| + 1 + Weight(cs[1..])
  }

  lemma {:induction false} DocumentLength(cs: seq<string>)
    ensures |Join(cs)| == (if cs == [] then 0 else Weight(cs) - 1)
    ensures |Document(cs)| == 15 + |Join(cs)|
  {
    if |cs| > 1 {
      DocumentLength(cs[1..]);
    }
  }

  lemma {:induction false} WeightAdds(cs: seq<string>, ds: seq<string>)
    ensures Weight(cs + ds) == Weight(cs) + Weight(ds)
  {
    if cs == [] {
      assert cs + ds == ds;
    } else {
      assert (cs + ds)[1..] == cs[1..] + ds;
      WeightAdds(cs[1..], ds);
    }
  }

  /** The candidates a choice keeps, in order. A choice says yes or no to each candidate. */
  function Chosen(ss: seq<Segment>, choice: seq<bool>): (r: seq<Segment>)
    requires |ss| == |choice|
    ensures |r| <= |ss| && forall s | s in r :: s in ss
    decreases |ss|
  {
    if ss == [] then []
    else
      var n := |ss| - 1;
      Chosen(ss[..n], choice[..n]) + (if choice[n] then [ss[n]] else [])
  }

  predicate Fits(ss: seq<Segment>, budget: int) {
    |Document(Contents(ss))| <= budget
  }

  /** The greedy choice: keep a candidate whenever the document with it still fits. */
  function GreedyChoice(ss: seq<Segment>, budget: int): (r: seq<bool>)
    ensures |r| == |ss|
    decreases |ss|
  {
    if ss == [] then []
    else
      var n := |ss| - 1;
      var before := GreedyChoice(ss[..n], budget);
      before + [Fits(Chosen(ss[..n], before) + [ss[n]], budget)]
  }

  function Selected(ss: seq<Segment>, budget: int): seq<Segment> {
    Chosen(ss, GreedyChoice(ss, budget))
  }

  /** `_select_within_budget`. */
  method SelectWithinBudget(ss: seq<Segment>, budget: int) returns (selected: seq<Segment>)
    ensures selected == Selected(ss, budget)
  {
    selected := [];
    for i := 0 to |ss|
      invariant selected == Selected(ss[..i], budget)
    {
      assert ss[..i + 1][..i] == ss[..i];
      var choice := GreedyChoice(ss[..i], budget);
      var kept := Fits(Chosen(ss[..i], choice) + [ss[i]], budget);
      assert GreedyChoice(ss[..i + 1], budget) == choice + [kept];
      assert (choice + [kept])[..i] == choice;
      if |Document(Contents(selected + [ss[i]]))| <= budget {
        selected := selected + [ss[i]];
      }
    }
    assert ss[..|ss|] == ss;
  }

  lemma ContentsAdd(ss: seq<Segment>, ts: seq<Segment>)
    ensures Contents(ss + ts) == Contents(ss) + Contents(ts)
  {
  }

  /** Inserting more segments before the last one never makes the document shorter. */
  lemma LongerDocument(ss: seq<Segment>, ts: seq<Segment>, last: seq<Segment>, budget: int)
    requires Fits(ss + ts + last, budget)
    ensures Fits(ss + last, budget)
  {
    ContentsAdd(ss, ts);
    ContentsAdd(ss + ts, last);
    ContentsAdd(ss, last);
    DocumentLength(Contents(ss + ts + last));
    DocumentLength(Contents(ss + last));
    WeightAdds(Contents(ss + ts), Contents(last));
    WeightAdds(Contents(ss), Contents(ts));
    WeightAdds(Contents(ss), Contents(last));
  }

  lemma {:induction false} GreedyPrefix(ss: seq<Segment>, budget: int, i: nat)
    requires i <= |ss|
    ensures GreedyChoice(ss, budget)[..i] == GreedyChoice(ss[..i], budget)
    decreases |ss|
  {
    if i == |ss| {
      assert ss[..i] == ss;
    } else {
      var n := |ss| - 1;
      GreedyPrefix(ss[..n], budget, i);
      assert ss[..n][..i] == ss[..i];
    }
  }

  lemma {:induction false} ChosenSplits(ss: seq<Segment>, choice: seq<bool>, i: nat)
    requires |ss| == |choice| && i <= |ss|
    ensures Chosen(ss, choice) == Chosen(ss[..i], choice[..i]) + Chosen(ss[i..], choice[i..])
    decreases |ss|
  {
    if i == |ss| {
      assert ss[..i] == ss && choice[..i] == choice;
    } else {
      var n := |ss| - 1;
      ChosenSplits(ss[..n], choice[..n], i);
      assert ss[..n][..i] == ss[..i] && choice[..n][..i] == choice[..i];
      assert ss[i..][..n - i] == ss[..n][i..] && choice[i..][..n - i] == choice[..n][i..];
    }
  }

  /** Skipped at `i` means the document of the choices before `i` with candidate `i` does not fit. */
  lemma SkipReason(ss: seq<Segment>, budget: int, i: nat)
    requires i < |ss|
    ensures GreedyChoice(ss, budget)[i] <==>
            Fits(Chosen(ss[..i], GreedyChoice(ss, budget)[..i]) + [ss[i]], budget)
  {
    GreedyPrefix(ss, budget, i);
    GreedyPrefix(ss, budget, i + 1);
    assert ss[..i + 1][..i] == ss[..i];
    assert GreedyChoice(ss, budget)[..i + 1][i] == GreedyChoice(ss, budget)[i];
  }

  /** The document never exceeds the budget, provided the empty document does not. */
  lemma {:induction false} SelectionFits(ss: seq<Segment>, budget: int)
    requires budget >= MIN_BUDGET
    ensures Fits(Selected(ss, budget), budget)
    decreases |ss|
  {
    if ss == [] {
      DocumentLength(Contents([]));
    } else {
      var n := |ss| - 1;
      SelectionFits(ss[..n], budget);
      GreedyPrefix(ss, budget, n);
      var before := Selected(ss[..n], budget);
      assert Selected(ss, budget) == if Fits(before + [ss[n]], budget) then before + [ss[n]] else before;
    }
  }

  /** No skipped candidate fits into the final document. */
  lemma SelectionIsMaximal(ss: seq<Segment>, budget: int, i: nat)
    requires i < |ss| && !GreedyChoice(ss, budget)[i]
    ensures !Fits(Selected(ss, budget) + [ss[i]], budget)
  {
    var choice := GreedyChoice(ss, budget);
    SkipReason(ss, budget, i);
    ChosenSplits(ss, choice, i);
    if Fits(Selected(ss, budget) + [ss[i]], budget) {
      LongerDocument(Chosen(ss[..i], choice[..i]), Chosen(ss[i..], choice[i..]), [ss[i]], budget);
    }
  }

  /** No within-budget choice that agrees on all earlier candidates can include one that greedy selection skips:
      the greedy choice is lexicographically the greatest. */
  lemma SelectionIsRankOptimal(ss: seq<Segment>, budget: int, choice: seq<bool>, i: nat)
    requires |choice| == |ss| && i < |ss| && Fits(Chosen(ss, choice), budget)
    requires choice[..i] == GreedyChoice(ss, budget)[..i] && !GreedyChoice(ss, budget)[i]
    ensures !choice[i]
  {
    if choice[i] {
      SkipReason(ss, budget, i);
      ChosenSplits(ss, choice, i + 1);
      assert ss[..i + 1][..i] == ss[..i] && choice[..i + 1][..i] == choice[..i];
      var kept, later := Chosen(ss[..i], choice[..i]) + [ss[i]], Chosen(ss[i + 1..], choice[i + 1..]);
      assert kept + later + [] == Chosen(ss, choice) && kept + [] == kept;
      LongerDocument(kept, later, [], budget);
    }
  }

  // ---------------------------------------------------------------- exact de-duplication

  function AllSources(ss: seq<Segment>): seq<Source>
    decreases |ss|
  {
    if ss == [] then [] else AllSources(ss[..|ss| - 1]) + ss[|ss| - 1].sources
  }

  /** The reference meaning of merging: the sources of every candidate with this content, in order. */
  function SourcesOf(ss: seq<Segment>, content: string): seq<Source>
    decreases |ss|
  {
    if ss == [] then []
    else
      var n := |ss| - 1;
      SourcesOf(ss[..n], content) + (if ss[n].content == content then ss[n].sources else [])
  }

  /** The distinct contents in order of first occurrence. */
  function FirstOccurrences(ss: seq<Segment>): (r: seq<string>)
    ensures Sorting.Distinct(r)
    ensures forall c :: c in r <==> exists i | 0 <= i < |ss| :: ss[i].content == c
    decreases |ss|
  {
    if ss == [] then []
    else
      var n := |ss| - 1;
      var before := FirstOccurrences(ss[..n]);
      assert forall c | c in before :: exists i | 0 <= i < |ss| :: ss[i].content == c by {
        forall c | c in before ensures exists i | 0 <= i < |ss| :: ss[i].content == c {
          var i :| 0 <= i < n && ss[..n][i].content == c;
          assert ss[i].content == c;
        }
      }
      assert forall i | 0 <= i < n :: ss[..n][i].content in before;
      assert forall i | 0 <= i < n :: ss[i] == ss[..n][i];
      if ss[n].content in before then before else before + [ss[n].content]
  }

  /** Merged segments: one for each distinct content, holding all its sources. */
  function Deduplicated(ss: seq<Segment>): (r: seq<Segment>)
    ensures |r| == |FirstOccurrences(ss)|
    ensures forall k | 0 <= k < |r| :: r[k] == Segment(FirstOccurrences(ss)[k], SourcesOf(ss, FirstOccurrences(ss)[k]))
  {
    var order := FirstOccurrences(ss);
    seq(|order|, k requires 0 <= k < |order| => Segment(order[k], SourcesOf(ss, order[k])))
  }

  /** `_apply_algorithm` filling an insertion-ordered dictionary, here its key order and its entries. */
  method ApplyAlgorithm(ss: seq<Segment>, algorithm: Algorithm) returns (r: seq<Segment>)
    ensures r == Applied(ss, algorithm)
  {
    if algorithm == RankedExtractive {
      return ss;
    }
    var order: seq<string>, entries: map<string, seq<Source>> := [], map[];
    for i := 0 to |ss|
      invariant order == FirstOccurrences(ss[..i])
      invariant forall c :: c in entries <==> c in order
      invariant forall c | c in entries :: entries[c] == SourcesOf(ss[..i], c)
    {
      assert ss[..i + 1][..i] == ss[..i];
      if ss[i].content !in entries {
        NoSources(ss[..i], ss[i].content);
        order := order + [ss[i].content];
        entries := entries[ss[i].content := []];
      }
      entries := entries[ss[i].content := entries[ss[i].content] + ss[i].sources];
    }
    assert ss[..|ss|] == ss;
    r := seq(|order|, k requires 0 <= k < |order| && order[k] in entries => Segment(order[k], entries[order[k]]));
  }

  function Applied(ss: seq<Segment>, algorithm: Algorithm): seq<Segment> {
    match algorithm
    case RankedExtractive => ss
    case ExactDeduplicated => Deduplicated(ss)
  }

  lemma {:induction false} NoSources(ss: seq<Segment>, content: string)
    requires content !in FirstOccurrences(ss)
    ensures SourcesOf(ss, content) == []
    decreases |ss|
  {
    if ss != [] {
      var n := |ss| - 1;
      assert ss[n].content != content;
      NoSources(ss[..n], content);
    }
  }

  /** Segments come in the order in which their contents first occur. */
  lemma {:induction false} FirstOccurrenceOrder(ss: seq<Segment>, j: nat, k: nat, i: nat)
    requires j < k < |FirstOccurrences(ss)| && i < |ss| && ss[i].content == FirstOccurrences(ss)[k]
    ensures exists e :: 0 <= e < i && ss[e].content == FirstOccurrences(ss)[j]
    decreases |ss|
  {
    var n := |ss| - 1;
    var before := FirstOccurrences(ss[..n]);
    if k < |before| {
      var e: nat;
      if i < n {
        FirstOccurrenceOrder(ss[..n], j, k, i);
        e :| 0 <= e < i && ss[..n][e].content == before[j];
      } else {
        assert before[j] in before;
        e :| 0 <= e < n && ss[..n][e].content == before[j];
      }
      assert ss[e].content == FirstOccurrences(ss)[j];
    } else {
      assert FirstOccurrences(ss) == before + [ss[n].content];
      assert forall m | 0 <= m < n :: ss[..n][m].content in before;
      assert forall m | 0 <= m < n :: ss[..n][m] == ss[m];
      assert before[j] in before;
      var e :| 0 <= e < n && ss[..n][e].content == before[j];
      assert ss[e].content == FirstOccurrences(ss)[j];
    }
  }

  lemma AllSourcesOfNone()
    ensures AllSources([]) == []
  {
  }

  lemma AllSourcesSnoc(ss: seq<Segment>, s: Segment)
    ensures AllSources(ss + [s]) == AllSources(ss) + s.sources
  {
    assert (ss + [s])[..|ss|] == ss;
  }

  lemma {:induction false} AllSourcesAdd(ss: seq<Segment>, ts: seq<Segment>)
    ensures AllSources(ss + ts) == AllSources(ss) + AllSources(ts)
    decreases |ts|
  {
    hide *;
    if ts == [] {
      AllSourcesOfNone();
      assert ss + ts == ss;
    } else {
      var init, last := ts[..|ts| - 1], ts[|ts| - 1];
      AllSourcesAdd(ss, init);
      assert ss + ts == (ss + init) + [last];
      AllSourcesSnoc(ss + init, last);
      AllSourcesSnoc(init, last);
      assert ts == init + [last];
      assert AllSources(ss) + AllSources(init) + last.sources == AllSources(ss) + (AllSources(init) + last.sources);
    }
  }

  /** Extending the sources of one segment extends all sources by as much. */
  lemma ExtendOne(ss: seq<Segment>, k: nat, more: seq<Source>)
    requires k < |ss|
    ensures var t := Segment(ss[k].content, ss[k].sources + more);
            multiset(AllSources(ss[k := t])) == multiset(AllSources(ss)) + multiset(more)
  {
    var t := Segment(ss[k].content, ss[k].sources + more);
    assert ss == ss[..k] + [ss[k]] + ss[k + 1..];
    assert ss[k := t] == ss[..k] + [t] + ss[k + 1..];
    AllSourcesAdd(ss[..k] + [ss[k]], ss[k + 1..]);
    AllSourcesAdd(ss[..k], [ss[k]]);
    AllSourcesAdd(ss[..k] + [t], ss[k + 1..]);
    AllSourcesAdd(ss[..k], [t]);
    assert AllSources([t]) == t.sources && AllSources([ss[k]]) == ss[k].sources;
  }

  lemma OneMore(ss: seq<Segment>, last: Segment)
    ensures FirstOccurrences(ss + [last]) ==
            FirstOccurrences(ss) + (if last.content in FirstOccurrences(ss) then [] else [last.content])
    ensures forall c :: SourcesOf(ss + [last], c) ==
                        SourcesOf(ss, c) + (if last.content == c then last.sources else [])
  {
    assert (ss + [last])[..|ss|] == ss;
  }

  lemma MergedEntry(ss: seq<Segment>, last: Segment, k: nat, j: nat)
    requires k < |FirstOccurrences(ss)| && FirstOccurrences(ss)[k] == last.content && j < |FirstOccurrences(ss)|
    ensures FirstOccurrences(ss + [last]) == FirstOccurrences(ss)
    ensures Deduplicated(ss + [last])[j] ==
            Segment(FirstOccurrences(ss)[j],
                    SourcesOf(ss, FirstOccurrences(ss)[j]) + (if j == k then last.sources else []))
  {
    OneMore(ss, last);
    assert FirstOccurrences(ss)[j] == last.content <==> j == k;
  }

  lemma MergeIntoExisting(ss: seq<Segment>, last: Segment, k: nat)
    requires k < |FirstOccurrences(ss)| && FirstOccurrences(ss)[k] == last.content
    ensures var before := Deduplicated(ss);
            Deduplicated(ss + [last]) == before[k := Segment(before[k].content, before[k].sources + last.sources)]
  {
    var before, after := Deduplicated(ss), Deduplicated(ss + [last]);
    MergedEntry(ss, last, k, k);
    forall j | 0 <= j < |before|
      ensures after[j] == before[k := Segment(before[k].content, before[k].sources + last.sources)][j]
    {
      MergedEntry(ss, last, k, j);
      assert before[j].sources + [] == before[j].sources;
    }
  }

  lemma MergeAsNew(ss: seq<Segment>, last: Segment)
    requires last.content !in FirstOccurrences(ss)
    ensures Deduplicated(ss + [last]) == Deduplicated(ss) + [last]
  {
    OneMore(ss, last);
    NoSources(ss, last.content);
    var order, before, after := FirstOccurrences(ss), Deduplicated(ss), Deduplicated(ss + [last]);
    assert after[|order|] == last;
    forall j | 0 <= j < |order| ensures after[j] == before[j] {
      assert order[j] in order;
    }
  }

  /** Merging loses no source and invents none. */
  lemma {:induction false} DeduplicationKeepsSources(ss: seq<Segment>)
    ensures multiset(AllSources(Deduplicated(ss))) == multiset(AllSources(ss))
    decreases |ss|
  {
    if ss != [] {
      var init, last := ss[..|ss| - 1], ss[|ss| - 1];
      assert ss == init + [last];
      DeduplicationKeepsSources(init);
      if last.content in FirstOccurrences(init) {
        var k :| 0 <= k < |FirstOccurrences(init)| && FirstOccurrences(init)[k] == last.content;
        MergeIntoExisting(init, last, k);
        ExtendOne(Deduplicated(init), k, last.sources);
      } else {
        MergeAsNew(init, last);
        AllSourcesAdd(Deduplicated(init), [last]);
        assert AllSources([last]) == last.sources;
      }
    }
  }

  lemma {:induction false} SourceHasOrigin(ss: seq<Segment>, content: string, x: Source)
    ensures x in SourcesOf(ss, content) <==> exists i | 0 <= i < |ss| :: ss[i].content == content && x in ss[i].sources
    decreases |ss|
  {
    if ss != [] {
      var n := |ss| - 1;
      SourceHasOrigin(ss[..n], content, x);
      assert forall i | 0 <= i < n :: ss[..n][i] == ss[i];
      if x in SourcesOf(ss[..n], content) {
        var i :| 0 <= i < n && ss[..n][i].content == content && x in ss[..n][i].sources;
        assert ss[i].content == content && x in ss[i].sources;
      }
    }
  }

  /** Two items end up in one segment exactly when key, value and context are equal. */
  lemma MergesExactlyEqualItems(items: seq<RecalledItem>, i: nat, j: nat)
    requires i < |items| && j < |items|
    requires DistinctItems(items)
    ensures var merged := Deduplicated(Candidates(items));
            var x, y := Candidate(items[i]).sources[0], Candidate(items[j]).sources[0];
            (exists k :: 0 <= k < |merged| && x in merged[k].sources && y in merged[k].sources)
            <==>
                  items[i].key == items[j].key && items[i].value == items[j].value
                  && items[i].context == items[j].context
  {
    hide Render;
    var ss := Candidates(items);
    var merged := Deduplicated(ss);
    var x, y := Candidate(items[i]).sources[0], Candidate(items[j]).sources[0];
    RenderIsInjective(items[i], items[j]);
    if k :| 0 <= k < |merged| && x in merged[k].sources && y in merged[k].sources {
      SourceHasOrigin(ss, merged[k].content, x);
      SourceHasOrigin(ss, merged[k].content, y);
      var a :| 0 <= a < |ss| && ss[a].content == merged[k].content && x in ss[a].sources;
      var b :| 0 <= b < |ss| && ss[b].content == merged[k].content && y in ss[b].sources;
      assert a == i && b == j;
    }
    if ss[i].content == ss[j].content {
      assert ss[i].content in FirstOccurrences(ss);
      var k :| 0 <= k < |merged| && FirstOccurrences(ss)[k] == ss[i].content;
      SourceHasOrigin(ss, merged[k].content, x);
      SourceHasOrigin(ss, merged[k].content, y);
      assert x in ss[i].sources && y in ss[j].sources;
    }
  }
}
