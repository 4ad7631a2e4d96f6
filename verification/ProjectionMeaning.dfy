/** What a projected context says, written out: its header, its JSON text, where each segment comes from, and what is
    left out. */
module ProjectionMeaning {
  import opened Common
  import opened Traces
  import opened Compression
  import opened Projections
  import Json
  import Sorting

  // ---------------------------------------------------------------- rank order

  ghost predicate Ranked(items: seq<RecalledItem>) {
    forall i, j | 0 <= i < j < |items| :: items[i].rank <= items[j].rank
  }

  lemma {:induction false} InsertionAdds(i: RecalledItem, items: seq<RecalledItem>)
    ensures multiset(InsertByRank(i, items)) == multiset(items) + multiset{i}
  {
    if items != [] && i.rank > items[0].rank {
      InsertionAdds(i, items[1..]);
      assert items == [items[0]] + items[1..];
    }
  }

  lemma {:induction false} InsertionRanks(i: RecalledItem, items: seq<RecalledItem>)
    requires Ranked(items)
    ensures Ranked(InsertByRank(i, items))
  {
    if items != [] && i.rank > items[0].rank {
      var rest := InsertByRank(i, items[1..]);
      InsertionRanks(i, items[1..]);
      InsertionAdds(i, items[1..]);
      forall k | 0 <= k < |rest| ensures items[0].rank <= rest[k].rank {
        assert rest[k] in multiset(rest);
        assert rest[k] == i || rest[k] in items[1..];
      }
      RankedAfter(items[0], rest);
    }
  }

  lemma RankedAfter(first: RecalledItem, rest: seq<RecalledItem>)
    requires Ranked(rest) && forall k | 0 <= k < |rest| :: first.rank <= rest[k].rank
    ensures Ranked([first] + rest)
  {
  }

  /** The items are considered in rank order, each of them once. */
  lemma {:induction false} RankOrder(items: seq<RecalledItem>)
    ensures Ranked(ByRank(items)) && multiset(ByRank(items)) == multiset(items)
  {
    hide Ranked, InsertByRank;
    if items == [] {
      NothingRanked();
    } else {
      RankOrder(items[1..]);
      InsertionRanks(items[0], ByRank(items[1..]));
      InsertionAdds(items[0], ByRank(items[1..]));
      assert items == [items[0]] + items[1..];
    }
  }

  lemma NothingRanked()
    ensures Ranked([])
  {
  }

  /** A trace in rank order keeps its own order. */
  lemma {:induction false} RankedStays(items: seq<RecalledItem>)
    requires Ranked(items)
    ensures ByRank(items) == items
  {
    if items != [] {
      assert Ranked(items[1..]);
      RankedStays(items[1..]);
      assert items == [items[0]] + items[1..];
    }
  }

  // ---------------------------------------------------------------- where segments come from

  /** The source stands for the item. */
  ghost predicate StandsFor(x: Source, i: RecalledItem) {
    x.recordId == i.recordId && x.revisionId == i.revisionId && x.rank == i.rank && x.score == i.score
  }

  /** The JSON object that says what an item says. */
  ghost function Says(i: RecalledItem): Json.Value {
    Json.Obj([
      Json.Member("context", Json.Obj(seq(|i.context.facets|, k requires 0 <= k < |i.context.facets| =>
        Json.Member(i.context.facets[k].0, Json.Str(i.context.facets[k].1))))),
      Json.Member("key", Json.Str(i.key)), Json.Member("value", Json.Str(i.value))])
  }

  lemma RenderSays(i: RecalledItem)
    ensures Json.Print(Says(i)) == Render(i) && Says(i) == ItemValue(i.context, i.key, i.value)
  {
  }

  /** Some item says the text, and the source stands for it. */
  ghost predicate Origin(x: Source, content: string, items: seq<RecalledItem>) {
    exists i :: i in items && StandsFor(x, i) && content == Json.Print(Says(i))
  }

  /** Every source of the segment is an item that says what the segment says. */
  ghost predicate Extracted(s: Segment, items: seq<RecalledItem>) {
    s.sources != [] && forall x | x in s.sources :: Origin(x, s.content, items)
  }

  lemma CandidateHasOrigin(items: seq<RecalledItem>, j: nat, x: Source)
    requires j < |items| && x in Candidate(items[j]).sources
    ensures Origin(x, Candidate(items[j]).content, items)
  {
    hide Says, Render, Json.Print;
    RenderSays(items[j]);
    assert items[j] in items && StandsFor(x, items[j]);
  }

  lemma CandidatesAreExtracted(items: seq<RecalledItem>, algorithm: Algorithm, s: Segment)
    requires s in Applied(Candidates(items), algorithm)
    ensures Extracted(s, items)
  {
    hide Origin, Candidate, Render, FromItems;
    var raw, all := Candidates(items), Applied(Candidates(items), algorithm);
    CandidatesComeFromItems(items, algorithm);
    var k :| 0 <= k < |all| && all[k] == s;
    SourcesExist(all, items, k);
    forall x | x in s.sources ensures Origin(x, s.content, items) {
      if algorithm == ExactDeduplicated {
        SourceHasOrigin(raw, s.content, x);
        var j :| 0 <= j < |raw| && raw[j].content == s.content && x in raw[j].sources;
        CandidateHasOrigin(items, j, x);
      } else {
        CandidateHasOrigin(items, k, x);
      }
    }
  }

  lemma SourcesExist(ss: seq<Segment>, items: seq<RecalledItem>, k: nat)
    requires FromItems(ss, items) && k < |ss|
    ensures ss[k].sources != []
  {
    hide Render;
  }

  lemma OriginIsStripped(x: Source, content: string, items: seq<RecalledItem>)
    requires Origin(x, content, items)
    ensures Strip(content) == content
  {
    hide Says, Render, Json.Print, StandsFor;
    var i :| i in items && StandsFor(x, i) && content == Json.Print(Says(i));
    RenderSays(i);
    RenderIsStripped(i);
  }

  /** A segment lists its sources by rank, then by revision. */
  ghost predicate Sorted(sources: seq<Source>) {
    forall i, j | 0 <= i < j < |sources| ::
      sources[i].rank < sources[j].rank
      || (sources[i].rank == sources[j].rank && sources[i].revisionId < sources[j].revisionId)
  }

  /** Building strips nothing and only sorts the sources. */
  lemma BuildingSorts(s: Segment, items: seq<RecalledItem>)
    requires Extracted(s, items) && BuildSegment(s).Ok?
    ensures var b := BuildSegment(s).value; b.content == s.content && Extracted(b, items) && Sorted(b.sources)
  {
    hide Origin, Strip;
    DistinctIsTotal(s.sources);
    SortedIsDistinct(s.sources);
    var b := BuildSegment(s).value;
    assert s.sources[0] in s.sources && s.sources[0] in b.sources;
    OriginIsStripped(s.sources[0], s.content, items);
    forall x | x in b.sources ensures Origin(x, s.content, items) {
      assert x in s.sources;
    }
    forall m, n | 0 <= m < n < |b.sources|
      ensures b.sources[m].rank < b.sources[n].rank
              || (b.sources[m].rank == b.sources[n].rank && b.sources[m].revisionId < b.sources[n].revisionId)
    {
      assert SourceLe(b.sources[m], b.sources[n]);
    }
  }

  lemma {:induction false} BuiltOneByOne(ss: seq<Segment>, k: nat)
    requires BuildSegments(ss).Ok? && k < |ss|
    ensures BuildSegment(ss[k]) == Ok(BuildSegments(ss).value[k])
    decreases |ss|
  {
    if k < |ss| - 1 {
      BuiltOneByOne(ss[..|ss| - 1], k);
    }
  }

  /** The sources of segments, one by one. */
  lemma {:induction false} SourcesAreListed(ss: seq<Segment>, x: Source)
    ensures x in AllSources(ss) <==> exists k :: 0 <= k < |ss| && x in ss[k].sources
    decreases |ss|
  {
    if ss != [] {
      var init := ss[..|ss| - 1];
      SourcesAreListed(init, x);
      if k :| 0 <= k < |init| && x in init[k].sources {
        assert x in ss[k].sources;
      }
      assert forall k | 0 <= k < |init| :: ss[k] == init[k];
    }
  }

  // ---------------------------------------------------------------- the projection

  /** What `project` returns when it is not refused: the header of the trace, a budget between 64 and 100 000 characters
      that the text keeps to, segments that each say what their sources say in the trace, their revisions cited and
      counted, and the length of the text that everything would have taken. */
  lemma ProjectionInWords(t: Trace, algorithm: Algorithm, budget: int)
    requires Project(t, algorithm, budget).Ok?
    ensures var p := Project(t, algorithm, budget).value;
            && 64 <= budget <= 100_000 && p.budget == budget && p.algorithm == algorithm
            && p.scope == t.scope && p.traceId == t.id && p.policyId == t.policyId && p.policyVersion == t.policyVersion
            && p.validAt == t.validAt && p.knownAt == t.knownAt && p.traceCreatedAt == t.createdAt
            && |p.content| <= budget
            && p.content == "{\"memories\":[" + Join(Contents(p.segments)) + "]}"
            && (forall k | 0 <= k < |p.segments| ::
                 Extracted(p.segments[k], t.items) && Sorted(p.segments[k].sources))
            && (forall id :: id in p.SourceRevisionIds() <==>
                  exists k, j :: 0 <= k < |p.segments| && 0 <= j < |p.segments[k].sources|
                                 && p.segments[k].sources[j].revisionId == id)
            && p.sourceItemCount == |t.items| && p.omittedItemCount == |t.items| - |AllSources(p.segments)|
            && p.originalCharacterCount == |Document(Contents(Candidates(ByRank(t.items))))|
  {
    hide Extracted, BuildSegment, DistinctRevisions, ByRank, Render;
    var p, selected := Project(t, algorithm, budget).value, TraceSelection(t, algorithm, budget);
    forall k | 0 <= k < |p.segments| ensures Extracted(p.segments[k], t.items) && Sorted(p.segments[k].sources) {
      SegmentIsExtracted(t, algorithm, budget, k);
    }
    forall id ensures id in p.SourceRevisionIds() <==>
                      exists k, j :: 0 <= k < |p.segments| && 0 <= j < |p.segments[k].sources|
                                     && p.segments[k].sources[j].revisionId == id {
      CitedIsListed(p, id);
    }
  }

  lemma SegmentIsExtracted(t: Trace, algorithm: Algorithm, budget: int, k: nat)
    requires Project(t, algorithm, budget).Ok? && k < |Project(t, algorithm, budget).value.segments|
    ensures var s := Project(t, algorithm, budget).value.segments[k]; Extracted(s, t.items) && Sorted(s.sources)
  {
    hide BuildSegment, DistinctRevisions, Extracted, Sorted, ByRank, Render, Applied, GreedyChoice, Selected;
    var items, selected := ByRank(t.items), TraceSelection(t, algorithm, budget);
    BuiltOneByOne(selected, k);
    SelectedAreCandidates(t, algorithm, budget, k);
    CandidatesAreExtracted(items, algorithm, selected[k]);
    BuildingSorts(selected[k], items);
    RankOrder(t.items);
    ExtractedFromSame(BuildSegment(selected[k]).value, items, t.items);
  }

  lemma SelectedAreCandidates(t: Trace, algorithm: Algorithm, budget: int, k: nat)
    requires k < |TraceSelection(t, algorithm, budget)|
    ensures TraceSelection(t, algorithm, budget)[k] in Applied(Candidates(ByRank(t.items)), algorithm)
  {
    hide ByRank, Applied, Candidates, GreedyChoice;
    var selected := TraceSelection(t, algorithm, budget);
    assert selected[k] in selected;
  }

  lemma ExtractedFromSame(s: Segment, a: seq<RecalledItem>, b: seq<RecalledItem>)
    requires Extracted(s, a) && multiset(a) == multiset(b)
    ensures Extracted(s, b)
  {
    hide Says, StandsFor, Json.Print;
    forall i | i in a ensures i in b {
      assert i in multiset(a) && i in multiset(b);
    }
  }

  lemma CitedIsListed(p: Projection, id: Id)
    ensures id in p.SourceRevisionIds() <==>
            exists k, j :: 0 <= k < |p.segments| && 0 <= j < |p.segments[k].sources|
                           && p.segments[k].sources[j].revisionId == id
  {
    var all := AllSources(p.segments);
    if id in p.SourceRevisionIds() {
      var i :| 0 <= i < |all| && all[i].revisionId == id;
      SourcesAreListed(p.segments, all[i]);
      var k :| 0 <= k < |p.segments| && all[i] in p.segments[k].sources;
      var j :| 0 <= j < |p.segments[k].sources| && p.segments[k].sources[j] == all[i];
    }
    if k, j :| 0 <= k < |p.segments| && 0 <= j < |p.segments[k].sources| && p.segments[k].sources[j].revisionId == id {
      SourcesAreListed(p.segments, p.segments[k].sources[j]);
      var i :| 0 <= i < |all| && all[i] == p.segments[k].sources[j];
    }
  }
}
