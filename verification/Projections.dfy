/** The projection's strict constructors, and `project`, which they check. */
module Projections {
  import opened Common
  import opened Traces
  import opened Compression
  import Sorting

  /** `str.strip` removes these at both ends. */
  predicate IsSpace(c: char) {
    var n := c as int;
    || 9 <= n <= 13 || 28 <= n <= 32 || n == 0x85 || n == 0xA0 || n == 0x1680 || 0x2000 <= n <= 0x200A
    || n == 0x2028 || n == 0x2029 || n == 0x202F || n == 0x205F || n == 0x3000
  }

  function Strip(s: string): string
    decreases |s|
  {
    if s == "" then ""
    else if IsSpace(s[0]) then Strip(s[1..])
    else if IsSpace(s[|s| - 1]) then Strip(s[..|s| - 1])
    else s
  }

  function Elements(sources: seq<Source>): set<Source> {
    set x | x in sources
  }

  predicate SourceLe(a: Source, b: Source) {
    a.rank < b.rank || (a.rank == b.rank && a.revisionId <= b.revisionId)
  }

  predicate DistinctRevisions(sources: seq<Source>) {
    forall i, j | 0 <= i < j < |sources| :: sources[i].revisionId != sources[j].revisionId
  }

  lemma DistinctIsTotal(sources: seq<Source>)
    requires DistinctRevisions(sources)
    ensures Sorting.TotalOn(Elements(sources), SourceLe)
  {
    forall a, b | a in sources && b in sources && SourceLe(a, b) && SourceLe(b, a) ensures a == b {
      var i :| 0 <= i < |sources| && sources[i] == a;
      var j :| 0 <= j < |sources| && sources[j] == b;
      assert a.revisionId == b.revisionId;
      assert !(i < j) && !(j < i);
    }
  }

  /** `ContextProjectionSegment`: rejects blank content, no sources or repeated revisions; sorts the sources. */
  function BuildSegment(s: Segment): Result<Segment> {
    if Strip(s.content) == "" || s.sources == [] || !DistinctRevisions(s.sources) then Err(DomainError)
    else
      DistinctIsTotal(s.sources);
      Ok(Segment(Strip(s.content), Sorting.Sort(Elements(s.sources), SourceLe)))
  }

  function BuildSegments(ss: seq<Segment>): (r: Result<seq<Segment>>)
    ensures r.Ok? ==> |r.value| == |ss|
    decreases |ss|
  {
    if ss == [] then Ok([])
    else
      var before :- BuildSegments(ss[..|ss| - 1]);
      var last :- BuildSegment(ss[|ss| - 1]);
      Ok(before + [last])
  }

  /** SHA-256 digests are represented by what they digest. */
  datatype Digest = Digest(algorithm: Algorithm, budget: int, source: Trace, content: string,
                           segments: seq<(string, seq<Id>)>)

  datatype Projection = Projection(
    scope: Scope, traceId: Id, policyId: Id, policyVersion: int, algorithm: Algorithm, budget: int,
    validAt: Time, knownAt: Time, traceCreatedAt: Time, content: string, segments: seq<Segment>,
    sourceItemCount: int, omittedItemCount: int, originalCharacterCount: int, digest: Digest)
  {
    function SourceRevisionIds(): set<Id> {
      set i | 0 <= i < |AllSources(segments)| :: AllSources(segments)[i].revisionId
    }
  }

  /** What `RecallContextProjection` accepts. */
  predicate Accepted(p: Projection) {
    && p.policyVersion >= 1
    && MIN_BUDGET <= p.budget <= MAX_BUDGET
    && p.knownAt <= p.traceCreatedAt
    && |p.content| <= p.budget
    && p.sourceItemCount >= 0 && p.omittedItemCount >= 0 && p.originalCharacterCount >= 0
    && p.content == Document(Contents(p.segments))
    && |p.content| <= p.originalCharacterCount
    && DistinctRevisions(AllSources(p.segments))
    && |AllSources(p.segments)| + p.omittedItemCount == p.sourceItemCount
  }

  function InsertByRank(i: RecalledItem, items: seq<RecalledItem>): seq<RecalledItem> {
    if items == [] || i.rank <= items[0].rank then [i] + items else [items[0]] + InsertByRank(i, items[1..])
  }

  /** The stable `sorted(items, key=rank)`. */
  function ByRank(items: seq<RecalledItem>): seq<RecalledItem> {
    if items == [] then [] else InsertByRank(items[0], ByRank(items[1..]))
  }

  /** The candidates of a trace under an algorithm, and the selected ones. */
  function TraceCandidates(t: Trace, algorithm: Algorithm): seq<Segment> {
    Applied(Candidates(ByRank(t.items)), algorithm)
  }

  function TraceSelection(t: Trace, algorithm: Algorithm, budget: int): seq<Segment> {
    Selected(TraceCandidates(t, algorithm), budget)
  }

  function Assemble(t: Trace, algorithm: Algorithm, budget: int, raw: seq<Segment>, content: string,
                    segments: seq<Segment>): Projection
  {
    var included := |AllSources(segments)|;
    Projection(
      t.scope, t.id, t.policyId, t.policyVersion, algorithm, budget, t.validAt, t.knownAt, t.createdAt, content,
          segments,
      |t.items|, |t.items| - included, |Document(Contents(raw))|,
      Digest(algorithm, budget, t, content, seq(|segments|, i requires 0 <= i < |segments| =>
        (segments[i].content, seq(|segments[i].sources|, j requires 0 <= j < |segments[i].sources| =>
           segments[i].sources[j].revisionId)))))
  }

  /** `RecallContextCompressor.project`. */
  function Project(t: Trace, algorithm: Algorithm, budget: int): Result<Projection> {
    if budget < MIN_BUDGET || budget > MAX_BUDGET then Err(DomainError)
    else
      var selected := TraceSelection(t, algorithm, budget);
      var segments :- BuildSegments(selected);
      var p := Assemble(t, algorithm, budget, Candidates(ByRank(t.items)), Document(Contents(selected)), segments);
      Checked(p)
  }

  function Checked(p: Projection): Result<Projection> {
    if Accepted(p) then Ok(p) else Err(DomainError)
  }

  method ProjectTrace(t: Trace, algorithm: Algorithm, budget: int) returns (r: Result<Projection>)
    ensures r == Project(t, algorithm, budget)
  {
    if budget < MIN_BUDGET || budget > MAX_BUDGET {
      return Err(DomainError);
    }
    var raw := Candidates(ByRank(t.items));
    var candidates := ApplyAlgorithm(raw, algorithm);
    var selected := SelectWithinBudget(candidates, budget);
    var content := Document(Contents(selected));
    var built := BuildSegments(selected);
    if built.Err? {
      return Err(built.error);
    }
    var p := Assemble(t, algorithm, budget, raw, content, built.value);
    r := Checked(p);
  }

  // ---------------------------------------------------------------- when the constructors accept

  lemma RenderIsStripped(i: RecalledItem)
    ensures Strip(Render(i)) == Render(i) && Render(i) != ""
  {
    var text := Render(i);
    assert text[0] == '{' && text[|text| - 1] == '}';
  }

  ghost predicate FromItems(ss: seq<Segment>, items: seq<RecalledItem>) {
    forall k | 0 <= k < |ss| ::
      ss[k].sources != [] && exists i :: 0 <= i < |items| && ss[k].content == Render(items[i])
  }

  lemma CandidatesComeFromItems(items: seq<RecalledItem>, algorithm: Algorithm)
    ensures FromItems(Applied(Candidates(items), algorithm), items)
  {
    var raw, ss := Candidates(items), Applied(Candidates(items), algorithm);
    forall k | 0 <= k < |ss|
      ensures ss[k].sources != [] && exists i :: 0 <= i < |items| && ss[k].content == Render(items[i])
    {
      if algorithm == ExactDeduplicated {
        assert ss[k].content in FirstOccurrences(raw);
        var i :| 0 <= i < |raw| && raw[i].content == ss[k].content;
        SourceHasOrigin(raw, ss[k].content, raw[i].sources[0]);
        assert ss[k].content == Render(items[i]);
      } else {
        assert ss[k].content == Render(items[k]);
      }
    }
  }

  lemma CountsAreOne(sources: seq<Source>)
    requires DistinctRevisions(sources)
    ensures forall x | x in sources :: multiset(sources)[x] == 1
  {
    Sorting.DistinctCountOnce(sources);
  }

  /** Distinctness depends only on the multiset of sources, and passes to smaller ones. */
  lemma DistinctByMultiset(a: seq<Source>, b: seq<Source>)
    requires multiset(b) <= multiset(a) && DistinctRevisions(a)
    ensures DistinctRevisions(b)
  {
    Sorting.FewerStayDistinct(a, b);
    forall i, j | 0 <= i < j < |b| ensures b[i].revisionId != b[j].revisionId {
      assert b[i] in a && b[j] in a && b[i] != b[j];
    }
  }

  lemma SortKeepsSources(s: Segment)
    requires BuildSegment(s).Ok?
    ensures multiset(BuildSegment(s).value.sources) == multiset(s.sources)
  {
    DistinctIsTotal(s.sources);
    var sorted := BuildSegment(s).value.sources;
    SortedIsDistinct(s.sources);
    CountsAreOne(sorted);
    CountsAreOne(s.sources);
    forall x ensures multiset(sorted)[x] == multiset(s.sources)[x] {
      assert x in sorted <==> x in s.sources;
    }
  }

  lemma SortedIsDistinct(sources: seq<Source>)
    requires DistinctRevisions(sources) && Sorting.TotalOn(Elements(sources), SourceLe)
    ensures DistinctRevisions(Sorting.Sort(Elements(sources), SourceLe))
  {
    var sorted := Sorting.Sort(Elements(sources), SourceLe);
    forall i, j | 0 <= i < j < |sorted| ensures sorted[i].revisionId != sorted[j].revisionId {
      assert sorted[i] in sorted && sorted[j] in sorted;
      var a :| 0 <= a < |sources| && sources[a] == sorted[i];
      var b :| 0 <= b < |sources| && sources[b] == sorted[j];
    }
  }

  lemma AllSourcesSplit(ss: seq<Segment>)
    requires ss != []
    ensures AllSources(ss) == AllSources(ss[..|ss| - 1]) + ss[|ss| - 1].sources
  {
  }

  lemma LastSegmentKeeps(init: seq<Segment>, last: Segment)
    requires BuildSegments(init).Ok? && BuildSegment(last).Ok? && BuildSegment(last).value.content == last.content
    requires Contents(BuildSegments(init).value) == Contents(init)
    requires multiset(AllSources(BuildSegments(init).value)) == multiset(AllSources(init))
    requires multiset(BuildSegment(last).value.sources) == multiset(last.sources)
    ensures var built := BuildSegments(init).value + [BuildSegment(last).value];
            && Contents(built) == Contents(init + [last])
            && multiset(AllSources(built)) == multiset(AllSources(init + [last]))
  {
    var built, segment := BuildSegments(init).value, BuildSegment(last).value;
    ContentsAdd(built, [segment]);
    ContentsAdd(init, [last]);
    AddOneSegment(built, segment);
    AddOneSegment(init, last);
  }

  lemma BuildingSplits(ss: seq<Segment>)
    requires ss != [] && BuildSegments(ss).Ok?
    ensures var init, last := ss[..|ss| - 1], ss[|ss| - 1];
            && BuildSegments(init).Ok? && BuildSegment(last).Ok?
            && BuildSegments(ss).value == BuildSegments(init).value + [BuildSegment(last).value]
  {
  }

  lemma BuildingNothing()
    ensures BuildSegments([]).Ok? && Contents(BuildSegments([]).value) == Contents([])
    ensures AllSources(BuildSegments([]).value) == AllSources([])
  {
  }

  lemma SegmentsFromItems(ss: seq<Segment>, items: seq<RecalledItem>)
    requires ss != [] && FromItems(ss, items) && BuildSegment(ss[|ss| - 1]).Ok?
    ensures FromItems(ss[..|ss| - 1], items)
    ensures BuildSegment(ss[|ss| - 1]).value.content == ss[|ss| - 1].content
  {
    var i :| 0 <= i < |items| && ss[|ss| - 1].content == Render(items[i]);
    RenderIsStripped(items[i]);
  }

  /** Building keeps contents and sources. */
  lemma {:induction false} BuildingKeeps(ss: seq<Segment>, items: seq<RecalledItem>)
    requires FromItems(ss, items) && BuildSegments(ss).Ok?
    ensures Contents(BuildSegments(ss).value) == Contents(ss)
    ensures multiset(AllSources(BuildSegments(ss).value)) == multiset(AllSources(ss))
    decreases |ss|
  {
    hide *;
    if ss == [] {
      BuildingNothing();
    } else {
      var init, last := ss[..|ss| - 1], ss[|ss| - 1];
      BuildingSplits(ss);
      SegmentsFromItems(ss, items);
      BuildingKeeps(init, items);
      SortKeepsSources(last);
      LastSegmentKeeps(init, last);
      assert ss == init + [last];
    }
  }

  /** Segments made from rendered items are refused only for repeated revisions. */
  lemma {:induction false} DistinctSegmentsBuild(ss: seq<Segment>, items: seq<RecalledItem>)
    requires FromItems(ss, items) && DistinctRevisions(AllSources(ss))
    ensures BuildSegments(ss).Ok?
    decreases |ss|
  {
    if ss != [] {
      var init, last := ss[..|ss| - 1], ss[|ss| - 1];
      AllSourcesSplit(ss);
      DistinctByMultiset(AllSources(ss), AllSources(init));
      DistinctByMultiset(AllSources(ss), last.sources);
      DistinctSegmentsBuild(init, items);
      var i :| 0 <= i < |items| && last.content == Render(items[i]);
      RenderIsStripped(items[i]);
    }
  }

  lemma ChosenStep(ss: seq<Segment>, choice: seq<bool>)
    requires |ss| == |choice| && ss != []
    ensures var n := |ss| - 1;
            var before := Chosen(ss[..n], choice[..n]);
            Chosen(ss, choice) == if choice[n] then before + [ss[n]] else before
  {
  }

  lemma ChosenNothing(choice: seq<bool>)
    requires choice == []
    ensures Chosen([], choice) == []
  {
  }

  lemma AddOneSegment(ss: seq<Segment>, s: Segment)
    ensures AllSources(ss + [s]) == AllSources(ss) + s.sources
    ensures Weight(Contents(ss + [s])) == Weight(Contents(ss)) + |s.content| + 1
  {
    ContentsAdd(ss, [s]);
    WeightAdds(Contents(ss), Contents([s]));
    AllSourcesAdd(ss, [s]);
    assert AllSources([s]) == s.sources;
  }

  lemma {:induction false} ChosenIsLess(ss: seq<Segment>, choice: seq<bool>)
    requires |ss| == |choice|
    ensures multiset(AllSources(Chosen(ss, choice))) <= multiset(AllSources(ss))
    ensures Weight(Contents(Chosen(ss, choice))) <= Weight(Contents(ss))
    decreases |ss|
  {
    hide *;
    if ss == [] {
      ChosenNothing(choice);
    } else {
      var init, last, before := ss[..|ss| - 1], ss[|ss| - 1], Chosen(ss[..|ss| - 1], choice[..|ss| - 1]);
      ChosenIsLess(init, choice[..|ss| - 1]);
      ChosenStep(ss, choice);
      assert ss == init + [last];
      AddOneSegment(init, last);
      AddOneSegment(before, last);
    }
  }

  lemma {:induction false} MergingIsLess(ss: seq<Segment>)
    ensures Weight(FirstOccurrences(ss)) <= Weight(Contents(ss))
    decreases |ss|
  {
    if ss != [] {
      var init, last := ss[..|ss| - 1], ss[|ss| - 1];
      MergingIsLess(init);
      assert ss == init + [last];
      OneMore(init, last);
      ContentsAdd(init, [last]);
      assert Contents([last]) == [last.content];
      WeightAdds(Contents(init), [last.content]);
      WeightAdds(FirstOccurrences(init), [last.content]);
      assert FirstOccurrences(init) + [] == FirstOccurrences(init);
    }
  }

  lemma AppliedIsLess(ss: seq<Segment>, algorithm: Algorithm)
    ensures multiset(AllSources(Applied(ss, algorithm))) == multiset(AllSources(ss))
    ensures Weight(Contents(Applied(ss, algorithm))) <= Weight(Contents(ss))
  {
    if algorithm == ExactDeduplicated {
      DeduplicationKeepsSources(ss);
      MergingIsLess(ss);
      assert Contents(Deduplicated(ss)) == FirstOccurrences(ss);
    }
  }

  lemma {:induction false} ItemSources(items: seq<RecalledItem>)
    ensures |AllSources(Candidates(items))| == |items|
    ensures forall i | 0 <= i < |items| :: AllSources(Candidates(items))[i] == Candidate(items[i]).sources[0]
    decreases |items|
  {
    if items != [] {
      var n := |items| - 1;
      ItemSources(items[..n]);
      assert Candidates(items)[..n] == Candidates(items[..n]);
    }
  }

  lemma CandidatesAdd(i: RecalledItem, items: seq<RecalledItem>)
    ensures AllSources(Candidates([i] + items)) == Candidate(i).sources + AllSources(Candidates(items))
  {
    assert Candidates([i] + items) == [Candidate(i)] + Candidates(items);
    AllSourcesAdd([Candidate(i)], Candidates(items));
    assert AllSources([Candidate(i)]) == Candidate(i).sources;
  }

  lemma {:induction false} InsertionKeepsSources(i: RecalledItem, items: seq<RecalledItem>)
    ensures multiset(AllSources(Candidates(InsertByRank(i, items))))
            == multiset(Candidate(i).sources) + multiset(AllSources(Candidates(items)))
  {
    if items == [] || i.rank <= items[0].rank {
      CandidatesAdd(i, items);
    } else {
      InsertionKeepsSources(i, items[1..]);
      InsertedLater(i, items, InsertByRank(i, items[1..]));
    }
  }

  lemma InsertedLater(i: RecalledItem, items: seq<RecalledItem>, inserted: seq<RecalledItem>)
    requires items != []
    requires multiset(AllSources(Candidates(inserted)))
             == multiset(Candidate(i).sources) + multiset(AllSources(Candidates(items[1..])))
    ensures multiset(AllSources(Candidates([items[0]] + inserted)))
            == multiset(Candidate(i).sources) + multiset(AllSources(Candidates(items)))
  {
    hide *;
    CandidatesAdd(items[0], inserted);
    CandidatesAdd(items[0], items[1..]);
    assert items == [items[0]] + items[1..];
    Swap(Candidate(items[0]).sources, Candidate(i).sources, AllSources(Candidates(inserted)),
         AllSources(Candidates(items[1..])));
  }

  lemma Swap(first: seq<Source>, second: seq<Source>, more: seq<Source>, rest: seq<Source>)
    requires multiset(more) == multiset(second) + multiset(rest)
    ensures multiset(first + more) == multiset(second) + multiset(first + rest)
  {
  }

  lemma RankingStep(items: seq<RecalledItem>)
    ensures items == [] ==> ByRank(items) == items
    ensures items != [] ==> ByRank(items) == InsertByRank(items[0], ByRank(items[1..]))
    ensures items != [] ==> items == [items[0]] + items[1..]
  {
  }

  lemma {:induction false} SortingKeepsSources(items: seq<RecalledItem>)
    ensures multiset(AllSources(Candidates(ByRank(items)))) == multiset(AllSources(Candidates(items)))
  {
    hide *;
    RankingStep(items);
    if items != [] {
      var first, rest := items[0], items[1..];
      SortingKeepsSources(rest);
      InsertionKeepsSources(first, ByRank(rest));
      CandidatesAdd(first, rest);
    }
  }

  /** The selection of a trace: within budget, no longer than the original, its sources among the trace's. */
  lemma SelectionBounds(t: Trace, algorithm: Algorithm, budget: int)
    requires budget >= MIN_BUDGET
    ensures var selected, raw := TraceSelection(t, algorithm, budget), Candidates(ByRank(t.items));
            && Fits(selected, budget)
            && |Document(Contents(selected))| <= |Document(Contents(raw))|
            && multiset(AllSources(selected)) <= multiset(AllSources(Candidates(t.items)))
            && |AllSources(selected)| <= |t.items|
            && FromItems(selected, ByRank(t.items))
  {
    var items := ByRank(t.items);
    var raw, ss := Candidates(items), TraceCandidates(t, algorithm);
    var selected := TraceSelection(t, algorithm, budget);
    SelectionFits(ss, budget);
    ChosenIsLess(ss, GreedyChoice(ss, budget));
    AppliedIsLess(raw, algorithm);
    SortingKeepsSources(t.items);
    ItemSources(t.items);
    DocumentLength(Contents(selected));
    DocumentLength(Contents(raw));
    CandidatesComeFromItems(items, algorithm);
    SubMultisetIsShorter(AllSources(selected), AllSources(Candidates(t.items)));
    forall k | 0 <= k < |selected|
      ensures selected[k].sources != [] && exists i :: 0 <= i < |items| && selected[k].content == Render(items[i])
    {
      assert selected[k] in ss;
    }
  }

  lemma SubMultisetIsShorter(a: seq<Source>, b: seq<Source>)
    requires multiset(a) <= multiset(b)
    ensures |a| <= |b|
  {
    assert multiset(b) == multiset(a) + (multiset(b) - multiset(a));
    assert |multiset(b)| == |multiset(a)| + |multiset(b) - multiset(a)|;
  }

  /** Exactly when `project` succeeds: the budget and the trace header are acceptable and no selected source repeats a
      revision. Every other constructor check is met by construction. */
  lemma ProjectSucceedsExactly(t: Trace, algorithm: Algorithm, budget: int)
    ensures Project(t, algorithm, budget).Ok? <==>
              && MIN_BUDGET <= budget <= MAX_BUDGET && t.policyVersion >= 1 && t.knownAt <= t.createdAt
              && DistinctRevisions(AllSources(TraceSelection(t, algorithm, budget)))
  {
    if MIN_BUDGET <= budget <= MAX_BUDGET {
      var selected, distinct := TraceSelection(t, algorithm, budget),
        DistinctRevisions(AllSources(TraceSelection(t, algorithm, budget)));
      SelectionBounds(t, algorithm, budget);
      if BuildSegments(selected).Ok? {
        BuildingKeeps(selected, ByRank(t.items));
        AssembledIsAccepted(t, algorithm, budget, BuildSegments(selected).value);
      } else if distinct {
        DistinctSegmentsBuild(selected, ByRank(t.items));
      }
      ProjectUnfolds(t, algorithm, budget);
    }
  }

  lemma ProjectUnfolds(t: Trace, algorithm: Algorithm, budget: int)
    requires MIN_BUDGET <= budget <= MAX_BUDGET
    ensures var selected := TraceSelection(t, algorithm, budget);
            Project(t, algorithm, budget).Ok? <==>
              && BuildSegments(selected).Ok?
              && Accepted(Assemble(t, algorithm, budget, Candidates(ByRank(t.items)), Document(Contents(selected)),
                                   BuildSegments(selected).value))
  {
  }

  lemma SameDistinctness(a: seq<Source>, b: seq<Source>)
    requires multiset(a) == multiset(b)
    ensures |a| == |b| && (DistinctRevisions(a) <==> DistinctRevisions(b))
  {
    SameLength(a, b);
    if DistinctRevisions(a) {
      DistinctByMultiset(a, b);
    }
    if DistinctRevisions(b) {
      DistinctByMultiset(b, a);
    }
  }

  lemma AssembledIsAccepted(t: Trace, algorithm: Algorithm, budget: int, segments: seq<Segment>)
    requires MIN_BUDGET <= budget <= MAX_BUDGET
    requires var selected := TraceSelection(t, algorithm, budget);
             && Contents(segments) == Contents(selected)
             && multiset(AllSources(segments)) == multiset(AllSources(selected))
    ensures var selected, raw := TraceSelection(t, algorithm, budget), Candidates(ByRank(t.items));
            Accepted(Assemble(t, algorithm, budget, raw, Document(Contents(selected)), segments))
            <==> t.policyVersion >= 1 && t.knownAt <= t.createdAt && DistinctRevisions(AllSources(selected))
  {
    hide *;
    var selected, raw := TraceSelection(t, algorithm, budget), Candidates(ByRank(t.items));
    SelectionBounds(t, algorithm, budget);
    SameDistinctness(AllSources(segments), AllSources(selected));
    AssembledFields(t, algorithm, budget, raw, Document(Contents(selected)), segments);
    AcceptedExactly(Assemble(t, algorithm, budget, raw, Document(Contents(selected)), segments));
  }

  lemma AssembledFields(t: Trace, algorithm: Algorithm, budget: int, raw: seq<Segment>, content: string,
                        segments: seq<Segment>)
    ensures var p := Assemble(t, algorithm, budget, raw, content, segments);
            && p.policyVersion == t.policyVersion && p.budget == budget && p.segments == segments
            && p.knownAt == t.knownAt && p.traceCreatedAt == t.createdAt && p.content == content
            && p.sourceItemCount == |t.items| && p.omittedItemCount == |t.items| - |AllSources(segments)|
            && p.originalCharacterCount == |Document(Contents(raw))|
  {
  }

  lemma AcceptedExactly(p: Projection)
    requires MIN_BUDGET <= p.budget <= MAX_BUDGET && |p.content| <= p.budget
    requires p.sourceItemCount >= 0 && p.omittedItemCount >= 0 && |p.content| <= p.originalCharacterCount
    requires p.content == Document(Contents(p.segments))
    requires |AllSources(p.segments)| + p.omittedItemCount == p.sourceItemCount
    ensures Accepted(p)
            <==> p.policyVersion >= 1 && p.knownAt <= p.traceCreatedAt && DistinctRevisions(AllSources(p.segments))
  {
  }

  lemma SameLength(a: seq<Source>, b: seq<Source>)
    requires multiset(a) == multiset(b)
    ensures |a| == |b|
  {
    assert |multiset(a)| == |multiset(b)|;
  }

  /** Every trace with distinct revisions projects, and everything it cites comes from the trace. */
  lemma DistinctTracesProject(t: Trace, algorithm: Algorithm, budget: int)
    requires MIN_BUDGET <= budget <= MAX_BUDGET && t.policyVersion >= 1 && t.knownAt <= t.createdAt
    requires DistinctItems(t.items)
    ensures Project(t, algorithm, budget).Ok?
  {
    SelectionBounds(t, algorithm, budget);
    ItemSources(t.items);
    DistinctByMultiset(AllSources(Candidates(t.items)), AllSources(TraceSelection(t, algorithm, budget)));
    ProjectSucceedsExactly(t, algorithm, budget);
  }

  /** When everything fits, everything is selected. */
  lemma {:induction false} AllSelected(ss: seq<Segment>, budget: int)
    requires Fits(ss, budget)
    ensures Selected(ss, budget) == ss
    decreases |ss|
  {
    if ss != [] {
      var n := |ss| - 1;
      assert ss == ss[..n] + [ss[n]] && ss[..n] + [ss[n]] + [] == ss && ss[..n] + [] == ss[..n];
      LongerDocument(ss[..n], [ss[n]], [], budget);
      AllSelected(ss[..n], budget);
      GreedyPrefix(ss, budget, n);
    }
  }

  /** With room for all of it, a trace projects exactly when it lists each revision once. */
  lemma RoomyTracesProjectExactly(t: Trace, algorithm: Algorithm, budget: int)
    requires MIN_BUDGET <= budget <= MAX_BUDGET && t.policyVersion >= 1 && t.knownAt <= t.createdAt
    requires Fits(TraceCandidates(t, algorithm), budget)
    ensures Project(t, algorithm, budget).Ok? <==> DistinctItems(t.items)
  {
    hide *;
    AllSelected(TraceCandidates(t, algorithm), budget);
    SelectionIsTheSelected(t, algorithm, budget);
    AppliedIsLess(Candidates(ByRank(t.items)), algorithm);
    SortingKeepsSources(t.items);
    SameDistinctness(AllSources(TraceSelection(t, algorithm, budget)), AllSources(Candidates(t.items)));
    DistinctSources(t.items);
    ProjectSucceedsExactly(t, algorithm, budget);
  }

  lemma SelectionIsTheSelected(t: Trace, algorithm: Algorithm, budget: int)
    ensures TraceSelection(t, algorithm, budget) == Selected(TraceCandidates(t, algorithm), budget)
    ensures TraceCandidates(t, algorithm) == Applied(Candidates(ByRank(t.items)), algorithm)
  {
  }

  lemma DistinctSources(items: seq<RecalledItem>)
    ensures DistinctRevisions(AllSources(Candidates(items))) <==> DistinctItems(items)
  {
    ItemSources(items);
    var sources := AllSources(Candidates(items));
    assert forall i | 0 <= i < |items| :: sources[i].revisionId == items[i].revisionId;
  }

  const NO_SCORE := ScoreBreakdown(0.0, 0.0, 0.0, 0.0, 0.0, 0.0, None)

  /** A trace that lists one revision twice. */
  const TWICE := Trace(
    1, Scope("tenant", "subject"), "drink", Context([]), 2, 1,
    [RecalledItem(3, 4, "drink", "tea", Context([]), 0, 0, 1, 0.0, NO_SCORE, []),
     RecalledItem(3, 4, "drink", "tea", Context([]), 0, 0, 2, 0.0, NO_SCORE, [])], 0, 0, 0)

  /** The trace constructor accepts it; the compressor refuses it. */
  lemma RepeatedRevisionIsRefused()
    ensures TraceAccepted(TWICE) && Project(TWICE, RankedExtractive, MAX_BUDGET) == Err(DomainError)
  {
    TwiceFits();
    RoomyTracesProjectExactly(TWICE, RankedExtractive, MAX_BUDGET);
    RefusalsAreDomainErrors(TWICE, RankedExtractive, MAX_BUDGET);
    assert TWICE.items[0].revisionId == TWICE.items[1].revisionId;
  }

  lemma TwiceFits()
    ensures Fits(TraceCandidates(TWICE, RankedExtractive), MAX_BUDGET)
  {
    hide Render, Json.Print;
    var a, b := TWICE.items[0], TWICE.items[1];
    assert ByRank([b]) == [b] && ByRank([a, b]) == [a, b] && TWICE.items == [a, b];
    TeaLength(a);
    TeaLength(b);
    TwoContents(Candidate(a), Candidate(b));
    assert Candidates([a, b]) == [Candidate(a), Candidate(b)];
  }

  lemma TwoContents(s: Segment, t: Segment)
    ensures |Document(Contents([s, t]))| == 16 + |s.content| + |t.content|
  {
    var cs := Contents([s, t]);
    DocumentLength(cs);
    assert cs[1..] == [t.content] && cs[0] == s.content;
  }

  lemma TeaLength(i: RecalledItem)
    requires i.key == "drink" && i.value == "tea" && i.context == Context([])
    ensures |Render(i)| < 100
  {
    hide Json.Print, Json.Quote;
    var a, b, c := Json.Member("context", Json.Obj([])), Json.Member("key", Json.Str("drink")),
                   Json.Member("value", Json.Str("tea"));
    var ms := ItemValue(i.context, i.key, i.value).members;
    assert |ms| == 3 && ms[1] == b && ms[2] == c;
    assert ms[0].key == "context" && ms[0].value.Obj? && ms[0].value.members == [];
    assert ms == [a, b, c];
    ThreeMembers(a, b, c);
    PlainQuote("context");
    PlainQuote("key");
    PlainQuote("drink");
    PlainQuote("value");
    PlainQuote("tea");
    EmptyObject();
  }

  lemma EmptyObject()
    ensures Json.Print(Json.Obj([])) == "{}"
  {
    assert "{" + "" + "}" == "{}";
  }

  lemma PlainQuote(s: string)
    requires forall i | 0 <= i < |s| :: 'a' <= s[i] <= 'z'
    ensures |Json.Quote(s)| == |s| + 2 && Json.Print(Json.Str(s)) == Json.Quote(s)
  {
    PlainText(s);
  }

  function MemberLength(m: Json.Member): int {
    |Json.Quote(m.key)| + 1 + |Json.Print(m.value)|
  }

  lemma ThreeMembers(a: Json.Member, b: Json.Member, c: Json.Member)
    ensures |Json.Print(Json.Obj([a, b, c]))| == 4 + MemberLength(a) + MemberLength(b) + MemberLength(c)
  {
    hide Json.Quote;
    assert |Json.PrintMembers([c])| == MemberLength(c);
    assert [b, c][1..] == [c];
    assert |Json.PrintMembers([b, c])| == MemberLength(b) + 1 + |Json.PrintMembers([c])|;
    assert [a, b, c][1..] == [b, c];
    assert |Json.PrintMembers([a, b, c])| == MemberLength(a) + 1 + |Json.PrintMembers([b, c])|;
  }

  /** The compressor and the constructors behind it raise one error. */
  lemma RefusalsAreDomainErrors(t: Trace, algorithm: Algorithm, budget: int)
    ensures Project(t, algorithm, budget).Err? ==> Project(t, algorithm, budget) == Err(DomainError)
  {
    if MIN_BUDGET <= budget <= MAX_BUDGET {
      BuildingFails(TraceSelection(t, algorithm, budget));
    }
  }

  lemma {:induction false} BuildingFails(ss: seq<Segment>)
    ensures BuildSegments(ss).Err? ==> BuildSegments(ss) == Err(DomainError)
    decreases |ss|
  {
    if ss != [] {
      BuildingFails(ss[..|ss| - 1]);
    }
  }

  lemma SourcesComeFrom(built: seq<Source>, items: seq<RecalledItem>)
    requires multiset(built) <= multiset(AllSources(Candidates(items)))
    ensures forall i | 0 <= i < |built| :: built[i].revisionId in RevisionIds(items)
  {
    ItemSources(items);
    var origin := AllSources(Candidates(items));
    forall i | 0 <= i < |built| ensures built[i].revisionId in RevisionIds(items) {
      assert built[i] in multiset(built) && built[i] in multiset(origin);
      var j :| 0 <= j < |origin| && origin[j] == built[i];
      assert items[j].revisionId == built[i].revisionId;
    }
  }

  /** A projection cites only revisions of its trace. */
  lemma ProjectionCitesTrace(t: Trace, algorithm: Algorithm, budget: int)
    requires Project(t, algorithm, budget).Ok?
    ensures Project(t, algorithm, budget).value.SourceRevisionIds() <= RevisionIds(t.items)
  {
    var p, selected := Project(t, algorithm, budget).value, TraceSelection(t, algorithm, budget);
    SelectionBounds(t, algorithm, budget);
    BuildingKeeps(selected, ByRank(t.items));
    SourcesComeFrom(AllSources(p.segments), t.items);
  }
}
