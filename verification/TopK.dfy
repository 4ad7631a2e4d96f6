/** Recall returns the true top results: exactly the best admitted memories in order, whatever the weights. */
module TopK {
  import opened Common
  import opened Beliefs
  import opened MemoryTables
  import opened AsOf
  import opened Recall
  import T = Traces
  import P = Projections
  import R = Registry
  import W = Weights
  import Sorting

  // ---------------------------------------------------------------- what is scored

  /** The loop keeps exactly the admitted entries, in order and one for each snapshot. */
  lemma {:induction false} ScoredExactly(env: Env, t: Tables, policy: R.Strategy, q: Query, snapshots: seq<Snapshot>)
    requires Scored(env, t, policy, q, snapshots).Ok?
    ensures var es := Scored(env, t, policy, q, snapshots).value;
            forall e :: e in es <==>
              exists i :: 0 <= i < |snapshots| && e == EntryFor(env, t, policy, q, snapshots[i])
                  && Admitted(e, q, policy.minScore)
    decreases |snapshots|
  {
    hide EntryFor, Admitted, T.BreakdownAccepted;
    if snapshots != [] {
      var n := |snapshots| - 1;
      var init := snapshots[..n];
      ScoredExactly(env, t, policy, q, init);
      var es, before := Scored(env, t, policy, q, snapshots).value, Scored(env, t, policy, q, init).value;
      var last := EntryFor(env, t, policy, q, snapshots[n]);
      forall e
        ensures e in es <==>
                exists i :: 0 <= i < |snapshots| && e == EntryFor(env, t, policy, q, snapshots[i])
                    && Admitted(e, q, policy.minScore)
      {
        assert e in es <==> e in before || (e == last && Admitted(e, q, policy.minScore));
        if i :| 0 <= i < |init| && e == EntryFor(env, t, policy, q, init[i]) {
          assert snapshots[i] == init[i];
        }
      }
    }
  }

  ghost predicate OnePerRecord(es: seq<Entry>) {
    forall i, j | 0 <= i < j < |es| :: es[i].snapshot.record.id != es[j].snapshot.record.id
  }

  lemma {:induction false} ScoredOnePerRecord(env: Env, t: Tables, policy: R.Strategy, q: Query,
                                              snapshots: seq<Snapshot>)
    requires Scored(env, t, policy, q, snapshots).Ok?
    requires forall i, j | 0 <= i < j < |snapshots| :: snapshots[i].record.id != snapshots[j].record.id
    ensures OnePerRecord(Scored(env, t, policy, q, snapshots).value)
    decreases |snapshots|
  {
    if snapshots != [] {
      var n := |snapshots| - 1;
      var init := snapshots[..n];
      ScoredOnePerRecord(env, t, policy, q, init);
      ScoredExactly(env, t, policy, q, init);
      var before := Scored(env, t, policy, q, init).value;
      forall i | 0 <= i < |before| ensures before[i].snapshot.record.id != snapshots[n].record.id {
        assert before[i] in before;
        var k :| 0 <= k < |init| && before[i] == EntryFor(env, t, policy, q, init[k]);
      }
    }
  }

  /** Scoring refuses nothing when every breakdown is admissible. */
  lemma {:induction false} ScoringSucceeds(env: Env, t: Tables, policy: R.Strategy, q: Query, snapshots: seq<Snapshot>)
    requires forall i | 0 <= i < |snapshots| :: T.BreakdownAccepted(BreakdownFor(env, t, policy, q, snapshots[i]))
    ensures Scored(env, t, policy, q, snapshots).Ok?
    decreases |snapshots|
  {
    if snapshots != [] {
      ScoringSucceeds(env, t, policy, q, snapshots[..|snapshots| - 1]);
    }
  }

  // ---------------------------------------------------------------- scores stay in [0, 1]

  lemma SmallerIntersection<T>(a: set<T>, b: set<T>)
    ensures |a * b| <= |a + b|
  {
    SubsetIsSmaller(a * b, a + b);
  }

  lemma SubsetIsSmaller<T>(a: set<T>, b: set<T>)
    requires a <= b
    ensures |a| <= |b|
  {
    assert b == a + (b - a);
  }

  lemma JaccardInUnit<T>(a: set<T>, b: set<T>)
    ensures InUnit(Jaccard(a, b))
  {
    SmallerIntersection(a, b);
    if a + b != {} {
      var part, whole := |a * b| as real, |a + b| as real;
      RatioInUnit(part, whole - part);
    }
  }

  lemma SimilarityInUnit(stored: Context, requested: Context)
    ensures InUnit(Similarity(stored, requested))
  {
    JaccardInUnit(Facets(stored), Facets(requested));
  }

  /** Contexts as the constructor leaves them: no key twice. */
  ghost predicate UniqueKeys(c: Context) {
    forall f, g | f in Facets(c) && g in Facets(c) && f.0 == g.0 :: f == g
  }

  /** Between contexts that both say something, similarity is symmetric; it is full exactly for the same facets, and
      nothing for contexts that share no facet or contradict each other on three keys. */
  lemma SimilarityMeaning(a: Context, b: Context)
    requires UniqueKeys(a) && a.facets != [] && b.facets != []
    ensures Similarity(a, b) == Similarity(b, a)
    ensures Similarity(a, b) == 1.0 <==> Facets(a) == Facets(b)
    ensures Facets(a) * Facets(b) == {} || |Conflicts(a, b)| >= 3 ==> Similarity(a, b) == 0.0
  {
    hide Jaccard, Facets, Conflicts;
    SaysSomething(a);
    ConflictsAreMutual(a, b);
    JaccardIsSymmetric(Facets(a), Facets(b));
    JaccardInUnit(Facets(a), Facets(b));
    if Facets(a) == Facets(b) {
      NoConflictWithItself(a, b);
      JaccardOfEqual(Facets(a));
    } else if Jaccard(Facets(a), Facets(b)) == 1.0 {
      FullJaccard(Facets(a), Facets(b));
    }
    if Facets(a) * Facets(b) == {} {
      JaccardOfDisjoint(Facets(a), Facets(b));
    }
  }

  lemma SaysSomething(a: Context)
    requires a.facets != []
    ensures Facets(a) != {}
  {
    assert a.facets[0] in Facets(a);
  }

  lemma ConflictsAreMutual(a: Context, b: Context)
    ensures Conflicts(a, b) == Conflicts(b, a)
  {
    hide Facets;
    forall key | key in Conflicts(a, b) ensures key in Conflicts(b, a) {
      var f, g :| f in Facets(a) && g in Facets(b) && f.0 == g.0 && f.1 != g.1 && f.0 == key;
      assert g.0 == key;
    }
    forall key | key in Conflicts(b, a) ensures key in Conflicts(a, b) {
      var f, g :| f in Facets(b) && g in Facets(a) && f.0 == g.0 && f.1 != g.1 && f.0 == key;
      assert g.0 == key;
    }
  }

  lemma NoConflictWithItself(a: Context, b: Context)
    requires UniqueKeys(a) && Facets(a) == Facets(b)
    ensures Conflicts(a, b) == {}
  {
    hide Facets;
  }

  lemma JaccardIsSymmetric<T>(s: set<T>, t: set<T>)
    ensures Jaccard(s, t) == Jaccard(t, s)
  {
    assert s * t == t * s && s + t == t + s;
  }

  lemma JaccardOfEqual<T>(s: set<T>)
    requires s != {}
    ensures Jaccard(s, s) == 1.0
  {
    assert s * s == s && s + s == s;
    var n := |s| as real;
    assert n / n == 1.0;
  }

  lemma JaccardOfDisjoint<T>(s: set<T>, t: set<T>)
    requires s * t == {}
    ensures Jaccard(s, t) == 0.0
  {
  }

  lemma FullJaccard<T>(s: set<T>, t: set<T>)
    requires Jaccard(s, t) == 1.0
    ensures s == t
  {
    var part, whole := |s * t| as real, |s + t| as real;
    assert part / whole == 1.0 && part == whole;
    SameSize(s * t, s + t);
    assert forall x | x in s + t :: x in s * t;
  }

  lemma SameSize<T>(a: set<T>, b: set<T>)
    requires a <= b && |a| == |b|
    ensures a == b
  {
    assert b == a + (b - a) && |b| == |a| + |b - a|;
  }

  /** The query's hits and the environment's decay are in [0, 1], as their sources promise. */
  ghost predicate InputsOk(env: Env, hits: map<Id, real>) {
    && (forall age: int, life: real :: InUnit(env.decay(age, life)))
    && (forall id | id in hits :: InUnit(hits[id]))
  }

  lemma BreakdownIsAccepted(env: Env, t: Tables, policy: R.Strategy, q: Query, s: Snapshot)
    requires InputsOk(env, q.hits) && InUnit(s.revision.belief.confidence)
    ensures T.BreakdownAccepted(BreakdownFor(env, t, policy, q, s))
  {
    SimilarityInUnit(s.record.context, q.command.context);
    JaccardInUnit(env.tokens(q.command.query), env.tokens(s.record.key + " " + s.revision.value));
  }

  lemma Weighted(x: real, w: real)
    requires InUnit(x) && w >= 0.0
    ensures x * w >= 0.0
  {
  }

  lemma ScoreInUnit(b: T.ScoreBreakdown, w: W.RetrievalWeights)
    requires T.BreakdownAccepted(b) && w.Valid()
    ensures InUnit(WeightedScore(b, w))
  {
    Weighted(b.semantic, w.semantic);
    Weighted(b.context, w.context);
    Weighted(b.belief, w.belief);
    Weighted(b.utility, w.utility);
    Weighted(b.recency, w.recency);
  }

  lemma Product(x: real, w: real, low: real)
    requires w >= 0.0 && low <= x
    ensures low * w <= x * w
  {
  }

  lemma Shares(x: real, a: real, b: real, c: real, d: real, e: real)
    requires a + b + c + d + e == 1.0
    ensures x * a + x * b + x * c + x * d + x * e == x
  {
    assert x * a + x * b + x * c + x * d + x * e == x * (a + b + c + d + e);
  }

  lemma Termwise(a1: real, a2: real, a3: real, a4: real, a5: real, b1: real, b2: real, b3: real, b4: real, b5: real)
    requires a1 <= b1 && a2 <= b2 && a3 <= b3 && a4 <= b4 && a5 <= b5
    ensures a1 + a2 + a3 + a4 + a5 <= b1 + b2 + b3 + b4 + b5
  {
  }

  lemma MeanIsAtLeast(x1: real, x2: real, x3: real, x4: real, x5: real, a: real, b: real, c: real, d: real, e: real,
                      low: real)
    requires a >= 0.0 && b >= 0.0 && c >= 0.0 && d >= 0.0 && e >= 0.0 && a + b + c + d + e == 1.0
    requires low <= x1 && low <= x2 && low <= x3 && low <= x4 && low <= x5
    ensures low <= x1 * a + x2 * b + x3 * c + x4 * d + x5 * e
  {
    Product(x1, a, low);
    Product(x2, b, low);
    Product(x3, c, low);
    Product(x4, d, low);
    Product(x5, e, low);
    Termwise(low * a, low * b, low * c, low * d, low * e, x1 * a, x2 * b, x3 * c, x4 * d, x5 * e);
    Shares(low, a, b, c, d, e);
  }

  /** The score lies between the weakest and the strongest signal when the weights sum to one. */
  lemma ScoreIsAnAverage(b: T.ScoreBreakdown, w: W.RetrievalWeights, low: real, high: real)
    requires w.Valid() && w.Total() == 1.0 && high <= 1.0
    requires low <= b.semantic <= high && low <= b.context <= high && low <= b.belief <= high
    requires low <= b.utility <= high && low <= b.recency <= high
    ensures low <= WeightedScore(b, w) <= high
  {
    MeanIsAtLeast(b.semantic, b.context, b.belief, b.utility, b.recency,
                  w.semantic, w.context, w.belief, w.utility, w.recency, low);
    MeanIsAtLeast(-b.semantic, -b.context, -b.belief, -b.utility, -b.recency,
                  w.semantic, w.context, w.belief, w.utility, w.recency, -high);
  }

  lemma SumsAreOrdered(x1: real, x2: real, x3: real, x4: real, x5: real, y1: real, y2: real, y3: real, y4: real,
                       y5: real, a: real, b: real, c: real, d: real, e: real)
    requires x1 <= y1 && x2 <= y2 && x3 <= y3 && x4 <= y4 && x5 <= y5
    requires a >= 0.0 && b >= 0.0 && c >= 0.0 && d >= 0.0 && e >= 0.0
    ensures x1 * a + x2 * b + x3 * c + x4 * d + x5 * e <= y1 * a + y2 * b + y3 * c + y4 * d + y5 * e
  {
    assert x1 * a <= y1 * a by {
      Product(y1, a, x1);
    }
    assert x2 * b <= y2 * b by {
      Product(y2, b, x2);
    }
    assert x3 * c <= y3 * c by {
      Product(y3, c, x3);
    }
    assert x4 * d <= y4 * d by {
      Product(y4, d, x4);
    }
    assert x5 * e <= y5 * e by {
      Product(y5, e, x5);
    }
    Termwise(x1 * a, x2 * b, x3 * c, x4 * d, x5 * e, y1 * a, y2 * b, y3 * c, y4 * d, y5 * e);
  }

  /** Stronger signals never score lower, whatever the weights. */
  lemma StrongerSignalsScoreHigher(b: T.ScoreBreakdown, c: T.ScoreBreakdown, w: W.RetrievalWeights)
    requires w.Valid()
    requires b.semantic <= c.semantic && b.context <= c.context && b.belief <= c.belief
    requires b.utility <= c.utility && b.recency <= c.recency
    ensures WeightedScore(b, w) <= WeightedScore(c, w)
  {
    SumsAreOrdered(b.semantic, b.context, b.belief, b.utility, b.recency,
                   c.semantic, c.context, c.belief, c.utility, c.recency,
                   w.semantic, w.context, w.belief, w.utility, w.recency);
  }

  // ---------------------------------------------------------------- the best ones

  lemma OutranksIsPreorder()
    ensures Sorting.Preorder(Outranks)
  {
  }

  /** What a recall should choose from: the memories in force that are relevant and strong enough. */
  ghost predicate Qualifies(env: Env, t: Tables, policy: R.Strategy, q: Query, e: Entry) {
    var snapshots := MemoriesAsOf(env.fingerprint, t.memory, q.command.scope, q.validAt, q.knownAt);
    exists i :: 0 <= i < |snapshots| && e == EntryFor(env, t, policy, q, snapshots[i])
        && Admitted(e, q, policy.minScore)
  }

  lemma EntriesExactly(env: Env, t: Tables, policy: R.Strategy, q: Query)
    requires Entries(env, t, policy, q).Ok?
    ensures forall e :: e in Entries(env, t, policy, q).value <==> Qualifies(env, t, policy, q, e)
  {
    ScoredExactly(env, t, policy, q, MemoriesAsOf(env.fingerprint, t.memory, q.command.scope, q.validAt, q.knownAt));
  }

  /** The items are the best of the entries, ranked from 1. */
  ghost predicate AreTop(items: seq<T.RecalledItem>, all: seq<Entry>, limit: int) {
    exists best :: Sorting.AreFirst(best, all, limit, Outranks) && items == ItemsOf(best)
  }

  /** The true top results: the items are the first `limit` of exactly the entries that qualify, one per record, by
      score, then
      recording time, then identifier, all descending. */
  lemma RecallReturnsTheBest(env: Env, t: Tables, id: Id, c: RecallMemory, policy: R.Strategy, hits: map<Id, real>,
                             now: Time)
    requires Keyed(t.memory) && RecallTrace(env, t, id, c, policy, hits, now).Ok?
    ensures var q, items := Resolved(c, hits, now), RecallTrace(env, t, id, c, policy, hits, now).value.items;
            exists all :: OnePerRecord(all) && (forall e :: e in all <==> Qualifies(env, t, policy, q, e))
                          && AreTop(items, all, c.limit)
  {
    var q := Resolved(c, hits, now);
    OneSnapshotEach(env.fingerprint, t.memory, c.scope, q.validAt, q.knownAt);
    ScoredOnePerRecord(env, t, policy, q, MemoriesAsOf(env.fingerprint, t.memory, c.scope, q.validAt, q.knownAt));
    EntriesExactly(env, t, policy, q);
    OutranksIsPreorder();
    Sorting.FirstSortedAreFirst(Entries(env, t, policy, q).value, c.limit, Outranks);
    assert AreTop(RecallTrace(env, t, id, c, policy, hits, now).value.items, Entries(env, t, policy, q).value, c.limit);
  }

  lemma EachItemQualifies(env: Env, t: Tables, policy: R.Strategy, q: Query, all: seq<Entry>,
                          items: seq<T.RecalledItem>, limit: int, i: int)
    requires (forall e :: e in all <==> Qualifies(env, t, policy, q, e)) && AreTop(items, all, limit)
             && 0 <= i < |items|
    ensures exists e :: Qualifies(env, t, policy, q, e) && items[i] == ItemOf(e, i + 1)
  {
    var best :| Sorting.AreFirst(best, all, limit, Outranks) && items == ItemsOf(best);
    Sorting.FirstAreAmongAll(best, all, limit, Outranks, i);
    assert Qualifies(env, t, policy, q, best[i]);
  }

  ghost predicate AdmittedAt(items: seq<T.RecalledItem>, i: int, c: RecallMemory, policy: R.Strategy)
    requires 0 <= i < |items|
  {
    && items[i].rank == i + 1 && policy.minScore <= items[i].score <= 1.0
    && Relevant(items[i].breakdown.semantic, items[i].context, c.context, items[i].breakdown.context)
  }

  /** The best entries are of different records, and so are their items. */
  lemma TopItemsAreDistinct(items: seq<T.RecalledItem>, all: seq<Entry>, limit: int)
    requires OnePerRecord(all) && AreTop(items, all, limit)
    ensures forall i, j | 0 <= i < j < |items| :: items[i].recordId != items[j].recordId
  {
    hide Sorting.AreFirst, Outranks;
    var best :| Sorting.AreFirst(best, all, limit, Outranks) && items == ItemsOf(best);
    Sorting.FirstStayDistinct(best, all, limit, Outranks);
    forall i, j | 0 <= i < j < |items| ensures items[i].recordId != items[j].recordId {
      assert best[i] in all && best[j] in all && best[i] != best[j];
    }
  }

  /** Every item is ranked by its position, scores at least the minimum and at most 1, and is relevant: no weights
      admit an item below the relevance floor. */
  lemma ItemsAreAdmitted(env: Env, t: Tables, id: Id, c: RecallMemory, policy: R.Strategy, hits: map<Id, real>,
                         now: Time, i: int)
    requires Keyed(t.memory) && RecallTrace(env, t, id, c, policy, hits, now).Ok?
    requires 0 <= i < |RecallTrace(env, t, id, c, policy, hits, now).value.items|
    ensures AdmittedAt(RecallTrace(env, t, id, c, policy, hits, now).value.items, i, c, policy)
  {
    var q, items := Resolved(c, hits, now), RecallTrace(env, t, id, c, policy, hits, now).value.items;
    RecallReturnsTheBest(env, t, id, c, policy, hits, now);
    var all :| (forall e :: e in all <==> Qualifies(env, t, policy, q, e)) && AreTop(items, all, c.limit);
    EachItemQualifies(env, t, policy, q, all, items, c.limit, i);
    assert items[i] in items;
  }

  lemma EntriesSucceed(env: Env, t: Tables, policy: R.Strategy, q: Query)
    requires InputsOk(env, q.hits)
    requires forall r | r in t.memory.revisions :: InUnit(t.memory.revisions[r].belief.confidence)
    ensures Entries(env, t, policy, q).Ok?
  {
    var snapshots := MemoriesAsOf(env.fingerprint, t.memory, q.command.scope, q.validAt, q.knownAt);
    SnapshotsAreEligible(env, t, q);
    forall i | 0 <= i < |snapshots| ensures T.BreakdownAccepted(BreakdownFor(env, t, policy, q, snapshots[i])) {
      BreakdownIsAccepted(env, t, policy, q, snapshots[i]);
    }
    ScoringSucceeds(env, t, policy, q, snapshots);
  }

  lemma EntryIsAccepted(env: Env, t: Tables, policy: R.Strategy, q: Query, e: Entry, rank: int)
    requires InputsOk(env, q.hits) && policy.Accepted() && rank >= 1
    requires forall r | r in t.memory.revisions :: InUnit(t.memory.revisions[r].belief.confidence)
    requires Qualifies(env, t, policy, q, e)
    ensures var item := ItemOf(e, rank);
            T.ItemAccepted(item) && item.validFrom <= q.validAt && item.recordedAt <= q.knownAt
  {
    var snapshots := MemoriesAsOf(env.fingerprint, t.memory, q.command.scope, q.validAt, q.knownAt);
    var k :| 0 <= k < |snapshots| && e == EntryFor(env, t, policy, q, snapshots[k]);
    SnapshotsAreEligible(env, t, q);
    BreakdownIsAccepted(env, t, policy, q, snapshots[k]);
    ScoreInUnit(e.breakdown, policy.weights);
  }

  lemma ItemsAreAccepted(env: Env, t: Tables, policy: R.Strategy, q: Query, all: seq<Entry>, limit: int)
    requires InputsOk(env, q.hits) && policy.Accepted() && limit >= 0
    requires forall r | r in t.memory.revisions :: InUnit(t.memory.revisions[r].belief.confidence)
    requires forall e | e in all :: Qualifies(env, t, policy, q, e)
    ensures forall item | item in ItemsOf(Sorting.FirstSorted(all, limit, Outranks)) ::
              T.ItemAccepted(item) && item.validFrom <= q.validAt && item.recordedAt <= q.knownAt
  {
    var best := Sorting.FirstSorted(all, limit, Outranks);
    OutranksIsPreorder();
    Sorting.FirstSortedAreFirst(all, limit, Outranks);
    forall item | item in ItemsOf(best)
      ensures T.ItemAccepted(item) && item.validFrom <= q.validAt && item.recordedAt <= q.knownAt
    {
      var i :| 0 <= i < |best| && ItemsOf(best)[i] == item;
      Sorting.FirstAreAmongAll(best, all, limit, Outranks, i);
      EntryIsAccepted(env, t, policy, q, best[i], i + 1);
    }
  }

  /** When the inputs are sound, a recall is refused only for its limit, a blank query or a future `known_at`: the
      trace constructor accepts whatever the recall computes. */
  lemma RecallSucceedsExactly(env: Env, t: Tables, id: Id, c: RecallMemory, policy: R.Strategy, hits: map<Id, real>,
                              now: Time)
    requires InputsOk(env, hits) && policy.Accepted()
    requires forall r | r in t.memory.revisions :: InUnit(t.memory.revisions[r].belief.confidence)
    ensures RecallTrace(env, t, id, c, policy, hits, now).Ok? <==>
              1 <= c.limit <= 100 && P.Strip(c.query) != "" && (c.knownAt.Some? ==> c.knownAt.value <= now)
  {
    hide Entries, InputsOk, Outranks;
    if 1 <= c.limit <= 100 && P.Strip(c.query) != "" {
      var q := Resolved(c, hits, now);
      EntriesSucceed(env, t, policy, q);
      EntriesExactly(env, t, policy, q);
      ItemsAreAccepted(env, t, policy, q, Entries(env, t, policy, q).value, c.limit);
    }
  }

  lemma SnapshotsAreEligible(env: Env, t: Tables, q: Query)
    ensures var snapshots := MemoriesAsOf(env.fingerprint, t.memory, q.command.scope, q.validAt, q.knownAt);
            forall i | 0 <= i < |snapshots| ::
              var r := snapshots[i].revision;
              r.validFrom <= q.validAt && r.recordedAt <= q.knownAt && exists id ::
                    id in t.memory.revisions
                    && t.memory.revisions[id] == r
  {
    var ids := VisibleInOrder(env.fingerprint, t.memory, q.command.scope, q.validAt, q.knownAt);
    forall i | 0 <= i < |ids|
      ensures var s := SnapshotAsOf(t.memory, ids[i], q.validAt, q.knownAt);
              s.Some? && s.value.revision.validFrom <= q.validAt && s.value.revision.recordedAt <= q.knownAt
              && exists id :: id in t.memory.revisions && t.memory.revisions[id] == s.value.revision
    {
      assert ids[i] in ids;
      BestIsBest(t.memory, t.memory.chains[ids[i]], q.validAt, q.knownAt);
    }
  }
}
