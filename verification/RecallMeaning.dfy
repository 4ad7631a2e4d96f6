/** What a recall returns, written out: what every signal, score and field of an item is, which memories are listed and
    in what order, and which are left out. */
module RecallMeaning {
  import opened Common
  import opened MemoryTables
  import opened AsOf
  import opened Recall
  import opened Service
  import opened MemoryInvariant
  import opened ExperienceInvariant
  import opened ScopeErasure
  import opened ChainReads
  import opened MemoryRuns
  import TopK
  import T = Traces
  import P = Projections
  import R = Registry
  import W = Weights
  import Sorting

  // ---------------------------------------------------------------- text

  /** `a` comes strictly before `b` in text order: it is a proper beginning of it, or smaller where they first differ.
      */
  ghost predicate Precedes(a: string, b: string) {
    a < b || exists k :: 0 <= k < |a| && k < |b| && a[..k] == b[..k] && a[k] < b[k]
  }

  lemma {:induction false} TextOrder(a: string, b: string)
    ensures LexLe(a, b) <==> a == b || Precedes(a, b)
    decreases |a|
  {
    hide Precedes;
    if a != "" && b != "" && a[0] == b[0] {
      TextOrder(a[1..], b[1..]);
      SameStart(a, b);
      assert a == [a[0]] + a[1..] && b == [b[0]] + b[1..];
    } else {
      OtherStart(a, b);
    }
  }

  lemma SameStart(a: string, b: string)
    requires a != "" && b != "" && a[0] == b[0]
    ensures Precedes(a, b) <==> Precedes(a[1..], b[1..])
  {
    if k :| 0 <= k < |a[1..]| && k < |b[1..]| && a[1..][..k] == b[1..][..k] && a[1..][k] < b[1..][k] {
      assert a[..k + 1] == [a[0]] + a[1..][..k] && b[..k + 1] == [b[0]] + b[1..][..k];
      assert a[k + 1] < b[k + 1];
    }
    if k :| 0 <= k < |a| && k < |b| && a[..k] == b[..k] && a[k] < b[k] {
      assert a[1..][..k - 1] == a[..k][1..] && b[1..][..k - 1] == b[..k][1..];
      assert a[1..][k - 1] < b[1..][k - 1];
    }
  }

  lemma OtherStart(a: string, b: string)
    requires a == "" || b == "" || a[0] != b[0]
    ensures a == b || Precedes(a, b) <==> a == "" || (b != "" && a[0] < b[0])
  {
    if a != "" && b != "" && a[0] < b[0] {
      assert a[..0] == b[..0];
    }
  }

  /** Stripping takes white space off both ends and nothing else. */
  lemma {:induction false} StripTakesEnds(s: string) returns (front: string, back: string)
    ensures s == front + P.Strip(s) + back
    ensures forall i | 0 <= i < |front| :: P.IsSpace(front[i])
    ensures forall i | 0 <= i < |back| :: P.IsSpace(back[i])
    ensures P.Strip(s) != "" ==> !P.IsSpace(P.Strip(s)[0]) && !P.IsSpace(P.Strip(s)[|P.Strip(s)| - 1])
    decreases |s|
  {
    hide P.IsSpace;
    front, back := "", "";
    if s != "" && P.IsSpace(s[0]) {
      front, back := StripTakesEnds(s[1..]);
      front := [s[0]] + front;
    } else if s != "" && P.IsSpace(s[|s| - 1]) {
      front, back := StripTakesEnds(s[..|s| - 1]);
      back := back + [s[|s| - 1]];
    }
  }

  /** The characters that count as white space, by code point. */
  const WHITE_SPACE: set<int> := {
    0x9, 0xA, 0xB, 0xC, 0xD, 0x1C, 0x1D, 0x1E, 0x1F, 0x20, 0x85, 0xA0, 0x1680, 0x2000, 0x2001, 0x2002, 0x2003, 0x2004,
    0x2005, 0x2006, 0x2007, 0x2008, 0x2009, 0x200A, 0x2028, 0x2029, 0x202F, 0x205F, 0x3000}

  lemma WhiteSpaceIsThese(c: char)
    ensures P.IsSpace(c) <==> c as int in WHITE_SPACE
  {
  }

  // ---------------------------------------------------------------- similarity of contexts

  /** The similarity of a stored context to a requested one, in every case: nothing said on either side, 1; only the
      request says something, 0.8; only the memory does, 0.25; otherwise the share of common facets, less 0.35 for every
      key they set differently, and at least 0. */
  lemma SimilarityInNumbers(stored: Context, requested: Context, s: set<(string, string)>, r: set<(string, string)>,
                            clashes: set<string>)
    requires (forall f :: f in s <==> f in stored.facets) && (forall f :: f in r <==> f in requested.facets)
    requires forall key :: key in clashes <==> exists f, g :: f in s && g in r && f.0 == key == g.0 && f.1 != g.1
    ensures s == {} && r == {} ==> Similarity(stored, requested) == 1.0
    ensures s == {} && r != {} ==> Similarity(stored, requested) == 0.8
    ensures s != {} && r == {} ==> Similarity(stored, requested) == 0.25
    ensures s != {} && r != {} ==>
              && |s + r| > 0
              && var score := |s * r| as real / |s + r| as real - 0.35 * |clashes| as real;
              Similarity(stored, requested) == if score >= 0.0 then score else 0.0
  {
    assert Facets(stored) == s && Facets(requested) == r;
    assert stored.facets == [] <==> s == {} by {
      assert stored.facets != [] ==> stored.facets[0] in s;
    }
    assert requested.facets == [] <==> r == {} by {
      assert requested.facets != [] ==> requested.facets[0] in r;
    }
    if s != {} && r != {} {
      assert s + r != {};
      ClashesAreConflicts(stored, requested, s, r, clashes);
    }
  }

  lemma ClashesAreConflicts(stored: Context, requested: Context, s: set<(string, string)>, r: set<(string, string)>,
                            clashes: set<string>)
    requires Facets(stored) == s && Facets(requested) == r
    requires forall key :: key in clashes <==> exists f, g :: f in s && g in r && f.0 == key == g.0 && f.1 != g.1
    ensures Conflicts(stored, requested) == clashes
  {
    hide Facets;
    forall key ensures key in Conflicts(stored, requested) <==> key in clashes {
      if key in Conflicts(stored, requested) {
        var f, g :| f in s && g in r && f.0 == g.0 && f.1 != g.1 && f.0 == key;
        assert f.0 == key == g.0;
      }
      if key in clashes {
        var f, g :| f in s && g in r && f.0 == key == g.0 && f.1 != g.1;
        assert f.0 == key;
      }
    }
  }

  // ---------------------------------------------------------------- the read

  /** In force at a business time, as known at a system time. */
  ghost predicate InForce(v: Revision, validAt: Time, knownAt: Time) {
    v.validFrom <= validAt && v.recordedAt <= knownAt
  }

  /** The snapshot shows a record of the scope with its last revision in force. */
  ghost predicate ShowsLast(m: Memory, scope: Scope, validAt: Time, knownAt: Time, s: Snapshot) {
    var id := s.record.id;
    && id in m.records && m.records[id] == s.record && s.record.scope == scope && id in m.chains
    && exists k ::
         && 0 <= k < |m.chains[id]| && m.chains[id][k] == s.revision.id && s.revision.id in m.revisions
         && m.revisions[s.revision.id] == s.revision && InForce(s.revision, validAt, knownAt)
         && forall j | k < j < |m.chains[id]| && m.chains[id][j] in m.revisions ::
              !InForce(m.revisions[m.chains[id][j]], validAt, knownAt)
  }

  /** One record before another: by key, then by the text of the context, then by identifier. */
  ghost predicate ListedBefore(fingerprint: Context -> string, a: Record, b: Record) {
    if a.key != b.key then Precedes(a.key, b.key)
    else if fingerprint(a.context) != fingerprint(b.context) then
      Precedes(fingerprint(a.context), fingerprint(b.context))
    else a.id < b.id
  }

  /** In every reachable state the bitemporal read shows, in order and once each, exactly the records of the scope that
      have a revision in force, with the last one that is. */
  lemma ReadInWords(env: Env, app: App, scope: Scope, validAt: Time, knownAt: Time)
    requires Reachable(env, app)
    ensures var m := app.tables.memory;
            var read := MemoriesAsOf(env.fingerprint, m, scope, validAt, knownAt);
            && (forall i | 0 <= i < |read| :: ShowsLast(m, scope, validAt, knownAt, read[i]))
            && (forall i, j | 0 <= i < j < |read| :: ListedBefore(env.fingerprint, read[i].record, read[j].record))
            && (forall id | id in m.revisions && InForce(m.revisions[id], validAt, knownAt)
                  && m.revisions[id].recordId in m.records && m.records[m.revisions[id].recordId].scope == scope ::
                 exists i :: 0 <= i < |read| && read[i].record.id == m.revisions[id].recordId)
  {
    hide StoreOk, Reachable, MemoryOk, MemoriesAsOf, ShowsLast, ListedBefore, InForce, VisibleInOrder;
    ReachableIsOk(env, app);
    StoreHasMemory(app.tables, app.next, app.clock);
    ReadMeans(env.fingerprint, app.tables.memory, app.next, app.clock, scope, validAt, knownAt);
  }

  lemma StoreHasMemory(t: Tables, n: Id, clock: Time)
    requires StoreOk(t, n, clock)
    ensures MemoryOk(t.memory, n, clock)
  {
    hide IntakeOk, MemoryOk, LinksOk, ExperienceOk;
  }

  lemma ReadMeans(fingerprint: Context -> string, m: Memory, n: Id, clock: Time, scope: Scope, validAt: Time,
                  knownAt: Time)
    requires MemoryOk(m, n, clock)
    ensures var read := MemoriesAsOf(fingerprint, m, scope, validAt, knownAt);
            && (forall i | 0 <= i < |read| :: ShowsLast(m, scope, validAt, knownAt, read[i]))
            && (forall i, j | 0 <= i < j < |read| :: ListedBefore(fingerprint, read[i].record, read[j].record))
            && (forall id | id in m.revisions && InForce(m.revisions[id], validAt, knownAt)
                  && m.revisions[id].recordId in m.records && m.records[m.revisions[id].recordId].scope == scope ::
                 exists i :: 0 <= i < |read| && read[i].record.id == m.revisions[id].recordId)
  {
    hide MemoryOk, ShowsLast, ListedBefore, MemoriesAsOf, HasEligible, ShowsAnswer, InForce;
    var ids, read := VisibleInOrder(fingerprint, m, scope, validAt, knownAt),
        MemoriesAsOf(fingerprint, m, scope, validAt, knownAt);
    ReadIsChainAnswer(fingerprint, m, n, clock, scope, validAt, knownAt);
    forall i | 0 <= i < |read|
      ensures ShowsLast(m, scope, validAt, knownAt, read[i]) && ids[i] in m.records
      ensures read[i].record == m.records[ids[i]] && read[i].record.id == ids[i]
    {
      assert ids[i] in ids;
      AnswerShowsLast(m, n, clock, scope, validAt, knownAt, ids[i], read[i]);
    }
    forall i, j | 0 <= i < j < |read| ensures ListedBefore(fingerprint, read[i].record, read[j].record) {
      assert ids[i] != ids[j];
      OrderMeans(fingerprint, m, ids[i], ids[j]);
    }
    forall id | id in m.revisions && InForce(m.revisions[id], validAt, knownAt)
        && m.revisions[id].recordId in m.records && m.records[m.revisions[id].recordId].scope == scope
      ensures exists i :: 0 <= i < |read| && read[i].record.id == m.revisions[id].recordId
    {
      InForceIsEligible(m, n, clock, scope, validAt, knownAt, id);
      var i :| 0 <= i < |ids| && ids[i] == m.revisions[id].recordId;
      assert read[i].record.id == m.revisions[id].recordId;
    }
  }

  lemma AnswerShowsLast(m: Memory, n: Id, clock: Time, scope: Scope, validAt: Time, knownAt: Time, id: Id, s: Snapshot)
    requires MemoryOk(m, n, clock) && HasEligible(m, scope, id, validAt, knownAt)
    requires ShowsAnswer(m, id, validAt, knownAt, s)
    ensures ShowsLast(m, scope, validAt, knownAt, s) && s.record.id == id && s.record == m.records[id]
  {
    var chain := m.chains[id];
    var k :| 0 <= k < |chain| && Eligible(m, chain[k], validAt, knownAt) && m.revisions[chain[k]] == s.revision
             && forall j | k < j < |chain| :: !Eligible(m, chain[j], validAt, knownAt);
    assert RecordOk(m, n, clock, id, m.records[id]);
    assert RevisionOk(m, n, chain[k], m.revisions[chain[k]]);
  }

  lemma InForceIsEligible(m: Memory, n: Id, clock: Time, scope: Scope, validAt: Time, knownAt: Time, id: Id)
    requires MemoryOk(m, n, clock) && id in m.revisions && InForce(m.revisions[id], validAt, knownAt)
    requires m.revisions[id].recordId in m.records && m.records[m.revisions[id].recordId].scope == scope
    ensures HasEligible(m, scope, m.revisions[id].recordId, validAt, knownAt)
  {
    assert RevisionOk(m, n, id, m.revisions[id]);
    assert Eligible(m, m.chains[m.revisions[id].recordId][m.revisions[id].sequence - 1], validAt, knownAt);
  }

  lemma OrderMeans(fingerprint: Context -> string, m: Memory, a: Id, b: Id)
    requires a in m.records && b in m.records && a != b && m.records[a].id == a && m.records[b].id == b
    requires RecordLe(fingerprint, m.records, a, b)
    ensures ListedBefore(fingerprint, m.records[a], m.records[b])
  {
    TextOrder(m.records[a].key, m.records[b].key);
    TextOrder(fingerprint(m.records[a].context), fingerprint(m.records[b].context));
  }

  // ---------------------------------------------------------------- signals and scores

  /** What the signals of a memory are, for a request at resolved times. */
  ghost predicate Signals(env: Env, t: Tables, c: RecallMemory, policy: R.Strategy, hits: map<Id, real>, validAt: Time,
                          knownAt: Time, s: Snapshot, b: T.ScoreBreakdown)
  {
    var asked, told := env.tokens(P.Strip(c.query)), env.tokens(s.record.key + " " + s.revision.value);
    var age := validAt - s.revision.belief.lastEvidenceAt;
    && b.belief == s.revision.belief.confidence
    && b.utility == UtilityForAsOf(t.feedback, t.recalls, c.scope, s.revision.id, c.context, knownAt).Mean()
    && b.context == Similarity(s.record.context, c.context)
    && b.recency == env.decay(if age >= 0 then age else 0, policy.halfLifeDays)
    && b.lexical == (if |asked * told| == 0 then 0.0 else |asked * told| as real / |asked + told| as real)
    && b.vector == (if s.revision.id in hits then Some(hits[s.revision.id]) else None)
    && b.semantic == (if b.vector.Some? && b.vector.value >= b.lexical then b.vector.value else b.lexical)
  }

  /** The score a policy's weights give to signals. */
  ghost function ScoreOf(b: T.ScoreBreakdown, w: W.RetrievalWeights): real {
    var sum := w.semantic * b.semantic + w.context * b.context + w.belief * b.belief + w.utility * b.utility
               + w.recency * b.recency;
    if sum >= 1.0 then 1.0 else sum
  }

  /** Worth listing: on topic, by words or by contexts that both say something and agree, and scored high enough. */
  ghost predicate Worthy(c: RecallMemory, policy: R.Strategy, s: Snapshot, b: T.ScoreBreakdown) {
    && (b.semantic > 0.0
        || (b.context > 0.0 && |s.record.context.facets| > 0 && |c.context.facets| > 0))
    && policy.minScore <= ScoreOf(b, policy.weights)
  }

  /** The item shows the snapshot at its rank, with its signals and score. */
  ghost predicate Shows(item: T.RecalledItem, s: Snapshot, rank: int, b: T.ScoreBreakdown, policy: R.Strategy) {
    item == T.RecalledItem(
      recordId := s.record.id, revisionId := s.revision.id, key := s.record.key, value := s.revision.value,
      context := s.record.context, validFrom := s.revision.validFrom, recordedAt := s.revision.recordedAt, rank := rank,
      score := ScoreOf(b, policy.weights), breakdown := b, evidenceIds := s.revision.evidenceIds)
  }

  /** Higher score first; of equal scores the one recorded later; of those the greater identifier. */
  ghost predicate Above(score: real, recordedAt: Time, id: Id, score': real, recordedAt': Time, id': Id) {
    if score != score' then score > score'
    else if recordedAt != recordedAt' then recordedAt > recordedAt'
    else id > id'
  }

  lemma LexicalInNumbers(env: Env, query: string, document: string)
    ensures var asked, told := env.tokens(query), env.tokens(document);
            LexicalSimilarity(env, query, document)
            == if |asked * told| == 0 then 0.0 else |asked * told| as real / |asked + told| as real
  {
    var asked, told := env.tokens(query), env.tokens(document);
    if asked * told == {} {
      assert |asked * told| == 0;
    } else {
      assert asked + told != {};
    }
  }

  lemma SignalsAreBreakdown(env: Env, t: Tables, c: RecallMemory, policy: R.Strategy, hits: map<Id, real>, now: Time,
                            s: Snapshot, b: T.ScoreBreakdown)
    ensures var q := Resolved(c, hits, now);
            Signals(env, t, c, policy, hits, q.validAt, q.knownAt, s, b) <==> b == BreakdownFor(env, t, policy, q, s)
  {
    hide LexicalSimilarity, Similarity, UtilityForAsOf, Utility.Mean;
    LexicalInNumbers(env, P.Strip(c.query), s.record.key + " " + s.revision.value);
  }

  lemma WorthyIsAdmitted(env: Env, t: Tables, c: RecallMemory, policy: R.Strategy, hits: map<Id, real>, now: Time,
                         s: Snapshot)
    ensures var q := Resolved(c, hits, now);
            var b, e := BreakdownFor(env, t, policy, q, s), EntryFor(env, t, policy, q, s);
            && (Worthy(c, policy, s, b) <==> Admitted(e, q, policy.minScore))
            && forall rank :: Shows(ItemOf(e, rank), s, rank, b, policy)
  {
    hide BreakdownFor;
  }

  // ---------------------------------------------------------------- what is listed

  /** The item at the position shows one of the memories read, worthy by its signals. */
  ghost predicate ItemIsWorthy(env: Env, t: Tables, c: RecallMemory, policy: R.Strategy, hits: map<Id, real>,
                               trace: T.Trace, i: int)
    requires 0 <= i < |trace.items|
  {
    exists s, b ::
      && s in MemoriesAsOf(env.fingerprint, t.memory, c.scope, trace.validAt, trace.knownAt)
      && Signals(env, t, c, policy, hits, trace.validAt, trace.knownAt, s, b) && Worthy(c, policy, s, b)
      && Shows(trace.items[i], s, i + 1, b, policy)
  }

  /** A worthy memory is listed, or the list is full and ends above it. */
  ghost predicate ListedOrBelow(c: RecallMemory, policy: R.Strategy, items: seq<T.RecalledItem>, s: Snapshot,
                                b: T.ScoreBreakdown)
  {
    || (exists i :: 0 <= i < |items| && items[i].revisionId == s.revision.id)
    || (|items| == c.limit && items != []
        && var last := items[|items| - 1];
        Above(last.score, last.recordedAt, last.revisionId, ScoreOf(b, policy.weights), s.revision.recordedAt,
              s.revision.id))
  }

  /** What a recall that is not refused returns, in every reachable state: the trace of the request at its times, with
      no more items than asked for, each of them a worthy memory in force with its own fields, signals and score; the
      items run from the highest score down, ties by later recording and then by greater identifier; and a worthy memory
      in force that is not listed is below the last item of a full list. */
  lemma RecallInWords(env: Env, app: App, id: Id, c: RecallMemory, policy: R.Strategy, hits: map<Id, real>, now: Time)
    requires Reachable(env, app) && RecallTrace(env, app.tables, id, c, policy, hits, now).Ok?
    ensures var t, trace := app.tables, RecallTrace(env, app.tables, id, c, policy, hits, now).value;
            && trace == T.Trace(
                 id := id, scope := c.scope, query := P.Strip(c.query), context := c.context, policyId := policy.id,
                 policyVersion := policy.version, items := trace.items,
                 validAt := if c.validAt.None? then now else c.validAt.value,
                 knownAt := if c.knownAt.None? then now else c.knownAt.value, createdAt := now)
            && |trace.items| <= c.limit
            && (forall i | 0 <= i < |trace.items| :: ItemIsWorthy(env, t, c, policy, hits, trace, i))
            && (forall i, j | 0 <= i < j < |trace.items| ::
                 Above(trace.items[i].score, trace.items[i].recordedAt, trace.items[i].revisionId,
                       trace.items[j].score, trace.items[j].recordedAt, trace.items[j].revisionId))
            && (forall s, b ::
                 s in MemoriesAsOf(env.fingerprint, t.memory, c.scope, trace.validAt, trace.knownAt)
                 && Signals(env, t, c, policy, hits, trace.validAt, trace.knownAt, s, b) && Worthy(c, policy, s, b) ==>
                   ListedOrBelow(c, policy, trace.items, s, b))
  {
    hide StoreOk, Reachable, MemoryOk, Entries, ItemIsWorthy, ListedOrBelow, Above, Signals, Worthy, TopK.Qualifies,
         TopK.AreTop, Sorting.FirstSorted;
    var t, trace := app.tables, RecallTrace(env, app.tables, id, c, policy, hits, now).value;
    var q := Resolved(c, hits, now);
    ReachableIsOk(env, app);
    StoreHasMemory(t, app.next, app.clock);
    MemoryIsKeyed(t.memory, app.next, app.clock);
    TopK.RecallReturnsTheBest(env, t, id, c, policy, hits, now);
    var all :| TopK.OnePerRecord(all) && (forall e :: e in all <==> TopK.Qualifies(env, t, policy, q, e))
        && TopK.AreTop(trace.items, all, c.limit);
    TopIsShort(trace.items, all, c.limit);
    forall i | 0 <= i < |trace.items| ensures ItemIsWorthy(env, t, c, policy, hits, trace, i) {
      TopK.EachItemQualifies(env, t, policy, q, all, trace.items, c.limit, i);
      QualifiesIsWorthy(env, t, c, policy, hits, now, trace, i);
    }
    forall i, j | 0 <= i < j < |trace.items|
      ensures Above(trace.items[i].score, trace.items[i].recordedAt, trace.items[i].revisionId,
                    trace.items[j].score, trace.items[j].recordedAt, trace.items[j].revisionId)
    {
      RecalledAreDistinct(env, t, id, app.next, app.clock, c, policy, hits, now);
      TopIsInOrder(trace.items, all, c.limit, i, j);
    }
    forall s, b | s in MemoriesAsOf(env.fingerprint, t.memory, c.scope, trace.validAt, trace.knownAt)
        && Signals(env, t, c, policy, hits, trace.validAt, trace.knownAt, s, b) && Worthy(c, policy, s, b)
      ensures ListedOrBelow(c, policy, trace.items, s, b)
    {
      WorthyQualifies(env, t, c, policy, hits, now, s, b);
      OthersAreBelow(trace.items, all, c, policy, EntryFor(env, t, policy, q, s));
    }
  }

  lemma MemoryIsKeyed(m: Memory, n: Id, clock: Time)
    requires MemoryOk(m, n, clock)
    ensures Keyed(m)
  {
    forall id | id in m.records ensures m.records[id].id == id {
      assert RecordOk(m, n, clock, id, m.records[id]);
    }
  }

  lemma TopIsShort(items: seq<T.RecalledItem>, all: seq<Entry>, limit: int)
    requires TopK.AreTop(items, all, limit)
    ensures |items| <= limit
  {
    var best :| Sorting.AreFirst(best, all, limit, Outranks) && items == ItemsOf(best);
  }

  lemma QualifiesIsWorthy(env: Env, t: Tables, c: RecallMemory, policy: R.Strategy, hits: map<Id, real>, now: Time,
                          trace: T.Trace, i: int)
    requires 0 <= i < |trace.items|
    requires trace.validAt == Resolved(c, hits, now).validAt && trace.knownAt == Resolved(c, hits, now).knownAt
    requires exists e :: TopK.Qualifies(env, t, policy, Resolved(c, hits, now), e) && trace.items[i] == ItemOf(e, i + 1)
    ensures ItemIsWorthy(env, t, c, policy, hits, trace, i)
  {
    hide Signals, Worthy, Admitted, MemoriesAsOf, Shows, ItemOf, BreakdownFor, WeightedScore;
    var q := Resolved(c, hits, now);
    var e :| TopK.Qualifies(env, t, policy, q, e) && trace.items[i] == ItemOf(e, i + 1);
    var snapshots := MemoriesAsOf(env.fingerprint, t.memory, c.scope, q.validAt, q.knownAt);
    var k :| 0 <= k < |snapshots| && e == EntryFor(env, t, policy, q, snapshots[k]) && Admitted(e, q, policy.minScore);
    var b := BreakdownFor(env, t, policy, q, snapshots[k]);
    SignalsAreBreakdown(env, t, c, policy, hits, now, snapshots[k], b);
    WorthyIsAdmitted(env, t, c, policy, hits, now, snapshots[k]);
    assert snapshots[k] in snapshots;
  }

  /** Whatever identifier the trace gets, its items are of different revisions. */
  lemma RecalledAreDistinct(env: Env, t: Tables, id: Id, n: Id, clock: Time, c: RecallMemory, policy: R.Strategy,
                            hits: map<Id, real>, now: Time)
    requires MemoryOk(t.memory, n, clock) && RecallTrace(env, t, id, c, policy, hits, now).Ok?
    ensures T.DistinctItems(RecallTrace(env, t, id, c, policy, hits, now).value.items)
  {
    hide MemoryOk, Entries, Sorting.FirstSorted;
    assert RecallTrace(env, t, n, c, policy, hits, now).Ok?;
    RecalledItemsAreDistinct(env, t, n, clock, c, policy, hits, now);
  }

  lemma TopIsInOrder(items: seq<T.RecalledItem>, all: seq<Entry>, limit: int, i: int, j: int)
    requires TopK.AreTop(items, all, limit) && T.DistinctItems(items) && 0 <= i < j < |items|
    ensures Above(items[i].score, items[i].recordedAt, items[i].revisionId,
                  items[j].score, items[j].recordedAt, items[j].revisionId)
  {
    var best :| Sorting.AreFirst(best, all, limit, Outranks) && items == ItemsOf(best);
    assert Outranks(best[i], best[j]);
  }

  lemma WorthyQualifies(env: Env, t: Tables, c: RecallMemory, policy: R.Strategy, hits: map<Id, real>, now: Time,
                        s: Snapshot, b: T.ScoreBreakdown)
    requires var q := Resolved(c, hits, now);
             && s in MemoriesAsOf(env.fingerprint, t.memory, c.scope, q.validAt, q.knownAt)
             && Signals(env, t, c, policy, hits, q.validAt, q.knownAt, s, b) && Worthy(c, policy, s, b)
    ensures var q := Resolved(c, hits, now);
            var e := EntryFor(env, t, policy, q, s);
            && TopK.Qualifies(env, t, policy, q, e) && e.snapshot == s && e.score == ScoreOf(b, policy.weights)
  {
    hide Signals, Worthy, Admitted, MemoriesAsOf, BreakdownFor;
    var q := Resolved(c, hits, now);
    SignalsAreBreakdown(env, t, c, policy, hits, now, s, b);
    WorthyIsAdmitted(env, t, c, policy, hits, now, s);
    var snapshots := MemoriesAsOf(env.fingerprint, t.memory, c.scope, q.validAt, q.knownAt);
    var k :| 0 <= k < |snapshots| && snapshots[k] == s;
    assert Admitted(EntryFor(env, t, policy, q, snapshots[k]), q, policy.minScore);
  }

  /** An entry that is among all of them is among the items, or below the last of a full list. */
  lemma OthersAreBelow(items: seq<T.RecalledItem>, all: seq<Entry>, c: RecallMemory, policy: R.Strategy, e: Entry)
    requires TopK.AreTop(items, all, c.limit) && e in all && c.limit >= 1
    ensures forall b | ScoreOf(b, policy.weights) == e.score :: ListedOrBelow(c, policy, items, e.snapshot, b)
  {
    hide ScoreOf, Sorting.AreFirst;
    var best :| Sorting.AreFirst(best, all, c.limit, Outranks) && items == ItemsOf(best);
    Sorting.FirstOrAfter(best, all, c.limit, Outranks, e);
    if e in best {
      var i :| 0 <= i < |best| && best[i] == e;
      assert items[i].revisionId == e.snapshot.revision.id;
    } else {
      assert Outranks(best[|best| - 1], e);
    }
  }

  /** The signal is a share. */
  ghost predicate Share(x: real) {
    0.0 <= x && x <= 1.0
  }

  lemma {:induction false} ScoringChecks(env: Env, t: Tables, policy: R.Strategy, q: Query, snapshots: seq<Snapshot>,
                                         i: nat)
    requires Scored(env, t, policy, q, snapshots).Ok? && i < |snapshots|
    ensures T.BreakdownAccepted(BreakdownFor(env, t, policy, q, snapshots[i]))
    decreases |snapshots|
  {
    hide T.BreakdownAccepted, BreakdownFor, Admitted, WeightedScore;
    if i < |snapshots| - 1 {
      assert snapshots[..|snapshots| - 1][i] == snapshots[i];
      ScoringChecks(env, t, policy, q, snapshots[..|snapshots| - 1], i);
    }
  }

  /** A recall that is not refused has looked at no memory with a signal outside [0, 1], listed or not, and lists only
      scores in [0, 1], whatever the projection and the weights gave it. */
  lemma RecallChecksSignals(env: Env, t: Tables, id: Id, c: RecallMemory, policy: R.Strategy, hits: map<Id, real>,
                            now: Time, s: Snapshot, b: T.ScoreBreakdown)
    requires RecallTrace(env, t, id, c, policy, hits, now).Ok?
    requires var trace := RecallTrace(env, t, id, c, policy, hits, now).value;
             && s in MemoriesAsOf(env.fingerprint, t.memory, c.scope, trace.validAt, trace.knownAt)
             && Signals(env, t, c, policy, hits, trace.validAt, trace.knownAt, s, b)
    ensures Share(b.semantic) && Share(b.context) && Share(b.belief) && Share(b.utility) && Share(b.recency)
    ensures Share(b.lexical) && (b.vector.Some? ==> Share(b.vector.value))
    ensures var items := RecallTrace(env, t, id, c, policy, hits, now).value.items;
            forall i | 0 <= i < |items| :: Share(items[i].score)
  {
    hide Signals, MemoriesAsOf, BreakdownFor, Scored, ItemsOf, Sorting.FirstSorted;
    var q := Resolved(c, hits, now);
    SignalsAreBreakdown(env, t, c, policy, hits, now, s, b);
    var snapshots := MemoriesAsOf(env.fingerprint, t.memory, c.scope, q.validAt, q.knownAt);
    var i :| 0 <= i < |snapshots| && snapshots[i] == s;
    ScoringChecks(env, t, policy, q, snapshots, i);
    var items := RecallTrace(env, t, id, c, policy, hits, now).value.items;
    forall i | 0 <= i < |items| ensures Share(items[i].score) {
      assert items[i] in items;
    }
  }
}
