/** Every run of the memory application keeps the store's invariant; what follows from that. */
module MemoryRuns {
  import opened Common
  import opened Beliefs
  import opened MemoryTables
  import opened Recall
  import opened Service
  import opened AsOf
  import opened MemoryInvariant
  import opened MemoryWrites
  import opened ExperienceInvariant
  import opened ScopeErasure
  import opened ChainReads
  import TopK
  import C = Compression
  import T = Traces
  import P = Projections
  import R = Registry

  lemma StoreMayAge(t: Tables, next: Id, clock: Time, later: Time)
    requires StoreOk(t, next, clock) && clock <= later
    ensures StoreOk(t, next + 6, later)
  {
    MemoryMayGrow(t, t.memory, t.intake, next, clock, later);
    IntakeAges(t.intake, next);
    MemoryAges(t.memory, next, clock, later);
  }

  lemma IntakeAges(i: Intake, next: Id)
    requires IntakeOk(i, next)
    ensures IntakeOk(i, next + 6)
  {
    forall id | id in i.candidates ensures CandidateOk(i, next + 6, id, i.candidates[id]) {
      assert CandidateOk(i, next, id, i.candidates[id]);
    }
    forall id | id in i.evidence ensures SpanOk(i, next + 6, id, i.evidence[id]) {
      assert SpanOk(i, next, id, i.evidence[id]);
    }
  }

  lemma MemoryAges(m: Memory, next: Id, clock: Time, later: Time)
    requires MemoryOk(m, next, clock) && clock <= later
    ensures MemoryOk(m, next + 6, later)
  {
    forall id | id in m.records ensures RecordOk(m, next + 6, later, id, m.records[id]) {
      assert RecordOk(m, next, clock, id, m.records[id]);
      forall k | 0 <= k < |m.chains[id]| ensures LinkOk(m, later, m.records[id], m.chains[id], k) {
        assert LinkOk(m, clock, m.records[id], m.chains[id], k);
      }
    }
    forall id | id in m.revisions ensures RevisionOk(m, next + 6, id, m.revisions[id]) {
      assert RevisionOk(m, next, id, m.revisions[id]);
    }
  }

  lemma GrowthKeepsExperience(t: Tables, g: Growth, n: Id, clock: Time, later: Time)
    requires StoreOk(t, n, clock) && clock <= later && MemoryFits(t.memory, g, n, later)
    ensures ExperienceOk(t.(intake := GrowIntake(t.intake, g), memory := GrowMemory(t.memory, g)), n + 6, later)
  {
    hide ExperienceOk;
    assert forall id | id in t.memory.revisions :: RevisionOk(t.memory, n, id, t.memory.revisions[id]);
    MemoryMayGrow(t, GrowMemory(t.memory, g), GrowIntake(t.intake, g), n, clock, later);
  }

  lemma IngestKeepsStore(t: Tables, w: Write, n: Id, clock: Time, now: Time, later: Time)
    requires StoreOk(t, n, clock) && clock <= later
    requires Ingest(t, w.scope, w.idempotencyKey, w.occurredAt, w.business, n, now, later).Ok?
    ensures StoreOk(Ingest(t, w.scope, w.idempotencyKey, w.occurredAt, w.business, n, now, later).value.0, n + 6, later)
  {
    IngestKeeps(t, w, n, clock, now, later);
    IngestGrows(t, w, n, clock, now, later);
    GrowthKeepsExperience(t, Written(t.memory, w, n, now, later), n, clock, later);
  }

  lemma RememberKeeps(t: Tables, c: RememberPreference, n: Id, clock: Time, now: Time, later: Time)
    requires StoreOk(t, n, clock) && clock <= later && Remember(t, c, n, now, later).Ok?
    ensures StoreOk(Remember(t, c, n, now, later).value.0, n + 6, later)
  {
    if ObservationByKey(t.intake, c.scope, c.idempotencyKey).Some? {
      StoreMayAge(t, n, clock, later);
    } else {
      IngestKeepsStore(t, Write(c.scope, c.idempotencyKey, c.occurredAt, RememberBusiness(c)), n, clock, now, later);
    }
  }

  lemma CorrectKeeps(t: Tables, c: CorrectPreference, n: Id, clock: Time, now: Time, later: Time)
    requires StoreOk(t, n, clock) && clock <= later && Correct(t, c, n, now, later).Ok?
    ensures StoreOk(Correct(t, c, n, now, later).value.0, n + 6, later)
  {
    if ObservationByKey(t.intake, c.scope, c.idempotencyKey).Some? {
      StoreMayAge(t, n, clock, later);
    } else {
      var b := CorrectBusiness(c, SnapshotOf(t.memory, c.scope, c.recordId).value.record);
      IngestKeepsStore(t, Write(c.scope, c.idempotencyKey, c.occurredAt, b), n, clock, now, later);
    }
  }

  /** What is shown of a scope belongs to it. */
  lemma ShownBelongs(fingerprint: Context -> string, m: Memory, next: Id, clock: Time, scope: Scope, validAt: Time,
                     knownAt: Time, i: nat)
    requires MemoryOk(m, next, clock) && i < |MemoriesAsOf(fingerprint, m, scope, validAt, knownAt)|
    ensures var s := MemoriesAsOf(fingerprint, m, scope, validAt, knownAt)[i];
            && s.record.id in m.records && m.records[s.record.id] == s.record && s.record.scope == scope
            && s.revision.id in m.revisions && m.revisions[s.revision.id] == s.revision
                && s.revision.recordId == s.record.id
  {
    var ids, s := VisibleInOrder(fingerprint, m, scope, validAt, knownAt),
        MemoriesAsOf(fingerprint, m, scope, validAt, knownAt)[i];
    ReadShows(fingerprint, m, next, clock, scope, validAt, knownAt, i);
    assert ids[i] in ids;
    var chain := m.chains[ids[i]];
    var k :| 0 <= k < |chain| && Eligible(m, chain[k], validAt, knownAt) && m.revisions[chain[k]] == s.revision;
    assert RecordOk(m, next, clock, ids[i], m.records[ids[i]]);
    assert LinkOk(m, clock, m.records[ids[i]], chain, k);
    assert RevisionOk(m, next, chain[k], m.revisions[chain[k]]);
  }

  lemma RecalledBelongs(env: Env, t: Tables, n: Id, clock: Time, c: RecallMemory, policy: R.Strategy,
                        hits: map<Id, real>, now: Time, i: int)
    requires MemoryOk(t.memory, n, clock) && RecallTrace(env, t, n, c, policy, hits, now).Ok?
    requires 0 <= i < |RecallTrace(env, t, n, c, policy, hits, now).value.items|
    ensures var item := RecallTrace(env, t, n, c, policy, hits, now).value.items[i];
            && item.revisionId in t.memory.revisions && t.memory.revisions[item.revisionId].recordId == item.recordId
            && item.recordId in t.memory.records && t.memory.records[item.recordId].scope == c.scope
  {
    var q, items := Resolved(c, hits, now), RecallTrace(env, t, n, c, policy, hits, now).value.items;
    assert Keyed(t.memory) by {
      assert forall id | id in t.memory.records :: RecordOk(t.memory, n, clock, id, t.memory.records[id]);
    }
    TopK.RecallReturnsTheBest(env, t, n, c, policy, hits, now);
    var all :| TopK.OnePerRecord(all) && (forall e :: e in all <==> TopK.Qualifies(env, t, policy, q, e))
        && TopK.AreTop(items, all, c.limit);
    TopK.EachItemQualifies(env, t, policy, q, all, items, c.limit, i);
    var e :| TopK.Qualifies(env, t, policy, q, e) && items[i] == ItemOf(e, i + 1);
    var snapshots := MemoriesAsOf(env.fingerprint, t.memory, c.scope, q.validAt, q.knownAt);
    var k :| 0 <= k < |snapshots| && e == EntryFor(env, t, policy, q, snapshots[k]);
    ShownBelongs(env.fingerprint, t.memory, n, clock, c.scope, q.validAt, q.knownAt, k);
  }

  lemma RecalledItemsAreDistinct(env: Env, t: Tables, n: Id, clock: Time, c: RecallMemory, policy: R.Strategy,
                                 hits: map<Id, real>, now: Time)
    requires MemoryOk(t.memory, n, clock) && RecallTrace(env, t, n, c, policy, hits, now).Ok?
    ensures T.DistinctItems(RecallTrace(env, t, n, c, policy, hits, now).value.items)
  {
    hide RecallTrace, TopK.Qualifies;
    var q, items := Resolved(c, hits, now), RecallTrace(env, t, n, c, policy, hits, now).value.items;
    assert Keyed(t.memory) by {
      assert forall id | id in t.memory.records :: RecordOk(t.memory, n, clock, id, t.memory.records[id]);
    }
    TopK.RecallReturnsTheBest(env, t, n, c, policy, hits, now);
    var all :| TopK.OnePerRecord(all) && (forall e :: e in all <==> TopK.Qualifies(env, t, policy, q, e))
        && TopK.AreTop(items, all, c.limit);
    TopK.TopItemsAreDistinct(items, all, c.limit);
    forall i, j | 0 <= i < j < |items| ensures items[i].revisionId != items[j].revisionId {
      RecalledBelongs(env, t, n, clock, c, policy, hits, now, i);
      RecalledBelongs(env, t, n, clock, c, policy, hits, now, j);
    }
  }

  lemma RecalledTraceIsOk(env: Env, t: Tables, n: Id, clock: Time, c: RecallMemory, policy: R.Strategy,
                          hits: map<Id, real>, now: Time)
    requires MemoryOk(t.memory, n, clock) && RecallTrace(env, t, n, c, policy, hits, now).Ok?
    ensures TraceOk(t.memory, n + 6, now, n, RecallTrace(env, t, n, c, policy, hits, now).value)
  {
    var trace := RecallTrace(env, t, n, c, policy, hits, now).value;
    forall i | 0 <= i < |trace.items|
      ensures && trace.items[i].revisionId in t.memory.revisions
              && t.memory.revisions[trace.items[i].revisionId].recordId == trace.items[i].recordId
              && trace.items[i].recordId in t.memory.records
              && t.memory.records[trace.items[i].recordId].scope == trace.scope
    {
      RecalledBelongs(env, t, n, clock, c, policy, hits, now, i);
    }
    RecalledItemsAreDistinct(env, t, n, clock, c, policy, hits, now);
  }

  lemma RecallKeeps(env: Env, t: Tables, n: Id, clock: Time, c: RecallMemory, policy: R.Strategy,
                    hits: map<Id, real>, now: Time)
    requires StoreOk(t, n, clock) && clock <= now && RecallTrace(env, t, n, c, policy, hits, now).Ok?
    ensures StoreOk(t.(recalls := Recalls(t.recalls.traces[n := RecallTrace(env, t, n, c, policy, hits, now).value])),
                    n + 6, now)
  {
    RecalledTraceIsOk(env, t, n, clock, c, policy, hits, now);
    TraceKeeps(t, n, clock, RecallTrace(env, t, n, c, policy, hits, now).value, now);
    StoreMayAge(t, n, clock, now);
  }

  /** A citable usage names revisions of its trace. */
  lemma CitationHolds(t: Tables, c: RecordMemoryUsage, n: Id, now: Time)
    requires Citable(t, c).Ok?
    ensures var trace := Citable(t, c).value;
            && c.traceId in t.recalls.traces && t.recalls.traces[c.traceId] == trace && trace.scope == c.scope
            && c.revisionIds != [] && (forall x | x in c.revisionIds :: x in T.RevisionIds(trace.items))
            && CitesProjection(trace, UsageFor(c, n, now))
  {
    P.ProjectionCitesTrace(TraceOf(t.recalls, c.scope, c.traceId).value, c.algorithm, c.budget);
  }

  lemma RecordUsageKeeps(t: Tables, n: Id, clock: Time, c: RecordMemoryUsage, now: Time)
    requires StoreOk(t, n, clock) && clock <= now && RecordUsage(t, c, n, now).Ok?
    ensures StoreOk(RecordUsage(t, c, n, now).value.0, n + 6, now)
  {
    hide IntakeOk, MemoryOk, LinksOk, RecallsOk, DeliveriesOk, FeedbackOk, UtilitiesOk, CitesProjection;
    StoreMayAge(t, n, clock, now);
    CitationHolds(t, c, n, now);
    if (c.scope, c.idempotencyKey) !in t.deliveries.usageKeys {
      UsageKeeps(t.deliveries, t.recalls, n, clock, UsageFor(c, n, now), now);
    }
  }

  /** An attributable outcome names a revision of its trace, also when only the usage was consulted. */
  lemma AttributionHolds(t: Tables, n: Id, clock: Time, c: RecordOutcome)
    requires StoreOk(t, n, clock) && Attributable(t, c).Ok?
    ensures var trace := Attributable(t, c).value;
            && c.traceId in t.recalls.traces && t.recalls.traces[c.traceId] == trace && trace.scope == c.scope
            && c.revisionId in T.RevisionIds(trace.items)
  {
    if c.usageId.Some? {
      assert UsageOk(t.deliveries, t.recalls, n, clock, c.usageId.value, t.deliveries.usages[c.usageId.value]);
    }
  }

  lemma RecordOutcomeKeeps(t: Tables, n: Id, clock: Time, c: RecordOutcome, now: Time)
    requires StoreOk(t, n, clock) && clock <= now && Outcome(t, c, n, now).Ok?
    ensures StoreOk(Outcome(t, c, n, now).value.0, n + 6, now)
  {
    hide IntakeOk, MemoryOk, LinksOk, RecallsOk, DeliveriesOk, FeedbackOk, UtilitiesOk, T.RevisionIds;
    StoreMayAge(t, n, clock, now);
    AttributionHolds(t, n, clock, c);
    if (c.scope, c.idempotencyKey) !in t.feedback.outcomeKeys {
      var o := OutcomeFor(c, n, now);
      OutcomeKeeps(t.feedback, t.recalls, n, clock, o, now);
    }
  }

  lemma StoredKeeps(env: Env, t: Tables, call: Call, n: Id, clock: Time, now: Time, later: Time)
    requires StoreOk(t, n, clock) && clock <= now <= later
    requires call.RememberCall? || call.CorrectCall? || later == now
    ensures Stored(env, t, call, n, now, later).Ok? ==> StoreOk(Stored(env, t, call, n, now, later).value, n + 6, later)
  {
    hide StoreOk, Remember, Correct, RecallTrace, RecordUsage, Outcome, EraseScope;
    match call
    case RememberCall(c, _, _) =>
      if Remember(t, c, n, now, later).Ok? {
        RememberKeeps(t, c, n, clock, now, later);
      }
    case CorrectCall(c, _, _) =>
      if Correct(t, c, n, now, later).Ok? {
        CorrectKeeps(t, c, n, clock, now, later);
      }
    case RecallCall(c, policy, hits, _) =>
      if RecallTrace(env, t, n, c, policy, hits, now).Ok? {
        RecallKeeps(env, t, n, clock, c, policy, hits, now);
      }
    case UsageCall(c, _) =>
      if RecordUsage(t, c, n, now).Ok? {
        RecordUsageKeeps(t, n, clock, c, now);
      }
    case OutcomeCall(c, _) =>
      if Outcome(t, c, n, now).Ok? {
        RecordOutcomeKeeps(t, n, clock, c, now);
      }
    case EraseCall(scope) =>
      EraseKeeps(t, n, clock, scope);
      StoreMayAge(EraseScope(t, scope), n, clock, later);
  }

  ghost predicate AppOk(app: App) {
    StoreOk(app.tables, app.next, app.clock)
  }

  lemma CommittedKeeps(app: App, r: Result<Tables>, later: Time)
    requires AppOk(app) && app.clock <= later && (r.Ok? ==> StoreOk(r.value, app.next + 6, later))
    ensures AppOk(Committed(app, r, later))
  {
    hide StoreOk;
    StoreMayAge(app.tables, app.next, app.clock, later);
  }

  lemma DoKeeps(env: Env, app: App, call: Call)
    requires AppOk(app)
    ensures AppOk(Do(env, app, call)) && app.clock <= Do(env, app, call).clock
  {
    var now, later := First(call, app.clock), Second(call, app.clock);
    StoredKeeps(env, app.tables, call, app.next, app.clock, now, later);
    CommittedKeeps(app, Stored(env, app.tables, call, app.next, now, later), later);
  }

  lemma {:induction false} RunKeeps(env: Env, app: App, calls: seq<Call>)
    requires AppOk(app)
    ensures AppOk(Run(env, app, calls)) && app.clock <= Run(env, app, calls).clock
    decreases |calls|
  {
    if calls != [] {
      RunKeeps(env, app, calls[..|calls| - 1]);
      DoKeeps(env, Run(env, app, calls[..|calls| - 1]), calls[|calls| - 1]);
    }
  }

  ghost predicate Reachable(env: Env, app: App) {
    exists calls :: app == Run(env, INIT, calls)
  }

  lemma InitIsOk()
    ensures AppOk(INIT)
  {
    forall scope, revisionId, context, knownAt | 0 <= knownAt
      ensures UtilityFor(EMPTY.feedback, scope, revisionId, context)
              == UtilityForAsOf(EMPTY.feedback, EMPTY.recalls, scope, revisionId, context, knownAt)
    {
      assert EMPTY.feedback.order == [];
    }
  }

  lemma ReachableIsOk(env: Env, app: App)
    requires Reachable(env, app)
    ensures AppOk(app)
  {
    InitIsOk();
    var calls :| app == Run(env, INIT, calls);
    RunKeeps(env, INIT, calls);
  }

  // ---------------------------------------------------------------- the utility table is the outcome log

  /** Once every outcome is recorded, later times see the same log. */
  lemma {:induction false} LogSettles(f: Feedback, r: Recalls, scope: Scope, revisionId: Id, context: Context, a: Time,
                                      b: Time, ids: seq<Id>)
    requires forall id | id in f.outcomes :: f.outcomes[id].recordedAt <= a && f.outcomes[id].recordedAt <= b
    ensures UtilityOfLog(f, r, scope, revisionId, context, a, ids)
            == UtilityOfLog(f, r, scope, revisionId, context, b, ids)
    decreases |ids|
  {
    if ids != [] {
      LogSettles(f, r, scope, revisionId, context, a, b, ids[..|ids| - 1]);
    }
  }

  /** In every reachable state, for every scope, revision and context: the incrementally kept estimate is the one
      recomputed from the outcome log at any time not before the recorded ones. */
  lemma UtilityIsTheLog(env: Env, app: App, scope: Scope, revisionId: Id, context: Context, knownAt: Time)
    requires Reachable(env, app)
    requires forall id | id in app.tables.feedback.outcomes :: app.tables.feedback.outcomes[id].recordedAt <= knownAt
    ensures UtilityFor(app.tables.feedback, scope, revisionId, context)
            == UtilityForAsOf(app.tables.feedback, app.tables.recalls, scope, revisionId, context, knownAt)
  {
    ReachableIsOk(env, app);
    var f, r := app.tables.feedback, app.tables.recalls;
    var late := Max(app.clock, knownAt);
    forall id | id in f.outcomes ensures f.outcomes[id].recordedAt <= late {
      assert OutcomeOk(f, r, app.next, app.clock, id, f.outcomes[id]);
    }
    LogSettles(f, r, scope, revisionId, context, knownAt, late, f.order);
    assert UtilityFor(f, scope, revisionId, context) == UtilityForAsOf(f, r, scope, revisionId, context, late);
  }

  // ---------------------------------------------------------------- a belief is its evidence

  /** What a revision's belief says about its evidence. */
  ghost predicate BeliefIsEvidence(b: Belief, items: seq<Item>) {
    && items != []
    && b.supportCount == |items| && b.contradictionCount == 0
    && b.sourceKeys == Sources(items) && b.sourceDiversity == |Sources(items)| && IsLatest(b.lastEvidenceAt, items)
    && b.confidence == (if |items| == 1 then items[0].confidence else Least(CAP, 1.0 - Doubt(items)))
  }

  lemma BeliefsAreFolds(app: App, id: Id)
    requires AppOk(app) && id in app.tables.memory.revisions
    ensures var m, i, v := app.tables.memory, app.tables.intake, app.tables.memory.revisions[id];
            v.recordId in m.records && BeliefOk(i, m.records[v.recordId], v)
  {
  }

  lemma EvidenceClosedForm(i: Intake, r: Record, v: Revision)
    requires BeliefOk(i, r, v)
    ensures DistinctIds(v.evidenceIds) && BeliefIsEvidence(v.belief, ItemsFor(i, v.evidenceIds))
    ensures forall k | 0 <= k < |v.evidenceIds| :: Supports(i, r, v, v.evidenceIds[k])
  {
    var items := ItemsFor(i, v.evidenceIds);
    ConfidenceClosedForm(items);
    SourcesClosedForm(items);
    CountsClosedForm(items);
    LatestClosedForm(items);
  }

  /** In every reachable state every revision's belief is exactly the fold of its own evidence: distinct spans, each
      supporting a candidate of the record's scope, key and context and of the revision's value. */
  lemma BeliefsAreTheirEvidence(env: Env, app: App, id: Id)
    requires Reachable(env, app) && id in app.tables.memory.revisions
    ensures var m, i, v := app.tables.memory, app.tables.intake, app.tables.memory.revisions[id];
            && v.recordId in m.records && DistinctIds(v.evidenceIds)
            && (forall k | 0 <= k < |v.evidenceIds| :: Supports(i, m.records[v.recordId], v, v.evidenceIds[k]))
            && BeliefIsEvidence(v.belief, ItemsFor(i, v.evidenceIds))
  {
    hide *;
    ReachableIsOk(env, app);
    BeliefsAreFolds(app, id);
    EvidenceClosedForm(app.tables.intake, app.tables.memory.records[app.tables.memory.revisions[id].recordId],
                       app.tables.memory.revisions[id]);
  }

  // ---------------------------------------------------------------- outcomes are attributable

  /** In every reachable state every stored outcome's trace exists in the same scope and lists its revision, which is a
      stored revision of that scope; and every usage cites only revisions of its trace, from the projection it names. */
  lemma OutcomesAreAttributable(env: Env, app: App)
    requires Reachable(env, app)
    ensures forall id | id in app.tables.feedback.outcomes ::
              Attributed(app.tables.recalls, app.tables.feedback.outcomes[id])
    ensures forall id | id in app.tables.deliveries.usages ::
              var u, traces := app.tables.deliveries.usages[id], app.tables.recalls.traces;
              u.traceId in traces && traces[u.traceId].scope == u.scope && CitesProjection(traces[u.traceId], u)
              && forall x | x in u.revisionIds :: x in T.RevisionIds(traces[u.traceId].items)
  {
    ReachableIsOk(env, app);
    var t := app.tables;
    forall id | id in t.feedback.outcomes ensures Attributed(t.recalls, t.feedback.outcomes[id]) {
      assert OutcomeOk(t.feedback, t.recalls, app.next, app.clock, id, t.feedback.outcomes[id]);
    }
    forall id | id in t.deliveries.usages
      ensures var u := t.deliveries.usages[id];
              u.traceId in t.recalls.traces && t.recalls.traces[u.traceId].scope == u.scope
              && CitesProjection(t.recalls.traces[u.traceId], u)
              && forall x | x in u.revisionIds :: x in T.RevisionIds(t.recalls.traces[u.traceId].items)
    {
      assert UsageOk(t.deliveries, t.recalls, app.next, app.clock, id, t.deliveries.usages[id]);
    }
  }

  // ---------------------------------------------------------------- chains and reads

  /** In every reachable state: chains run 1..n with supersedes links and the active head last, and the as-of read is
      the chain's answer, one snapshot per record in sorted order. */
  lemma ReadsAreChainAnswers(env: Env, app: App, scope: Scope, validAt: Time, knownAt: Time)
    requires Reachable(env, app)
    ensures forall id | id in app.tables.memory.records :: WellChained(app.tables.memory, id)
    ensures var m := app.tables.memory;
            var ids, read := VisibleInOrder(env.fingerprint, m, scope, validAt, knownAt),
                MemoriesAsOf(env.fingerprint, m, scope, validAt, knownAt);
            && |read| == |ids| && (forall id :: id in ids <==> HasEligible(m, scope, id, validAt, knownAt))
            && (forall i | 0 <= i < |read| :: ShowsAnswer(m, ids[i], validAt, knownAt, read[i]))
    ensures Covers(app.tables.memory, scope, validAt, knownAt) ==>
              forall s :: s in MemoriesAsOf(env.fingerprint, app.tables.memory, scope, validAt, knownAt)
                          <==> s in ActiveMemories(app.tables.memory, scope)
  {
    ReachableIsOk(env, app);
    var m := app.tables.memory;
    forall id | id in m.records ensures WellChained(m, id) {
      ChainsAreWell(m, app.next, app.clock, id);
    }
    ReadIsChainAnswer(env.fingerprint, m, app.next, app.clock, scope, validAt, knownAt);
    if Covers(m, scope, validAt, knownAt) {
      forall s ensures s in MemoriesAsOf(env.fingerprint, m, scope, validAt, knownAt)
          <==> s in ActiveMemories(m, scope) {
        FullReadIsActive(env.fingerprint, m, app.next, app.clock, scope, validAt, knownAt, s);
      }
    }
  }

  /** In every reachable state every stored trace projects, under either algorithm and any admissible budget: the
      compressor's strict constructors never refuse what a recall has stored. */
  lemma StoredTracesProject(env: Env, app: App, id: Id, algorithm: C.Algorithm, budget: int)
    requires Reachable(env, app) && id in app.tables.recalls.traces
    requires C.MIN_BUDGET <= budget <= C.MAX_BUDGET && app.tables.recalls.traces[id].policyVersion >= 1
    ensures P.Project(app.tables.recalls.traces[id], algorithm, budget).Ok?
  {
    hide *;
    ReachableIsOk(env, app);
    TraceIsOk(app, id);
    P.DistinctTracesProject(app.tables.recalls.traces[id], algorithm, budget);
  }

  lemma TraceIsOk(app: App, id: Id)
    requires AppOk(app) && id in app.tables.recalls.traces
    ensures var trace := app.tables.recalls.traces[id];
            trace.knownAt <= trace.createdAt && T.DistinctItems(trace.items)
  {
    assert TraceOk(app.tables.memory, app.next, app.clock, id, app.tables.recalls.traces[id]);
  }

  // ---------------------------------------------------------------- erasure

  /** In every reachable state: erasing a scope removes everything of it from every table and index, reports exactly the
      size drops, keeps every index in agreement with its table, and a second erasure changes nothing and reports
      zeros. */
  lemma ErasureConserves(env: Env, app: App, scope: Scope)
    requires Reachable(env, app)
    ensures var t := app.tables;
            var s, e := SummaryOf(t, scope), EraseScope(t, scope);
            && NothingOf(e, scope) && NoneLeft(t, e, scope)
            && IntakeCounts(s, t.intake, e.intake) && MemoryCounts(s, t.memory, e.memory) && ExperienceCounts(s, t, e)
            && StoreOk(e, app.next, app.clock)
            && EraseScope(e, scope) == e && SummaryOf(e, scope) == NONE_REMOVED
  {
    ReachableIsOk(env, app);
    EraseLeavesNothing(app.tables, scope);
    EraseLeavesNone(app.tables, app.next, app.clock, scope);
    SummaryIsSizeDrop(app.tables, app.next, app.clock, scope);
    EraseKeeps(app.tables, app.next, app.clock, scope);
    SecondEraseFindsNothing(app.tables, scope);
  }

  /** In every reachable state, erasing one scope changes no answer about another. */
  lemma ErasureFrames(env: Env, app: App, gone: Scope, scope: Scope, key: string, context: Context, id: Id, at: Time,
                      knownAt: Time)
    requires Reachable(env, app) && scope != gone
    ensures var t, e := app.tables, EraseScope(app.tables, gone);
            && ObservationByKey(e.intake, scope, key) == ObservationByKey(t.intake, scope, key)
            && CandidateForObservation(e.intake, scope, id) == CandidateForObservation(t.intake, scope, id)
            && CurrentByIdentity(e.memory, scope, key, context) == CurrentByIdentity(t.memory, scope, key, context)
            && SnapshotOf(e.memory, scope, id) == SnapshotOf(t.memory, scope, id)
            && ActiveMemories(e.memory, scope) == ActiveMemories(t.memory, scope)
            && SameHistory(e.memory, t.memory, scope, id)
            && MemoriesAsOf(env.fingerprint, e.memory, scope, at, knownAt)
                == MemoriesAsOf(env.fingerprint, t.memory, scope, at, knownAt)
            && TraceOf(e.recalls, scope, id) == TraceOf(t.recalls, scope, id)
            && UsageOf(e.deliveries, scope, id) == UsageOf(t.deliveries, scope, id)
            && UtilityFor(e.feedback, scope, id, context) == UtilityFor(t.feedback, scope, id, context)
            && UtilityForAsOf(e.feedback, e.recalls, scope, id, context, knownAt)
               == UtilityForAsOf(t.feedback, t.recalls, scope, id, context, knownAt)
  {
    ReachableIsOk(env, app);
    IntakeFramed(app.tables, app.next, gone, scope, key, id);
    CurrentFramed(app.tables, app.next, app.clock, gone, scope, key, context);
    SnapshotFramed(app.tables, app.next, app.clock, gone, scope, id);
    ActiveFramed(app.tables, app.next, app.clock, gone, scope);
    ReadFramed(env.fingerprint, app.tables, app.next, app.clock, gone, scope, at, knownAt);
    ExperienceFramed(app.tables, app.next, app.clock, gone, scope, id, id, context, knownAt);
  }

  // ---------------------------------------------------------------- recall

  lemma TablesAreKeyed(app: App)
    requires AppOk(app)
    ensures Keyed(app.tables.memory)
    ensures forall k | k in app.tables.memory.revisions :: InUnit(app.tables.memory.revisions[k].belief.confidence)
  {
    var m := app.tables.memory;
    assert forall k | k in m.records :: RecordOk(m, app.next, app.clock, k, m.records[k]);
    assert forall k | k in m.revisions :: RevisionOk(m, app.next, k, m.revisions[k]);
  }

  /** In every reachable state a recall with sound inputs is refused only for its limit, a blank query or a future
      `known_at`; otherwise it returns the true top results, ranked from 1, each relevant whatever the weights. */
  lemma RecallIsExact(env: Env, app: App, id: Id, c: RecallMemory, policy: R.Strategy, hits: map<Id, real>, now: Time)
    requires Reachable(env, app) && TopK.InputsOk(env, hits) && policy.Accepted()
    ensures var r, q := RecallTrace(env, app.tables, id, c, policy, hits, now), Resolved(c, hits, now);
            && (r.Ok? <==>
                  1 <= c.limit <= 100 && P.Strip(c.query) != ""
                  && (c.knownAt.Some? ==> c.knownAt.value <= now))
            && (r.Ok? ==>
                 && (exists all ::
                       TopK.OnePerRecord(all)
                       && (forall e :: e in all <==> TopK.Qualifies(env, app.tables, policy, q, e))
                       && TopK.AreTop(r.value.items, all, c.limit))
                 && (forall i | 0 <= i < |r.value.items| :: TopK.AdmittedAt(r.value.items, i, c, policy)))
  {
    hide *;
    ReachableIsOk(env, app);
    TablesAreKeyed(app);
    TopK.RecallSucceedsExactly(env, app.tables, id, c, policy, hits, now);
    var r := RecallTrace(env, app.tables, id, c, policy, hits, now);
    if r.Ok? {
      TopK.RecallReturnsTheBest(env, app.tables, id, c, policy, hits, now);
      forall i | 0 <= i < |r.value.items| ensures TopK.AdmittedAt(r.value.items, i, c, policy) {
        TopK.ItemsAreAdmitted(env, app.tables, id, c, policy, hits, now, i);
      }
    }
  }
}
