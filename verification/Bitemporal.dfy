/** Bitemporal recall is reproducible: what a recall as of a known time returns does not change with anything recorded
    later, as long as its scope is not erased. */
module Bitemporal {
  import opened Common
  import opened MemoryTables
  import opened Recall
  import opened Service
  import opened AsOf
  import opened MemoryInvariant
  import opened MemoryWrites
  import opened ExperienceInvariant
  import opened ScopeErasure
  import opened MemoryRuns
  import T = Traces
  import R = Registry

  /** Both stores answer alike about the scope as known at `knownAt`. */
  ghost predicate SameKnowledge(fingerprint: Context -> string, s: Tables, t: Tables, scope: Scope, knownAt: Time) {
    && (forall validAt ::
          MemoriesAsOf(fingerprint, s.memory, scope, validAt, knownAt)
          == MemoriesAsOf(fingerprint, t.memory, scope, validAt, knownAt))
    && (forall revisionId, context ::
         UtilityForAsOf(s.feedback, s.recalls, scope, revisionId, context, knownAt)
         == UtilityForAsOf(t.feedback, t.recalls, scope, revisionId, context, knownAt))
  }

  // ---------------------------------------------------------------- a recall depends on nothing else

  lemma {:induction false} SameScores(env: Env, s: Tables, t: Tables, policy: R.Strategy, q: Query,
                                      snapshots: seq<Snapshot>)
    requires SameKnowledge(env.fingerprint, s, t, q.command.scope, q.knownAt)
    ensures Scored(env, s, policy, q, snapshots) == Scored(env, t, policy, q, snapshots)
    decreases |snapshots|
  {
    hide EntryFor, SameKnowledge;
    if snapshots != [] {
      SameScores(env, s, t, policy, q, snapshots[..|snapshots| - 1]);
      SameEntry(env, s, t, policy, q, snapshots[|snapshots| - 1]);
    }
  }

  lemma SameEntry(env: Env, s: Tables, t: Tables, policy: R.Strategy, q: Query, snapshot: Snapshot)
    requires SameKnowledge(env.fingerprint, s, t, q.command.scope, q.knownAt)
    ensures EntryFor(env, s, policy, q, snapshot) == EntryFor(env, t, policy, q, snapshot)
  {
    hide MemoriesAsOf, UtilityForAsOf;
  }

  lemma SameEntries(env: Env, s: Tables, t: Tables, policy: R.Strategy, q: Query)
    requires SameKnowledge(env.fingerprint, s, t, q.command.scope, q.knownAt)
    ensures Entries(env, s, policy, q) == Entries(env, t, policy, q)
  {
    SameScores(env, s, t, policy, q, MemoriesAsOf(env.fingerprint, s.memory, q.command.scope, q.validAt, q.knownAt));
  }

  // ---------------------------------------------------------------- later writes

  /** A revision recorded later is no candidate for the maximum. */
  lemma LaterRevisionIsUnseen(m: Memory, n: Memory, chain: seq<Id>, last: Id, validAt: Time, knownAt: Time)
    requires last in n.revisions && n.revisions[last].recordedAt > knownAt
    requires forall k | 0 <= k < |chain| ::
               chain[k] in m.revisions && chain[k] in n.revisions
               && n.revisions[chain[k]] == m.revisions[chain[k]]
    ensures Best(n, chain + [last], validAt, knownAt) == Best(m, chain, validAt, knownAt)
  {
    assert (chain + [last])[..|chain|] == chain;
    BestFramed(m, n, chain, validAt, knownAt);
  }

  lemma GrowthIsUnseen(m: Memory, g: Growth, next: Id, clock: Time, later: Time, id: Id, validAt: Time, knownAt: Time)
    requires MemoryOk(m, next, clock) && MemoryFits(m, g, next, later) && clock <= later && knownAt < later
    ensures SnapshotAsOf(GrowMemory(m, g), id, validAt, knownAt) == SnapshotAsOf(m, id, validAt, knownAt)
  {
    var n := GrowMemory(m, g);
    if id in m.records {
      var chain := m.chains[id];
      assert RecordOk(m, next, clock, id, m.records[id]);
      forall k | 0 <= k < |chain|
          ensures chain[k] in m.revisions && chain[k] in n.revisions && n.revisions[chain[k]] == m.revisions[chain[k]] {
        assert LinkOk(m, clock, m.records[id], chain, k);
        assert RevisionOk(m, next, chain[k], m.revisions[chain[k]]);
      }
      if id == g.record.id {
        LaterRevisionIsUnseen(m, n, chain, g.revision.id, validAt, knownAt);
      } else {
        BestFramed(m, n, chain, validAt, knownAt);
      }
    }
  }

  lemma GrowthKeepsKnowledge(fingerprint: Context -> string, t: Tables, g: Growth, next: Id, clock: Time, later: Time,
                             scope: Scope, knownAt: Time)
    requires MemoryOk(t.memory, next, clock) && MemoryFits(t.memory, g, next, later) && clock <= later
             && knownAt < later
    ensures SameKnowledge(fingerprint, t, t.(intake := GrowIntake(t.intake, g), memory := GrowMemory(t.memory, g)),
                          scope, knownAt)
  {
    var m, n := t.memory, GrowMemory(t.memory, g);
    forall validAt ensures MemoriesAsOf(fingerprint, m, scope, validAt, knownAt)
        == MemoriesAsOf(fingerprint, n, scope, validAt, knownAt) {
      forall id ensures SnapshotAsOf(n, id, validAt, knownAt) == SnapshotAsOf(m, id, validAt, knownAt) {
        GrowthIsUnseen(m, g, next, clock, later, id, validAt, knownAt);
      }
      assert VisibleRecords(m, scope, validAt, knownAt) == VisibleRecords(n, scope, validAt, knownAt);
      SameView(fingerprint, m, n, scope, validAt, knownAt);
    }
  }

  lemma IngestKeepsKnowledge(fingerprint: Context -> string, t: Tables, w: Write, n: Id, clock: Time, now: Time,
                             later: Time, scope: Scope, knownAt: Time)
    requires StoreOk(t, n, clock) && clock <= later && knownAt < later
    requires Ingest(t, w.scope, w.idempotencyKey, w.occurredAt, w.business, n, now, later).Ok?
    ensures SameKnowledge(fingerprint, t,
                          Ingest(t, w.scope, w.idempotencyKey, w.occurredAt, w.business, n, now, later).value.0, scope,
                              knownAt)
  {
    IngestKeeps(t, w, n, clock, now, later);
    IngestGrows(t, w, n, clock, now, later);
    GrowthKeepsKnowledge(fingerprint, t, Written(t.memory, w, n, now, later), n, clock, later, scope, knownAt);
  }

  // ---------------------------------------------------------------- later outcomes, recalls and erasures

  lemma OutcomeIsUnseen(f: Feedback, r: Recalls, next: Id, clock: Time, o: OutcomeEvent, scope: Scope, revisionId: Id,
                        context: Context, knownAt: Time)
    requires FeedbackOk(f, r, next, clock) && o.id == next && o.recordedAt > knownAt && 0.0 < o.weight
    requires o.traceId in r.traces && (o.scope, o.key) !in f.outcomeKeys
    ensures UtilityForAsOf(ApplyOutcome(f, o, r.traces[o.traceId].context).value.0, r, scope, revisionId, context,
                           knownAt)
            == UtilityForAsOf(f, r, scope, revisionId, context, knownAt)
  {
    var g := ApplyOutcome(f, o, r.traces[o.traceId].context).value.0;
    OutcomeKeepsLog(f, r, next, clock, o, scope, revisionId, context, knownAt);
    assert g.order[..|g.order| - 1] == f.order;
  }

  lemma FeedbackKeepsKnowledge(fingerprint: Context -> string, t: Tables, o: OutcomeEvent, n: Id, clock: Time,
                               scope: Scope, knownAt: Time)
    requires FeedbackOk(t.feedback, t.recalls, n, clock) && o.id == n && o.recordedAt > knownAt && 0.0 < o.weight
    requires o.traceId in t.recalls.traces && (o.scope, o.key) !in t.feedback.outcomeKeys
    ensures var g := ApplyOutcome(t.feedback, o, t.recalls.traces[o.traceId].context).value.0;
            SameKnowledge(fingerprint, t, t.(feedback := g), scope, knownAt)
  {
    var g := ApplyOutcome(t.feedback, o, t.recalls.traces[o.traceId].context).value.0;
    forall revisionId, context
      ensures UtilityForAsOf(t.feedback, t.recalls, scope, revisionId, context, knownAt)
              == UtilityForAsOf(g, t.recalls, scope, revisionId, context, knownAt)
    {
      OutcomeIsUnseen(t.feedback, t.recalls, n, clock, o, scope, revisionId, context, knownAt);
    }
  }

  lemma OutcomeStores(t: Tables, c: RecordOutcome, n: Id, now: Time)
    requires Outcome(t, c, n, now).Ok?
    ensures var applied := ApplyOutcome(t.feedback, OutcomeFor(c, n, now), Attributable(t, c).value.context);
            && applied.Ok? && Outcome(t, c, n, now).value.0 == t.(feedback := applied.value.0) && 0.0 < c.weight
            && (applied.value.0 == t.feedback || (c.scope, c.idempotencyKey) !in t.feedback.outcomeKeys)
  {
  }

  lemma RecordOutcomeKeepsKnowledge(fingerprint: Context -> string, t: Tables, c: RecordOutcome, n: Id, clock: Time,
                                    now: Time, scope: Scope, knownAt: Time)
    requires StoreOk(t, n, clock) && knownAt < now && Outcome(t, c, n, now).Ok?
    ensures SameKnowledge(fingerprint, t, Outcome(t, c, n, now).value.0, scope, knownAt)
  {
    AttributionHolds(t, n, clock, c);
    OutcomeStores(t, c, n, now);
    var o := OutcomeFor(c, n, now);
    if (c.scope, c.idempotencyKey) !in t.feedback.outcomeKeys {
      FeedbackKeepsKnowledge(fingerprint, t, o, n, clock, scope, knownAt);
    }
  }

  lemma RecordUsageKeepsKnowledge(fingerprint: Context -> string, t: Tables, c: RecordMemoryUsage, n: Id, now: Time,
                                  scope: Scope, knownAt: Time)
    requires RecordUsage(t, c, n, now).Ok?
    ensures SameKnowledge(fingerprint, t, RecordUsage(t, c, n, now).value.0, scope, knownAt)
  {
    hide MemoriesAsOf, UtilityForAsOf, Citable;
  }

  lemma TraceKeepsKnowledge(fingerprint: Context -> string, t: Tables, n: Id, clock: Time, trace: T.Trace, scope: Scope,
                            knownAt: Time)
    requires StoreOk(t, n, clock)
    ensures SameKnowledge(fingerprint, t, t.(recalls := Recalls(t.recalls.traces[n := trace])), scope, knownAt)
  {
    var r, s := t.recalls, Recalls(t.recalls.traces[n := trace]);
    assert forall id | id in r.traces :: TraceOk(t.memory, n, clock, id, r.traces[id]);
    forall id | id in t.feedback.outcomes ensures t.feedback.outcomes[id].traceId in r.traces {
      assert OutcomeOk(t.feedback, r, n, clock, id, t.feedback.outcomes[id]);
    }
    forall revisionId, context
      ensures UtilityForAsOf(t.feedback, r, scope, revisionId, context, knownAt)
              == UtilityForAsOf(t.feedback, s, scope, revisionId, context, knownAt)
    {
      LogIgnoresNewTrace(t.feedback, r, s, scope, revisionId, context, knownAt, t.feedback.order);
    }
  }

  lemma EraseKeepsKnowledge(fingerprint: Context -> string, t: Tables, n: Id, clock: Time, gone: Scope, scope: Scope,
                            knownAt: Time)
    requires StoreOk(t, n, clock) && scope != gone
    ensures SameKnowledge(fingerprint, t, EraseScope(t, gone), scope, knownAt)
  {
    forall validAt
      ensures MemoriesAsOf(fingerprint, t.memory, scope, validAt, knownAt)
              == MemoriesAsOf(fingerprint, EraseScope(t, gone).memory, scope, validAt, knownAt)
    {
      ReadFramed(fingerprint, t, n, clock, gone, scope, validAt, knownAt);
    }
    forall revisionId, context
      ensures UtilityForAsOf(t.feedback, t.recalls, scope, revisionId, context, knownAt)
              == UtilityForAsOf(EraseScope(t, gone).feedback, EraseScope(t, gone).recalls, scope, revisionId, context,
                                knownAt)
    {
      LogErased(t, n, clock, gone, scope, revisionId, context, knownAt, t.feedback.order);
    }
  }

  // ---------------------------------------------------------------- runs

  lemma RememberKeepsKnowledge(fingerprint: Context -> string, t: Tables, c: RememberPreference, n: Id, clock: Time,
                               now: Time, later: Time, scope: Scope, knownAt: Time)
    requires StoreOk(t, n, clock) && clock <= later && knownAt < later && Remember(t, c, n, now, later).Ok?
    ensures SameKnowledge(fingerprint, t, Remember(t, c, n, now, later).value.0, scope, knownAt)
  {
    if ObservationByKey(t.intake, c.scope, c.idempotencyKey).None? {
      IngestKeepsKnowledge(fingerprint, t, Write(c.scope, c.idempotencyKey, c.occurredAt, RememberBusiness(c)), n,
                           clock, now, later, scope, knownAt);
    }
  }

  lemma CorrectKeepsKnowledge(fingerprint: Context -> string, t: Tables, c: CorrectPreference, n: Id, clock: Time,
                              now: Time, later: Time, scope: Scope, knownAt: Time)
    requires StoreOk(t, n, clock) && clock <= later && knownAt < later && Correct(t, c, n, now, later).Ok?
    ensures SameKnowledge(fingerprint, t, Correct(t, c, n, now, later).value.0, scope, knownAt)
  {
    if ObservationByKey(t.intake, c.scope, c.idempotencyKey).None? {
      var b := CorrectBusiness(c, SnapshotOf(t.memory, c.scope, c.recordId).value.record);
      IngestKeepsKnowledge(fingerprint, t, Write(c.scope, c.idempotencyKey, c.occurredAt, b), n, clock, now, later,
                           scope, knownAt);
    }
  }

  lemma StoredKeepsKnowledge(env: Env, t: Tables, call: Call, n: Id, clock: Time, now: Time, later: Time, scope: Scope,
                             knownAt: Time)
    requires StoreOk(t, n, clock) && clock <= now <= later && call != EraseCall(scope)
             && (call.EraseCall? || knownAt < now)
    ensures Stored(env, t, call, n, now, later).Ok?
            ==> SameKnowledge(env.fingerprint, t, Stored(env, t, call, n, now, later).value, scope, knownAt)
  {
    hide Remember, Correct, RecallTrace, RecordUsage, Outcome, EraseScope, StoreOk, SameKnowledge;
    match call
    case RememberCall(c, _, _) =>
      if Remember(t, c, n, now, later).Ok? {
        RememberKeepsKnowledge(env.fingerprint, t, c, n, clock, now, later, scope, knownAt);
      }
    case CorrectCall(c, _, _) =>
      if Correct(t, c, n, now, later).Ok? {
        CorrectKeepsKnowledge(env.fingerprint, t, c, n, clock, now, later, scope, knownAt);
      }
    case RecallCall(c, policy, hits, _) =>
      if RecallTrace(env, t, n, c, policy, hits, now).Ok? {
        TraceKeepsKnowledge(env.fingerprint, t, n, clock, RecallTrace(env, t, n, c, policy, hits, now).value, scope,
                            knownAt);
      }
    case UsageCall(c, _) =>
      if RecordUsage(t, c, n, now).Ok? {
        RecordUsageKeepsKnowledge(env.fingerprint, t, c, n, now, scope, knownAt);
      }
    case OutcomeCall(c, _) =>
      if Outcome(t, c, n, now).Ok? {
        RecordOutcomeKeepsKnowledge(env.fingerprint, t, c, n, clock, now, scope, knownAt);
      }
    case EraseCall(gone) => EraseKeepsKnowledge(env.fingerprint, t, n, clock, gone, scope, knownAt);
  }

  /** Every clock reading of the calls is strictly later, and none of them erases the scope. */
  ghost predicate RecordedAfter(env: Env, app: App, calls: seq<Call>, scope: Scope, knownAt: Time)
    decreases |calls|
  {
    calls != [] ==>
      var init, last := calls[..|calls| - 1], calls[|calls| - 1];
      && RecordedAfter(env, app, init, scope, knownAt)
      && last != EraseCall(scope) && (last.EraseCall? || knownAt < First(last, Run(env, app, init).clock))
  }

  lemma {:induction false} RunKeepsKnowledge(env: Env, app: App, calls: seq<Call>, scope: Scope, knownAt: Time)
    requires AppOk(app) && RecordedAfter(env, app, calls, scope, knownAt)
    ensures SameKnowledge(env.fingerprint, app.tables, Run(env, app, calls).tables, scope, knownAt)
    decreases |calls|
  {
    hide StoreOk, Stored;
    if calls != [] {
      var init, last := calls[..|calls| - 1], calls[|calls| - 1];
      RunKeepsKnowledge(env, app, init, scope, knownAt);
      RunKeeps(env, app, init);
      var a := Run(env, app, init);
      StoredKeepsKnowledge(env, a.tables, last, a.next, a.clock, First(last, a.clock), Second(last, a.clock), scope,
                           knownAt);
    }
  }

  /** The same entries give the same items, whenever and under whatever identifier. */
  lemma SameItems(env: Env, s: Tables, t: Tables, c: RecallMemory, policy: R.Strategy, n: Id, now: Time, n': Id,
                  now': Time)
    requires c.validAt.Some? && c.knownAt.Some? && c.knownAt.value <= now'
    requires Entries(env, s, policy, Resolved(c, map[], now)) == Entries(env, t, policy, Resolved(c, map[], now'))
    requires RecallTrace(env, s, n, c, policy, map[], now).Ok?
    ensures RecallTrace(env, t, n', c, policy, map[], now').Ok?
    ensures RecallTrace(env, t, n', c, policy, map[], now').value.items
            == RecallTrace(env, s, n, c, policy, map[], now).value.items
  {
    hide Entries, ItemsOf, Sorting.FirstSorted, T.ItemAccepted;
  }

  /** A recall with both times given and no projection, repeated with the same policy after any calls recorded strictly
      after its `known_at`, returns the same items, whenever it is repeated. */
  lemma RecallIsReproducible(env: Env, app: App, c: RecallMemory, policy: R.Strategy, calls: seq<Call>, n: Id,
                             now: Time, n': Id, now': Time)
    requires Reachable(env, app) && c.validAt.Some? && c.knownAt.Some? && c.knownAt.value <= now'
    requires RecordedAfter(env, app, calls, c.scope, c.knownAt.value)
    requires RecallTrace(env, app.tables, n, c, policy, map[], now).Ok?
    ensures var again := RecallTrace(env, Run(env, app, calls).tables, n', c, policy, map[], now');
            again.Ok? && again.value.items == RecallTrace(env, app.tables, n, c, policy, map[], now).value.items
  {
    ReachableIsOk(env, app);
    RunKeepsKnowledge(env, app, calls, c.scope, c.knownAt.value);
    var end := Run(env, app, calls).tables;
    assert Resolved(c, map[], now) == Resolved(c, map[], now');
    SameEntries(env, app.tables, end, policy, Resolved(c, map[], now));
    SameItems(env, app.tables, end, c, policy, n, now, n', now');
  }
}
