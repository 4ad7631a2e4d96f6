/** Retries are stable: until its scope is erased, an accepted write or correction sent again, at any later point,
    returns the original result and changes nothing. */
module Retries {
  import opened Common
  import opened Beliefs
  import opened MemoryTables
  import opened Recall
  import opened Service
  import opened MemoryInvariant
  import opened MemoryWrites
  import opened ExperienceInvariant
  import opened ScopeErasure
  import opened MemoryRuns

  /** The idempotency key leads to the accepted result of a request with these business fields. */
  ghost predicate Resolves(t: Tables, scope: Scope, key: string, b: Business, r: PreferenceResult) {
    && ObservationByKey(t.intake, scope, key).Some?
    && ExistingResult(t, ObservationByKey(t.intake, scope, key).value, b) == Ok(r.(replay := true))
  }

  predicate Untouched(t: Tables, u: Tables) {
    u.intake == t.intake && u.memory == t.memory
  }

  lemma UntouchedResolves(t: Tables, u: Tables, scope: Scope, key: string, b: Business, r: PreferenceResult)
    requires Resolves(t, scope, key, b, r) && Untouched(t, u)
    ensures Resolves(u, scope, key, b, r)
  {
  }

  lemma UsagesLeaveMemory(t: Tables, c: RecordMemoryUsage, n: Id, now: Time)
    ensures RecordUsage(t, c, n, now).Ok? ==> Untouched(t, RecordUsage(t, c, n, now).value.0)
  {
  }

  lemma OutcomesLeaveMemory(t: Tables, c: RecordOutcome, n: Id, now: Time)
    ensures Outcome(t, c, n, now).Ok? ==> Untouched(t, Outcome(t, c, n, now).value.0)
  {
  }

  lemma RecordResolves(m: Memory, next: Id, clock: Time, id: Id)
    requires MemoryOk(m, next, clock) && id in m.records
    ensures SnapshotOf(m, m.records[id].scope, id).Some?
            && SnapshotOf(m, m.records[id].scope, id).value.record == m.records[id]
  {
    assert RecordOk(m, next, clock, id, m.records[id]);
    var chain := m.chains[id];
    assert LinkOk(m, clock, m.records[id], chain, |chain| - 1);
  }

  /** What an accepted write leaves behind resolves. */
  lemma WriteResolves(t: Tables, w: Write, n: Id, clock: Time, now: Time, later: Time)
    requires StoreOk(t, n, clock) && clock <= later
    requires Ingest(t, w.scope, w.idempotencyKey, w.occurredAt, w.business, n, now, later).Ok?
    ensures var (next, r) := Ingest(t, w.scope, w.idempotencyKey, w.occurredAt, w.business, n, now, later).value;
            Resolves(next, w.scope, w.idempotencyKey, w.business, r)
  {
    IngestKeeps(t, w, n, clock, now, later);
    IngestGrows(t, w, n, clock, now, later);
    var g := Written(t.memory, w, n, now, later);
    GrownResolves(t, g, n, later, w);
  }

  lemma GrownResolves(t: Tables, g: Growth, n: Id, later: Time, w: Write)
    requires IntakeFits(t.intake, g, n) && g.revision.recordId == g.record.id && g.record.scope == w.scope
    requires MemoryOk(GrowMemory(t.memory, g), n + 6, later)
    requires g.o.scope == w.scope && g.o.key == w.idempotencyKey && g.o.kind == w.business.kind
    requires g.o.source == w.business.source && g.o.content == w.business.evidenceText
             && g.o.reason == w.business.reason
    requires g.c.key == w.business.key && g.c.value == w.business.value && g.c.context == w.business.context
    requires g.c.confidence == w.business.confidence
             && (w.business.recordId.Some? ==> g.record.id == w.business.recordId.value)
    ensures Resolves(t.(intake := GrowIntake(t.intake, g), memory := GrowMemory(t.memory, g)), w.scope,
                     w.idempotencyKey,
                     w.business, PreferenceResult(n, n + 2, g.record.id, g.revision.id, g.revision.sequence, false))
  {
    hide MemoryOk;
    var m := GrowMemory(t.memory, g);
    RecordResolves(m, n + 6, later, g.record.id);
    var chain := m.chains[g.record.id];
    assert chain[|chain| - 1] == g.revision.id;
    assert g.revision.id in chain;
  }

  lemma HistoryGrows(m: Memory, g: Growth, next: Id, clock: Time, later: Time, recordId: Id, revisionId: Id)
    requires MemoryOk(m, next, clock) && MemoryFits(m, g, next, later) && clock <= later
    requires recordId in m.records && revisionId in m.revisions
             && revisionId in History(m, m.records[recordId].scope, recordId)
    ensures var n, scope := GrowMemory(m, g), m.records[recordId].scope;
            && SnapshotOf(n, scope, recordId).Some? && revisionId in History(n, scope, recordId)
            && revisionId in n.revisions && n.revisions[revisionId] == m.revisions[revisionId]
  {
    assert RevisionOk(m, next, revisionId, m.revisions[revisionId]);
    MemoryGrows(m, g, next, clock, later);
    RecordResolves(GrowMemory(m, g), next + 6, later, recordId);
  }

  lemma IntakeKeepsRequest(i: Intake, g: Growth, next: Id, scope: Scope, key: string)
    requires IntakeOk(i, next) && IntakeFits(i, g, next) && ObservationByKey(i, scope, key).Some?
    ensures var o, j := ObservationByKey(i, scope, key).value, GrowIntake(i, g);
            && ObservationByKey(j, scope, key) == Some(o) && o.scope == scope
            && CandidateForObservation(j, scope, o.id) == CandidateForObservation(i, scope, o.id)
  {
    var o := ObservationByKey(i, scope, key).value;
    assert ObservationOk(i, next, i.observationKeys[(scope, key)], o);
    assert CandidateOk(i, next, i.candidateByObservation[o.id], i.candidates[i.candidateByObservation[o.id]]);
  }

  /** A later write leaves it resolving: its key is another one, and chains only get longer. */
  lemma GrowthKeepsResolving(t: Tables, g: Growth, n: Id, clock: Time, later: Time, scope: Scope, key: string,
                             b: Business, r: PreferenceResult)
    requires StoreOk(t, n, clock) && clock <= later && Resolves(t, scope, key, b, r)
    requires IntakeFits(t.intake, g, n) && MemoryFits(t.memory, g, n, later)
    ensures Resolves(t.(intake := GrowIntake(t.intake, g), memory := GrowMemory(t.memory, g)), scope, key, b, r)
  {
    IntakeKeepsRequest(t.intake, g, n, scope, key);
    var o := ObservationByKey(t.intake, scope, key).value;
    var (recordId, revisionId) := CandidateForObservation(t.intake, scope, o.id).value.accepted.value;
    HistoryGrows(t.memory, g, n, clock, later, recordId, revisionId);
  }

  lemma IngestKeepsResolving(t: Tables, w: Write, n: Id, clock: Time, now: Time, later: Time, scope: Scope, key: string,
                             b: Business, r: PreferenceResult)
    requires StoreOk(t, n, clock) && clock <= later && Resolves(t, scope, key, b, r)
    requires Ingest(t, w.scope, w.idempotencyKey, w.occurredAt, w.business, n, now, later).Ok?
    ensures Resolves(Ingest(t, w.scope, w.idempotencyKey, w.occurredAt, w.business, n, now, later).value.0, scope, key,
                     b, r)
  {
    IngestKeeps(t, w, n, clock, now, later);
    IngestGrows(t, w, n, clock, now, later);
    GrowthKeepsResolving(t, Written(t.memory, w, n, now, later), n, clock, later, scope, key, b, r);
  }

  lemma EraseKeepsResolving(t: Tables, n: Id, clock: Time, gone: Scope, scope: Scope, key: string, b: Business,
                            r: PreferenceResult)
    requires StoreOk(t, n, clock) && Resolves(t, scope, key, b, r) && scope != gone
    ensures Resolves(EraseScope(t, gone), scope, key, b, r)
  {
    hide EraseScope;
    var o := ObservationByKey(t.intake, scope, key).value;
    var c := CandidateForObservation(t.intake, o.scope, o.id).value;
    assert ObservationOk(t.intake, n, t.intake.observationKeys[(scope, key)], o);
    IntakeFramed(t, n, gone, scope, key, o.id);
    SnapshotFramed(t, n, clock, gone, scope, c.accepted.value.0);
    var chain := History(t.memory, scope, c.accepted.value.0);
    var k :| 0 <= k < |chain| && chain[k] == c.accepted.value.1;
  }

  lemma RememberKeepsResolving(t: Tables, c: RememberPreference, n: Id, clock: Time, now: Time, later: Time,
                               scope: Scope, key: string, b: Business, r: PreferenceResult)
    requires StoreOk(t, n, clock) && clock <= later && Resolves(t, scope, key, b, r)
             && Remember(t, c, n, now, later).Ok?
    ensures Resolves(Remember(t, c, n, now, later).value.0, scope, key, b, r)
  {
    hide StoreOk, Resolves, Ingest, ExistingResult;
    if ObservationByKey(t.intake, c.scope, c.idempotencyKey).None? {
      IngestKeepsResolving(t, Write(c.scope, c.idempotencyKey, c.occurredAt, RememberBusiness(c)), n, clock, now, later,
                           scope, key, b, r);
    }
  }

  lemma CorrectKeepsResolving(t: Tables, c: CorrectPreference, n: Id, clock: Time, now: Time, later: Time,
                              scope: Scope, key: string, b: Business, r: PreferenceResult)
    requires StoreOk(t, n, clock) && clock <= later && Resolves(t, scope, key, b, r) && Correct(t, c, n, now, later).Ok?
    ensures Resolves(Correct(t, c, n, now, later).value.0, scope, key, b, r)
  {
    hide StoreOk, Resolves, Ingest, ExistingResult;
    if ObservationByKey(t.intake, c.scope, c.idempotencyKey).None? {
      var business := CorrectBusiness(c, SnapshotOf(t.memory, c.scope, c.recordId).value.record);
      IngestKeepsResolving(t, Write(c.scope, c.idempotencyKey, c.occurredAt, business), n, clock, now, later, scope,
                           key, b, r);
    }
  }

  lemma StoredKeepsResolving(env: Env, t: Tables, call: Call, n: Id, clock: Time, now: Time, later: Time,
                             scope: Scope, key: string, b: Business, r: PreferenceResult)
    requires StoreOk(t, n, clock) && clock <= now <= later && Resolves(t, scope, key, b, r) && call != EraseCall(scope)
    ensures Stored(env, t, call, n, now, later).Ok?
            ==> Resolves(Stored(env, t, call, n, now, later).value, scope, key, b, r)
  {
    hide Remember, Correct, RecallTrace, RecordUsage, Outcome, EraseScope, StoreOk, Resolves;
    match call
    case RememberCall(c, _, _) =>
      if Remember(t, c, n, now, later).Ok? {
        RememberKeepsResolving(t, c, n, clock, now, later, scope, key, b, r);
      }
    case CorrectCall(c, _, _) =>
      if Correct(t, c, n, now, later).Ok? {
        CorrectKeepsResolving(t, c, n, clock, now, later, scope, key, b, r);
      }
    case RecallCall(c, policy, hits, _) =>
      if RecallTrace(env, t, n, c, policy, hits, now).Ok? {
        UntouchedResolves(t, Stored(env, t, call, n, now, later).value, scope, key, b, r);
      }
    case UsageCall(c, _) =>
      if RecordUsage(t, c, n, now).Ok? {
        UsagesLeaveMemory(t, c, n, now);
        UntouchedResolves(t, RecordUsage(t, c, n, now).value.0, scope, key, b, r);
      }
    case OutcomeCall(c, _) =>
      if Outcome(t, c, n, now).Ok? {
        OutcomesLeaveMemory(t, c, n, now);
        UntouchedResolves(t, Outcome(t, c, n, now).value.0, scope, key, b, r);
      }
    case EraseCall(gone) => EraseKeepsResolving(t, n, clock, gone, scope, key, b, r);
  }

  lemma {:induction false} RunKeepsResolving(env: Env, app: App, calls: seq<Call>, scope: Scope, key: string,
                                             b: Business, r: PreferenceResult)
    requires AppOk(app) && Resolves(app.tables, scope, key, b, r) && EraseCall(scope) !in calls
    ensures Resolves(Run(env, app, calls).tables, scope, key, b, r)
    decreases |calls|
  {
    hide StoreOk, Stored, Resolves;
    if calls != [] {
      var init, last := calls[..|calls| - 1], calls[|calls| - 1];
      RunKeepsResolving(env, app, init, scope, key, b, r);
      RunKeeps(env, app, init);
      var a := Run(env, app, init);
      StoredKeepsResolving(env, a.tables, last, a.next, a.clock, First(last, a.clock), Second(last, a.clock), scope,
                           key, b, r);
    }
  }

  /** Everything but the time the caller supplies. */
  predicate SameRequest(a: RememberPreference, b: RememberPreference) {
    a == b.(occurredAt := a.occurredAt)
  }

  lemma RememberResolves(t: Tables, c: RememberPreference, n: Id, clock: Time, now: Time, later: Time)
    requires StoreOk(t, n, clock) && clock <= later && Remember(t, c, n, now, later).Ok?
    ensures var (next, r) := Remember(t, c, n, now, later).value;
            Resolves(next, c.scope, c.idempotencyKey, RememberBusiness(c), r)
  {
    if ObservationByKey(t.intake, c.scope, c.idempotencyKey).None? {
      var w := Write(c.scope, c.idempotencyKey, c.occurredAt, RememberBusiness(c));
      IngestKeeps(t, w, n, clock, now, later);
      WriteResolves(t, w, n, clock, now, later);
    }
  }

  lemma CorrectResolves(t: Tables, c: CorrectPreference, n: Id, clock: Time, now: Time, later: Time)
    requires StoreOk(t, n, clock) && clock <= later && Correct(t, c, n, now, later).Ok?
    ensures var (next, r) := Correct(t, c, n, now, later).value;
            Resolves(next, c.scope, c.idempotencyKey,
                     CorrectBusiness(c, SnapshotOf(t.memory, c.scope, c.recordId).value.record), r)
  {
    hide IntakeOk, MemoryOk, LinksOk, ExperienceOk, Ingest;
    if ObservationByKey(t.intake, c.scope, c.idempotencyKey).None? {
      var b := CorrectBusiness(c, SnapshotOf(t.memory, c.scope, c.recordId).value.record);
      var w := Write(c.scope, c.idempotencyKey, c.occurredAt, b);
      IngestKeeps(t, w, n, clock, now, later);
      WriteResolves(t, w, n, clock, now, later);
    }
  }

  /** An accepted write, sent again after any further calls that do not erase its scope, returns the original
      observation, candidate, record, revision and sequence, and changes no table. */
  lemma RememberIsStable(env: Env, app: App, c: RememberPreference, now: Time, later: Time, calls: seq<Call>,
                         again: RememberPreference, n: Id, t1: Time, t2: Time)
    requires Reachable(env, app) && EraseCall(c.scope) !in calls && SameRequest(again, c)
    requires Remember(app.tables, c, app.next, First(RememberCall(c, now, later), app.clock),
                      Second(RememberCall(c, now, later), app.clock)).Ok?
    ensures var call := RememberCall(c, now, later);
            var r := Remember(app.tables, c, app.next, First(call, app.clock), Second(call, app.clock)).value.1;
            var end := Run(env, Do(env, app, call), calls).tables;
            Remember(end, again, n, t1, t2) == Ok((end, r.(replay := true)))
  {
    var call := RememberCall(c, now, later);
    var a := Do(env, app, call);
    ReachableIsOk(env, app);
    DoKeeps(env, app, call);
    RememberResolves(app.tables, c, app.next, app.clock, First(call, app.clock), Second(call, app.clock));
    var r := Remember(app.tables, c, app.next, First(call, app.clock), Second(call, app.clock)).value.1;
    RunKeepsResolving(env, a, calls, c.scope, c.idempotencyKey, RememberBusiness(c), r);
  }

  /** Everything but the caller's time and its expectation about the head, which a retry does not check again. */
  predicate SameCorrection(a: CorrectPreference, b: CorrectPreference) {
    a == b.(occurredAt := a.occurredAt, expectedRevisionId := a.expectedRevisionId)
  }

  /** While a correction resolves, its record shows the identity the request was matched against. */
  lemma CorrectionReplays(t: Tables, next: Id, clock: Time, c: CorrectPreference, record: Record, r: PreferenceResult,
                          n: Id, t1: Time, t2: Time)
    requires StoreOk(t, next, clock) && Resolves(t, c.scope, c.idempotencyKey, CorrectBusiness(c, record), r)
    ensures Correct(t, c, n, t1, t2) == Ok((t, r.(replay := true)))
  {
    var i, m := t.intake, t.memory;
    var o := ObservationByKey(i, c.scope, c.idempotencyKey).value;
    assert ObservationOk(i, next, i.observationKeys[(c.scope, c.idempotencyKey)], o);
    var candidate := CandidateForObservation(i, c.scope, o.id).value;
    assert AcceptedOk(m, candidate);
    assert candidate.accepted.value.0 == c.recordId;
    assert RecordOk(m, next, clock, c.recordId, m.records[c.recordId]);
    assert CorrectBusiness(c, m.records[c.recordId]) == CorrectBusiness(c, record);
  }

  /** The same for an accepted correction. */
  lemma CorrectIsStable(env: Env, app: App, c: CorrectPreference, now: Time, later: Time, calls: seq<Call>,
                        again: CorrectPreference, n: Id, t1: Time, t2: Time)
    requires Reachable(env, app) && EraseCall(c.scope) !in calls && SameCorrection(again, c)
    requires Correct(app.tables, c, app.next, First(CorrectCall(c, now, later), app.clock),
                     Second(CorrectCall(c, now, later), app.clock)).Ok?
    ensures var call := CorrectCall(c, now, later);
            var r := Correct(app.tables, c, app.next, First(call, app.clock), Second(call, app.clock)).value.1;
            var end := Run(env, Do(env, app, call), calls).tables;
            Correct(end, again, n, t1, t2) == Ok((end, r.(replay := true)))
  {
    hide StoreOk, Reachable, Resolves, Run, Ingest;
    var call := CorrectCall(c, now, later);
    var a, record := Do(env, app, call), SnapshotOf(app.tables.memory, c.scope, c.recordId).value.record;
    ReachableIsOk(env, app);
    DoKeeps(env, app, call);
    CorrectResolves(app.tables, c, app.next, app.clock, First(call, app.clock), Second(call, app.clock));
    var r := Correct(app.tables, c, app.next, First(call, app.clock), Second(call, app.clock)).value.1;
    RunKeepsResolving(env, a, calls, c.scope, c.idempotencyKey, CorrectBusiness(c, record), r);
    RunKeeps(env, a, calls);
    var end := Run(env, a, calls);
    assert CorrectBusiness(again, record) == CorrectBusiness(c, record);
    CorrectionReplays(end.tables, end.next, end.clock, again, record, r, n, t1, t2);
  }
}
