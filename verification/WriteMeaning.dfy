/** What remembering and correcting a preference mean: every stored field in terms of the command, which commands are
    accepted, and what a used key answers. */
module WriteMeaning {
  import opened Common
  import opened Beliefs
  import opened MemoryTables
  import opened Recall
  import opened Service
  import opened MemoryInvariant
  import opened MemoryWrites
  import opened MemoryRuns
  import opened ExperienceInvariant
  import opened ScopeErasure
  import opened Retries

  /** The evidence behind the result: one observation with its span and its candidate, accepted as the result says. */
  ghost predicate EvidenceStored(i: Intake, r: PreferenceResult, scope: Scope, kind: ObservationKind, source: string,
                                 text: string, idempotencyKey: string, occurredAt: Time, reason: Option<string>,
                                 now: Time)
  {
    && r.observationId in i.observations && r.candidateId in i.candidates
    && (scope, idempotencyKey) in i.observationKeys && i.observationKeys[(scope, idempotencyKey)] == r.observationId
    && i.observations[r.observationId] == Observation(
         id := r.observationId, scope := scope, kind := kind, source := source, content := text, key := idempotencyKey,
         occurredAt := occurredAt, ingestedAt := now, reason := reason)
    && var c := i.candidates[r.candidateId];
    && c.observationId == r.observationId && c.accepted == Some((r.recordId, r.revisionId)) && |c.evidenceIds| == 1
    && c.evidenceIds[0] in i.evidence
    && i.evidence[c.evidenceIds[0]].observationId == r.observationId && i.evidence[c.evidenceIds[0]].quote == text
  }

  /** What the candidate claims. */
  ghost predicate Claims(c: Candidate, scope: Scope, key: string, value: string, context: Context, confidence: real,
                         now: Time) {
    && c.scope == scope && c.key == key && c.value == value && c.context == context && c.confidence == confidence
    && c.proposedAt == now
  }

  /** The result's revision is the head of its record, with the value, in force from when it was said. */
  ghost predicate RevisionStored(m: Memory, r: PreferenceResult, scope: Scope, key: string, context: Context,
                                 value: string, validFrom: Time, recordedAt: Time)
  {
    && r.recordId in m.records && r.revisionId in m.revisions
    && (var record := m.records[r.recordId];
        record.scope == scope && record.key == key && record.context == context && record.kind == Preference)
    && (var v := m.revisions[r.revisionId];
        && v.recordId == r.recordId && v.sequence == r.sequence && v.value == value && v.validFrom == validFrom
        && v.recordedAt == recordedAt)
    && (scope, key, context) in m.identities && m.identities[(scope, key, context)] == r.recordId
    && r.recordId in m.active && m.active[r.recordId] == r.revisionId
  }

  /** Fresh evidence stands alone; evidence for the value already held adds to its belief. */
  ghost predicate BeliefStored(v: Revision, head: Option<Revision>, span: Id, confidence: real, source: string,
                               at: Time) {
    if head.Some? && head.value.value == v.value then
      && v.evidenceIds == head.value.evidenceIds + [span]
      && v.belief.confidence == Least(0.995, 1.0 - (1.0 - head.value.belief.confidence) * (1.0 - confidence))
      && v.belief.supportCount == head.value.belief.supportCount + 1
      && (head.value.belief.sourceKeys != {} ==> v.belief.sourceKeys == head.value.belief.sourceKeys + {source})
      && (v.belief.lastEvidenceAt == if at >= head.value.belief.lastEvidenceAt then at
                                     else head.value.belief.lastEvidenceAt)
    else
      && v.evidenceIds == [span] && v.belief.confidence == confidence && v.belief.supportCount == 1
      && v.belief.contradictionCount == 0 && v.belief.sourceDiversity == 1 && v.belief.sourceKeys == {source}
      && v.belief.lastEvidenceAt == at
  }

  /** The last transition tells how the revision came about: it supersedes the head there was, or starts the record. */
  ghost predicate TransitionStored(m: Memory, r: PreferenceResult, head: Option<Revision>, reason: Option<string>,
                                   at: Time)
    requires r.revisionId in m.revisions
  {
    && m.transitions != []
    && (var last := m.transitions[|m.transitions| - 1];
        && last.recordId == r.recordId && last.to == r.revisionId && last.reason == reason && last.at == at
        && last.kind == (if head.Some? then Superseded else Created)
        && last.from == m.revisions[r.revisionId].supersedes
        && last.from == (if head.Some? then Some(head.value.id) else None))
    && r.sequence == (if head.Some? then head.value.sequence + 1 else 1)
  }

  /** The head of the identity's record before the write. */
  ghost function HeadOf(m: Memory, scope: Scope, key: string, context: Context): Option<Revision> {
    if (scope, key, context) in m.identities && m.identities[(scope, key, context)] in m.active
       && m.active[m.identities[(scope, key, context)]] in m.revisions then
      Some(m.revisions[m.active[m.identities[(scope, key, context)]]])
    else None
  }

  lemma CurrentIsHead(m: Memory, next: Id, clock: Time, scope: Scope, key: string, context: Context)
    requires MemoryOk(m, next, clock)
    ensures var current := CurrentByIdentity(m, scope, key, context);
            && (current.Some? <==> (scope, key, context) in m.identities)
            && HeadOf(m, scope, key, context) == (if current.Some? then Some(current.value.revision) else None)
            && (current.Some? ==> m.identities[(scope, key, context)] == current.value.record.id)
  {
    if (scope, key, context) in m.identities {
      IdentityResolves(m, next, clock, (scope, key, context));
      KnownIdentity(m, next, clock, scope, m.identities[(scope, key, context)]);
    }
  }

  /** Everything a write leaves behind. */
  ghost predicate WriteStored(t: Tables, next: Tables, r: PreferenceResult, scope: Scope, idempotencyKey: string,
                         kind: ObservationKind, source: string, text: string, key: string, value: string,
                         context: Context, confidence: real, occurredAt: Time, reason: Option<string>, now: Time,
                         later: Time)
  {
    && !r.replay
    && EvidenceStored(next.intake, r, scope, kind, source, text, idempotencyKey, occurredAt, reason, now)
    && Claims(next.intake.candidates[r.candidateId], scope, key, value, context, confidence, now)
    && RevisionStored(next.memory, r, scope, key, context, value, occurredAt, later)
    && var head := HeadOf(t.memory, scope, key, context);
    && BeliefStored(next.memory.revisions[r.revisionId], head, next.intake.candidates[r.candidateId].evidenceIds[0],
                    confidence, source, occurredAt)
    && TransitionStored(next.memory, r, head, reason, later)
  }

  /** The result of an accepted write. */
  function ResultOf(g: Growth, n: Id): PreferenceResult {
    PreferenceResult(n, n + 2, g.record.id, g.revision.id, g.revision.sequence, false)
  }

  lemma WrittenEvidence(i: Intake, m: Memory, w: Write, n: Id, now: Time, later: Time)
    ensures var g, b := Written(m, w, n, now, later), w.business;
            var j := GrowIntake(i, g);
            && EvidenceStored(j, ResultOf(g, n), w.scope, b.kind, b.source, b.evidenceText, w.idempotencyKey,
                              w.occurredAt, b.reason, now)
            && Claims(j.candidates[n + 2], w.scope, b.key, b.value, b.context, b.confidence, now)
            && j.candidates[n + 2].evidenceIds == [n + 1]
  {
    hide WrittenRevision, WrittenRecord, WrittenTransition;
  }

  lemma WrittenMemory(m: Memory, w: Write, n: Id, clock: Time, now: Time, later: Time)
    requires MemoryOk(m, n, clock) && InUnit(w.business.confidence)
    ensures var g, b := Written(m, w, n, now, later), w.business;
            var next, head := GrowMemory(m, g), HeadOf(m, w.scope, b.key, b.context);
            && RevisionStored(next, ResultOf(g, n), w.scope, b.key, b.context, b.value, w.occurredAt, later)
            && BeliefStored(next.revisions[g.revision.id], head, n + 1, b.confidence, b.source, w.occurredAt)
            && TransitionStored(next, ResultOf(g, n), head, b.reason, later)
  {
    hide MemoryOk, CurrentByIdentity, RecordOk;
    CurrentIsHead(m, n, clock, w.scope, w.business.key, w.business.context);
    if Current(m, w).Some? {
      NextRevisionGrows(m, w, n, clock, now, later);
      CurrentIsSound(m, n, clock, w);
    }
  }

  lemma CurrentIsSound(m: Memory, n: Id, clock: Time, w: Write)
    requires MemoryOk(m, n, clock) && Current(m, w).Some?
    ensures Current(m, w).value.record.kind == Preference && InUnit(Current(m, w).value.revision.belief.confidence)
    ensures InUnit(w.business.confidence) ==> Reinforced(Current(m, w).value.revision.belief, WrittenItem(w)).Ok?
  {
    var s := Current(m, w).value;
    KnownIdentity(m, n, clock, w.scope, m.identities[(w.scope, w.business.key, w.business.context)]);
    assert RevisionOk(m, n, s.revision.id, s.revision);
  }

  lemma IngestStores(t: Tables, w: Write, n: Id, clock: Time, now: Time, later: Time)
    requires WritesOk(t, n, clock) && clock <= later
    requires Ingest(t, w.scope, w.idempotencyKey, w.occurredAt, w.business, n, now, later).Ok?
    ensures var (next, r) := Ingest(t, w.scope, w.idempotencyKey, w.occurredAt, w.business, n, now, later).value;
            var b := w.business;
            && WriteStored(t, next, r, w.scope, w.idempotencyKey, b.kind, b.source, b.evidenceText, b.key, b.value,
                           b.context, b.confidence, w.occurredAt, b.reason, now, later)
            && (b.recordId.Some? ==> r.recordId == b.recordId.value)
  {
    hide IntakeOk, MemoryOk, LinksOk, Ingest, IntakeFits, MemoryFits, CurrentByIdentity, EvidenceStored, BeliefStored,
         RevisionStored, TransitionStored;
    IngestKeeps(t, w, n, clock, now, later);
    IngestGrows(t, w, n, clock, now, later);
    CurrentIsHead(t.memory, n, clock, w.scope, w.business.key, w.business.context);
    WrittenEvidence(t.intake, t.memory, w, n, now, later);
    WrittenMemory(t.memory, w, n, clock, now, later);
  }

  /** Remembering a preference under a new key, in every reachable state: it is refused exactly for a confidence outside
      [0, 1]; otherwise the value, the evidence and the confidence the command gives are stored for its key and context,
      in force from the time it gives. */
  lemma RememberMeans(env: Env, app: App, c: RememberPreference, now: Time, later: Time)
    requires Reachable(env, app) && app.clock <= now <= later
    requires (c.scope, c.idempotencyKey) !in app.tables.intake.observationKeys
    ensures match Remember(app.tables, c, app.next, now, later)
            case Err(error) => error == DomainError && !(0.0 <= c.confidence <= 1.0)
            case Ok((next, r)) =>
              && 0.0 <= c.confidence <= 1.0
              && WriteStored(app.tables, next, r, scope := c.scope, idempotencyKey := c.idempotencyKey, kind := Message,
                             source := c.source, text := c.evidenceText, key := c.key, value := c.value,
                             context := c.context, confidence := c.confidence, occurredAt := c.occurredAt,
                             reason := None, now := now, later := later)
  {
    hide StoreOk, Ingest, WriteStored, Reachable;
    ReachableIsOk(env, app);
    var w := Write(c.scope, c.idempotencyKey, c.occurredAt, RememberBusiness(c));
    StoreIsWritable(app.tables, app.next, app.clock);
    IngestKeeps(app.tables, w, app.next, app.clock, now, later);
    if Remember(app.tables, c, app.next, now, later).Ok? {
      IngestStores(app.tables, w, app.next, app.clock, now, later);
    } else {
      IngestErrs(app.tables, w, app.next, now, later);
    }
  }

  lemma StoreIsWritable(t: Tables, n: Id, clock: Time)
    requires StoreOk(t, n, clock)
    ensures WritesOk(t, n, clock)
  {
    hide IntakeOk, MemoryOk, LinksOk, ExperienceOk;
  }

  lemma IngestErrs(t: Tables, w: Write, n: Id, now: Time, later: Time)
    requires !InUnit(w.business.confidence)
    ensures Ingest(t, w.scope, w.idempotencyKey, w.occurredAt, w.business, n, now, later) == Err(DomainError)
  {
  }

  /** Correcting a preference under a new key, in every reachable state: a record that is not in the scope is not found,
      a revision that is no longer the head conflicts, and otherwise the corrected value is stored with full confidence
      as user feedback for the record's own key and context, with the reason. */
  lemma CorrectMeans(env: Env, app: App, c: CorrectPreference, now: Time, later: Time)
    requires Reachable(env, app) && app.clock <= now <= later
    requires (c.scope, c.idempotencyKey) !in app.tables.intake.observationKeys
    ensures var m, corrected := app.tables.memory, Correct(app.tables, c, app.next, now, later);
            if c.recordId !in m.records || m.records[c.recordId].scope != c.scope then corrected == Err(NotFoundError)
            else if c.expectedRevisionId.Some? && c.recordId in m.active
                    && m.active[c.recordId] != c.expectedRevisionId.value then corrected == Err(ConflictError)
            else
              && c.recordId in m.active && corrected.Ok?
              && var (next, r) := corrected.value;
              && r.recordId == c.recordId
              && WriteStored(app.tables, next, r, scope := c.scope, idempotencyKey := c.idempotencyKey,
                             kind := UserFeedback, source := c.source, text := c.evidenceText,
                             key := m.records[c.recordId].key, value := c.value,
                             context := m.records[c.recordId].context, confidence := 1.0, occurredAt := c.occurredAt,
                             reason := Some(c.reason), now := now, later := later)
  {
    hide StoreOk, Ingest, WriteStored, Reachable, WritesOk, MemoryOk, IntakeOk, LinksOk, CurrentByIdentity;
    ReachableIsOk(env, app);
    StoreIsWritable(app.tables, app.next, app.clock);
    WritesAreKeyed(app.tables, app.next, app.clock);
    var t := app.tables;
    if c.recordId in t.memory.records && t.memory.records[c.recordId].scope == c.scope {
      RecordResolves(t.memory, app.next, app.clock, c.recordId);
      RecordIsCurrent(t.memory, app.next, app.clock, c.recordId);
      var w := Write(c.scope, c.idempotencyKey, c.occurredAt, CorrectBusiness(c, t.memory.records[c.recordId]));
      IngestKeeps(t, w, app.next, app.clock, now, later);
      if Correct(t, c, app.next, now, later).Ok? {
        IngestStores(t, w, app.next, app.clock, now, later);
      }
    }
  }

  lemma WritesAreKeyed(t: Tables, n: Id, clock: Time)
    requires WritesOk(t, n, clock)
    ensures MemoryOk(t.memory, n, clock)
    ensures forall k | k in t.intake.observationKeys :: t.intake.observationKeys[k] in t.intake.observations
  {
    hide MemoryOk, LinksOk;
  }

  /** A stored record is a preference, and is the one its identity leads to. */
  lemma RecordIsCurrent(m: Memory, n: Id, clock: Time, id: Id)
    requires MemoryOk(m, n, clock) && id in m.records
    ensures m.records[id].kind == Preference && id in m.active
    ensures SnapshotOf(m, m.records[id].scope, id).Some?
            && SnapshotOf(m, m.records[id].scope, id).value.revision.id == m.active[id]
    ensures var current := CurrentByIdentity(m, m.records[id].scope, m.records[id].key, m.records[id].context);
            current.Some? && current.value.record.id == id
  {
    assert RecordOk(m, n, clock, id, m.records[id]);
    RecordResolves(m, n, clock, id);
    KnownIdentity(m, n, clock, m.records[id].scope, id);
  }

  // ---------------------------------------------------------------- keys that have been used

  /** Under a key that resolves, a request with the same business fields gets the first result, any other a conflict. */
  lemma ResolvedAnswers(t: Tables, scope: Scope, key: string, b: Business, r: PreferenceResult, other: Business)
    requires Resolves(t, scope, key, b, r)
    ensures var o := ObservationByKey(t.intake, scope, key).value;
            ExistingResult(t, o, other) ==
            (if other.kind == b.kind && other.source == b.source && other.evidenceText == b.evidenceText
                && other.key == b.key && other.value == b.value && other.context == b.context
                && other.confidence == b.confidence && other.reason == b.reason
                && (other.recordId.Some? ==> other.recordId.value == r.recordId) then Ok(r.(replay := true))
             else Err(ConflictError))
  {
  }

  /** A key answers one request for good: as long as its scope is not erased, the same source, key, value, context,
      evidence and confidence get the first result again, whatever their time, and anything else under the key is
      refused, a correction included. Neither changes a table. */
  lemma RememberKeyAnswers(env: Env, app: App, c: RememberPreference, now: Time, later: Time, calls: seq<Call>,
                           d: RememberPreference, e: CorrectPreference, n: Id, t1: Time, t2: Time)
    requires Reachable(env, app) && EraseCall(c.scope) !in calls
    requires d.scope == e.scope == c.scope && d.idempotencyKey == e.idempotencyKey == c.idempotencyKey
    requires Remember(app.tables, c, app.next, First(RememberCall(c, now, later), app.clock),
                      Second(RememberCall(c, now, later), app.clock)).Ok?
    ensures var call := RememberCall(c, now, later);
            var r := Remember(app.tables, c, app.next, First(call, app.clock), Second(call, app.clock)).value.1;
            var end := Run(env, Do(env, app, call), calls).tables;
            && Remember(end, d, n, t1, t2) ==
               (if d.source == c.source && d.key == c.key && d.value == c.value && d.context == c.context
                   && d.evidenceText == c.evidenceText && d.confidence == c.confidence then
                  Ok((end, r.(replay := true)))
                else Err(ConflictError))
            && Correct(end, e, n, t1, t2).Err?
  {
    hide StoreOk, Reachable, Resolves, Run, Ingest, ExistingResult;
    var call := RememberCall(c, now, later);
    var a := Do(env, app, call);
    ReachableIsOk(env, app);
    DoKeeps(env, app, call);
    RememberResolves(app.tables, c, app.next, app.clock, First(call, app.clock), Second(call, app.clock));
    var r := Remember(app.tables, c, app.next, First(call, app.clock), Second(call, app.clock)).value.1;
    RunKeepsResolving(env, a, calls, c.scope, c.idempotencyKey, RememberBusiness(c), r);
    var end := Run(env, a, calls).tables;
    ResolvingIsFound(end, c.scope, c.idempotencyKey, RememberBusiness(c), r);
    ResolvedAnswers(end, c.scope, c.idempotencyKey, RememberBusiness(c), r, RememberBusiness(d));
    var found := SnapshotOf(end.memory, e.scope, e.recordId);
    if found.Some? {
      ResolvedAnswers(end, c.scope, c.idempotencyKey, RememberBusiness(c), r, CorrectBusiness(e, found.value.record));
    }
  }

  lemma ResolvingIsFound(t: Tables, scope: Scope, key: string, b: Business, r: PreferenceResult)
    requires Resolves(t, scope, key, b, r)
    ensures ObservationByKey(t.intake, scope, key).Some?
  {
  }

  /** The same for the key of an accepted correction: the same record, source, value, evidence and reason get the first
      result again, and anything else is refused. */
  lemma CorrectKeyAnswers(env: Env, app: App, c: CorrectPreference, now: Time, later: Time, calls: seq<Call>,
                          d: CorrectPreference, e: RememberPreference, n: Id, t1: Time, t2: Time)
    requires Reachable(env, app) && EraseCall(c.scope) !in calls
    requires d.scope == e.scope == c.scope && d.idempotencyKey == e.idempotencyKey == c.idempotencyKey
    requires Correct(app.tables, c, app.next, First(CorrectCall(c, now, later), app.clock),
                     Second(CorrectCall(c, now, later), app.clock)).Ok?
    ensures var call := CorrectCall(c, now, later);
            var r := Correct(app.tables, c, app.next, First(call, app.clock), Second(call, app.clock)).value.1;
            var end := Run(env, Do(env, app, call), calls).tables;
            && (if d.recordId == c.recordId && d.source == c.source && d.value == c.value
                   && d.evidenceText == c.evidenceText && d.reason == c.reason then
                  Correct(end, d, n, t1, t2) == Ok((end, r.(replay := true)))
                else Correct(end, d, n, t1, t2).Err?)
            && Remember(end, e, n, t1, t2) == Err(ConflictError)
  {
    hide StoreOk, Reachable, Resolves, Run, Ingest, ExistingResult;
    var call := CorrectCall(c, now, later);
    var a, record := Do(env, app, call), SnapshotOf(app.tables.memory, c.scope, c.recordId).value.record;
    var first := CorrectBusiness(c, record);
    ReachableIsOk(env, app);
    DoKeeps(env, app, call);
    CorrectResolves(app.tables, c, app.next, app.clock, First(call, app.clock), Second(call, app.clock));
    var r := Correct(app.tables, c, app.next, First(call, app.clock), Second(call, app.clock)).value.1;
    RunKeepsResolving(env, a, calls, c.scope, c.idempotencyKey, first, r);
    var end := Run(env, a, calls).tables;
    ResolvingIsFound(end, c.scope, c.idempotencyKey, first, r);
    ResolvedAnswers(end, c.scope, c.idempotencyKey, first, r, RememberBusiness(e));
    if SameCorrection(d, c) {
      CorrectIsStable(env, app, c, now, later, calls, d, n, t1, t2);
    } else {
      var found := SnapshotOf(end.memory, d.scope, d.recordId);
      if found.Some? {
        ResolvedAnswers(end, c.scope, c.idempotencyKey, first, r, CorrectBusiness(d, found.value.record));
        CorrectedRecord(app.tables, c, app.next, First(call, app.clock), Second(call, app.clock));
      }
    }
  }

  /** A correction answers with the record it was sent for. */
  lemma CorrectedRecord(t: Tables, c: CorrectPreference, n: Id, now: Time, later: Time)
    requires Correct(t, c, n, now, later).Ok?
    ensures Correct(t, c, n, now, later).value.1.recordId == c.recordId
  {
  }

  /** A used key raises nothing but conflicts, and a correction of a memory that is no preference is refused as such, in
      whatever state. */
  lemma RefusalsInWords(t: Tables, o: Observation, b: Business, c: CorrectPreference, n: Id, now: Time, later: Time)
    ensures ExistingResult(t, o, b).Err? ==> ExistingResult(t, o, b) == Err(ConflictError)
    ensures var found := SnapshotOf(t.memory, c.scope, c.recordId);
            && (found.None? ==> Correct(t, c, n, now, later) == Err(NotFoundError))
            && (found.Some? && found.value.record.kind != Preference ==>
                  Correct(t, c, n, now, later) == Err(DomainError))
  {
  }
}
