/** What an accepted write does: it adds one observation, one evidence span, one accepted candidate and one revision
    at the head of its record's chain, and nothing else changes. */
module MemoryWrites {
  import opened Common
  import opened Beliefs
  import opened MemoryTables
  import opened Service
  import opened MemoryInvariant

  ghost predicate WritesOk(t: Tables, next: Id, clock: Time) {
    IntakeOk(t.intake, next) && MemoryOk(t.memory, next, clock) && LinksOk(t.intake, t.memory)
  }

  /** A write before it is known which record it meets. */
  datatype Write = Write(scope: Scope, idempotencyKey: string, occurredAt: Time, business: Business)

  function Current(m: Memory, w: Write): Option<Snapshot> {
    CurrentByIdentity(m, w.scope, w.business.key, w.business.context)
  }

  function WrittenItem(w: Write): Item {
    Item(w.business.confidence, w.occurredAt, w.business.source)
  }

  function WrittenCandidate(w: Write, n: Id, now: Time): Candidate {
    Candidate(n + 2, w.scope, n, w.business.key, w.business.value, w.business.context, [n + 1], w.business.confidence,
              now, None)
  }

  /** The record the write lands on. */
  function WrittenRecord(m: Memory, w: Write, n: Id, later: Time): Record {
    match Current(m, w)
    case None => Record(n + 3, w.scope, Preference, w.business.key, w.business.context, later)
    case Some(s) => s.record
  }

  function WrittenRevision(m: Memory, w: Write, n: Id, later: Time): Revision {
    match Current(m, w)
    case None =>
      Revision(n + 4, n + 3, 1, w.business.value, FromEvidence(WrittenItem(w)), [n + 1], w.occurredAt, later, None)
    case Some(s) =>
      var same, reinforced := s.revision.value == w.business.value, Reinforced(s.revision.belief, WrittenItem(w));
      Revision(n + 3, s.record.id, s.revision.sequence + 1, w.business.value,
               if same && reinforced.Ok? then reinforced.value else FromEvidence(WrittenItem(w)),
               if same then s.revision.evidenceIds + [n + 1] else [n + 1], w.occurredAt, later, Some(s.revision.id))
  }

  function WrittenTransition(m: Memory, w: Write, n: Id, later: Time): Transition {
    match Current(m, w)
    case None => Transition(n + 5, n + 3, Created, later, n + 4, None, w.business.reason)
    case Some(s) => Transition(n + 4, s.record.id, Superseded, later, n + 3, Some(s.revision.id), w.business.reason)
  }

  function Written(m: Memory, w: Write, n: Id, now: Time, later: Time): Growth {
    var b, record, revision := w.business, WrittenRecord(m, w, n, later), WrittenRevision(m, w, n, later);
    Growth(
      Observation(n, w.scope, b.kind, b.source, b.evidenceText, w.idempotencyKey, w.occurredAt, now, b.reason),
      EvidenceSpan(n + 1, n, b.evidenceText), WrittenCandidate(w, n, now).(accepted := Some((record.id, revision.id))),
      record, revision, WrittenTransition(m, w, n, later))
  }

  lemma IdentityResolves(m: Memory, next: Id, clock: Time, k: (Scope, string, Context))
    requires MemoryOk(m, next, clock) && k in m.identities
    ensures CurrentByIdentity(m, k.0, k.1, k.2).Some?
  {
    var id := m.identities[k];
    var r, chain := m.records[id], m.chains[id];
    assert RecordOk(m, next, clock, id, r);
    assert LinkOk(m, clock, r, chain, |chain| - 1);
  }

  /** An identity without a current memory is unknown. */
  lemma UnknownIdentity(m: Memory, next: Id, clock: Time, scope: Scope, key: string, context: Context)
    requires MemoryOk(m, next, clock) && CurrentByIdentity(m, scope, key, context).None?
    ensures (scope, key, context) !in m.identities
  {
    if (scope, key, context) in m.identities {
      IdentityResolves(m, next, clock, (scope, key, context));
    }
  }

  /** A current memory is the head of its record's chain. */
  lemma KnownIdentity(m: Memory, next: Id, clock: Time, scope: Scope, recordId: Id)
    requires MemoryOk(m, next, clock) && SnapshotOf(m, scope, recordId).Some?
    ensures var s := SnapshotOf(m, scope, recordId).value;
            && recordId in m.records && s.record == m.records[recordId] && s.record.id == recordId
            && s.record.scope == scope && s.record.kind == Preference
            && recordId in m.active && m.active[recordId] == s.revision.id
            && s.revision.id in m.revisions && m.revisions[s.revision.id] == s.revision
                && s.revision.recordId == recordId
            && recordId in m.chains && m.chains[recordId] != []
                && m.chains[recordId][|m.chains[recordId]| - 1] == s.revision.id
            && s.revision.sequence == |m.chains[recordId]| && s.revision.recordedAt <= clock
  {
    var r, chain := m.records[recordId], m.chains[recordId];
    assert RecordOk(m, next, clock, recordId, r);
    assert LinkOk(m, clock, r, chain, |chain| - 1);
    assert RevisionOk(m, next, m.active[recordId], m.revisions[m.active[recordId]]);
  }

  lemma NewMemoryGrows(m: Memory, w: Write, n: Id, clock: Time, now: Time, later: Time)
    requires MemoryOk(m, n, clock) && Current(m, w).None? && InUnit(w.business.confidence)
    ensures var g := Written(m, w, n, now, later);
            && NewMemory(m, WrittenCandidate(w, n, now), WrittenItem(w), w.business.reason, n + 3, later)
                == Ok((GrowMemory(m, g), g.revision))
            && MemoryFits(m, g, n, later)
  {
    UnknownIdentity(m, n, clock, w.scope, w.business.key, w.business.context);
    assert n + 3 !in m.records;
    assert n + 3 !in m.chains;
    assert ChainOf(m, n + 3) + [n + 4] == [n + 4];
  }

  lemma ReinforcedIsSound(b: Belief, i: Item)
    requires InUnit(b.confidence) && InUnit(i.confidence)
    ensures Reinforced(b, i).Ok? && InUnit(Reinforced(b, i).value.confidence)
  {
    ProductInUnit(1.0 - b.confidence, 1.0 - i.confidence);
  }

  lemma NextRevisionGrows(m: Memory, w: Write, n: Id, clock: Time, now: Time, later: Time)
    requires MemoryOk(m, n, clock) && Current(m, w).Some? && InUnit(w.business.confidence)
    ensures var g := Written(m, w, n, now, later);
            && NextRevision(m, Current(m, w).value, WrittenCandidate(w, n, now), WrittenItem(w), w.business.reason,
                            n + 3, later)
               == Ok((GrowMemory(m, g), g.revision))
            && MemoryFits(m, g, n, later)
            && (g.record.scope, g.record.key, g.record.context) == (w.scope, w.business.key, w.business.context)
  {
    var s, id := Current(m, w).value, m.identities[(w.scope, w.business.key, w.business.context)];
    KnownIdentity(m, n, clock, w.scope, id);
    assert RecordOk(m, n, clock, id, m.records[id]);
    assert RevisionOk(m, n, s.revision.id, s.revision);
    ReinforcedIsSound(s.revision.belief, WrittenItem(w));
    var g := Written(m, w, n, now, later);
    assert m.records[id := s.record] == m.records;
    assert m.identities[(w.scope, w.business.key, w.business.context) := id] == m.identities;
  }

  /** When a write that is not a retry is accepted. */
  ghost predicate Acceptable(t: Tables, w: Write) {
    && InUnit(w.business.confidence) && (w.scope, w.idempotencyKey) !in t.intake.observationKeys
    && (w.business.recordId.Some? ==>
         Current(t.memory, w).Some? && Current(t.memory, w).value.record.id == w.business.recordId.value)
  }

  lemma IngestGrows(t: Tables, w: Write, n: Id, clock: Time, now: Time, later: Time)
    requires WritesOk(t, n, clock) && Acceptable(t, w)
    ensures var g := Written(t.memory, w, n, now, later);
            && Ingest(t, w.scope, w.idempotencyKey, w.occurredAt, w.business, n, now, later)
               == Ok((t.(intake := GrowIntake(t.intake, g), memory := GrowMemory(t.memory, g)),
                      PreferenceResult(n, n + 2, g.record.id, g.revision.id, g.revision.sequence, false)))
            && IntakeFits(t.intake, g, n) && MemoryFits(t.memory, g, n, later)
  {
    hide NewMemory, NextRevision, SaveIngestion, UpdateCandidate, GrowMemory, GrowIntake, IntakeOk, MemoryOk, LinksOk,
         WrittenRevision, WrittenRecord, WrittenTransition, IntakeFits;
    IntakeStepGrows(t.intake, t.memory, w, n, now, later);
    MemoryStepGrows(t.memory, w, n, clock, now, later);
  }

  /** Saving the ingestion and then accepting its candidate. */
  lemma IntakeStepGrows(i: Intake, m: Memory, w: Write, n: Id, now: Time, later: Time)
    requires InUnit(w.business.confidence) && (w.scope, w.idempotencyKey) !in i.observationKeys
    ensures var g, c := Written(m, w, n, now, later), WrittenCandidate(w, n, now);
            && SaveIngestion(i, g.o, g.e, c).Ok?
            && UpdateCandidate(SaveIngestion(i, g.o, g.e, c).value, g.c) == Ok(GrowIntake(i, g))
            && IntakeFits(i, g, n)
  {
    hide WrittenRevision, WrittenRecord, WrittenTransition;
    var g, c := Written(m, w, n, now, later), WrittenCandidate(w, n, now);
    var saved := SaveIngestion(i, g.o, g.e, c).value;
    assert saved.candidates[c.id := g.c] == i.candidates[c.id := g.c];
  }

  /** Starting a record or extending one. */
  lemma MemoryStepGrows(m: Memory, w: Write, n: Id, clock: Time, now: Time, later: Time)
    requires MemoryOk(m, n, clock) && InUnit(w.business.confidence)
    ensures var g, c := Written(m, w, n, now, later), WrittenCandidate(w, n, now);
            && (if Current(m, w).None? then NewMemory(m, c, WrittenItem(w), w.business.reason, n + 3, later)
                else NextRevision(m, Current(m, w).value, c, WrittenItem(w), w.business.reason, n + 3, later))
               == Ok((GrowMemory(m, g), g.revision))
            && MemoryFits(m, g, n, later)
  {
    hide MemoryOk, NewMemory, NextRevision, GrowMemory, MemoryFits, Written;
    if Current(m, w).None? {
      NewMemoryGrows(m, w, n, clock, now, later);
    } else {
      NextRevisionGrows(m, w, n, clock, now, later);
    }
  }

  lemma IngestRefuses(t: Tables, w: Write, n: Id, now: Time, later: Time)
    requires !Acceptable(t, w)
    ensures Ingest(t, w.scope, w.idempotencyKey, w.occurredAt, w.business, n, now, later).Err?
  {
  }

  lemma WrittenBeliefIsOk(t: Tables, w: Write, n: Id, clock: Time, now: Time, later: Time)
    requires WritesOk(t, n, clock) && Acceptable(t, w)
    ensures var g := Written(t.memory, w, n, now, later);
            && IntakeFits(t.intake, g, n)
            && (g.record.scope, g.record.key, g.record.context) == (w.scope, w.business.key, w.business.context)
            && BeliefOk(GrowIntake(t.intake, g), g.record, g.revision)
  {
    var g := Written(t.memory, w, n, now, later);
    IngestGrows(t, w, n, clock, now, later);
    if Current(t.memory, w).None? {
      FreshBelief(t.intake, g, n);
    } else {
      NextRevisionGrows(t.memory, w, n, clock, now, later);
      var head, id := Current(t.memory, w).value.revision,
          t.memory.identities[(w.scope, w.business.key, w.business.context)];
      KnownIdentity(t.memory, n, clock, w.scope, id);
      if head.value == w.business.value {
        assert RevisionOk(t.memory, n, head.id, head);
        ReinforcedIsSound(head.belief, WrittenItem(w));
        assert BeliefOk(t.intake, t.memory.records[head.recordId], head);
        ReinforcedBelief(t.intake, g, n, head);
      } else {
        FreshBelief(t.intake, g, n);
      }
    }
  }

  /** A write is accepted exactly when it is acceptable, and then keeps the store's invariant. */
  lemma IngestKeeps(t: Tables, w: Write, n: Id, clock: Time, now: Time, later: Time)
    requires WritesOk(t, n, clock) && clock <= later
    ensures var r := Ingest(t, w.scope, w.idempotencyKey, w.occurredAt, w.business, n, now, later);
            && (r.Ok? <==> Acceptable(t, w))
            && (r.Ok? ==> WritesOk(r.value.0, n + 6, later))
  {
    if Acceptable(t, w) {
      var g := Written(t.memory, w, n, now, later);
      IngestGrows(t, w, n, clock, now, later);
      WrittenBeliefIsOk(t, w, n, clock, now, later);
      IntakeGrows(t.intake, g, n);
      MemoryGrows(t.memory, g, n, clock, later);
      LinksGrow(t.intake, t.memory, g, n, clock, later);
    } else {
      IngestRefuses(t, w, n, now, later);
    }
  }
}
