/** The authoritative store's tables, and what each of its operations does to them. */
module MemoryTables {
  import opened Common
  import opened Beliefs
  import opened Traces
  import C = Compression
  import G = Governance
  import P = Projections
  import opened Sums

  // ---------------------------------------------------------------- entities

  datatype ObservationKind = Message | UserFeedback

  /** `reason` is the correction reason kept in the metadata. */
  datatype Observation = Observation(
    id: Id, scope: Scope, kind: ObservationKind, source: string, content: string, key: string, occurredAt: Time,
    ingestedAt: Time, reason: Option<string>)

  datatype EvidenceSpan = EvidenceSpan(id: Id, observationId: Id, quote: string)

  /** `accepted` names the record and revision of an accepted candidate. */
  datatype Candidate = Candidate(
    id: Id, scope: Scope, observationId: Id, key: string, value: string, context: Context, evidenceIds: seq<Id>,
    confidence: real, proposedAt: Time, accepted: Option<(Id, Id)>)

  datatype MemoryKind = Preference | Episodic | Semantic | Procedural | Prospective

  datatype Record = Record(id: Id, scope: Scope, kind: MemoryKind, key: string, context: Context, createdAt: Time)

  datatype Revision = Revision(
    id: Id, recordId: Id, sequence: int, value: string, belief: Belief, evidenceIds: seq<Id>, validFrom: Time,
    recordedAt: Time, supersedes: Option<Id>)

  datatype TransitionKind = Created | Superseded

  datatype Transition = Transition(
    id: Id, recordId: Id, kind: TransitionKind, at: Time, to: Id, from: Option<Id>, reason: Option<string>)

  datatype Snapshot = Snapshot(record: Record, revision: Revision)

  datatype Usage = Usage(
    id: Id, scope: Scope, traceId: Id, algorithm: C.Algorithm, budget: int, source: P.Digest, delivered: string,
    revisionIds: seq<Id>, key: string, occurredAt: Time, recordedAt: Time)

  datatype OutcomeKind = Helpful | Accepted | Harmful | Rejected | Corrected {
    function SuccessValue(): real {
      if this == Helpful || this == Accepted then 1.0 else 0.0
    }
  }

  datatype OutcomeEvent = OutcomeEvent(
    id: Id, scope: Scope, traceId: Id, revisionId: Id, kind: OutcomeKind, key: string, occurredAt: Time,
    recordedAt: Time, usageId: Option<Id>, weight: real, note: Option<string>)

  datatype Utility = Utility(positive: real, negative: real, lastAt: Option<Time>) {
    /** Negative weights cannot be constructed. */
    function Mean(): (mean: real)
      ensures 0.0 <= mean <= 1.0
    {
      if positive < 0.0 || negative < 0.0 then 0.0 else Ratio(1.0 + positive, 1.0 + negative)
    }

    function Updated(success: real, weight: real, at: Time): Utility {
      Utility(positive + success * weight, negative + (1.0 - success) * weight, Some(Later(lastAt, at)))
    }
  }

  function Ratio(part: real, rest: real): (r: real)
    requires part >= 0.0 && rest >= 0.0
    ensures 0.0 <= r <= 1.0
  {
    if part + rest == 0.0 then 0.0
    else
      RatioInUnit(part, rest);
      part / (part + rest)
  }

  lemma RatioInUnit(part: real, rest: real)
    requires part >= 0.0 && rest >= 0.0 && part + rest > 0.0
    ensures 0.0 <= part / (part + rest) <= 1.0
  {
    var whole := part + rest;
    var q := part / whole;
    assert q * whole == part;
    if q < 0.0 {
      ProductIsPositive(-q, whole);
    }
    if q > 1.0 {
      ProductIsPositive(q - 1.0, whole);
      assert (q - 1.0) * whole == q * whole - whole;
    }
  }

  lemma ProductIsPositive(x: real, y: real)
    requires x > 0.0 && y > 0.0
    ensures x * y > 0.0
  {
  }

  const NO_OUTCOMES := Utility(0.0, 0.0, None)

  // ---------------------------------------------------------------- tables

  datatype Intake = Intake(
    observations: map<Id, Observation>, observationKeys: map<(Scope, string), Id>, evidence: map<Id, EvidenceSpan>,
    candidates: map<Id, Candidate>, candidateByObservation: map<Id, Id>)

  datatype Memory = Memory(
    records: map<Id, Record>, identities: map<(Scope, string, Context), Id>, revisions: map<Id, Revision>,
    chains: map<Id, seq<Id>>, active: map<Id, Id>, transitions: seq<Transition>)

  datatype Recalls = Recalls(traces: map<Id, Trace>)

  datatype Deliveries = Deliveries(usages: map<Id, Usage>, usageKeys: map<(Scope, string), Id>)

  /** `order` is the insertion order of the outcome dictionary. */
  datatype Feedback = Feedback(
    outcomes: map<Id, OutcomeEvent>, order: seq<Id>, outcomeKeys: map<(Scope, string), Id>,
    utilities: map<(Scope, Id, Context), Utility>)

  datatype Tables = Tables(intake: Intake, memory: Memory, recalls: Recalls, deliveries: Deliveries, feedback: Feedback)

  const EMPTY := Tables(
    Intake(map[], map[], map[], map[], map[]), Memory(map[], map[], map[], map[], map[], []), Recalls(map[]),
    Deliveries(map[], map[]), Feedback(map[], [], map[], map[]))

  // ---------------------------------------------------------------- intake

  function ObservationByKey(i: Intake, scope: Scope, key: string): Option<Observation> {
    if (scope, key) in i.observationKeys && i.observationKeys[(scope, key)] in i.observations then
      Some(i.observations[i.observationKeys[(scope, key)]])
    else None
  }

  function SaveIngestion(i: Intake, o: Observation, e: EvidenceSpan, c: Candidate): Result<Intake> {
    if (o.scope, o.key) in i.observationKeys then Err(ConflictError)
    else if e.observationId != o.id then Err(ConflictError)
    else if c.observationId != o.id || c.scope != o.scope then Err(ConflictError)
    else
      Ok(Intake(i.observations[o.id := o], i.observationKeys[(o.scope, o.key) := o.id], i.evidence[e.id := e],
                i.candidates[c.id := c], i.candidateByObservation[o.id := c.id]))
  }

  function CandidateForObservation(i: Intake, scope: Scope, observationId: Id): Option<Candidate> {
    if observationId !in i.candidateByObservation then None
    else
      var id := i.candidateByObservation[observationId];
      if id in i.candidates && i.candidates[id].scope == scope then Some(i.candidates[id]) else None
  }

  function UpdateCandidate(i: Intake, c: Candidate): Result<Intake> {
    if c.id !in i.candidates then Err(ConflictError) else Ok(i.(candidates := i.candidates[c.id := c]))
  }

  // ---------------------------------------------------------------- memory

  function SnapshotOf(m: Memory, scope: Scope, recordId: Id): Option<Snapshot> {
    if recordId !in m.records || m.records[recordId].scope != scope then None
    else if recordId !in m.active || m.active[recordId] !in m.revisions then None
    else Some(Snapshot(m.records[recordId], m.revisions[m.active[recordId]]))
  }

  function CurrentByIdentity(m: Memory, scope: Scope, key: string, context: Context): Option<Snapshot> {
    if (scope, key, context) in m.identities then SnapshotOf(m, scope, m.identities[(scope, key, context)]) else None
  }

  function AddMemory(m: Memory, record: Record, revision: Revision, transition: Transition): Result<Memory> {
    var identity := (record.scope, record.key, record.context);
    if identity in m.identities then Err(ConflictError)
    else if revision.recordId != record.id || transition.recordId != record.id then Err(ConflictError)
    else
      Ok(Memory(m.records[record.id := record], m.identities[identity := record.id],
                m.revisions[revision.id := revision], m.chains[record.id := [revision.id]],
                m.active[record.id := revision.id], m.transitions + [transition]))
  }

  function AppendRevision(m: Memory, expected: Id, revision: Revision, transition: Transition): Result<Memory> {
    var recordId := revision.recordId;
    if recordId !in m.active || m.active[recordId] != expected then Err(ConflictError)
    else if expected !in m.revisions || recordId !in m.chains then Err(LookupFailure)
    else if revision.sequence != m.revisions[expected].sequence + 1 then Err(ConflictError)
    else if revision.supersedes != Some(expected) then Err(ConflictError)
    else if transition.recordId != recordId || transition.from != Some(expected) || transition.to != revision.id then
      Err(ConflictError)
    else
      Ok(Memory(m.records, m.identities, m.revisions[revision.id := revision],
                m.chains[recordId := m.chains[recordId] + [revision.id]], m.active[recordId := revision.id],
                m.transitions + [transition]))
  }

  function History(m: Memory, scope: Scope, recordId: Id): seq<Id> {
    if recordId !in m.records || m.records[recordId].scope != scope || recordId !in m.chains then []
        else m.chains[recordId]
  }

  /** The active head of every record of the scope, as a set: the source's order is that of a dictionary. */
  function ActiveMemories(m: Memory, scope: Scope): set<Snapshot> {
    set id | id in m.active && SnapshotOf(m, scope, id).Some? :: SnapshotOf(m, scope, id).value
  }

  // ---------------------------------------------------------------- experience

  function TraceOf(r: Recalls, scope: Scope, id: Id): Option<Trace> {
    if id in r.traces && r.traces[id].scope == scope then Some(r.traces[id]) else None
  }

  predicate SameUsage(a: Usage, b: Usage) {
    && a.traceId == b.traceId && a.algorithm == b.algorithm && a.budget == b.budget && a.source == b.source
    && a.delivered == b.delivered && a.revisionIds == b.revisionIds
  }

  /** The stored usage, and whether it is new. */
  function SaveUsage(d: Deliveries, u: Usage): Result<(Deliveries, Usage, bool)> {
    var key := (u.scope, u.key);
    if key in d.usageKeys then
      if d.usageKeys[key] !in d.usages then Err(LookupFailure)
      else if !SameUsage(d.usages[d.usageKeys[key]], u) then Err(ConflictError)
      else Ok((d, d.usages[d.usageKeys[key]], false))
    else Ok((Deliveries(d.usages[u.id := u], d.usageKeys[key := u.id]), u, true))
  }

  function UsageOf(d: Deliveries, scope: Scope, id: Id): Option<Usage> {
    if id in d.usages && d.usages[id].scope == scope then Some(d.usages[id]) else None
  }

  function UtilityFor(f: Feedback, scope: Scope, revisionId: Id, context: Context): Utility {
    if (scope, revisionId, context) in f.utilities then f.utilities[(scope, revisionId, context)] else NO_OUTCOMES
  }

  /** Whether `utility_for_as_of` counts an outcome. */
  predicate Counts(f: Feedback, r: Recalls, scope: Scope, revisionId: Id, context: Context, knownAt: Time, id: Id) {
    && id in f.outcomes && f.outcomes[id].scope == scope && f.outcomes[id].revisionId == revisionId
    && f.outcomes[id].recordedAt <= knownAt && f.outcomes[id].traceId in r.traces
    && r.traces[f.outcomes[id].traceId].scope == scope && r.traces[f.outcomes[id].traceId].context == context
  }

  function UtilityOfLog(f: Feedback, r: Recalls, scope: Scope, revisionId: Id, context: Context, knownAt: Time,
                        ids: seq<Id>): Utility
    decreases |ids|
  {
    if ids == [] then NO_OUTCOMES
    else
      var n := |ids| - 1;
      var before := UtilityOfLog(f, r, scope, revisionId, context, knownAt, ids[..n]);
      if Counts(f, r, scope, revisionId, context, knownAt, ids[n]) then
        var o := f.outcomes[ids[n]];
        Utility(before.positive + o.kind.SuccessValue() * o.weight,
                before.negative + (1.0 - o.kind.SuccessValue()) * o.weight, Some(Later(before.lastAt, o.occurredAt)))
      else before
  }

  /** `utility_for_as_of`: the sums and the maximum over the outcomes recorded by then. */
  function UtilityForAsOf(f: Feedback, r: Recalls, scope: Scope, revisionId: Id, context: Context,
                          knownAt: Time): Utility {
    UtilityOfLog(f, r, scope, revisionId, context, knownAt, f.order)
  }

  predicate SameOutcome(a: OutcomeEvent, b: OutcomeEvent) {
    && a.traceId == b.traceId && a.usageId == b.usageId && a.revisionId == b.revisionId && a.kind == b.kind
    && a.weight == b.weight && a.note == b.note
  }

  /** The stored outcome, the utility, and whether the outcome is new. */
  function ApplyOutcome(f: Feedback, o: OutcomeEvent, context: Context)
    : Result<(Feedback, OutcomeEvent, Utility, bool)>
  {
    var key := (o.scope, o.key);
    if key in f.outcomeKeys then
      if f.outcomeKeys[key] !in f.outcomes then Err(LookupFailure)
      else
        var existing := f.outcomes[f.outcomeKeys[key]];
        if !SameOutcome(existing, o) then Err(ConflictError)
        else Ok((f, existing, UtilityFor(f, o.scope, existing.revisionId, context), false))
    else if o.weight <= 0.0 then Err(DomainError)
    else
      var current := UtilityFor(f, o.scope, o.revisionId, context);
      var updated := current.Updated(o.kind.SuccessValue(), o.weight, o.occurredAt);
      Ok((Feedback(f.outcomes[o.id := o], if o.id in f.outcomes then f.order else f.order + [o.id],
                   f.outcomeKeys[key := o.id], f.utilities[(o.scope, o.revisionId, context) := updated]),
          o, updated, true))
  }

  // ---------------------------------------------------------------- erasure

  function ObservationsOf(t: Tables, scope: Scope): set<Id> {
    set id | id in t.intake.observations && t.intake.observations[id].scope == scope
  }

  function EvidenceOf(t: Tables, scope: Scope): set<Id> {
    set id | id in t.intake.evidence && t.intake.evidence[id].observationId in ObservationsOf(t, scope)
  }

  function CandidatesOf(t: Tables, scope: Scope): set<Id> {
    set id | id in t.intake.candidates && t.intake.candidates[id].scope == scope
  }

  function RecordsOf(t: Tables, scope: Scope): set<Id> {
    set id | id in t.memory.records && t.memory.records[id].scope == scope
  }

  function RevisionsOf(t: Tables, scope: Scope): set<Id> {
    set id, i | id in RecordsOf(t, scope) && id in t.memory.chains && 0 <= i < |t.memory.chains[id]| ::
        t.memory.chains[id][i]
  }

  function TracesOf(t: Tables, scope: Scope): set<Id> {
    set id | id in t.recalls.traces && t.recalls.traces[id].scope == scope
  }

  function UsagesOf(t: Tables, scope: Scope): set<Id> {
    set id | id in t.deliveries.usages && t.deliveries.usages[id].scope == scope
  }

  function OutcomesOf(t: Tables, scope: Scope): set<Id> {
    set id | id in t.feedback.outcomes && t.feedback.outcomes[id].scope == scope
  }

  function UtilitiesOf(t: Tables, scope: Scope): set<(Scope, Id, Context)> {
    set k | k in t.feedback.utilities && k.0 == scope
  }

  function KeepOthers<V>(m: map<(Scope, string), V>, scope: Scope): map<(Scope, string), V> {
    map k | k in m && k.0 != scope :: m[k]
  }

  function KeepTransitions(transitions: seq<Transition>, records: set<Id>): seq<Transition>
    decreases |transitions|
  {
    if transitions == [] then []
    else
      var n := |transitions| - 1;
      KeepTransitions(transitions[..n], records) + if transitions[n].recordId in records then [] else [transitions[n]]
  }

  function KeepIds(ids: seq<Id>, gone: set<Id>): seq<Id>
    decreases |ids|
  {
    if ids == [] then []
    else
      var n := |ids| - 1;
      KeepIds(ids[..n], gone) + if ids[n] in gone then [] else [ids[n]]
  }

  function IntakeWithout(t: Tables, scope: Scope): Intake {
    var observations := ObservationsOf(t, scope);
    Intake(t.intake.observations - observations, KeepOthers(t.intake.observationKeys, scope),
           t.intake.evidence - EvidenceOf(t, scope), t.intake.candidates - CandidatesOf(t, scope),
           t.intake.candidateByObservation - observations)
  }

  function MemoryWithout(t: Tables, scope: Scope): Memory {
    var records, identities := RecordsOf(t, scope), t.memory.identities;
    Memory(t.memory.records - records, map k | k in identities && k.0 != scope :: identities[k],
           t.memory.revisions - RevisionsOf(t, scope), t.memory.chains - records, t.memory.active - records,
           KeepTransitions(t.memory.transitions, records))
  }

  function FeedbackWithout(t: Tables, scope: Scope): Feedback {
    Feedback(t.feedback.outcomes - OutcomesOf(t, scope), KeepIds(t.feedback.order, OutcomesOf(t, scope)),
             KeepOthers(t.feedback.outcomeKeys, scope), t.feedback.utilities - UtilitiesOf(t, scope))
  }

  /** `erase_scope`, table by table. */
  function EraseScope(t: Tables, scope: Scope): Tables {
    Tables(
      IntakeWithout(t, scope), MemoryWithout(t, scope), Recalls(t.recalls.traces - TracesOf(t, scope)),
      Deliveries(t.deliveries.usages - UsagesOf(t, scope), KeepOthers(t.deliveries.usageKeys, scope)),
      FeedbackWithout(t, scope))
  }

  function TraceItems(traces: map<Id, Trace>): Id -> int {
    id => if id in traces then |traces[id].items| else 0
  }

  function UsageItems(usages: map<Id, Usage>): Id -> int {
    id => if id in usages then |usages[id].revisionIds| else 0
  }

  function CountTransitions(transitions: seq<Transition>, records: set<Id>): int
    decreases |transitions|
  {
    if transitions == [] then 0
    else
      var n := |transitions| - 1;
      CountTransitions(transitions[..n], records) + if transitions[n].recordId in records then 1 else 0
  }

  /** The counts `erase_scope` reports; documents of the projection are counted by the caller. */
  ghost function SummaryOf(t: Tables, scope: Scope): G.Summary {
    G.Summary(
      |ObservationsOf(t, scope)|, |EvidenceOf(t, scope)|, |CandidatesOf(t, scope)|, |RecordsOf(t, scope)|,
      |RevisionsOf(t, scope)|, CountTransitions(t.memory.transitions, RecordsOf(t, scope)),
      |TracesOf(t, scope)|, Sum(TracesOf(t, scope), TraceItems(t.recalls.traces)),
      |UsagesOf(t, scope)|, Sum(UsagesOf(t, scope), UsageItems(t.deliveries.usages)),
      |OutcomesOf(t, scope)|, |UtilitiesOf(t, scope)|, 0)
  }
}
