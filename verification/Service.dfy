/** The memory application: what each use case does to the tables, in one transaction that is undone when it raises.
    Identifiers come from a counter, because generated ones never repeat; the clock never goes back. */
module Service {
  import opened Common
  import opened Beliefs
  import opened MemoryTables
  import opened Recall
  import T = Traces
  import C = Compression
  import P = Projections
  import R = Registry

  datatype RememberPreference = RememberPreference(
    scope: Scope, source: string, idempotencyKey: string, key: string, value: string, context: Context,
    evidenceText: string, confidence: real, occurredAt: Time)

  datatype CorrectPreference = CorrectPreference(
    scope: Scope, recordId: Id, source: string, idempotencyKey: string, value: string, evidenceText: string,
    reason: string, occurredAt: Time, expectedRevisionId: Option<Id>)

  datatype RecordOutcome = RecordOutcome(
    scope: Scope, traceId: Id, revisionId: Id, kind: OutcomeKind, idempotencyKey: string, occurredAt: Time,
    usageId: Option<Id>, weight: real, note: Option<string>)

  datatype RecordMemoryUsage = RecordMemoryUsage(
    scope: Scope, traceId: Id, algorithm: C.Algorithm, budget: int, source: P.Digest, delivered: string,
    revisionIds: seq<Id>, idempotencyKey: string, occurredAt: Time)

  datatype PreferenceResult = PreferenceResult(
    observationId: Id, candidateId: Id, recordId: Id, revisionId: Id, sequence: int, replay: bool)

  /** The stable fields that identify a preference request across retries. */
  datatype Business = Business(
    kind: ObservationKind, source: string, key: string, value: string, context: Context, evidenceText: string,
    confidence: real, recordId: Option<Id>, reason: Option<string>)

  predicate Matches(o: Observation, c: Candidate, b: Business)
    requires c.accepted.Some?
  {
    && o.kind == b.kind && o.source == b.source && o.content == b.evidenceText
    && c.key == b.key && c.value == b.value && c.context == b.context && c.confidence == b.confidence
    && (b.recordId.Some? ==> c.accepted.value.0 == b.recordId.value)
    && o.reason == b.reason
  }

  /** `_existing_preference_result`. */
  function ExistingResult(t: Tables, o: Observation, b: Business): Result<PreferenceResult> {
    var found := CandidateForObservation(t.intake, o.scope, o.id);
    if found.None? || found.value.accepted.None? then Err(ConflictError)
    else
      var c := found.value;
      var (recordId, revisionId) := c.accepted.value;
      if !Matches(o, c, b) then Err(ConflictError)
      else if SnapshotOf(t.memory, c.scope, recordId).None? || revisionId !in History(t.memory, c.scope, recordId)
              || revisionId !in t.memory.revisions then
        Err(ConflictError)
      else
        Ok(PreferenceResult(o.id, c.id, recordId, revisionId, t.memory.revisions[revisionId].sequence, true))
  }

  /** The first revision of a new record. */
  function NewMemory(m: Memory, c: Candidate, i: Item, reason: Option<string>, n: Id, now: Time): Result<(Memory,
        Revision)> {
    var record := Record(n, c.scope, Preference, c.key, c.context, now);
    var revision := Revision(n + 1, n, 1, c.value, FromEvidence(i), c.evidenceIds, i.at, now, None);
    var added :- AddMemory(m, record, revision, Transition(n + 2, n, Created, now, n + 1, None, reason));
    Ok((added, revision))
  }

  /** The belief of the next revision: the same value is reinforced, another one starts afresh. */
  function NextBelief(head: Revision, c: Candidate, i: Item): Result<Belief> {
    if head.value == c.value then Reinforced(head.belief, i) else Ok(FromEvidence(i))
  }

  function NextRevision(m: Memory, current: Snapshot, c: Candidate, i: Item, reason: Option<string>, n: Id,
                        now: Time): Result<(Memory, Revision)> {
    var head := current.revision;
    var belief :- NextBelief(head, c, i);
    var evidenceIds := if head.value == c.value then head.evidenceIds + c.evidenceIds else c.evidenceIds;
    var revision := Revision(n, current.record.id, head.sequence + 1, c.value, belief, evidenceIds, i.at, now,
                             Some(head.id));
    var appended :- AppendRevision(
      m, head.id, revision, Transition(n + 1, current.record.id, Superseded, now, n, Some(head.id), reason));
    Ok((appended, revision))
  }

  /** `_accept_candidate`. */
  function Accept(t: Tables, c: Candidate, i: Item, reason: Option<string>, expected: Option<Id>, n: Id, now: Time):
    Result<(Tables, PreferenceResult)>
  {
    var current := CurrentByIdentity(t.memory, c.scope, c.key, c.context);
    if current.None? && expected.Some? then Err(ConflictError)
    else if current.Some? && expected.Some? && current.value.record.id != expected.value then Err(ConflictError)
    else
      var (memory, revision) :- if current.None? then NewMemory(t.memory, c, i, reason, n, now)
                                else NextRevision(t.memory, current.value, c, i, reason, n, now);
      var intake :- UpdateCandidate(t.intake, c.(accepted := Some((revision.recordId, revision.id))));
      Ok((t.(intake := intake, memory := memory),
          PreferenceResult(c.observationId, c.id, revision.recordId, revision.id, revision.sequence, false)))
  }

  /** Ingesting one piece of evidence and accepting the candidate it supports. The second clock reading is the
      acceptance time. */
  function Ingest(t: Tables, scope: Scope, idempotencyKey: string, occurredAt: Time, b: Business, n: Id, now: Time,
                  later: Time):
    Result<(Tables, PreferenceResult)>
  {
    var o := Observation(n, scope, b.kind, b.source, b.evidenceText, idempotencyKey, occurredAt, now, b.reason);
    var e := EvidenceSpan(n + 1, n, b.evidenceText);
    var c := Candidate(n + 2, scope, n, b.key, b.value, b.context, [n + 1], b.confidence, now, None);
    if !InUnit(b.confidence) then Err(DomainError)
    else
      var saved :- SaveIngestion(t.intake, o, e, c);
      Accept(t.(intake := saved), c, Item(b.confidence, occurredAt, b.source), b.reason, b.recordId, n + 3, later)
  }

  function RememberBusiness(c: RememberPreference): Business {
    Business(Message, c.source, c.key, c.value, c.context, c.evidenceText, c.confidence, None, None)
  }

  function CorrectBusiness(c: CorrectPreference, current: Record): Business {
    Business(UserFeedback, c.source, current.key, c.value, current.context, c.evidenceText, 1.0, Some(c.recordId),
             Some(c.reason))
  }

  /** `remember_preference`. */
  function Remember(t: Tables, c: RememberPreference, n: Id, now: Time, later: Time): Result<(Tables,
        PreferenceResult)> {
    var existing := ObservationByKey(t.intake, c.scope, c.idempotencyKey);
    if existing.Some? then
      var result :- ExistingResult(t, existing.value, RememberBusiness(c));
      Ok((t, result))
    else Ingest(t, c.scope, c.idempotencyKey, c.occurredAt, RememberBusiness(c), n, now, later)
  }

  /** `correct_preference`. */
  function Correct(t: Tables, c: CorrectPreference, n: Id, now: Time, later: Time): Result<(Tables, PreferenceResult)> {
    var current := SnapshotOf(t.memory, c.scope, c.recordId);
    if current.None? then Err(NotFoundError)
    else if current.value.record.kind != Preference then Err(DomainError)
    else
      var b := CorrectBusiness(c, current.value.record);
      var existing := ObservationByKey(t.intake, c.scope, c.idempotencyKey);
      if existing.Some? then
        var result :- ExistingResult(t, existing.value, b);
        Ok((t, result))
      else if c.expectedRevisionId.Some? && current.value.revision.id != c.expectedRevisionId.value
          then Err(ConflictError)
      else Ingest(t, c.scope, c.idempotencyKey, c.occurredAt, b, n, now, later)
  }

  /** Whether an outcome may be attributed to the trace, or to the usage when one is named. */
  function Attributable(t: Tables, c: RecordOutcome): Result<T.Trace> {
    var trace := TraceOf(t.recalls, c.scope, c.traceId);
    if trace.None? then Err(NotFoundError)
    else if c.usageId.Some? then
      var usage := UsageOf(t.deliveries, c.scope, c.usageId.value);
      if usage.None? then Err(NotFoundError)
      else if usage.value.traceId != c.traceId || c.revisionId !in usage.value.revisionIds then Err(AttributionError)
      else Ok(trace.value)
    else if c.revisionId !in T.RevisionIds(trace.value.items) then Err(AttributionError)
    else Ok(trace.value)
  }

  datatype OutcomeResult = OutcomeResult(outcome: OutcomeEvent, utility: Utility, replay: bool)

  function OutcomeFor(c: RecordOutcome, n: Id, now: Time): OutcomeEvent {
    OutcomeEvent(n, c.scope, c.traceId, c.revisionId, c.kind, c.idempotencyKey, c.occurredAt, now, c.usageId, c.weight,
                 c.note)
  }

  /** `record_outcome`. */
  function Outcome(t: Tables, c: RecordOutcome, n: Id, now: Time): Result<(Tables, OutcomeResult)> {
    var trace :- Attributable(t, c);
    if !(0.0 < c.weight <= 10.0) then Err(DomainError)
    else
      var (feedback, stored, utility, created) :- ApplyOutcome(t.feedback, OutcomeFor(c, n, now), trace.context);
      Ok((t.(feedback := feedback), OutcomeResult(stored, utility, !created)))
  }

  predicate DistinctIds(ids: seq<Id>) {
    forall i, j | 0 <= i < j < |ids| :: ids[i] != ids[j]
  }

  datatype UsageResult = UsageResult(usage: Usage, replay: bool)

  /** Whether the cited revisions lie in the projection the caller names by its digest. */
  function Citable(t: Tables, c: RecordMemoryUsage): Result<T.Trace> {
    var trace := TraceOf(t.recalls, c.scope, c.traceId);
    if trace.None? then Err(NotFoundError)
    else
      var projection :- P.Project(trace.value, c.algorithm, c.budget);
      if projection.digest != c.source then Err(AttributionError)
      else if c.revisionIds == [] || !(forall id | id in c.revisionIds :: id in projection.SourceRevisionIds()) then
        Err(AttributionError)
      else Ok(trace.value)
  }

  function UsageFor(c: RecordMemoryUsage, n: Id, now: Time): Usage {
    Usage(n, c.scope, c.traceId, c.algorithm, c.budget, c.source, c.delivered, c.revisionIds, c.idempotencyKey,
          c.occurredAt, now)
  }

  /** `record_usage`. */
  function RecordUsage(t: Tables, c: RecordMemoryUsage, n: Id, now: Time): Result<(Tables, UsageResult)> {
    var trace :- Citable(t, c);
    if c.occurredAt > now || !DistinctIds(c.revisionIds) then Err(DomainError)
    else
      var (deliveries, stored, created) :- SaveUsage(t.deliveries, UsageFor(c, n, now));
      Ok((t.(deliveries := deliveries), UsageResult(stored, !created)))
  }

  // ---------------------------------------------------------------- runs

  datatype App = App(tables: Tables, next: Id, clock: Time)

  const INIT := App(EMPTY, 1, 0)

  datatype Call =
    | RememberCall(remember: RememberPreference, now: Time, later: Time)
    | CorrectCall(correct: CorrectPreference, now: Time, later: Time)
    | RecallCall(recall: RecallMemory, policy: R.Strategy, hits: map<Id, real>, now: Time)
    | UsageCall(usage: RecordMemoryUsage, now: Time)
    | OutcomeCall(outcome: RecordOutcome, now: Time)
    | EraseCall(scope: Scope)

  function Stored(env: Env, t: Tables, call: Call, n: Id, now: Time, later: Time): Result<Tables> {
    match call
    case RememberCall(c, _, _) =>
      var (next, _) :- Remember(t, c, n, now, later);
      Ok(next)
    case CorrectCall(c, _, _) =>
      var (next, _) :- Correct(t, c, n, now, later);
      Ok(next)
    case RecallCall(c, policy, hits, _) =>
      var trace :- RecallTrace(env, t, n, c, policy, hits, now);
      Ok(t.(recalls := Recalls(t.recalls.traces[n := trace])))
    case UsageCall(c, _) =>
      var (next, _) :- RecordUsage(t, c, n, now);
      Ok(next)
    case OutcomeCall(c, _) =>
      var (next, _) :- Outcome(t, c, n, now);
      Ok(next)
    case EraseCall(scope) => Ok(EraseScope(t, scope))
  }

  /** The readings a call takes of a clock that never goes back: the first, and the acceptance time. */
  function First(call: Call, clock: Time): Time {
    if call.EraseCall? then clock else Max(clock, call.now)
  }

  function Second(call: Call, clock: Time): Time {
    if call.RememberCall? || call.CorrectCall? then Max(First(call, clock), call.later) else First(call, clock)
  }

  function Committed(app: App, r: Result<Tables>, later: Time): App {
    App(if r.Ok? then r.value else app.tables, app.next + 6, later)
  }

  /** One call. A call that raises leaves every table as it was; its identifiers are spent all the same. */
  function Do(env: Env, app: App, call: Call): App {
    var now, later := First(call, app.clock), Second(call, app.clock);
    Committed(app, Stored(env, app.tables, call, app.next, now, later), later)
  }

  function Run(env: Env, app: App, calls: seq<Call>): App
    decreases |calls|
  {
    if calls == [] then app else Do(env, Run(env, app, calls[..|calls| - 1]), calls[|calls| - 1])
  }
}
