/** The memory application as an object over the store: each use case is one transaction, undone when it raises. */
module MemoryApplications {
  import opened Common
  import opened Beliefs
  import M = MemoryTables
  import opened MemoryTables
  import opened MemoryStore
  import opened Recall
  import S = Service
  import opened Service
  import T = Traces
  import P = Projections
  import R = Registry
  import Sorting

  /** What a use case answers and leaves behind; what it leaves behind when it raises is not said. */
  predicate Answers<X(==)>(spec: Result<(Tables, X)>, r: Result<X>, after: Tables) {
    match spec
    case Ok((t, x)) => r == Ok(x) && after == t
    case Err(e) => r == Err(e)
  }

  /** A transaction answers the same, and leaves the tables as they were when it raises. */
  predicate Commits<X(==)>(before: Tables, spec: Result<(Tables, X)>, r: Result<X>, after: Tables) {
    Answers(spec, r, after) && (r.Err? ==> after == before)
  }

  class MemoryApplication {
    const store: InMemoryMemoryStore
    var nextId: Id

    constructor (store: InMemoryMemoryStore, nextId: Id)
      ensures this.store == store && this.nextId == nextId
    {
      this.store, this.nextId := store, nextId;
    }

    method NewId() returns (id: Id)
      modifies this
      ensures id == old(nextId) && nextId == old(nextId) + 1
    {
      id := nextId;
      nextId := nextId + 1;
    }

    // -------------------------------------------------------------- writes

    /** The record and first revision of a new memory. */
    method StoreNew(c: Candidate, i: Item, reason: Option<string>, now: Time) returns (r: Result<Revision>)
      modifies this, store
      ensures store.snapshots == old(store.snapshots) && old(nextId) <= nextId <= old(nextId) + 3
      ensures match NewMemory(old(store.MemoryNow()), c, i, reason, old(nextId), now)
              case Ok((m, v)) => r == Ok(v) && store.State() == old(store.State()).(memory := m)
              case Err(e) => r == Err(e)
    {
      hide InMemoryMemoryStore.IntakeNow, InMemoryMemoryStore.MemoryNow, InMemoryMemoryStore.DeliveriesNow,
           InMemoryMemoryStore.FeedbackNow, M.AddMemory;
      var recordId := NewId();
      var record := Record(recordId, c.scope, Preference, c.key, c.context, now);
      var revisionId := NewId();
      var revision := Revision(revisionId, record.id, 1, c.value, FromEvidence(i), c.evidenceIds, i.at, now, None);
      var transitionId := NewId();
      var error := store.AddMemory(record, revision,
                                   Transition(transitionId, record.id, Created, now, revision.id, None, reason));
      r := if error.Some? then Err(error.value) else Ok(revision);
    }

    /** The next revision of the current memory. */
    method StoreNext(current: Snapshot, c: Candidate, i: Item, reason: Option<string>, now: Time)
        returns (r: Result<Revision>)
      modifies this, store
      ensures store.snapshots == old(store.snapshots) && old(nextId) <= nextId <= old(nextId) + 3
      ensures match NextRevision(old(store.MemoryNow()), current, c, i, reason, old(nextId), now)
              case Ok((m, v)) => r == Ok(v) && store.State() == old(store.State()).(memory := m)
              case Err(e) => r == Err(e)
    {
      hide InMemoryMemoryStore.IntakeNow, InMemoryMemoryStore.MemoryNow, InMemoryMemoryStore.DeliveriesNow,
           InMemoryMemoryStore.FeedbackNow, M.AppendRevision;
      var head := current.revision;
      var belief, evidenceIds := FromEvidence(i), c.evidenceIds;
      if head.value == c.value {
        var reinforced := Reinforced(head.belief, i);
        if reinforced.Err? {
          return Err(reinforced.error);
        }
        belief, evidenceIds := reinforced.value, head.evidenceIds + c.evidenceIds;
      }
      var revisionId := NewId();
      var revision := Revision(revisionId, current.record.id, head.sequence + 1, c.value, belief, evidenceIds, i.at,
                               now, Some(head.id));
      var transitionId := NewId();
      var error := store.AppendRevision(
        head.id, revision, Transition(transitionId, current.record.id, Superseded, now, revision.id, Some(head.id),
                                      reason));
      r := if error.Some? then Err(error.value) else Ok(revision);
    }

    method AcceptCandidate(c: Candidate, i: Item, reason: Option<string>, expected: Option<Id>, now: Time)
        returns (r: Result<PreferenceResult>)
      modifies this, store
      ensures store.snapshots == old(store.snapshots) && old(nextId) <= nextId <= old(nextId) + 3
      ensures Answers(Accept(old(store.State()), c, i, reason, expected, old(nextId), now), r, store.State())
    {
      var current := CurrentByIdentity(store.MemoryNow(), c.scope, c.key, c.context);
      var stored;
      if current.None? {
        if expected.Some? {
          return Err(ConflictError);
        }
        stored := StoreNew(c, i, reason, now);
      } else {
        if expected.Some? && current.value.record.id != expected.value {
          return Err(ConflictError);
        }
        stored := StoreNext(current.value, c, i, reason, now);
      }
      if stored.Err? {
        return Err(stored.error);
      }
      var revision := stored.value;
      var error := store.UpdateCandidate(c.(accepted := Some((revision.recordId, revision.id))));
      if error.Some? {
        return Err(error.value);
      }
      r := Ok(PreferenceResult(c.observationId, c.id, revision.recordId, revision.id, revision.sequence, false));
    }

    method IngestEvidence(scope: Scope, idempotencyKey: string, occurredAt: Time, b: Business, now: Time, later: Time)
      returns (r: Result<PreferenceResult>)
      modifies this, store
      ensures store.snapshots == old(store.snapshots) && old(nextId) <= nextId <= old(nextId) + 6
      ensures Answers(Ingest(old(store.State()), scope, idempotencyKey, occurredAt, b, old(nextId), now, later), r,
                      store.State())
    {
      hide InMemoryMemoryStore.IntakeNow, InMemoryMemoryStore.MemoryNow, InMemoryMemoryStore.DeliveriesNow,
           InMemoryMemoryStore.FeedbackNow, M.SaveIngestion, Accept;
      var observationId := NewId();
      var o := Observation(observationId, scope, b.kind, b.source, b.evidenceText, idempotencyKey, occurredAt, now,
                           b.reason);
      var evidenceId := NewId();
      var e := EvidenceSpan(evidenceId, o.id, b.evidenceText);
      var candidateId := NewId();
      if !InUnit(b.confidence) {
        return Err(DomainError);
      }
      var c := Candidate(candidateId, scope, o.id, b.key, b.value, b.context, [e.id], b.confidence, now, None);
      var error := store.SaveIngestion(o, e, c);
      if error.Some? {
        return Err(error.value);
      }
      r := AcceptCandidate(c, Item(b.confidence, occurredAt, b.source), b.reason, b.recordId, later);
    }

    method RememberInside(c: RememberPreference, now: Time, later: Time) returns (r: Result<PreferenceResult>)
      modifies this, store
      ensures store.snapshots == old(store.snapshots) && old(nextId) <= nextId <= old(nextId) + 6
      ensures Answers(Remember(old(store.State()), c, old(nextId), now, later), r, store.State())
    {
      var existing := ObservationByKey(store.IntakeNow(), c.scope, c.idempotencyKey);
      if existing.Some? {
        r := ExistingResult(store.State(), existing.value, RememberBusiness(c));
        return;
      }
      r := IngestEvidence(c.scope, c.idempotencyKey, c.occurredAt, RememberBusiness(c), now, later);
    }

    method RememberPreference(c: RememberPreference, now: Time, later: Time) returns (r: Result<PreferenceResult>)
      modifies this, store
      ensures store.snapshots == old(store.snapshots) && old(nextId) <= nextId <= old(nextId) + 6
      ensures Commits(old(store.State()), Remember(old(store.State()), c, old(nextId), now, later), r, store.State())
    {
      store.Enter();
      r := RememberInside(c, now, later);
      store.Exit(r.Err?);
    }

    method CorrectInside(c: CorrectPreference, now: Time, later: Time) returns (r: Result<PreferenceResult>)
      modifies this, store
      ensures store.snapshots == old(store.snapshots) && old(nextId) <= nextId <= old(nextId) + 6
      ensures Answers(Correct(old(store.State()), c, old(nextId), now, later), r, store.State())
    {
      var current := SnapshotOf(store.MemoryNow(), c.scope, c.recordId);
      if current.None? {
        return Err(NotFoundError);
      }
      if current.value.record.kind != Preference {
        return Err(DomainError);
      }
      var b := CorrectBusiness(c, current.value.record);
      var existing := ObservationByKey(store.IntakeNow(), c.scope, c.idempotencyKey);
      if existing.Some? {
        r := ExistingResult(store.State(), existing.value, b);
        return;
      }
      if c.expectedRevisionId.Some? && current.value.revision.id != c.expectedRevisionId.value {
        return Err(ConflictError);
      }
      r := IngestEvidence(c.scope, c.idempotencyKey, c.occurredAt, b, now, later);
    }

    method CorrectPreference(c: CorrectPreference, now: Time, later: Time) returns (r: Result<PreferenceResult>)
      modifies this, store
      ensures store.snapshots == old(store.snapshots) && old(nextId) <= nextId <= old(nextId) + 6
      ensures Commits(old(store.State()), Correct(old(store.State()), c, old(nextId), now, later), r, store.State())
    {
      store.Enter();
      r := CorrectInside(c, now, later);
      store.Exit(r.Err?);
    }

    // -------------------------------------------------------------- recall

    /** The scoring loop, which appends what is admitted. */
    method Score(env: Env, policy: R.Strategy, q: Query, snapshots: seq<Snapshot>) returns (r: Result<seq<Entry>>)
      ensures r == Scored(env, store.State(), policy, q, snapshots)
    {
      var scored: seq<Entry> := [];
      var i := 0;
      while i < |snapshots|
        invariant 0 <= i <= |snapshots|
        invariant Scored(env, store.State(), policy, q, snapshots[..i]) == Ok(scored)
      {
        assert snapshots[..i + 1][..i] == snapshots[..i];
        var e := EntryFor(env, store.State(), policy, q, snapshots[i]);
        if !T.BreakdownAccepted(e.breakdown) {
          RefusalStays(env, store.State(), policy, q, snapshots, i);
          return Err(DomainError);
        }
        if Admitted(e, q, policy.minScore) {
          scored := scored + [e];
        }
        i := i + 1;
      }
      assert snapshots[..i] == snapshots;
      r := Ok(scored);
    }

    method Recall(env: Env, c: RecallMemory, policy: R.Strategy, hits: map<Id, real>, now: Time)
        returns (r: Result<T.Trace>)
      modifies this, store
      ensures r == RecallTrace(env, old(store.State()), old(nextId), c, policy, hits, now)
      ensures store.State() ==
              if r.Ok? then old(store.State()).(recalls := Recalls(old(store.traces)[r.value.id := r.value]))
              else old(store.State())
      ensures store.snapshots == old(store.snapshots) && old(nextId) <= nextId <= old(nextId) + 1
    {
      if !(1 <= c.limit <= 100) || P.Strip(c.query) == "" {
        return Err(DomainError);
      }
      var q := Resolved(c, hits, now);
      if q.knownAt > now {
        return Err(DomainError);
      }
      var snapshots := store.MemoriesAsOf(env.fingerprint, c.scope, q.validAt, q.knownAt);
      var scored := Score(env, policy, q, snapshots);
      if scored.Err? {
        return Err(scored.error);
      }
      var best := Sorting.FirstSorted(scored.value, c.limit, Outranks);
      var id := NewId();
      var trace := T.Trace(id, c.scope, q.command.query, c.context, policy.id, policy.version, ItemsOf(best), q.validAt,
                           q.knownAt, now);
      if !T.TraceAccepted(trace) {
        return Err(DomainError);
      }
      store.SaveTrace(trace);
      r := Ok(trace);
    }

    // -------------------------------------------------------------- feedback

    method OutcomeInside(c: RecordOutcome, now: Time) returns (r: Result<OutcomeResult>)
      modifies this, store
      ensures store.snapshots == old(store.snapshots) && old(nextId) <= nextId <= old(nextId) + 1
      ensures Answers(Outcome(old(store.State()), c, old(nextId), now), r, store.State())
    {
      var trace := Attributable(store.State(), c);
      if trace.Err? {
        return Err(trace.error);
      }
      var id := NewId();
      if !(0.0 < c.weight <= 10.0) {
        return Err(DomainError);
      }
      var applied := store.ApplyOutcome(OutcomeFor(c, id, now), trace.value.context);
      if applied.Err? {
        return Err(applied.error);
      }
      var (stored, utility, created) := applied.value;
      r := Ok(OutcomeResult(stored, utility, !created));
    }

    method RecordOutcome(c: RecordOutcome, now: Time) returns (r: Result<OutcomeResult>)
      modifies this, store
      ensures store.snapshots == old(store.snapshots) && old(nextId) <= nextId <= old(nextId) + 1
      ensures Commits(old(store.State()), Outcome(old(store.State()), c, old(nextId), now), r, store.State())
    {
      store.Enter();
      r := OutcomeInside(c, now);
      store.Exit(r.Err?);
    }

    method UsageInside(c: RecordMemoryUsage, now: Time) returns (r: Result<UsageResult>)
      modifies this, store
      ensures store.snapshots == old(store.snapshots) && old(nextId) <= nextId <= old(nextId) + 1
      ensures Answers(S.RecordUsage(old(store.State()), c, old(nextId), now), r, store.State())
    {
      var trace := Citable(store.State(), c);
      if trace.Err? {
        return Err(trace.error);
      }
      if c.occurredAt > now {
        return Err(DomainError);
      }
      var id := NewId();
      if !DistinctIds(c.revisionIds) {
        return Err(DomainError);
      }
      var saved := store.SaveUsage(UsageFor(c, id, now));
      if saved.Err? {
        return Err(saved.error);
      }
      var (stored, created) := saved.value;
      r := Ok(UsageResult(stored, !created));
    }

    method RecordUsage(c: RecordMemoryUsage, now: Time) returns (r: Result<UsageResult>)
      modifies this, store
      ensures store.snapshots == old(store.snapshots) && old(nextId) <= nextId <= old(nextId) + 1
      ensures Commits(old(store.State()), S.RecordUsage(old(store.State()), c, old(nextId), now), r, store.State())
    {
      store.Enter();
      r := UsageInside(c, now);
      store.Exit(r.Err?);
    }
  }

  /** A breakdown refused on the way is refused at the end. */
  lemma {:induction false} RefusalStays(env: Env, t: Tables, policy: R.Strategy, q: Query, snapshots: seq<Snapshot>,
                                        i: nat)
    requires i < |snapshots| && Scored(env, t, policy, q, snapshots[..i]).Ok?
    requires !T.BreakdownAccepted(EntryFor(env, t, policy, q, snapshots[i]).breakdown)
    ensures Scored(env, t, policy, q, snapshots) == Err(DomainError)
    decreases |snapshots|
  {
    var n := |snapshots| - 1;
    if i < n {
      assert snapshots[..n][..i] == snapshots[..i];
      RefusalStays(env, t, policy, q, snapshots[..n], i);
    }
  }
}
