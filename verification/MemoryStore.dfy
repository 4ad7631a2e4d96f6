/** The in-memory store as an object: dictionaries updated in place, and a stack of snapshots restored in place. */
module MemoryStore {
  import opened Common
  import G = Governance
  import M = MemoryTables
  import opened MemoryTables
  import opened AsOf
  import opened Sums
  import T = Traces
  import Sorting

  /** The contract of every write: it takes effect as the tables' operation says, or is refused without effect. */
  predicate Settles<S(==)>(before: S, r: Result<S>, after: S, error: Option<Error>) {
    match r
    case Ok(next) => error.None? && after == next
    case Err(e) => error == Some(e) && after == before
  }

  class InMemoryMemoryStore {
    var observations: map<Id, Observation>
    var observationKeys: map<(Scope, string), Id>
    var evidence: map<Id, EvidenceSpan>
    var candidates: map<Id, Candidate>
    var candidateByObservation: map<Id, Id>
    var records: map<Id, Record>
    var identities: map<(Scope, string, Context), Id>
    var revisions: map<Id, Revision>
    var chains: map<Id, seq<Id>>
    var active: map<Id, Id>
    var transitions: seq<Transition>
    var traces: map<Id, T.Trace>
    var usages: map<Id, Usage>
    var usageKeys: map<(Scope, string), Id>
    var outcomes: map<Id, OutcomeEvent>
    var outcomeOrder: seq<Id>
    var outcomeKeys: map<(Scope, string), Id>
    var utilities: map<(Scope, Id, Context), Utility>
    var snapshots: seq<Tables>

    function IntakeNow(): Intake
      reads this`observations, this`observationKeys, this`evidence, this`candidates, this`candidateByObservation
    {
      Intake(observations, observationKeys, evidence, candidates, candidateByObservation)
    }

    function MemoryNow(): Memory
      reads this`records, this`identities, this`revisions, this`chains, this`active, this`transitions
    {
      Memory(records, identities, revisions, chains, active, transitions)
    }

    function DeliveriesNow(): Deliveries
      reads this`usages, this`usageKeys
    {
      Deliveries(usages, usageKeys)
    }

    function FeedbackNow(): Feedback
      reads this`outcomes, this`outcomeOrder, this`outcomeKeys, this`utilities
    {
      Feedback(outcomes, outcomeOrder, outcomeKeys, utilities)
    }

    /** The tables as one value. */
    function State(): Tables
      reads this
    {
      Tables(IntakeNow(), MemoryNow(), Recalls(traces), DeliveriesNow(), FeedbackNow())
    }

    constructor ()
      ensures State() == EMPTY && snapshots == []
    {
      observations, observationKeys, evidence, candidates, candidateByObservation := map[], map[], map[], map[], map[];
      records, identities, revisions, chains, active, transitions := map[], map[], map[], map[], map[], [];
      traces, usages, usageKeys := map[], map[], map[];
      outcomes, outcomeOrder, outcomeKeys, utilities := map[], [], map[], map[];
      snapshots := [];
    }

    // -------------------------------------------------------------- transactions

    /** `__enter__`: remember every table. */
    method Enter()
      modifies this`snapshots
      ensures snapshots == old(snapshots) + [old(State())]
    {
      snapshots := snapshots + [State()];
    }

    /** `__exit__`: forget the snapshot, or put every table back when the block raised. */
    method Exit(raised: bool)
      requires snapshots != []
      modifies this
      ensures snapshots == old(snapshots)[..|old(snapshots)| - 1]
      ensures State() == if raised then old(snapshots)[|old(snapshots)| - 1] else old(State())
    {
      var last := snapshots[|snapshots| - 1];
      snapshots := snapshots[..|snapshots| - 1];
      if raised {
        Restore(last);
      }
    }

    method Restore(t: Tables)
      modifies this
      ensures State() == t && snapshots == old(snapshots)
    {
      hide IntakeNow, MemoryNow, DeliveriesNow, FeedbackNow;
      RestoreIntake(t.intake);
      RestoreMemory(t.memory);
      traces := t.recalls.traces;
      RestoreDeliveries(t.deliveries);
      RestoreFeedback(t.feedback);
    }

    method RestoreDeliveries(d: Deliveries)
      modifies this`usages, this`usageKeys
      ensures DeliveriesNow() == d
    {
      usages, usageKeys := d.usages, d.usageKeys;
    }

    method RestoreIntake(i: Intake)
      modifies this`observations, this`observationKeys, this`evidence, this`candidates, this`candidateByObservation
      ensures IntakeNow() == i
    {
      observations, observationKeys, evidence := i.observations, i.observationKeys, i.evidence;
      candidates, candidateByObservation := i.candidates, i.candidateByObservation;
    }

    method RestoreMemory(m: Memory)
      modifies this`records, this`identities, this`revisions, this`chains, this`active, this`transitions
      ensures MemoryNow() == m
    {
      records, identities, revisions := m.records, m.identities, m.revisions;
      chains, active, transitions := m.chains, m.active, m.transitions;
    }

    method RestoreFeedback(f: Feedback)
      modifies this`outcomes, this`outcomeOrder, this`outcomeKeys, this`utilities
      ensures FeedbackNow() == f
    {
      outcomes, outcomeOrder, outcomeKeys, utilities := f.outcomes, f.order, f.outcomeKeys, f.utilities;
    }

    // -------------------------------------------------------------- intake and memory

    method SaveIngestion(o: Observation, e: EvidenceSpan, c: Candidate) returns (error: Option<Error>)
      modifies this`observations, this`observationKeys, this`evidence, this`candidates, this`candidateByObservation
      ensures Settles(old(IntakeNow()), M.SaveIngestion(old(IntakeNow()), o, e, c), IntakeNow(), error)
    {
      if (o.scope, o.key) in observationKeys {
        return Some(ConflictError);
      }
      if e.observationId != o.id {
        return Some(ConflictError);
      }
      if c.observationId != o.id || c.scope != o.scope {
        return Some(ConflictError);
      }
      observations := observations[o.id := o];
      observationKeys := observationKeys[(o.scope, o.key) := o.id];
      evidence := evidence[e.id := e];
      candidates := candidates[c.id := c];
      candidateByObservation := candidateByObservation[o.id := c.id];
      error := None;
    }

    method UpdateCandidate(c: Candidate) returns (error: Option<Error>)
      modifies this`candidates
      ensures Settles(old(IntakeNow()), M.UpdateCandidate(old(IntakeNow()), c), IntakeNow(), error)
    {
      if c.id !in candidates {
        return Some(ConflictError);
      }
      candidates := candidates[c.id := c];
      error := None;
    }

    method AddMemory(record: Record, revision: Revision, transition: Transition) returns (error: Option<Error>)
      modifies this`records, this`identities, this`revisions, this`chains, this`active, this`transitions
      ensures Settles(old(MemoryNow()), M.AddMemory(old(MemoryNow()), record, revision, transition), MemoryNow(), error)
    {
      var identity := (record.scope, record.key, record.context);
      if identity in identities {
        return Some(ConflictError);
      }
      if revision.recordId != record.id || transition.recordId != record.id {
        return Some(ConflictError);
      }
      records := records[record.id := record];
      identities := identities[identity := record.id];
      revisions := revisions[revision.id := revision];
      chains := chains[record.id := [revision.id]];
      active := active[record.id := revision.id];
      transitions := transitions + [transition];
      error := None;
    }

    method AppendRevision(expected: Id, revision: Revision, transition: Transition) returns (error: Option<Error>)
      modifies this`revisions, this`chains, this`active, this`transitions
      ensures Settles(old(MemoryNow()), M.AppendRevision(old(MemoryNow()), expected, revision, transition), MemoryNow(),
                      error)
    {
      var recordId := revision.recordId;
      if recordId !in active || active[recordId] != expected {
        return Some(ConflictError);
      }
      if expected !in revisions || recordId !in chains {
        return Some(LookupFailure);
      }
      if revision.sequence != revisions[expected].sequence + 1 {
        return Some(ConflictError);
      }
      if revision.supersedes != Some(expected) {
        return Some(ConflictError);
      }
      if transition.recordId != recordId || transition.from != Some(expected) || transition.to != revision.id {
        return Some(ConflictError);
      }
      revisions := revisions[revision.id := revision];
      chains := chains[recordId := chains[recordId] + [revision.id]];
      active := active[recordId := revision.id];
      transitions := transitions + [transition];
      error := None;
    }

    // -------------------------------------------------------------- reads

    /** The maximum over the eligible revisions of a record, in one pass. */
    method NewestEligible(ids: seq<Id>, validAt: Time, knownAt: Time) returns (best: Option<Revision>)
      ensures best == Best(MemoryNow(), ids, validAt, knownAt)
    {
      best := None;
      var i := 0;
      while i < |ids|
        invariant 0 <= i <= |ids|
        invariant best == Best(MemoryNow(), ids[..i], validAt, knownAt)
      {
        assert ids[..i + 1][..i] == ids[..i];
        if Eligible(MemoryNow(), ids[i], validAt, knownAt) && (best.None? || Newer(revisions[ids[i]], best.value)) {
          best := Some(revisions[ids[i]]);
        }
        i := i + 1;
      }
      assert ids[..i] == ids;
    }

    /** The records of a scope that show something, with what they show. */
    method Visible(scope: Scope, validAt: Time, knownAt: Time) returns (shown: map<Id, Snapshot>)
      ensures shown.Keys == VisibleRecords(MemoryNow(), scope, validAt, knownAt)
      ensures forall id | id in shown :: Some(shown[id]) == SnapshotAsOf(MemoryNow(), id, validAt, knownAt)
    {
      shown := map[];
      var left := records.Keys;
      while left != {}
        invariant left <= records.Keys
        invariant forall id :: id in shown <==>
                    id in records.Keys - left
                    && id in VisibleRecords(MemoryNow(), scope, validAt, knownAt)
        invariant forall id | id in shown :: Some(shown[id]) == SnapshotAsOf(MemoryNow(), id, validAt, knownAt)
        decreases |left|
      {
        var id := Sorting.Take(left);
        left := left - {id};
        var record := records[id];
        if record.scope == scope && record.createdAt <= knownAt && id in chains {
          var best := NewestEligible(chains[id], validAt, knownAt);
          if best.Some? {
            shown := shown[id := Snapshot(record, best.value)];
          }
        }
      }
      assert forall id :: id in shown.Keys <==> id in VisibleRecords(MemoryNow(), scope, validAt, knownAt);
    }

    method MemoriesAsOf(fingerprint: Context -> string, scope: Scope, validAt: Time, knownAt: Time)
        returns (r: seq<Snapshot>)
      ensures r == AsOf.MemoriesAsOf(fingerprint, MemoryNow(), scope, validAt, knownAt)
    {
      hide InMemoryMemoryStore.MemoryNow, SnapshotAsOf, AsOf.MemoriesAsOf;
      var shown := Visible(scope, validAt, knownAt);
      var m := MemoryNow();
      RecordOrderIsTotal(fingerprint, m.records, shown.Keys);
      var ids := Sorting.Sort(shown.Keys, RecordOrder(fingerprint, m.records));
      assert forall k | 0 <= k < |ids| :: ids[k] in ids && ids[k] in shown;
      r := Listed(shown, ids);
      forall k | 0 <= k < |r| ensures Some(r[k]) == SnapshotAsOf(m, ids[k], validAt, knownAt) {
        assert ids[k] in ids;
      }
      ReadBuilt(fingerprint, m, scope, validAt, knownAt, shown.Keys, ids, r);
    }

    method Listed(shown: map<Id, Snapshot>, ids: seq<Id>) returns (r: seq<Snapshot>)
      requires forall k | 0 <= k < |ids| :: ids[k] in shown
      ensures |r| == |ids| && forall k | 0 <= k < |r| :: ids[k] in shown && r[k] == shown[ids[k]]
    {
      r := [];
      var i := 0;
      while i < |ids|
        invariant 0 <= i <= |ids| && |r| == i
        invariant forall k | 0 <= k < i :: ids[k] in shown && r[k] == shown[ids[k]]
      {
        r := r + [shown[ids[i]]];
        i := i + 1;
      }
    }

    /** The estimate recomputed from the outcomes recorded by then, in one pass over the dictionary. */
    method UtilityForAsOf(scope: Scope, revisionId: Id, context: Context, knownAt: Time) returns (u: Utility)
      ensures u == M.UtilityForAsOf(FeedbackNow(), Recalls(traces), scope, revisionId, context, knownAt)
    {
      u := NO_OUTCOMES;
      var i := 0;
      while i < |outcomeOrder|
        invariant 0 <= i <= |outcomeOrder|
        invariant u == UtilityOfLog(FeedbackNow(), Recalls(traces), scope, revisionId, context, knownAt,
                                    outcomeOrder[..i])
      {
        assert outcomeOrder[..i + 1][..i] == outcomeOrder[..i];
        if Counts(FeedbackNow(), Recalls(traces), scope, revisionId, context, knownAt, outcomeOrder[i]) {
          var o := outcomes[outcomeOrder[i]];
          u := u.Updated(o.kind.SuccessValue(), o.weight, o.occurredAt);
        }
        i := i + 1;
      }
      assert outcomeOrder[..i] == outcomeOrder;
    }

    // -------------------------------------------------------------- experience

    method SaveTrace(trace: T.Trace)
      modifies this`traces
      ensures State() == old(State()).(recalls := Recalls(old(traces)[trace.id := trace]))
    {
      traces := traces[trace.id := trace];
    }

    /** The stored usage and whether it is new. */
    method SaveUsage(u: Usage) returns (r: Result<(Usage, bool)>)
      modifies this`usages, this`usageKeys
      ensures match M.SaveUsage(old(DeliveriesNow()), u)
              case Ok((d, stored, created)) => r == Ok((stored, created)) && DeliveriesNow() == d
              case Err(e) => r == Err(e) && DeliveriesNow() == old(DeliveriesNow())
    {
      var key := (u.scope, u.key);
      if key in usageKeys {
        if usageKeys[key] !in usages {
          return Err(LookupFailure);
        }
        var existing := usages[usageKeys[key]];
        if !SameUsage(existing, u) {
          return Err(ConflictError);
        }
        return Ok((existing, false));
      }
      usages := usages[u.id := u];
      usageKeys := usageKeys[key := u.id];
      r := Ok((u, true));
    }

    /** The stored outcome, the estimate and whether the outcome is new. */
    method ApplyOutcome(o: OutcomeEvent, context: Context) returns (r: Result<(OutcomeEvent, Utility, bool)>)
      modifies this`outcomes, this`outcomeOrder, this`outcomeKeys, this`utilities
      ensures match M.ApplyOutcome(old(FeedbackNow()), o, context)
              case Ok((f, stored, u, created)) => r == Ok((stored, u, created)) && FeedbackNow() == f
              case Err(e) => r == Err(e) && FeedbackNow() == old(FeedbackNow())
    {
      var key := (o.scope, o.key);
      if key in outcomeKeys {
        if outcomeKeys[key] !in outcomes {
          return Err(LookupFailure);
        }
        var existing := outcomes[outcomeKeys[key]];
        if !SameOutcome(existing, o) {
          return Err(ConflictError);
        }
        return Ok((existing, UtilityFor(FeedbackNow(), o.scope, existing.revisionId, context), false));
      }
      if o.weight <= 0.0 {
        return Err(DomainError);
      }
      var current := UtilityFor(FeedbackNow(), o.scope, o.revisionId, context);
      var updated := current.Updated(o.kind.SuccessValue(), o.weight, o.occurredAt);
      if o.id !in outcomes {
        outcomeOrder := outcomeOrder + [o.id];
      }
      outcomes := outcomes[o.id := o];
      outcomeKeys := outcomeKeys[key := o.id];
      utilities := utilities[(o.scope, o.revisionId, context) := updated];
      r := Ok((o, updated, true));
    }

    // -------------------------------------------------------------- erasure

    method CountItems(ids: set<Id>, count: Id -> int) returns (n: int)
      ensures n == Sum(ids, count)
    {
      n := 0;
      var left := ids;
      while left != {}
        invariant left <= ids && n + Sum(left, count) == Sum(ids, count)
        decreases |left|
      {
        var id := Sorting.Take(left);
        SumWithout(left, count, id);
        n := n + count(id);
        left := left - {id};
      }
    }

    method TransitionsAmong(gone: set<Id>) returns (n: int)
      ensures n == CountTransitions(transitions, gone)
    {
      n := 0;
      var i := 0;
      while i < |transitions|
        invariant 0 <= i <= |transitions| && n == CountTransitions(transitions[..i], gone)
      {
        assert transitions[..i + 1][..i] == transitions[..i];
        if transitions[i].recordId in gone {
          n := n + 1;
        }
        i := i + 1;
      }
      assert transitions[..i] == transitions;
    }

    method DropTransitions(gone: set<Id>)
      modifies this`transitions
      ensures transitions == KeepTransitions(old(transitions), gone)
    {
      var all, kept, i := transitions, [], 0;
      while i < |all|
        invariant 0 <= i <= |all| && kept == KeepTransitions(all[..i], gone)
      {
        assert all[..i + 1][..i] == all[..i];
        if all[i].recordId !in gone {
          kept := kept + [all[i]];
        }
        i := i + 1;
      }
      assert all[..i] == all;
      transitions := kept;
    }

    method Summarise(scope: Scope) returns (summary: G.Summary)
      ensures summary == SummaryOf(State(), scope)
    {
      var t := State();
      var traceItems := CountItems(TracesOf(t, scope), TraceItems(t.recalls.traces));
      var usageItems := CountItems(UsagesOf(t, scope), UsageItems(t.deliveries.usages));
      var dropped := TransitionsAmong(RecordsOf(t, scope));
      summary := G.Summary(
        |ObservationsOf(t, scope)|, |EvidenceOf(t, scope)|, |CandidatesOf(t, scope)|, |RecordsOf(t, scope)|,
        |RevisionsOf(t, scope)|, dropped, |TracesOf(t, scope)|, traceItems, |UsagesOf(t, scope)|, usageItems,
        |OutcomesOf(t, scope)|, |UtilitiesOf(t, scope)|, 0);
    }

    method EraseIntake(t: Tables, scope: Scope)
      requires IntakeNow() == t.intake
      modifies this`observations, this`observationKeys, this`evidence, this`candidates, this`candidateByObservation
      ensures IntakeNow() == IntakeWithout(t, scope)
    {
      var observationIds, evidenceIds, candidateIds := ObservationsOf(t, scope), EvidenceOf(t, scope),
          CandidatesOf(t, scope);
      observations, candidateByObservation := observations - observationIds, candidateByObservation - observationIds;
      observationKeys := KeepOthers(observationKeys, scope);
      evidence, candidates := evidence - evidenceIds, candidates - candidateIds;
    }

    method EraseMemory(t: Tables, scope: Scope)
      requires MemoryNow() == t.memory
      modifies this`records, this`identities, this`revisions, this`chains, this`active, this`transitions
      ensures MemoryNow() == MemoryWithout(t, scope)
    {
      var recordIds, revisionIds := RecordsOf(t, scope), RevisionsOf(t, scope);
      DropTransitions(recordIds);
      records, active, chains := records - recordIds, active - recordIds, chains - recordIds;
      var known := identities;
      identities := map k | k in known && k.0 != scope :: known[k];
      revisions := revisions - revisionIds;
    }

    method EraseExperience(t: Tables, scope: Scope)
      requires traces == t.recalls.traces && DeliveriesNow() == t.deliveries
      modifies this`traces, this`usages, this`usageKeys
      ensures traces == t.recalls.traces - TracesOf(t, scope)
      ensures DeliveriesNow() == Deliveries(t.deliveries.usages - UsagesOf(t, scope),
                                            KeepOthers(t.deliveries.usageKeys, scope))
    {
      traces, usages := traces - TracesOf(t, scope), usages - UsagesOf(t, scope);
      usageKeys := KeepOthers(usageKeys, scope);
    }

    method EraseFeedback(t: Tables, scope: Scope)
      requires FeedbackNow() == t.feedback
      modifies this`outcomes, this`outcomeOrder, this`outcomeKeys, this`utilities
      ensures FeedbackNow() == FeedbackWithout(t, scope)
    {
      var outcomeIds, utilityKeys := OutcomesOf(t, scope), UtilitiesOf(t, scope);
      outcomes, outcomeOrder := outcomes - outcomeIds, KeepIds(outcomeOrder, outcomeIds);
      outcomeKeys := KeepOthers(outcomeKeys, scope);
      utilities := utilities - utilityKeys;
    }

    method EraseWrites(t: Tables, scope: Scope)
      requires IntakeNow() == t.intake && MemoryNow() == t.memory
      modifies this`observations, this`observationKeys, this`evidence, this`candidates, this`candidateByObservation
      modifies this`records, this`identities, this`revisions, this`chains, this`active, this`transitions
      ensures IntakeNow() == IntakeWithout(t, scope) && MemoryNow() == MemoryWithout(t, scope)
    {
      EraseIntake(t, scope);
      EraseMemory(t, scope);
    }

    method EraseReads(t: Tables, scope: Scope)
      requires traces == t.recalls.traces && DeliveriesNow() == t.deliveries && FeedbackNow() == t.feedback
      modifies this`traces, this`usages, this`usageKeys
      modifies this`outcomes, this`outcomeOrder, this`outcomeKeys, this`utilities
      ensures traces == t.recalls.traces - TracesOf(t, scope) && FeedbackNow() == FeedbackWithout(t, scope)
      ensures DeliveriesNow() == Deliveries(t.deliveries.usages - UsagesOf(t, scope),
                                            KeepOthers(t.deliveries.usageKeys, scope))
    {
      EraseExperience(t, scope);
      EraseFeedback(t, scope);
    }

    method EraseTables(t: Tables, scope: Scope)
      requires State() == t
      modifies this
      ensures snapshots == old(snapshots) && State() == M.EraseScope(t, scope)
    {
      hide IntakeNow, MemoryNow, DeliveriesNow, FeedbackNow, M.EraseScope;
      EraseWrites(t, scope);
      EraseReads(t, scope);
      Assembled(t, scope, IntakeNow(), MemoryNow(), Recalls(traces), DeliveriesNow(), FeedbackNow());
    }

    /** Every identifier is collected, and every count taken, before anything is removed. */
    method EraseScope(scope: Scope) returns (summary: G.Summary)
      modifies this
      ensures snapshots == old(snapshots)
      ensures State() == M.EraseScope(old(State()), scope) && summary == SummaryOf(old(State()), scope)
    {
      summary := Summarise(scope);
      EraseTables(State(), scope);
    }
  }

  lemma Assembled(t: Tables, scope: Scope, i: Intake, m: Memory, r: Recalls, d: Deliveries, f: Feedback)
    requires i == IntakeWithout(t, scope) && m == MemoryWithout(t, scope) && f == FeedbackWithout(t, scope)
    requires r.traces == t.recalls.traces - TracesOf(t, scope)
    requires d == Deliveries(t.deliveries.usages - UsagesOf(t, scope), KeepOthers(t.deliveries.usageKeys, scope))
    ensures Tables(i, m, r, d, f) == M.EraseScope(t, scope)
  {
  }
}
