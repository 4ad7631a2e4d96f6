/** What every reachable state satisfies about traces, usages and outcomes: every reference resolves in its own scope,
    and the incremental utility table agrees with the outcome log. */
module ExperienceInvariant {
  import opened Common
  import opened MemoryTables
  import opened Service
  import T = Traces
  import P = Projections
  import Sorting

  // ---------------------------------------------------------------- traces

  /** Each recalled revision is a stored revision of the named record, in the trace's scope, and is listed once. */
  ghost predicate TraceOk(m: Memory, next: Id, clock: Time, id: Id, t: T.Trace) {
    && t.id == id < next && t.createdAt <= clock && T.TraceAccepted(t)
    && T.DistinctItems(t.items)
    && (forall i | 0 <= i < |t.items| ::
         && t.items[i].revisionId in m.revisions && m.revisions[t.items[i].revisionId].recordId == t.items[i].recordId
         && t.items[i].recordId in m.records && m.records[t.items[i].recordId].scope == t.scope)
  }

  ghost predicate RecallsOk(m: Memory, r: Recalls, next: Id, clock: Time) {
    forall id | id in r.traces :: TraceOk(m, next, clock, id, r.traces[id])
  }

  // ---------------------------------------------------------------- usages

  /** The cited revisions lie in the projection of the trace that the usage names by its digest. */
  ghost predicate CitesProjection(trace: T.Trace, u: Usage) {
    var projection := P.Project(trace, u.algorithm, u.budget);
    && projection.Ok? && projection.value.digest == u.source
    && forall x | x in u.revisionIds :: x in projection.value.SourceRevisionIds()
  }

  /** A usage cites revisions of a trace in its own scope. */
  ghost predicate UsageOk(d: Deliveries, r: Recalls, next: Id, clock: Time, id: Id, u: Usage) {
    && u.id == id < next && u.recordedAt <= clock
    && (u.scope, u.key) in d.usageKeys && d.usageKeys[(u.scope, u.key)] == id
    && u.traceId in r.traces && r.traces[u.traceId].scope == u.scope
    && u.revisionIds != [] && DistinctIds(u.revisionIds)
    && (forall x | x in u.revisionIds :: x in T.RevisionIds(r.traces[u.traceId].items))
    && CitesProjection(r.traces[u.traceId], u)
  }

  ghost predicate DeliveriesOk(d: Deliveries, r: Recalls, next: Id, clock: Time) {
    && (forall id | id in d.usages :: UsageOk(d, r, next, clock, id, d.usages[id]))
    && (forall k | k in d.usageKeys ::
         d.usageKeys[k] in d.usages && (d.usages[d.usageKeys[k]].scope, d.usages[d.usageKeys[k]].key) == k)
  }

  // ---------------------------------------------------------------- outcomes

  /** An outcome is attributable: its trace exists in the same scope and lists its revision. */
  ghost predicate Attributed(r: Recalls, o: OutcomeEvent) {
    && o.traceId in r.traces && r.traces[o.traceId].scope == o.scope
    && o.revisionId in T.RevisionIds(r.traces[o.traceId].items)
  }

  ghost predicate OutcomeOk(f: Feedback, r: Recalls, next: Id, clock: Time, id: Id, o: OutcomeEvent) {
    && o.id == id < next && o.recordedAt <= clock && 0.0 < o.weight <= 10.0
    && (o.scope, o.key) in f.outcomeKeys && f.outcomeKeys[(o.scope, o.key)] == id
    && Attributed(r, o)
  }

  ghost predicate FeedbackOk(f: Feedback, r: Recalls, next: Id, clock: Time) {
    && (forall id | id in f.outcomes :: OutcomeOk(f, r, next, clock, id, f.outcomes[id]))
    && (forall k | k in f.outcomeKeys ::
         f.outcomeKeys[k] in f.outcomes && (f.outcomes[f.outcomeKeys[k]].scope, f.outcomes[f.outcomeKeys[k]].key) == k)
    && Sorting.Distinct(f.order) && (forall id :: id in f.order <==> id in f.outcomes)
  }

  /** The table agrees with the log, for every key and every time not before the recorded ones. */
  ghost predicate UtilitiesOk(f: Feedback, r: Recalls, clock: Time) {
    forall scope, revisionId, context, knownAt | clock <= knownAt ::
      UtilityFor(f, scope, revisionId, context) == UtilityForAsOf(f, r, scope, revisionId, context, knownAt)
  }

  ghost predicate ExperienceOk(t: Tables, next: Id, clock: Time) {
    && RecallsOk(t.memory, t.recalls, next, clock) && DeliveriesOk(t.deliveries, t.recalls, next, clock)
    && FeedbackOk(t.feedback, t.recalls, next, clock) && UtilitiesOk(t.feedback, t.recalls, clock)
  }

  // ---------------------------------------------------------------- recording an outcome

  /** Outcomes added elsewhere do not disturb the log of the ones listed. */
  lemma {:induction false} LogIgnoresNewOutcome(f: Feedback, g: Feedback, r: Recalls, scope: Scope, revisionId: Id,
                                                context: Context, knownAt: Time, ids: seq<Id>)
    requires forall k | 0 <= k < |ids| ::
               ids[k] in f.outcomes && ids[k] in g.outcomes
               && g.outcomes[ids[k]] == f.outcomes[ids[k]]
    ensures UtilityOfLog(g, r, scope, revisionId, context, knownAt, ids)
            == UtilityOfLog(f, r, scope, revisionId, context, knownAt, ids)
    decreases |ids|
  {
    if ids != [] {
      LogIgnoresNewOutcome(f, g, r, scope, revisionId, context, knownAt, ids[..|ids| - 1]);
    }
  }

  lemma OrderIsStored(f: Feedback, r: Recalls, next: Id, clock: Time, k: nat)
    requires FeedbackOk(f, r, next, clock) && k < |f.order|
    ensures f.order[k] in f.outcomes && f.order[k] != next
  {
    var id := f.order[k];
    assert id in f.order;
    assert id in f.outcomes;
    assert OutcomeOk(f, r, next, clock, id, f.outcomes[id]);
  }

  lemma OutcomeKeepsLog(f: Feedback, r: Recalls, next: Id, clock: Time, o: OutcomeEvent,
                        scope: Scope, revisionId: Id, context: Context, knownAt: Time)
    requires FeedbackOk(f, r, next, clock) && o.id == next && (o.scope, o.key) !in f.outcomeKeys && 0.0 < o.weight
    requires o.traceId in r.traces
    ensures var g := ApplyOutcome(f, o, r.traces[o.traceId].context).value.0;
            && g.order == f.order + [next]
            && UtilityOfLog(g, r, scope, revisionId, context, knownAt, f.order)
               == UtilityOfLog(f, r, scope, revisionId, context, knownAt, f.order)
  {
    var g := ApplyOutcome(f, o, r.traces[o.traceId].context).value.0;
    assert next !in f.outcomes;
    forall k | 0 <= k < |f.order| ensures f.order[k] in f.outcomes && g.outcomes[f.order[k]] == f.outcomes[f.order[k]] {
      OrderIsStored(f, r, next, clock, k);
    }
    LogIgnoresNewOutcome(f, g, r, scope, revisionId, context, knownAt, f.order);
  }

  lemma OutcomeKeepsUtility(f: Feedback, r: Recalls, next: Id, clock: Time, o: OutcomeEvent, now: Time,
                            scope: Scope, revisionId: Id, context: Context, knownAt: Time)
    requires FeedbackOk(f, r, next, clock) && UtilitiesOk(f, r, clock) && clock <= now <= knownAt
    requires o.id == next && o.recordedAt == now && Attributed(r, o) && 0.0 < o.weight
             && (o.scope, o.key) !in f.outcomeKeys
    ensures var g := ApplyOutcome(f, o, r.traces[o.traceId].context).value.0;
            UtilityFor(g, scope, revisionId, context) == UtilityForAsOf(g, r, scope, revisionId, context, knownAt)
  {
    hide FeedbackOk, UtilityOfLog;
    var g := ApplyOutcome(f, o, r.traces[o.traceId].context).value.0;
    OutcomeKeepsLog(f, r, next, clock, o, scope, revisionId, context, knownAt);
    LogAdds(g, r, scope, revisionId, context, knownAt, f.order, next);
    assert UtilityFor(f, scope, revisionId, context) == UtilityForAsOf(f, r, scope, revisionId, context, knownAt);
  }

  lemma LogAdds(f: Feedback, r: Recalls, scope: Scope, revisionId: Id, context: Context, knownAt: Time, ids: seq<Id>,
                id: Id)
    ensures var before := UtilityOfLog(f, r, scope, revisionId, context, knownAt, ids);
            UtilityOfLog(f, r, scope, revisionId, context, knownAt, ids + [id])
            == if Counts(f, r, scope, revisionId, context, knownAt, id) then
                 before.Updated(f.outcomes[id].kind.SuccessValue(), f.outcomes[id].weight, f.outcomes[id].occurredAt)
               else before
  {
    assert (ids + [id])[..|ids|] == ids;
  }

  lemma OutcomeKeeps(f: Feedback, r: Recalls, next: Id, clock: Time, o: OutcomeEvent, now: Time)
    requires FeedbackOk(f, r, next, clock) && UtilitiesOk(f, r, clock) && clock <= now
    requires o.id == next && o.recordedAt == now && Attributed(r, o) && 0.0 < o.weight <= 10.0
             && (o.scope, o.key) !in f.outcomeKeys
    ensures var g := ApplyOutcome(f, o, r.traces[o.traceId].context).value.0;
            FeedbackOk(g, r, next + 6, now) && UtilitiesOk(g, r, now)
  {
    var g := ApplyOutcome(f, o, r.traces[o.traceId].context).value.0;
    assert next !in f.outcomes;
    assert g.order == f.order + [next];
    forall id | id in g.outcomes ensures OutcomeOk(g, r, next + 6, now, id, g.outcomes[id]) {
      if id != next {
        assert OutcomeOk(f, r, next, clock, id, f.outcomes[id]);
      }
    }
    assert next !in f.order;
    forall scope, revisionId, context, knownAt | now <= knownAt
      ensures UtilityFor(g, scope, revisionId, context) == UtilityForAsOf(g, r, scope, revisionId, context, knownAt)
    {
      OutcomeKeepsUtility(f, r, next, clock, o, now, scope, revisionId, context, knownAt);
    }
  }

  // ---------------------------------------------------------------- saving a trace

  /** A new trace concerns no outcome already recorded. */
  lemma {:induction false} LogIgnoresNewTrace(f: Feedback, r: Recalls, s: Recalls, scope: Scope, revisionId: Id,
                                              context: Context, knownAt: Time, ids: seq<Id>)
    requires forall id | id in f.outcomes :: f.outcomes[id].traceId in r.traces
    requires forall id | id in r.traces :: id in s.traces && s.traces[id] == r.traces[id]
    ensures UtilityOfLog(f, s, scope, revisionId, context, knownAt, ids)
            == UtilityOfLog(f, r, scope, revisionId, context, knownAt, ids)
    decreases |ids|
  {
    if ids != [] {
      LogIgnoresNewTrace(f, r, s, scope, revisionId, context, knownAt, ids[..|ids| - 1]);
    }
  }

  lemma TraceKeeps(t: Tables, next: Id, clock: Time, trace: T.Trace, now: Time)
    requires ExperienceOk(t, next, clock) && clock <= now && TraceOk(t.memory, next + 6, now, next, trace)
    ensures ExperienceOk(t.(recalls := Recalls(t.recalls.traces[next := trace])), next + 6, now)
  {
    hide DeliveriesOk, FeedbackOk, UtilitiesOk;
    var r, s := t.recalls, Recalls(t.recalls.traces[next := trace]);
    TracesGrow(t.memory, r, next, clock, trace, now);
    UsagesIgnoreTraces(t.deliveries, r, s, next, clock, now);
    OutcomesIgnoreTraces(t.feedback, r, s, next, clock, now);
    UtilitiesIgnoreTraces(t.feedback, r, s, next, clock, now);
  }

  ghost predicate MoreTraces(r: Recalls, s: Recalls) {
    forall id | id in r.traces :: id in s.traces && s.traces[id] == r.traces[id]
  }

  lemma TracesGrow(m: Memory, r: Recalls, next: Id, clock: Time, trace: T.Trace, now: Time)
    requires RecallsOk(m, r, next, clock) && clock <= now && TraceOk(m, next + 6, now, next, trace)
    ensures RecallsOk(m, Recalls(r.traces[next := trace]), next + 6, now)
    ensures MoreTraces(r, Recalls(r.traces[next := trace]))
  {
    var s := Recalls(r.traces[next := trace]);
    forall id | id in s.traces ensures TraceOk(m, next + 6, now, id, s.traces[id]) {
      assert id != next ==> TraceOk(m, next, clock, id, r.traces[id]);
    }
    forall id | id in r.traces ensures id != next {
      assert TraceOk(m, next, clock, id, r.traces[id]);
    }
  }

  lemma UsagesIgnoreTraces(d: Deliveries, r: Recalls, s: Recalls, next: Id, clock: Time, now: Time)
    requires DeliveriesOk(d, r, next, clock) && MoreTraces(r, s) && clock <= now
    ensures DeliveriesOk(d, s, next + 6, now)
  {
    forall id | id in d.usages ensures UsageOk(d, s, next + 6, now, id, d.usages[id]) {
      assert UsageOk(d, r, next, clock, id, d.usages[id]);
    }
  }

  lemma OutcomesIgnoreTraces(f: Feedback, r: Recalls, s: Recalls, next: Id, clock: Time, now: Time)
    requires FeedbackOk(f, r, next, clock) && MoreTraces(r, s) && clock <= now
    ensures FeedbackOk(f, s, next + 6, now)
  {
    forall id | id in f.outcomes ensures OutcomeOk(f, s, next + 6, now, id, f.outcomes[id]) {
      assert OutcomeOk(f, r, next, clock, id, f.outcomes[id]);
    }
  }

  lemma UtilitiesIgnoreTraces(f: Feedback, r: Recalls, s: Recalls, next: Id, clock: Time, now: Time)
    requires FeedbackOk(f, r, next, clock) && UtilitiesOk(f, r, clock) && MoreTraces(r, s) && clock <= now
    ensures UtilitiesOk(f, s, now)
  {
    forall id | id in f.outcomes ensures f.outcomes[id].traceId in r.traces {
      assert OutcomeOk(f, r, next, clock, id, f.outcomes[id]);
    }
    forall scope, revisionId, context, knownAt | now <= knownAt
      ensures UtilityFor(f, scope, revisionId, context) == UtilityForAsOf(f, s, scope, revisionId, context, knownAt)
    {
      LogIgnoresNewTrace(f, r, s, scope, revisionId, context, knownAt, f.order);
      assert UtilityFor(f, scope, revisionId, context) == UtilityForAsOf(f, r, scope, revisionId, context, knownAt);
    }
  }

  // ---------------------------------------------------------------- saving a usage

  lemma UsageKeeps(d: Deliveries, r: Recalls, next: Id, clock: Time, u: Usage, now: Time)
    requires DeliveriesOk(d, r, next, clock) && clock <= now && (u.scope, u.key) !in d.usageKeys
    requires u.id == next && u.recordedAt == now && u.traceId in r.traces && r.traces[u.traceId].scope == u.scope
    requires u.revisionIds != [] && DistinctIds(u.revisionIds)
    requires forall x | x in u.revisionIds :: x in T.RevisionIds(r.traces[u.traceId].items)
    requires CitesProjection(r.traces[u.traceId], u)
    ensures DeliveriesOk(SaveUsage(d, u).value.0, r, next + 6, now)
  {
    var e := SaveUsage(d, u).value.0;
    assert next !in d.usages;
    forall id | id in e.usages ensures UsageOk(e, r, next + 6, now, id, e.usages[id]) {
      if id != next {
        assert UsageOk(d, r, next, clock, id, d.usages[id]);
      }
    }
  }

  // ---------------------------------------------------------------- growth of the memory

  /** Nothing here depends on more than that stored records and revisions stay what they are. */
  lemma MemoryMayGrow(t: Tables, m: Memory, i: Intake, next: Id, clock: Time, now: Time)
    requires ExperienceOk(t, next, clock) && clock <= now
    requires forall id | id in t.memory.records :: id in m.records && m.records[id] == t.memory.records[id]
    requires forall id | id in t.memory.revisions :: id in m.revisions && m.revisions[id] == t.memory.revisions[id]
    ensures ExperienceOk(t.(intake := i, memory := m), next + 6, now)
  {
    forall id | id in t.recalls.traces ensures TraceOk(m, next + 6, now, id, t.recalls.traces[id]) {
      assert TraceOk(t.memory, next, clock, id, t.recalls.traces[id]);
    }
    forall id | id in t.deliveries.usages
        ensures UsageOk(t.deliveries, t.recalls, next + 6, now, id, t.deliveries.usages[id]) {
      assert UsageOk(t.deliveries, t.recalls, next, clock, id, t.deliveries.usages[id]);
    }
    forall id | id in t.feedback.outcomes
        ensures OutcomeOk(t.feedback, t.recalls, next + 6, now, id, t.feedback.outcomes[id]) {
      assert OutcomeOk(t.feedback, t.recalls, next, clock, id, t.feedback.outcomes[id]);
    }
  }
}
