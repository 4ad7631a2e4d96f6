/** Erasing a scope removes everything of it and nothing else: the invariant survives, the reported counts are the
    tables' size drops, other scopes are answered as before, and a second erasure finds nothing. */
module ScopeErasure {
  import opened Common
  import G = Governance
  import opened Beliefs
  import opened MemoryTables
  import opened Service
  import opened MemoryInvariant
  import opened MemoryWrites
  import opened ExperienceInvariant
  import Sorting
  import opened Sums
  import opened AsOf

  ghost predicate StoreOk(t: Tables, next: Id, clock: Time) {
    WritesOk(t, next, clock) && ExperienceOk(t, next, clock)
  }

  // ---------------------------------------------------------------- intake

  lemma CandidateScope(i: Intake, next: Id, id: Id)
    requires IntakeOk(i, next) && id in i.candidates
    ensures i.candidates[id].observationId in i.observations
    ensures i.observations[i.candidates[id].observationId].scope == i.candidates[id].scope
  {
    assert CandidateOk(i, next, id, i.candidates[id]);
  }

  lemma IntakeErased(t: Tables, next: Id, scope: Scope)
    requires IntakeOk(t.intake, next)
    ensures IntakeOk(EraseScope(t, scope).intake, next)
  {
    var i, j := t.intake, EraseScope(t, scope).intake;
    forall id | id in j.observations ensures ObservationOk(j, next, id, j.observations[id]) {
      assert ObservationOk(i, next, id, i.observations[id]);
    }
    forall id | id in j.candidates ensures CandidateOk(j, next, id, j.candidates[id]) {
      assert CandidateOk(i, next, id, i.candidates[id]);
    }
    forall id | id in j.evidence ensures SpanOk(j, next, id, j.evidence[id]) {
      assert SpanOk(i, next, id, i.evidence[id]);
      CandidateScope(i, next, i.candidateByObservation[i.evidence[id].observationId]);
    }
    forall id | id in j.candidateByObservation
      ensures id in j.observations && j.candidateByObservation[id] in j.candidates
              && j.candidates[j.candidateByObservation[id]].observationId == id
    {
      CandidateScope(i, next, i.candidateByObservation[id]);
    }
  }

  // ---------------------------------------------------------------- memory

  /** A revision goes exactly when its record does. */
  lemma RevisionGoesWithRecord(t: Tables, next: Id, clock: Time, scope: Scope, id: Id)
    requires MemoryOk(t.memory, next, clock) && id in t.memory.revisions
    ensures t.memory.revisions[id].recordId in t.memory.records
    ensures id in RevisionsOf(t, scope) <==> t.memory.records[t.memory.revisions[id].recordId].scope == scope
  {
    var m := t.memory;
    var v := m.revisions[id];
    assert RevisionOk(m, next, id, v);
    if id in RevisionsOf(t, scope) {
      var r, k :| r in RecordsOf(t, scope) && r in m.chains && 0 <= k < |m.chains[r]| && m.chains[r][k] == id;
      assert RecordOk(m, next, clock, r, m.records[r]);
      assert LinkOk(m, clock, m.records[r], m.chains[r], k);
    }
  }

  lemma ChainErased(t: Tables, next: Id, clock: Time, scope: Scope, id: Id)
    requires MemoryOk(t.memory, next, clock) && id in EraseScope(t, scope).memory.records
    ensures RecordOk(EraseScope(t, scope).memory, next, clock, id, t.memory.records[id])
  {
    var m, n := t.memory, EraseScope(t, scope).memory;
    var r, chain := m.records[id], m.chains[id];
    assert RecordOk(m, next, clock, id, r);
    forall k | 0 <= k < |chain| ensures LinkOk(n, clock, r, chain, k) {
      assert LinkOk(m, clock, r, chain, k);
      RevisionGoesWithRecord(t, next, clock, scope, chain[k]);
      if k > 0 {
        assert LinkOk(m, clock, r, chain, k - 1);
        RevisionGoesWithRecord(t, next, clock, scope, chain[k - 1]);
      }
    }
  }

  lemma MemoryErased(t: Tables, next: Id, clock: Time, scope: Scope)
    requires MemoryOk(t.memory, next, clock)
    ensures MemoryOk(EraseScope(t, scope).memory, next, clock)
  {
    var m, n := t.memory, EraseScope(t, scope).memory;
    forall id | id in n.records ensures RecordOk(n, next, clock, id, n.records[id]) {
      ChainErased(t, next, clock, scope, id);
    }
    forall id | id in n.revisions ensures RevisionOk(n, next, id, n.revisions[id]) {
      assert RevisionOk(m, next, id, m.revisions[id]);
      RevisionGoesWithRecord(t, next, clock, scope, id);
    }
  }

  lemma SupportErased(t: Tables, next: Id, scope: Scope, r: Record, v: Revision, e: Id)
    requires IntakeOk(t.intake, next) && Supports(t.intake, r, v, e) && r.scope != scope
    ensures Supports(EraseScope(t, scope).intake, r, v, e)
    ensures ItemFor(EraseScope(t, scope).intake, e) == ItemFor(t.intake, e)
  {
    var i, j := t.intake, EraseScope(t, scope).intake;
    var c := SupportedBy(i, e).value;
    assert SpanOk(i, next, e, i.evidence[e]);
    CandidateScope(i, next, i.candidateByObservation[i.evidence[e].observationId]);
    assert e in j.evidence && SupportedBy(j, e) == Some(c);
  }

  lemma BeliefErased(t: Tables, next: Id, scope: Scope, r: Record, v: Revision)
    requires IntakeOk(t.intake, next) && BeliefOk(t.intake, r, v) && r.scope != scope
    ensures BeliefOk(EraseScope(t, scope).intake, r, v)
  {
    var i, j := t.intake, EraseScope(t, scope).intake;
    forall k | 0 <= k < |v.evidenceIds|
      ensures Supports(j, r, v, v.evidenceIds[k]) && ItemFor(j, v.evidenceIds[k]) == ItemFor(i, v.evidenceIds[k])
    {
      assert Supports(i, r, v, v.evidenceIds[k]);
      SupportErased(t, next, scope, r, v, v.evidenceIds[k]);
    }
    assert ItemsFor(j, v.evidenceIds) == ItemsFor(i, v.evidenceIds);
  }

  lemma LinksErased(t: Tables, next: Id, clock: Time, scope: Scope)
    requires WritesOk(t, next, clock)
    ensures LinksOk(EraseScope(t, scope).intake, EraseScope(t, scope).memory)
  {
    var m, e := t.memory, EraseScope(t, scope);
    forall id | id in e.intake.candidates ensures AcceptedOk(e.memory, e.intake.candidates[id]) {
      assert AcceptedOk(m, t.intake.candidates[id]);
      RevisionGoesWithRecord(t, next, clock, scope, t.intake.candidates[id].accepted.value.1);
    }
    forall id | id in e.memory.revisions
      ensures e.memory.revisions[id].recordId in e.memory.records
              && BeliefOk(e.intake, e.memory.records[e.memory.revisions[id].recordId], e.memory.revisions[id])
    {
      RevisionGoesWithRecord(t, next, clock, scope, id);
      BeliefErased(t, next, scope, m.records[m.revisions[id].recordId], m.revisions[id]);
    }
  }

  // ---------------------------------------------------------------- experience

  lemma {:induction false} KeptIds(ids: seq<Id>, gone: set<Id>)
    ensures forall id :: id in KeepIds(ids, gone) <==> id in ids && id !in gone
    ensures Sorting.Distinct(ids) ==> Sorting.Distinct(KeepIds(ids, gone))
    decreases |ids|
  {
    if ids != [] {
      var n := |ids| - 1;
      KeptIds(ids[..n], gone);
      assert forall id :: id in ids <==> id in ids[..n] || id == ids[n];
    }
  }

  /** The log of a scope that stays counts the same outcomes. */
  lemma {:induction false} LogErased(t: Tables, next: Id, clock: Time, gone: Scope, scope: Scope, revisionId: Id,
                                     context: Context, knownAt: Time, ids: seq<Id>)
    requires FeedbackOk(t.feedback, t.recalls, next, clock) && scope != gone
    ensures var e := EraseScope(t, gone);
            UtilityOfLog(e.feedback, e.recalls, scope, revisionId, context, knownAt, KeepIds(ids, OutcomesOf(t, gone)))
            == UtilityOfLog(t.feedback, t.recalls, scope, revisionId, context, knownAt, ids)
    decreases |ids|
  {
    hide EraseScope, FeedbackOk, OutcomesOf;
    if ids != [] {
      var n := |ids| - 1;
      LogErased(t, next, clock, gone, scope, revisionId, context, knownAt, ids[..n]);
      var e, kept := EraseScope(t, gone), KeepIds(ids[..n], OutcomesOf(t, gone));
      if ids[n] !in OutcomesOf(t, gone) {
        assert KeepIds(ids, OutcomesOf(t, gone)) == kept + [ids[n]];
        assert (kept + [ids[n]])[..|kept|] == kept;
        CountsErased(t, next, clock, gone, scope, revisionId, context, knownAt, ids[n]);
      } else {
        assert KeepIds(ids, OutcomesOf(t, gone)) == kept;
        ErasedDoesNotCount(t, gone, scope, revisionId, context, knownAt, ids[n]);
      }
    }
  }

  lemma ErasedDoesNotCount(t: Tables, gone: Scope, scope: Scope, revisionId: Id, context: Context, knownAt: Time,
                           id: Id)
    requires id in OutcomesOf(t, gone) && scope != gone
    ensures !Counts(t.feedback, t.recalls, scope, revisionId, context, knownAt, id)
  {
  }

  lemma CountsErased(t: Tables, next: Id, clock: Time, gone: Scope, scope: Scope, revisionId: Id, context: Context,
                     knownAt: Time, id: Id)
    requires FeedbackOk(t.feedback, t.recalls, next, clock) && scope != gone && id !in OutcomesOf(t, gone)
    ensures var e := EraseScope(t, gone);
            && Counts(e.feedback, e.recalls, scope, revisionId, context, knownAt, id)
               == Counts(t.feedback, t.recalls, scope, revisionId, context, knownAt, id)
            && (id in t.feedback.outcomes ==>
                  id in e.feedback.outcomes && e.feedback.outcomes[id] == t.feedback.outcomes[id])
  {
    if id in t.feedback.outcomes {
      assert OutcomeOk(t.feedback, t.recalls, next, clock, id, t.feedback.outcomes[id]);
    }
  }

  lemma {:induction false} NoOutcomesLeft(f: Feedback, r: Recalls, scope: Scope, revisionId: Id, context: Context,
                                          knownAt: Time, ids: seq<Id>)
    requires forall id | id in f.outcomes :: f.outcomes[id].scope != scope
    ensures UtilityOfLog(f, r, scope, revisionId, context, knownAt, ids) == NO_OUTCOMES
    decreases |ids|
  {
    if ids != [] {
      NoOutcomesLeft(f, r, scope, revisionId, context, knownAt, ids[..|ids| - 1]);
    }
  }

  lemma UtilitiesErased(t: Tables, next: Id, clock: Time, gone: Scope)
    requires FeedbackOk(t.feedback, t.recalls, next, clock) && UtilitiesOk(t.feedback, t.recalls, clock)
    ensures UtilitiesOk(EraseScope(t, gone).feedback, EraseScope(t, gone).recalls, clock)
  {
    var e := EraseScope(t, gone);
    forall scope, revisionId, context, knownAt | clock <= knownAt
      ensures UtilityFor(e.feedback, scope, revisionId, context)
              == UtilityForAsOf(e.feedback, e.recalls, scope, revisionId, context, knownAt)
    {
      if scope == gone {
        NoOutcomesLeft(e.feedback, e.recalls, scope, revisionId, context, knownAt, e.feedback.order);
      } else {
        LogErased(t, next, clock, gone, scope, revisionId, context, knownAt, t.feedback.order);
        assert UtilityFor(t.feedback, scope, revisionId, context)
            == UtilityForAsOf(t.feedback, t.recalls, scope, revisionId, context, knownAt);
      }
    }
  }

  lemma TracesErased(t: Tables, next: Id, clock: Time, scope: Scope, id: Id)
    requires MemoryOk(t.memory, next, clock) && RecallsOk(t.memory, t.recalls, next, clock)
    requires id in EraseScope(t, scope).recalls.traces
    ensures TraceOk(EraseScope(t, scope).memory, next, clock, id, t.recalls.traces[id])
  {
    var trace, n := t.recalls.traces[id], EraseScope(t, scope).memory;
    assert TraceOk(t.memory, next, clock, id, trace);
    forall k | 0 <= k < |trace.items|
      ensures && trace.items[k].revisionId in n.revisions
              && n.revisions[trace.items[k].revisionId].recordId == trace.items[k].recordId
              && trace.items[k].recordId in n.records && n.records[trace.items[k].recordId].scope == trace.scope
    {
      RevisionGoesWithRecord(t, next, clock, scope, trace.items[k].revisionId);
    }
  }

  lemma ExperienceErased(t: Tables, next: Id, clock: Time, scope: Scope)
    requires StoreOk(t, next, clock)
    ensures ExperienceOk(EraseScope(t, scope), next, clock)
  {
    var e := EraseScope(t, scope);
    forall id | id in e.recalls.traces ensures TraceOk(e.memory, next, clock, id, e.recalls.traces[id]) {
      TracesErased(t, next, clock, scope, id);
    }
    forall id | id in e.deliveries.usages
        ensures UsageOk(e.deliveries, e.recalls, next, clock, id, e.deliveries.usages[id]) {
      assert UsageOk(t.deliveries, t.recalls, next, clock, id, t.deliveries.usages[id]);
    }
    forall id | id in e.feedback.outcomes
        ensures OutcomeOk(e.feedback, e.recalls, next, clock, id, e.feedback.outcomes[id]) {
      assert OutcomeOk(t.feedback, t.recalls, next, clock, id, t.feedback.outcomes[id]);
    }
    KeptIds(t.feedback.order, OutcomesOf(t, scope));
    UtilitiesErased(t, next, clock, scope);
  }

  lemma EraseKeeps(t: Tables, next: Id, clock: Time, scope: Scope)
    requires StoreOk(t, next, clock)
    ensures StoreOk(EraseScope(t, scope), next, clock)
  {
    IntakeErased(t, next, scope);
    MemoryErased(t, next, clock, scope);
    LinksErased(t, next, clock, scope);
    ExperienceErased(t, next, clock, scope);
  }

  // ---------------------------------------------------------------- conservation

  lemma Dropped<K, V>(m: map<K, V>, gone: set<K>)
    requires gone <= m.Keys
    ensures |m - gone| == |m| - |gone|
  {
    assert (m - gone).Keys == m.Keys - gone;
    assert |m.Keys| == |gone| + |m.Keys - gone| by {
      assert m.Keys == gone + (m.Keys - gone);
    }
    assert |m| == |m.Keys| && |m - gone| == |(m - gone).Keys|;
  }

  lemma {:induction false} TransitionsDropped(transitions: seq<Transition>, records: set<Id>)
    ensures |KeepTransitions(transitions, records)| == |transitions| - CountTransitions(transitions, records)
    ensures forall i | 0 <= i < |KeepTransitions(transitions, records)| ::
            KeepTransitions(transitions, records)[i].recordId !in records
    ensures records == {} ==>
              KeepTransitions(transitions, records) == transitions
              && CountTransitions(transitions, records) == 0
    decreases |transitions|
  {
    if transitions != [] {
      TransitionsDropped(transitions[..|transitions| - 1], records);
      assert transitions == transitions[..|transitions| - 1] + [transitions[|transitions| - 1]];
    }
  }

  lemma RevisionsAreStored(t: Tables, next: Id, clock: Time, scope: Scope)
    requires MemoryOk(t.memory, next, clock)
    ensures RevisionsOf(t, scope) <= t.memory.revisions.Keys
  {
    forall id | id in RevisionsOf(t, scope) ensures id in t.memory.revisions {
      var r, k :| r in RecordsOf(t, scope) && r in t.memory.chains && 0 <= k < |t.memory.chains[r]|
          && t.memory.chains[r][k] == id;
      assert RecordOk(t.memory, next, clock, r, t.memory.records[r]);
      assert LinkOk(t.memory, clock, t.memory.records[r], t.memory.chains[r], k);
    }
  }

  /** How many items all traces, or all usages, list. */
  ghost function AllTraceItems(r: Recalls): int {
    Sum(r.traces.Keys, TraceItems(r.traces))
  }

  ghost function AllUsageItems(d: Deliveries): int {
    Sum(d.usages.Keys, UsageItems(d.usages))
  }

  lemma TraceItemsDropped(t: Tables, scope: Scope)
    ensures AllTraceItems(EraseScope(t, scope).recalls)
            == AllTraceItems(t.recalls) - Sum(TracesOf(t, scope), TraceItems(t.recalls.traces))
  {
    var kept, gone := EraseScope(t, scope).recalls.traces, TracesOf(t, scope);
    assert t.recalls.traces.Keys == gone + kept.Keys;
    SumSplits(gone, kept.Keys, TraceItems(t.recalls.traces));
    SumAgrees(kept.Keys, TraceItems(kept), TraceItems(t.recalls.traces));
  }

  lemma UsageItemsDropped(t: Tables, scope: Scope)
    ensures AllUsageItems(EraseScope(t, scope).deliveries)
            == AllUsageItems(t.deliveries) - Sum(UsagesOf(t, scope), UsageItems(t.deliveries.usages))
  {
    var kept, gone := EraseScope(t, scope).deliveries.usages, UsagesOf(t, scope);
    assert t.deliveries.usages.Keys == gone + kept.Keys;
    SumSplits(gone, kept.Keys, UsageItems(t.deliveries.usages));
    SumAgrees(kept.Keys, UsageItems(kept), UsageItems(t.deliveries.usages));
  }

  lemma IntakeDrop(t: Tables, scope: Scope)
    ensures var i, j := t.intake, EraseScope(t, scope).intake;
            && |ObservationsOf(t, scope)| == |i.observations| - |j.observations|
            && |EvidenceOf(t, scope)| == |i.evidence| - |j.evidence|
            && |CandidatesOf(t, scope)| == |i.candidates| - |j.candidates|
  {
    Dropped(t.intake.observations, ObservationsOf(t, scope));
    Dropped(t.intake.evidence, EvidenceOf(t, scope));
    Dropped(t.intake.candidates, CandidatesOf(t, scope));
  }

  lemma MemoryDrop(t: Tables, next: Id, clock: Time, scope: Scope)
    requires MemoryOk(t.memory, next, clock)
    ensures var m, n := t.memory, EraseScope(t, scope).memory;
            && |RecordsOf(t, scope)| == |m.records| - |n.records|
            && |RevisionsOf(t, scope)| == |m.revisions| - |n.revisions|
            && CountTransitions(m.transitions, RecordsOf(t, scope)) == |m.transitions| - |n.transitions|
  {
    Dropped(t.memory.records, RecordsOf(t, scope));
    RevisionsAreStored(t, next, clock, scope);
    Dropped(t.memory.revisions, RevisionsOf(t, scope));
    TransitionsDropped(t.memory.transitions, RecordsOf(t, scope));
  }

  lemma ExperienceDrop(t: Tables, scope: Scope)
    ensures var e := EraseScope(t, scope);
            && |TracesOf(t, scope)| == |t.recalls.traces| - |e.recalls.traces|
            && |UsagesOf(t, scope)| == |t.deliveries.usages| - |e.deliveries.usages|
            && |OutcomesOf(t, scope)| == |t.feedback.outcomes| - |e.feedback.outcomes|
            && |UtilitiesOf(t, scope)| == |t.feedback.utilities| - |e.feedback.utilities|
  {
    Dropped(t.recalls.traces, TracesOf(t, scope));
    Dropped(t.deliveries.usages, UsagesOf(t, scope));
    Dropped(t.feedback.outcomes, OutcomesOf(t, scope));
    Dropped(t.feedback.utilities, UtilitiesOf(t, scope));
  }

  ghost predicate IntakeCounts(s: G.Summary, i: Intake, j: Intake) {
    && s.observations == |i.observations| - |j.observations| && s.evidenceSpans == |i.evidence| - |j.evidence|
    && s.candidates == |i.candidates| - |j.candidates|
  }

  ghost predicate MemoryCounts(s: G.Summary, m: Memory, n: Memory) {
    && s.records == |m.records| - |n.records| && s.revisions == |m.revisions| - |n.revisions|
    && s.transitions == |m.transitions| - |n.transitions|
  }

  ghost predicate ExperienceCounts(s: G.Summary, t: Tables, e: Tables) {
    && s.traces == |t.recalls.traces| - |e.recalls.traces| && s.usages == |t.deliveries.usages| - |e.deliveries.usages|
    && s.outcomes == |t.feedback.outcomes| - |e.feedback.outcomes|
    && s.utilities == |t.feedback.utilities| - |e.feedback.utilities|
    && s.traceItems == AllTraceItems(t.recalls) - AllTraceItems(e.recalls)
    && s.usageItems == AllUsageItems(t.deliveries) - AllUsageItems(e.deliveries)
  }

  /** Each reported count is exactly the drop in the size of its table; traces and usages are also counted by item. */
  lemma SummaryIsSizeDrop(t: Tables, next: Id, clock: Time, scope: Scope)
    requires StoreOk(t, next, clock)
    ensures var s, e := SummaryOf(t, scope), EraseScope(t, scope);
            IntakeCounts(s, t.intake, e.intake) && MemoryCounts(s, t.memory, e.memory) && ExperienceCounts(s, t, e)
  {
    IntakeDrop(t, scope);
    MemoryDrop(t, next, clock, scope);
    ExperienceDrop(t, scope);
    TraceItemsDropped(t, scope);
    UsageItemsDropped(t, scope);
  }

  // ---------------------------------------------------------------- nothing is left

  /** No entity and no index entry of the scope. */
  ghost predicate NothingOf(t: Tables, scope: Scope) {
    && ObservationsOf(t, scope) == {} && CandidatesOf(t, scope) == {} && RecordsOf(t, scope) == {}
    && TracesOf(t, scope) == {} && UsagesOf(t, scope) == {} && OutcomesOf(t, scope) == {} && UtilitiesOf(t, scope) == {}
    && (forall k | k in t.intake.observationKeys :: k.0 != scope)
    && (forall k | k in t.memory.identities :: k.0 != scope)
    && (forall k | k in t.deliveries.usageKeys :: k.0 != scope)
    && (forall k | k in t.feedback.outcomeKeys :: k.0 != scope)
  }

  lemma EraseLeavesNothing(t: Tables, scope: Scope)
    ensures NothingOf(EraseScope(t, scope), scope)
  {
  }

  /** No identifier of the scope's observations, evidence or candidates is left, as an entity or in an index. */
  ghost predicate NoIntakeLeft(t: Tables, j: Intake, scope: Scope) {
    && (forall id | id in ObservationsOf(t, scope) :: id !in j.observations && id !in j.candidateByObservation)
    && (forall id | id in EvidenceOf(t, scope) :: id !in j.evidence)
    && (forall id | id in CandidatesOf(t, scope) :: id !in j.candidates)
    && (forall k | k in j.observationKeys :: j.observationKeys[k] !in ObservationsOf(t, scope))
    && (forall id | id in j.candidateByObservation :: j.candidateByObservation[id] !in CandidatesOf(t, scope))
  }

  /** No identifier of the scope's records or revisions is left, as an entity, in a chain, as an active head or in an
      index, and no transition of the records. */
  ghost predicate NoMemoryLeft(t: Tables, n: Memory, scope: Scope) {
    && (forall id | id in RecordsOf(t, scope) :: id !in n.records && id !in n.chains && id !in n.active)
    && (forall id | id in RevisionsOf(t, scope) :: id !in n.revisions)
    && (forall k | k in n.identities :: n.identities[k] !in RecordsOf(t, scope))
    && (forall id | id in n.active :: n.active[id] !in RevisionsOf(t, scope))
    && (forall id, k | id in n.chains && 0 <= k < |n.chains[id]| :: n.chains[id][k] !in RevisionsOf(t, scope))
    && (forall i | 0 <= i < |n.transitions| :: n.transitions[i].recordId !in RecordsOf(t, scope))
  }

  /** No identifier of the scope's traces, usages or outcomes is left, and none of its estimates. */
  ghost predicate NoExperienceLeft(t: Tables, e: Tables, scope: Scope) {
    && (forall id | id in TracesOf(t, scope) :: id !in e.recalls.traces)
    && (forall id | id in UsagesOf(t, scope) :: id !in e.deliveries.usages)
    && (forall k | k in e.deliveries.usageKeys :: e.deliveries.usageKeys[k] !in UsagesOf(t, scope))
    && (forall id | id in OutcomesOf(t, scope) :: id !in e.feedback.outcomes && id !in e.feedback.order)
    && (forall k | k in e.feedback.outcomeKeys :: e.feedback.outcomeKeys[k] !in OutcomesOf(t, scope))
    && (forall k | k in UtilitiesOf(t, scope) :: k !in e.feedback.utilities)
  }

  ghost predicate NoneLeft(t: Tables, e: Tables, scope: Scope) {
    NoIntakeLeft(t, e.intake, scope) && NoMemoryLeft(t, e.memory, scope) && NoExperienceLeft(t, e, scope)
  }

  lemma NoIntakeIsLeft(t: Tables, next: Id, scope: Scope)
    requires IntakeOk(t.intake, next)
    ensures NoIntakeLeft(t, EraseScope(t, scope).intake, scope)
  {
    var i, j := t.intake, EraseScope(t, scope).intake;
    forall id | id in j.candidateByObservation ensures j.candidateByObservation[id] !in CandidatesOf(t, scope) {
      CandidateScope(i, next, i.candidateByObservation[id]);
    }
  }

  lemma NoMemoryIsLeft(t: Tables, next: Id, clock: Time, scope: Scope)
    requires MemoryOk(t.memory, next, clock)
    ensures NoMemoryLeft(t, EraseScope(t, scope).memory, scope)
  {
    var m, n := t.memory, EraseScope(t, scope).memory;
    TransitionsDropped(m.transitions, RecordsOf(t, scope));
    forall id, k | id in n.chains && 0 <= k < |n.chains[id]| ensures n.chains[id][k] !in RevisionsOf(t, scope) {
      LinkStays(t, next, clock, scope, id, k);
    }
    forall id | id in n.active ensures n.active[id] !in RevisionsOf(t, scope) {
      assert RecordOk(m, next, clock, id, m.records[id]);
      LinkStays(t, next, clock, scope, id, |m.chains[id]| - 1);
    }
  }

  /** The links of a record that stays are not among the erased revisions. */
  lemma LinkStays(t: Tables, next: Id, clock: Time, scope: Scope, id: Id, k: int)
    requires MemoryOk(t.memory, next, clock) && id in t.memory.records && id !in RecordsOf(t, scope)
    requires id in t.memory.chains && 0 <= k < |t.memory.chains[id]|
    ensures t.memory.chains[id][k] !in RevisionsOf(t, scope)
  {
    var m := t.memory;
    assert RecordOk(m, next, clock, id, m.records[id]);
    assert LinkOk(m, clock, m.records[id], m.chains[id], k);
    RevisionGoesWithRecord(t, next, clock, scope, m.chains[id][k]);
  }

  lemma NoExperienceIsLeft(t: Tables, next: Id, clock: Time, scope: Scope)
    requires ExperienceOk(t, next, clock)
    ensures NoExperienceLeft(t, EraseScope(t, scope), scope)
  {
    KeptIds(t.feedback.order, OutcomesOf(t, scope));
  }

  /** Nothing the scope had before is left behind in any table or index. */
  lemma EraseLeavesNone(t: Tables, next: Id, clock: Time, scope: Scope)
    requires StoreOk(t, next, clock)
    ensures NoneLeft(t, EraseScope(t, scope), scope)
  {
    NoIntakeIsLeft(t, next, scope);
    NoMemoryIsLeft(t, next, clock, scope);
    NoExperienceIsLeft(t, next, clock, scope);
  }

  const NONE_REMOVED := G.Summary(0, 0, 0, 0, 0, 0, 0, 0, 0, 0, 0, 0, 0)

  lemma {:induction false} KeepAll(ids: seq<Id>)
    ensures KeepIds(ids, {}) == ids
    decreases |ids|
  {
    if ids != [] {
      KeepAll(ids[..|ids| - 1]);
    }
  }

  lemma NothingInIntake(t: Tables, scope: Scope)
    requires NothingOf(t, scope)
    ensures EvidenceOf(t, scope) == {} && EraseScope(t, scope).intake == t.intake
  {
    assert EvidenceOf(t, scope) == {};
    assert KeepOthers(t.intake.observationKeys, scope) == t.intake.observationKeys;
  }

  lemma NothingInMemory(t: Tables, scope: Scope)
    requires NothingOf(t, scope)
    ensures RevisionsOf(t, scope) == {} && EraseScope(t, scope).memory == t.memory
    ensures CountTransitions(t.memory.transitions, RecordsOf(t, scope)) == 0
  {
    hide *;
    NoRecords(t, scope);
    TransitionsDropped(t.memory.transitions, {});
    NothingDropped(t, scope);
  }

  lemma NoRecords(t: Tables, scope: Scope)
    requires NothingOf(t, scope)
    ensures RecordsOf(t, scope) == {} && RevisionsOf(t, scope) == {}
    ensures forall k | k in t.memory.identities :: k.0 != scope
  {
  }

  lemma SubtractNothing<K, V>(m: map<K, V>)
    ensures m - {} == m
  {
  }

  lemma NothingDropped(t: Tables, scope: Scope)
    requires RecordsOf(t, scope) == {} && RevisionsOf(t, scope) == {}
    requires KeepTransitions(t.memory.transitions, {}) == t.memory.transitions
    requires forall k | k in t.memory.identities :: k.0 != scope
    ensures EraseScope(t, scope).memory == t.memory
  {
    hide RecordsOf, RevisionsOf, KeepTransitions;
    var identities := t.memory.identities;
    assert (map k | k in identities && k.0 != scope :: identities[k]) == identities;
    SubtractNothing(t.memory.records);
    SubtractNothing(t.memory.revisions);
    SubtractNothing(t.memory.chains);
    SubtractNothing(t.memory.active);
  }

  lemma NothingToErase(t: Tables, scope: Scope)
    requires NothingOf(t, scope)
    ensures EraseScope(t, scope) == t && SummaryOf(t, scope) == NONE_REMOVED
  {
    NothingInIntake(t, scope);
    NothingInMemory(t, scope);
    KeepAll(t.feedback.order);
    assert EraseScope(t, scope).deliveries == t.deliveries && EraseScope(t, scope).feedback == t.feedback;
  }

  /** A second erasure changes nothing and reports all zeros. */
  lemma SecondEraseFindsNothing(t: Tables, scope: Scope)
    ensures EraseScope(EraseScope(t, scope), scope) == EraseScope(t, scope)
    ensures SummaryOf(EraseScope(t, scope), scope) == NONE_REMOVED
  {
    EraseLeavesNothing(t, scope);
    NothingToErase(EraseScope(t, scope), scope);
  }

  // ---------------------------------------------------------------- other scopes are answered as before

  lemma IntakeFramed(t: Tables, next: Id, gone: Scope, scope: Scope, key: string, observationId: Id)
    requires IntakeOk(t.intake, next) && scope != gone
    ensures var e := EraseScope(t, gone);
            && ObservationByKey(e.intake, scope, key) == ObservationByKey(t.intake, scope, key)
            && CandidateForObservation(e.intake, scope, observationId)
                == CandidateForObservation(t.intake, scope, observationId)
  {
    if observationId in t.intake.candidateByObservation {
      CandidateScope(t.intake, next, t.intake.candidateByObservation[observationId]);
    }
  }

  lemma ChainFramed(t: Tables, next: Id, clock: Time, gone: Scope, id: Id)
    requires MemoryOk(t.memory, next, clock) && id in t.memory.records && t.memory.records[id].scope != gone
    ensures var m, n := t.memory, EraseScope(t, gone).memory;
            && id in m.chains && m.chains[id] != [] && id in m.active && id in n.records && id in n.chains
                && n.chains[id] == m.chains[id]
            && m.active[id] == m.chains[id][|m.chains[id]| - 1]
            && (forall k | 0 <= k < |m.chains[id]| ::
                 m.chains[id][k] in m.revisions && m.chains[id][k] in n.revisions
                 && n.revisions[m.chains[id][k]] == m.revisions[m.chains[id][k]])
  {
    var m := t.memory;
    var r, chain := m.records[id], m.chains[id];
    assert RecordOk(m, next, clock, id, r);
    forall k | 0 <= k < |chain| ensures chain[k] in m.revisions && chain[k] !in RevisionsOf(t, gone) {
      assert LinkOk(m, clock, r, chain, k);
      RevisionGoesWithRecord(t, next, clock, gone, chain[k]);
    }
  }

  /** The record's history lists the same revisions, with the same contents. */
  ghost predicate SameHistory(m: Memory, n: Memory, scope: Scope, recordId: Id) {
    && History(m, scope, recordId) == History(n, scope, recordId)
    && (forall k | 0 <= k < |History(m, scope, recordId)| ::
          && History(m, scope, recordId)[k] in m.revisions && History(m, scope, recordId)[k] in n.revisions
          && m.revisions[History(m, scope, recordId)[k]] == n.revisions[History(m, scope, recordId)[k]])
  }

  lemma SnapshotFramed(t: Tables, next: Id, clock: Time, gone: Scope, scope: Scope, recordId: Id)
    requires MemoryOk(t.memory, next, clock) && scope != gone
    ensures var e := EraseScope(t, gone);
            && SnapshotOf(e.memory, scope, recordId) == SnapshotOf(t.memory, scope, recordId)
            && SameHistory(e.memory, t.memory, scope, recordId)
  {
    if recordId in t.memory.records && t.memory.records[recordId].scope == scope {
      ChainFramed(t, next, clock, gone, recordId);
    }
  }

  lemma ActiveFramed(t: Tables, next: Id, clock: Time, gone: Scope, scope: Scope)
    requires MemoryOk(t.memory, next, clock) && scope != gone
    ensures ActiveMemories(EraseScope(t, gone).memory, scope) == ActiveMemories(t.memory, scope)
  {
    var m, n := t.memory, EraseScope(t, gone).memory;
    forall id ensures SnapshotOf(n, scope, id) == SnapshotOf(m, scope, id) {
      SnapshotFramed(t, next, clock, gone, scope, id);
    }
    forall id | id in m.active && SnapshotOf(m, scope, id).Some? ensures id in n.active {
      ChainFramed(t, next, clock, gone, id);
    }
  }

  lemma CurrentFramed(t: Tables, next: Id, clock: Time, gone: Scope, scope: Scope, key: string, context: Context)
    requires MemoryOk(t.memory, next, clock) && scope != gone
    ensures CurrentByIdentity(EraseScope(t, gone).memory, scope, key, context)
            == CurrentByIdentity(t.memory, scope, key, context)
  {
    if (scope, key, context) in t.memory.identities {
      SnapshotFramed(t, next, clock, gone, scope, t.memory.identities[(scope, key, context)]);
    }
  }

  lemma {:induction false} BestFramed(m: Memory, n: Memory, ids: seq<Id>, validAt: Time, knownAt: Time)
    requires forall k | 0 <= k < |ids| ::
               ids[k] in m.revisions && ids[k] in n.revisions
               && n.revisions[ids[k]] == m.revisions[ids[k]]
    ensures Best(n, ids, validAt, knownAt) == Best(m, ids, validAt, knownAt)
    decreases |ids|
  {
    if ids != [] {
      BestFramed(m, n, ids[..|ids| - 1], validAt, knownAt);
    }
  }

  lemma RecordReadFramed(t: Tables, next: Id, clock: Time, gone: Scope, id: Id, validAt: Time, knownAt: Time)
    requires MemoryOk(t.memory, next, clock) && id in t.memory.records && t.memory.records[id].scope != gone
    ensures SnapshotAsOf(EraseScope(t, gone).memory, id, validAt, knownAt)
            == SnapshotAsOf(t.memory, id, validAt, knownAt)
  {
    ChainFramed(t, next, clock, gone, id);
    BestFramed(t.memory, EraseScope(t, gone).memory, t.memory.chains[id], validAt, knownAt);
  }

  lemma ReadFramed(fingerprint: Context -> string, t: Tables, next: Id, clock: Time, gone: Scope, scope: Scope,
                   validAt: Time, knownAt: Time)
    requires MemoryOk(t.memory, next, clock) && scope != gone
    ensures MemoriesAsOf(fingerprint, EraseScope(t, gone).memory, scope, validAt, knownAt)
            == MemoriesAsOf(fingerprint, t.memory, scope, validAt, knownAt)
  {
    var m, n := t.memory, EraseScope(t, gone).memory;
    forall id | id in m.records && m.records[id].scope == scope
      ensures id in n.records && n.records[id] == m.records[id]
              && SnapshotAsOf(n, id, validAt, knownAt) == SnapshotAsOf(m, id, validAt, knownAt)
    {
      RecordReadFramed(t, next, clock, gone, id, validAt, knownAt);
    }
    assert VisibleRecords(n, scope, validAt, knownAt) == VisibleRecords(m, scope, validAt, knownAt);
    SameView(fingerprint, m, n, scope, validAt, knownAt);
  }

  lemma ExperienceFramed(t: Tables, next: Id, clock: Time, gone: Scope, scope: Scope, id: Id, revisionId: Id,
                         context: Context, knownAt: Time)
    requires FeedbackOk(t.feedback, t.recalls, next, clock) && scope != gone
    ensures var e := EraseScope(t, gone);
            && TraceOf(e.recalls, scope, id) == TraceOf(t.recalls, scope, id)
            && UsageOf(e.deliveries, scope, id) == UsageOf(t.deliveries, scope, id)
            && UtilityFor(e.feedback, scope, revisionId, context) == UtilityFor(t.feedback, scope, revisionId, context)
            && UtilityForAsOf(e.feedback, e.recalls, scope, revisionId, context, knownAt)
               == UtilityForAsOf(t.feedback, t.recalls, scope, revisionId, context, knownAt)
  {
    LogErased(t, next, clock, gone, scope, revisionId, context, knownAt, t.feedback.order);
  }
}
