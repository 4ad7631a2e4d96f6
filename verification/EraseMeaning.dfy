/** What erasing a scope leaves, row by row, and what its counts count. */
module EraseMeaning {
  import opened Common
  import opened Beliefs
  import opened MemoryTables
  import opened Recall
  import opened Service
  import opened MemoryInvariant
  import opened MemoryWrites
  import opened ExperienceInvariant
  import opened ScopeErasure
  import opened MemoryRuns
  import opened Sums
  import T = Traces
  import Sorting

  /** The scope whose observation, or record, an identifier belongs to. */
  ghost predicate ObservedIn(i: Intake, id: Id, scope: Scope) {
    id in i.observations && i.observations[id].scope == scope
  }

  ghost predicate RecordedIn(m: Memory, id: Id, scope: Scope) {
    id in m.records && m.records[id].scope == scope
  }

  ghost predicate IntakeErasedInWords(i: Intake, j: Intake, scope: Scope) {
    && j.observations == i.observations - set id | id in i.observations && i.observations[id].scope == scope
    && j.observationKeys == i.observationKeys - set k | k in i.observationKeys && k.0 == scope
    && j.evidence == i.evidence - set id | id in i.evidence && ObservedIn(i, i.evidence[id].observationId, scope)
    && j.candidates == i.candidates - set id | id in i.candidates && i.candidates[id].scope == scope
    && j.candidateByObservation
       == i.candidateByObservation - set id | id in i.candidateByObservation && ObservedIn(i, id, scope)
  }

  ghost predicate MemoryErasedInWords(m: Memory, n: Memory, scope: Scope) {
    && n.records == m.records - set id | id in m.records && m.records[id].scope == scope
    && n.identities == m.identities - set k | k in m.identities && k.0 == scope
    && n.revisions == m.revisions - set id | id in m.revisions && RecordedIn(m, m.revisions[id].recordId, scope)
    && n.chains == m.chains - set id | id in m.chains && RecordedIn(m, id, scope)
    && n.active == m.active - set id | id in m.active && RecordedIn(m, id, scope)
    && (forall x: Transition ::
          multiset(n.transitions)[x]
          == if RecordedIn(m, x.recordId, scope) then 0 else multiset(m.transitions)[x])
  }

  ghost predicate DeliveriesErasedInWords(d: Deliveries, f: Deliveries, scope: Scope) {
    && f.usages == d.usages - set id | id in d.usages && d.usages[id].scope == scope
    && f.usageKeys == d.usageKeys - set k | k in d.usageKeys && k.0 == scope
  }

  ghost predicate FeedbackErasedInWords(f: Feedback, g: Feedback, scope: Scope) {
    && g.outcomes == f.outcomes - set id | id in f.outcomes && f.outcomes[id].scope == scope
    && g.outcomeKeys == f.outcomeKeys - set k | k in f.outcomeKeys && k.0 == scope
    && g.utilities == f.utilities - set k | k in f.utilities && k.0 == scope
    && (forall id :: id in g.order <==> id in f.order && !(id in f.outcomes && f.outcomes[id].scope == scope))
  }

  /** Every table of the store. */
  ghost predicate ErasedInWords(t: Tables, e: Tables, scope: Scope) {
    && IntakeErasedInWords(t.intake, e.intake, scope)
    && MemoryErasedInWords(t.memory, e.memory, scope)
    && e.recalls.traces
       == t.recalls.traces - set id | id in t.recalls.traces && t.recalls.traces[id].scope == scope
    && DeliveriesErasedInWords(t.deliveries, e.deliveries, scope)
    && FeedbackErasedInWords(t.feedback, e.feedback, scope)
  }

  lemma OthersKept<V>(m: map<(Scope, string), V>, scope: Scope)
    ensures KeepOthers(m, scope) == m - set k | k in m && k.0 == scope
  {
  }

  lemma IntakeInWords(t: Tables, scope: Scope)
    ensures IntakeErasedInWords(t.intake, EraseScope(t, scope).intake, scope)
  {
    hide KeepOthers, MemoryWithout, FeedbackWithout;
    OthersKept(t.intake.observationKeys, scope);
    EvidenceInWords(t, scope);
    CandidateIndexInWords(t, scope);
  }

  lemma EvidenceInWords(t: Tables, scope: Scope)
    ensures var i := t.intake;
            i.evidence - EvidenceOf(t, scope)
            == i.evidence - set id | id in i.evidence && ObservedIn(i, i.evidence[id].observationId, scope)
  {
    var i := t.intake;
    var gone := set id | id in i.evidence && ObservedIn(i, i.evidence[id].observationId, scope);
    assert forall id :: id in gone <==> id in EvidenceOf(t, scope);
    SameRemoval(i.evidence, EvidenceOf(t, scope), gone);
  }

  lemma CandidateIndexInWords(t: Tables, scope: Scope)
    ensures var i := t.intake;
            i.candidateByObservation - ObservationsOf(t, scope)
            == i.candidateByObservation - set id | id in i.candidateByObservation && ObservedIn(i, id, scope)
  {
    var i := t.intake;
    var gone := set id | id in i.candidateByObservation && ObservedIn(i, id, scope);
    SameRemoval(i.candidateByObservation, ObservationsOf(t, scope), gone);
  }

  /** Only what is stored under the removed keys matters. */
  lemma SameRemoval<K, V>(m: map<K, V>, a: set<K>, b: set<K>)
    requires forall k | k in m :: k in a <==> k in b
    ensures m - a == m - b
  {
  }

  lemma {:induction false} TransitionsKept(transitions: seq<Transition>, records: set<Id>, x: Transition)
    ensures multiset(KeepTransitions(transitions, records))[x]
            == if x.recordId in records then 0 else multiset(transitions)[x]
    decreases |transitions|
  {
    if transitions != [] {
      var init, last := transitions[..|transitions| - 1], transitions[|transitions| - 1];
      TransitionsKept(init, records, x);
      assert transitions == init + [last];
    }
  }

  lemma MemoryInWords(t: Tables, next: Id, clock: Time, scope: Scope)
    requires MemoryOk(t.memory, next, clock)
    ensures MemoryErasedInWords(t.memory, EraseScope(t, scope).memory, scope)
  {
    hide MemoryOk, RevisionsOf, KeepTransitions, IntakeWithout, FeedbackWithout, KeepOthers;
    RevisionsInWords(t, next, clock, scope);
    IdentitiesInWords(t.memory.identities, scope);
    RecordIndexInWords(t, t.memory.chains, scope);
    RecordIndexInWords(t, t.memory.active, scope);
    forall x: Transition
      ensures multiset(KeepTransitions(t.memory.transitions, RecordsOf(t, scope)))[x]
              == if RecordedIn(t.memory, x.recordId, scope) then 0 else multiset(t.memory.transitions)[x]
    {
      TransitionsKept(t.memory.transitions, RecordsOf(t, scope), x);
    }
  }

  lemma RevisionsInWords(t: Tables, next: Id, clock: Time, scope: Scope)
    requires MemoryOk(t.memory, next, clock)
    ensures var m := t.memory;
            m.revisions - RevisionsOf(t, scope)
            == m.revisions - set id | id in m.revisions && RecordedIn(m, m.revisions[id].recordId, scope)
  {
    hide MemoryOk, RevisionsOf;
    var m := t.memory;
    var gone := set id | id in m.revisions && RecordedIn(m, m.revisions[id].recordId, scope);
    forall id | id in m.revisions ensures id in RevisionsOf(t, scope) <==> id in gone {
      RevisionGoesWithRecord(t, next, clock, scope, id);
    }
    SameRemoval(m.revisions, RevisionsOf(t, scope), gone);
  }

  lemma IdentitiesInWords(identities: map<(Scope, string, Context), Id>, scope: Scope)
    ensures (map k | k in identities && k.0 != scope :: identities[k])
            == identities - set k | k in identities && k.0 == scope
  {
  }

  /** What is kept for each record goes with it. */
  lemma RecordIndexInWords<V>(t: Tables, index: map<Id, V>, scope: Scope)
    ensures index - RecordsOf(t, scope) == index - set id | id in index && RecordedIn(t.memory, id, scope)
  {
    var gone := set id | id in index && RecordedIn(t.memory, id, scope);
    SameRemoval(index, RecordsOf(t, scope), gone);
  }

  lemma DeliveriesInWords(t: Tables, scope: Scope)
    ensures DeliveriesErasedInWords(t.deliveries, EraseScope(t, scope).deliveries, scope)
  {
    hide IntakeWithout, MemoryWithout, FeedbackWithout, KeepOthers;
    OthersKept(t.deliveries.usageKeys, scope);
  }

  lemma FeedbackInWords(t: Tables, scope: Scope)
    ensures FeedbackErasedInWords(t.feedback, EraseScope(t, scope).feedback, scope)
  {
    hide IntakeWithout, MemoryWithout, KeepOthers, KeepIds;
    OthersKept(t.feedback.outcomeKeys, scope);
    KeptIds(t.feedback.order, OutcomesOf(t, scope));
  }

  /** Every item of every set, one by one. */
  ghost function Pairs(ids: set<Id>, count: Id -> int): set<(Id, int)> {
    set id, i | id in ids && 0 <= i < count(id) :: (id, i)
  }

  lemma {:induction false} SumIsPairs(ids: set<Id>, count: Id -> int)
    requires forall id | id in ids :: count(id) >= 0
    ensures Sum(ids, count) == |Pairs(ids, count)|
    decreases |ids|
  {
    if ids != {} {
      var x := Sorting.Pick(ids);
      var own, rest := set i | 0 <= i < count(x) :: (x, i), Pairs(ids - {x}, count);
      SumIsPairs(ids - {x}, count);
      SumWithout(ids, count, x);
      RowSize(x, count(x));
      assert Pairs(ids, count) == own + rest && own !! rest;
    }
  }

  lemma {:induction false} RowSize(x: Id, n: int)
    requires n >= 0
    ensures |set i | 0 <= i < n :: (x, i)| == n
    decreases n
  {
    if n > 0 {
      RowSize(x, n - 1);
      assert (set i | 0 <= i < n :: (x, i)) == (set i | 0 <= i < n - 1 :: (x, i)) + {(x, n - 1)};
    }
  }

  /** In every reachable state, erasing a scope takes exactly its rows out of every table, index, chain and head, leaves
      every other row as it was, and counts the listed memories of its traces, and the cited ones of its usages, one by
      one. */
  lemma ErasureInWords(env: Env, app: App, scope: Scope)
    requires Reachable(env, app)
    ensures var t, e, s := app.tables, EraseScope(app.tables, scope), SummaryOf(app.tables, scope);
            && ErasedInWords(t, e, scope)
            && s.traceItems == |set id, i | id in t.recalls.traces && t.recalls.traces[id].scope == scope
                                            && 0 <= i < |t.recalls.traces[id].items| :: (id, i)|
            && s.usageItems == |set id, i | id in t.deliveries.usages && t.deliveries.usages[id].scope == scope
                                            && 0 <= i < |t.deliveries.usages[id].revisionIds| :: (id, i)|
            && s.documents == 0
  {
    hide StoreOk, EraseScope, ErasedInWords;
    ReachableIsOk(env, app);
    EverythingInWords(app.tables, app.next, app.clock, scope);
    ItemsAreCounted(app.tables, scope);
  }

  lemma EverythingInWords(t: Tables, next: Id, clock: Time, scope: Scope)
    requires StoreOk(t, next, clock)
    ensures ErasedInWords(t, EraseScope(t, scope), scope)
  {
    hide IntakeOk, MemoryOk, LinksOk, ExperienceOk, IntakeErasedInWords, MemoryErasedInWords, DeliveriesErasedInWords,
         FeedbackErasedInWords, IntakeWithout, MemoryWithout, FeedbackWithout, KeepOthers;
    IntakeInWords(t, scope);
    MemoryInWords(t, next, clock, scope);
    DeliveriesInWords(t, scope);
    FeedbackInWords(t, scope);
  }

  lemma ItemsAreCounted(t: Tables, scope: Scope)
    ensures var s := SummaryOf(t, scope);
            && s.traceItems == |set id, i | id in t.recalls.traces && t.recalls.traces[id].scope == scope
                                            && 0 <= i < |t.recalls.traces[id].items| :: (id, i)|
            && s.usageItems == |set id, i | id in t.deliveries.usages && t.deliveries.usages[id].scope == scope
                                            && 0 <= i < |t.deliveries.usages[id].revisionIds| :: (id, i)|
  {
    hide ObservationsOf, EvidenceOf, CandidatesOf, RecordsOf, RevisionsOf, OutcomesOf, UtilitiesOf, TracesOf, UsagesOf,
         CountTransitions, Sum, TraceItems, UsageItems;
    TraceItemsAreCounted(t, scope);
    UsageItemsAreCounted(t, scope);
  }

  lemma TraceItemsAreCounted(t: Tables, scope: Scope)
    ensures Sum(TracesOf(t, scope), TraceItems(t.recalls.traces))
            == |set id, i | id in t.recalls.traces && t.recalls.traces[id].scope == scope
                            && 0 <= i < |t.recalls.traces[id].items| :: (id, i)|
  {
    hide Sum;
    var traces := t.recalls.traces;
    SumIsPairs(TracesOf(t, scope), TraceItems(traces));
    assert Pairs(TracesOf(t, scope), TraceItems(traces))
        == set id, i | id in traces && traces[id].scope == scope && 0 <= i < |traces[id].items| :: (id, i);
  }

  lemma UsageItemsAreCounted(t: Tables, scope: Scope)
    ensures Sum(UsagesOf(t, scope), UsageItems(t.deliveries.usages))
            == |set id, i | id in t.deliveries.usages && t.deliveries.usages[id].scope == scope
                            && 0 <= i < |t.deliveries.usages[id].revisionIds| :: (id, i)|
  {
    hide Sum;
    var usages := t.deliveries.usages;
    SumIsPairs(UsagesOf(t, scope), UsageItems(usages));
    assert Pairs(UsagesOf(t, scope), UsageItems(usages))
        == set id, i | id in usages && usages[id].scope == scope && 0 <= i < |usages[id].revisionIds| :: (id, i);
  }
}
