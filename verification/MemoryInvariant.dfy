/** What every reachable state of the authoritative store satisfies. */
module MemoryInvariant {
  import opened Common
  import opened Beliefs
  import opened MemoryTables
  import opened Service

  // ---------------------------------------------------------------- intake

  /** The observation is found under its idempotency key, and has a candidate. */
  ghost predicate ObservationOk(i: Intake, next: Id, id: Id, o: Observation) {
    && o.id == id < next && (o.scope, o.key) in i.observationKeys && i.observationKeys[(o.scope, o.key)] == id
    && id in i.candidateByObservation
  }

  /** The candidate belongs to its observation's scope, cites the observation's one evidence span and is accepted. */
  ghost predicate CandidateOk(i: Intake, next: Id, id: Id, c: Candidate) {
    && c.id == id < next && c.observationId in i.observations && i.observations[c.observationId].scope == c.scope
    && c.observationId in i.candidateByObservation && i.candidateByObservation[c.observationId] == id
    && c.accepted.Some? && InUnit(c.confidence)
    && |c.evidenceIds| == 1 && c.evidenceIds[0] in i.evidence
    && i.evidence[c.evidenceIds[0]].observationId == c.observationId
  }

  /** The span's observation has a candidate, which cites the span. */
  ghost predicate SpanOk(i: Intake, next: Id, id: Id, e: EvidenceSpan) {
    && e.id == id < next && e.observationId in i.observations && e.observationId in i.candidateByObservation
    && i.candidateByObservation[e.observationId] in i.candidates
    && i.candidates[i.candidateByObservation[e.observationId]].evidenceIds == [id]
  }

  ghost predicate IntakeOk(i: Intake, next: Id) {
    && (forall id | id in i.observations :: ObservationOk(i, next, id, i.observations[id]))
    && (forall k | k in i.observationKeys ::
         && i.observationKeys[k] in i.observations
         && (i.observations[i.observationKeys[k]].scope, i.observations[i.observationKeys[k]].key) == k)
    && (forall id | id in i.candidateByObservation ::
         && id in i.observations && i.candidateByObservation[id] in i.candidates
         && i.candidates[i.candidateByObservation[id]].observationId == id)
    && (forall id | id in i.candidates :: CandidateOk(i, next, id, i.candidates[id]))
    && (forall id | id in i.evidence :: SpanOk(i, next, id, i.evidence[id]))
  }

  // ---------------------------------------------------------------- memory

  /** The i-th revision of the chain: sequence i + 1, superseding the one before, recorded no earlier. */
  ghost predicate LinkOk(m: Memory, clock: Time, r: Record, chain: seq<Id>, i: int)
    requires 0 <= i < |chain|
  {
    && chain[i] in m.revisions
    && (var v := m.revisions[chain[i]];
        && v.recordId == r.id && v.sequence == i + 1 && r.createdAt <= v.recordedAt <= clock
        && v.supersedes == (if i == 0 then None else Some(chain[i - 1]))
        && (i > 0 ==> chain[i - 1] in m.revisions && m.revisions[chain[i - 1]].recordedAt <= v.recordedAt))
  }

  ghost predicate ChainOk(m: Memory, clock: Time, r: Record, chain: seq<Id>) {
    && chain != [] && r.id in m.active && m.active[r.id] == chain[|chain| - 1]
    && (forall i | 0 <= i < |chain| :: LinkOk(m, clock, r, chain, i))
  }

  ghost predicate RecordOk(m: Memory, next: Id, clock: Time, id: Id, r: Record) {
    && r.id == id < next && r.kind == Preference && r.createdAt <= clock
    && (r.scope, r.key, r.context) in m.identities && m.identities[(r.scope, r.key, r.context)] == id
    && id in m.chains && ChainOk(m, clock, r, m.chains[id])
  }

  /** The revision stands in its record's chain at its sequence number. */
  ghost predicate RevisionOk(m: Memory, next: Id, id: Id, v: Revision) {
    && v.id == id < next && v.recordId in m.records && v.recordId in m.chains
    && 1 <= v.sequence <= |m.chains[v.recordId]| && m.chains[v.recordId][v.sequence - 1] == id
    && InUnit(v.belief.confidence)
  }

  ghost predicate MemoryOk(m: Memory, next: Id, clock: Time) {
    && (forall id | id in m.records :: RecordOk(m, next, clock, id, m.records[id]))
    && (forall k | k in m.identities ::
         && m.identities[k] in m.records
         && (var r := m.records[m.identities[k]]; (r.scope, r.key, r.context) == k))
    && (forall id | id in m.chains :: id in m.records)
    && (forall id | id in m.active :: id in m.records)
    && (forall id | id in m.revisions :: RevisionOk(m, next, id, m.revisions[id]))
  }

  // ---------------------------------------------------------------- evidence

  /** The candidate an evidence span supports. */
  function SupportedBy(i: Intake, e: Id): Option<Candidate> {
    if e in i.evidence && i.evidence[e].observationId in i.candidateByObservation
       && i.candidateByObservation[i.evidence[e].observationId] in i.candidates then
      Some(i.candidates[i.candidateByObservation[i.evidence[e].observationId]])
    else None
  }

  /** What an evidence span contributes to a belief. */
  function ItemFor(i: Intake, e: Id): Item {
    var c := SupportedBy(i, e);
    if c.Some? && c.value.observationId in i.observations then
      var o := i.observations[c.value.observationId];
      Item(c.value.confidence, o.occurredAt, o.source)
    else Item(0.0, 0, "")
  }

  function ItemsFor(i: Intake, ids: seq<Id>): (items: seq<Item>)
    ensures |items| == |ids| && forall k | 0 <= k < |ids| :: items[k] == ItemFor(i, ids[k])
  {
    seq(|ids|, k requires 0 <= k < |ids| => ItemFor(i, ids[k]))
  }

  /** The span supports a candidate of the record's identity and the revision's value. */
  ghost predicate Supports(i: Intake, r: Record, v: Revision, e: Id) {
    && SupportedBy(i, e).Some?
    && (var c := SupportedBy(i, e).value;
        && c.scope == r.scope && c.key == r.key && c.context == r.context && c.value == v.value
        && c.observationId in i.observations)
  }

  /** The revision's belief is exactly the fold of its own evidence. */
  ghost predicate BeliefOk(i: Intake, r: Record, v: Revision) {
    && v.evidenceIds != [] && DistinctIds(v.evidenceIds)
    && (forall k | 0 <= k < |v.evidenceIds| :: Supports(i, r, v, v.evidenceIds[k]))
    && Confidences(ItemsFor(i, v.evidenceIds)) && v.belief == Accumulated(ItemsFor(i, v.evidenceIds))
  }

  /** The accepted candidate is resolvable: its revision belongs to the record of its identity and has its value. */
  ghost predicate AcceptedOk(m: Memory, c: Candidate) {
    && c.accepted.Some?
    && (var (recordId, revisionId) := c.accepted.value;
        && recordId in m.records && revisionId in m.revisions && m.revisions[revisionId].recordId == recordId
        && (m.records[recordId].scope, m.records[recordId].key, m.records[recordId].context)
            == (c.scope, c.key, c.context)
        && m.revisions[revisionId].value == c.value)
  }

  ghost predicate LinksOk(i: Intake, m: Memory) {
    && (forall id | id in i.candidates :: AcceptedOk(m, i.candidates[id]))
    && (forall id | id in m.revisions ::
         m.revisions[id].recordId in m.records && BeliefOk(i, m.records[m.revisions[id].recordId], m.revisions[id]))
  }

  // ---------------------------------------------------------------- growth

  /** Everything one accepted write adds. */
  datatype Growth = Growth(o: Observation, e: EvidenceSpan, c: Candidate, record: Record, revision: Revision,
                           transition: Transition)

  function ChainOf(m: Memory, id: Id): seq<Id> {
    if id in m.chains then m.chains[id] else []
  }

  function GrowIntake(i: Intake, g: Growth): Intake {
    Intake(i.observations[g.o.id := g.o], i.observationKeys[(g.o.scope, g.o.key) := g.o.id], i.evidence[g.e.id := g.e],
           i.candidates[g.c.id := g.c], i.candidateByObservation[g.o.id := g.c.id])
  }

  function GrowMemory(m: Memory, g: Growth): Memory {
    var r := g.record;
    Memory(m.records[r.id := r], m.identities[(r.scope, r.key, r.context) := r.id],
           m.revisions[g.revision.id := g.revision],
           m.chains[r.id := ChainOf(m, r.id) + [g.revision.id]], m.active[r.id := g.revision.id],
           m.transitions + [g.transition])
  }

  ghost predicate IntakeFits(i: Intake, g: Growth, next: Id) {
    && g.o.id == next && g.e.id == next + 1 && g.c.id == next + 2
    && (g.o.scope, g.o.key) !in i.observationKeys
    && g.e.observationId == g.o.id && g.c.observationId == g.o.id && g.c.scope == g.o.scope
    && g.c.evidenceIds == [g.e.id] && InUnit(g.c.confidence)
    && g.c.accepted == Some((g.record.id, g.revision.id))
  }

  ghost predicate MemoryFits(m: Memory, g: Growth, next: Id, now: Time) {
    var r, v, chain := g.record, g.revision, ChainOf(m, g.record.id);
    && next <= v.id < next + 6 && v.recordId == r.id && v.recordedAt == now && v.sequence == |chain| + 1
    && v.supersedes == (if chain == [] then None else Some(chain[|chain| - 1])) && InUnit(v.belief.confidence)
    && (if r.id in m.records then m.records[r.id] == r
        else
          && next <= r.id < next + 6 && r.kind == Preference && r.createdAt == now
          && (r.scope, r.key, r.context) !in m.identities)
  }

  lemma IntakeGrows(i: Intake, g: Growth, next: Id)
    requires IntakeOk(i, next) && IntakeFits(i, g, next)
    ensures IntakeOk(GrowIntake(i, g), next + 6)
  {
    hide SpanOk;
    CandidatesGrow(i, g, next);
    SpansGrow(i, g, next);
  }

  lemma CandidatesGrow(i: Intake, g: Growth, next: Id)
    requires IntakeOk(i, next) && IntakeFits(i, g, next)
    ensures var j := GrowIntake(i, g);
            forall id | id in j.candidates :: CandidateOk(j, next + 6, id, j.candidates[id])
  {
    var j := GrowIntake(i, g);
    forall id | id in j.candidates ensures CandidateOk(j, next + 6, id, j.candidates[id]) {
      assert id != g.c.id ==> CandidateOk(i, next, id, i.candidates[id]);
    }
  }

  lemma SpansGrow(i: Intake, g: Growth, next: Id)
    requires IntakeOk(i, next) && IntakeFits(i, g, next)
    ensures var j := GrowIntake(i, g);
            forall id | id in j.evidence :: SpanOk(j, next + 6, id, j.evidence[id])
  {
    var j := GrowIntake(i, g);
    forall id | id in j.evidence ensures SpanOk(j, next + 6, id, j.evidence[id]) {
      assert id != g.e.id ==> SpanOk(i, next, id, i.evidence[id]);
    }
  }

  lemma ChainGrows(m: Memory, g: Growth, next: Id, clock: Time, now: Time)
    requires MemoryOk(m, next, clock) && MemoryFits(m, g, next, now) && clock <= now
    ensures ChainOk(GrowMemory(m, g), now, g.record, ChainOf(m, g.record.id) + [g.revision.id])
  {
    var n, r, chain := GrowMemory(m, g), g.record, ChainOf(m, g.record.id);
    var grown := chain + [g.revision.id];
    if r.id in m.records {
      assert RecordOk(m, next, clock, r.id, r);
      forall k | 0 <= k < |chain|
          ensures chain[k] in m.revisions && chain[k] < next && m.revisions[chain[k]].recordedAt <= clock {
        assert LinkOk(m, clock, r, chain, k);
      }
      forall k | 0 <= k < |grown| ensures LinkOk(n, now, r, grown, k) {
        assert k < |chain| ==> LinkOk(m, clock, r, chain, k);
      }
    } else {
      assert chain == [] && grown == [g.revision.id];
      assert LinkOk(n, now, r, grown, 0);
    }
  }

  lemma OtherChainsStay(m: Memory, g: Growth, next: Id, clock: Time, now: Time, id: Id)
    requires MemoryOk(m, next, clock) && MemoryFits(m, g, next, now) && clock <= now
    requires id in m.records && id != g.record.id
    ensures RecordOk(GrowMemory(m, g), next + 6, now, id, m.records[id])
  {
    var n, r, chain := GrowMemory(m, g), m.records[id], m.chains[id];
    assert RecordOk(m, next, clock, id, r);
    forall k | 0 <= k < |chain| ensures LinkOk(n, now, r, chain, k) {
      assert LinkOk(m, clock, r, chain, k);
      assert k > 0 ==> LinkOk(m, clock, r, chain, k - 1);
    }
    if g.record.id in m.records {
      assert RecordOk(m, next, clock, g.record.id, g.record);
    }
  }

  lemma RevisionsGrow(m: Memory, g: Growth, next: Id, clock: Time, now: Time, id: Id)
    requires MemoryOk(m, next, clock) && MemoryFits(m, g, next, now) && clock <= now
    requires id in GrowMemory(m, g).revisions
    ensures RevisionOk(GrowMemory(m, g), next + 6, id, GrowMemory(m, g).revisions[id])
  {
    if id != g.revision.id {
      assert RevisionOk(m, next, id, m.revisions[id]);
    }
  }

  lemma MemoryGrows(m: Memory, g: Growth, next: Id, clock: Time, now: Time)
    requires MemoryOk(m, next, clock) && MemoryFits(m, g, next, now) && clock <= now
    ensures MemoryOk(GrowMemory(m, g), next + 6, now)
  {
    var n, r := GrowMemory(m, g), g.record;
    ChainGrows(m, g, next, clock, now);
    forall id | id in n.records ensures RecordOk(n, next + 6, now, id, n.records[id]) {
      if id != r.id {
        OtherChainsStay(m, g, next, clock, now, id);
      } else if r.id in m.records {
        assert RecordOk(m, next, clock, id, r);
      }
    }
    forall id | id in n.revisions ensures RevisionOk(n, next + 6, id, n.revisions[id]) {
      RevisionsGrow(m, g, next, clock, now, id);
    }
  }

  lemma SupportStays(i: Intake, g: Growth, next: Id, e: Id)
    requires IntakeOk(i, next) && IntakeFits(i, g, next) && e in i.evidence
    ensures SupportedBy(GrowIntake(i, g), e) == SupportedBy(i, e)
    ensures ItemFor(GrowIntake(i, g), e) == ItemFor(i, e)
  {
    assert SpanOk(i, next, e, i.evidence[e]);
    assert next !in i.observations && next + 1 !in i.evidence && next + 2 !in i.candidates;
    var c := SupportedBy(i, e).value;
    assert c.observationId in i.observations;
  }

  lemma BeliefStays(i: Intake, g: Growth, next: Id, r: Record, v: Revision)
    requires IntakeOk(i, next) && IntakeFits(i, g, next) && BeliefOk(i, r, v)
    ensures BeliefOk(GrowIntake(i, g), r, v)
    ensures ItemsFor(GrowIntake(i, g), v.evidenceIds) == ItemsFor(i, v.evidenceIds)
    ensures forall k | 0 <= k < |v.evidenceIds| :: v.evidenceIds[k] in i.evidence
  {
    var j := GrowIntake(i, g);
    forall k | 0 <= k < |v.evidenceIds|
      ensures v.evidenceIds[k] in i.evidence && Supports(j, r, v, v.evidenceIds[k])
      ensures ItemFor(j, v.evidenceIds[k]) == ItemFor(i, v.evidenceIds[k])
    {
      assert Supports(i, r, v, v.evidenceIds[k]);
      SupportStays(i, g, next, v.evidenceIds[k]);
    }
    assert ItemsFor(j, v.evidenceIds) == ItemsFor(i, v.evidenceIds);
  }

  /** What an accepted candidate points at stays. */
  lemma AcceptedStays(m: Memory, g: Growth, next: Id, clock: Time, now: Time, c: Candidate)
    requires MemoryOk(m, next, clock) && MemoryFits(m, g, next, now) && AcceptedOk(m, c)
    ensures AcceptedOk(GrowMemory(m, g), c)
  {
    var id := c.accepted.value.1;
    assert RevisionOk(m, next, id, m.revisions[id]);
  }

  lemma OwnCandidateIsAccepted(i: Intake, m: Memory, g: Growth, next: Id, now: Time)
    requires IntakeFits(i, g, next) && MemoryFits(m, g, next, now) && g.c.value == g.revision.value
    requires (g.c.scope, g.c.key, g.c.context) == (g.record.scope, g.record.key, g.record.context)
    ensures AcceptedOk(GrowMemory(m, g), g.c)
  {
  }

  /** A revision that was there keeps its record and its belief. */
  lemma RevisionStays(i: Intake, m: Memory, g: Growth, next: Id, clock: Time, now: Time, id: Id)
    requires IntakeOk(i, next) && MemoryOk(m, next, clock) && LinksOk(i, m) && id in m.revisions
    requires IntakeFits(i, g, next) && MemoryFits(m, g, next, now)
    ensures var n, v := GrowMemory(m, g), m.revisions[id];
            && id in n.revisions && n.revisions[id] == v && v.recordId in n.records
            && BeliefOk(GrowIntake(i, g), n.records[v.recordId], v)
  {
    hide BeliefOk, IntakeOk, IntakeFits, GrowIntake;
    assert RevisionOk(m, next, id, m.revisions[id]);
    BeliefStays(i, g, next, m.records[m.revisions[id].recordId], m.revisions[id]);
  }

  lemma LinksGrow(i: Intake, m: Memory, g: Growth, next: Id, clock: Time, now: Time)
    requires IntakeOk(i, next) && MemoryOk(m, next, clock) && LinksOk(i, m)
    requires IntakeFits(i, g, next) && MemoryFits(m, g, next, now)
    requires BeliefOk(GrowIntake(i, g), g.record, g.revision)
    requires (g.c.scope, g.c.key, g.c.context) == (g.record.scope, g.record.key, g.record.context)
    requires g.c.value == g.revision.value
    ensures LinksOk(GrowIntake(i, g), GrowMemory(m, g))
  {
    hide IntakeOk, MemoryOk, AcceptedOk, BeliefOk;
    var j, n := GrowIntake(i, g), GrowMemory(m, g);
    OwnCandidateIsAccepted(i, m, g, next, now);
    forall id | id in j.candidates ensures AcceptedOk(n, j.candidates[id]) {
      if id != g.c.id {
        AcceptedStays(m, g, next, clock, now, i.candidates[id]);
      }
    }
    forall id | id in n.revisions
      ensures n.revisions[id].recordId in n.records && BeliefOk(j, n.records[n.revisions[id].recordId], n.revisions[id])
    {
      if id != g.revision.id {
        RevisionStays(i, m, g, next, clock, now, id);
      }
    }
  }

  // ---------------------------------------------------------------- what an accepted write adds

  /** The candidate's own span supports it in the grown intake. */
  lemma OwnEvidence(i: Intake, g: Growth, next: Id)
    requires IntakeOk(i, next) && IntakeFits(i, g, next)
    ensures SupportedBy(GrowIntake(i, g), g.e.id) == Some(g.c)
    ensures ItemFor(GrowIntake(i, g), g.e.id) == Item(g.c.confidence, g.o.occurredAt, g.o.source)
  {
  }

  lemma FreshBelief(i: Intake, g: Growth, next: Id)
    requires IntakeOk(i, next) && IntakeFits(i, g, next)
    requires (g.c.scope, g.c.key, g.c.context) == (g.record.scope, g.record.key, g.record.context)
    requires g.c.value == g.revision.value && g.revision.evidenceIds == [g.e.id]
    requires g.revision.belief == FromEvidence(Item(g.c.confidence, g.o.occurredAt, g.o.source))
    ensures BeliefOk(GrowIntake(i, g), g.record, g.revision)
  {
    OwnEvidence(i, g, next);
    var j := GrowIntake(i, g);
    assert ItemsFor(j, [g.e.id]) == [Item(g.c.confidence, g.o.occurredAt, g.o.source)];
  }

  lemma ReinforcedBelief(i: Intake, g: Growth, next: Id, head: Revision)
    requires IntakeOk(i, next) && IntakeFits(i, g, next)
    requires BeliefOk(i, g.record, head) && head.value == g.revision.value
    requires (g.c.scope, g.c.key, g.c.context) == (g.record.scope, g.record.key, g.record.context)
    requires g.c.value == g.revision.value && g.revision.evidenceIds == head.evidenceIds + [g.e.id]
    requires Reinforced(head.belief, Item(g.c.confidence, g.o.occurredAt, g.o.source)) == Ok(g.revision.belief)
    ensures BeliefOk(GrowIntake(i, g), g.record, g.revision)
  {
    OwnEvidence(i, g, next);
    BeliefStays(i, g, next, g.record, head);
    var j := GrowIntake(i, g);
    SpanIsNew(i, next);
    OwnSupport(i, g, next);
    SupportIsAboutValues(j, g.record, head, g.revision);
    BeliefAdds(j, g.record, head, g.revision, g.e.id, Item(g.c.confidence, g.o.occurredAt, g.o.source));
  }

  lemma SpanIsNew(i: Intake, next: Id)
    requires IntakeOk(i, next)
    ensures next + 1 !in i.evidence
  {
    forall id | id in i.evidence ensures id != next + 1 {
      assert SpanOk(i, next, id, i.evidence[id]);
    }
  }

  lemma OwnSupport(i: Intake, g: Growth, next: Id)
    requires IntakeOk(i, next) && IntakeFits(i, g, next)
    requires (g.c.scope, g.c.key, g.c.context) == (g.record.scope, g.record.key, g.record.context)
    requires g.c.value == g.revision.value
    ensures Supports(GrowIntake(i, g), g.record, g.revision, g.e.id)
  {
    OwnEvidence(i, g, next);
  }

  lemma SupportIsAboutValues(i: Intake, r: Record, v: Revision, w: Revision)
    requires v.value == w.value
    ensures forall e :: Supports(i, r, v, e) ==> Supports(i, r, w, e)
  {
  }

  /** One more supporting span, folded into the belief. */
  lemma BeliefAdds(i: Intake, r: Record, head: Revision, v: Revision, e: Id, own: Item)
    requires BeliefOk(i, r, head) && e !in head.evidenceIds && v.evidenceIds == head.evidenceIds + [e]
    requires Supports(i, r, v, e) && (forall x :: Supports(i, r, head, x) ==> Supports(i, r, v, x))
    requires ItemFor(i, e) == own && Reinforced(head.belief, own) == Ok(v.belief)
    ensures BeliefOk(i, r, v)
  {
    hide Supports, SupportedBy, ItemFor;
    var items := ItemsFor(i, v.evidenceIds);
    assert items == ItemsFor(i, head.evidenceIds) + [own];
    assert items[..|items| - 1] == ItemsFor(i, head.evidenceIds);
    forall k | 0 <= k < |v.evidenceIds| ensures Supports(i, r, v, v.evidenceIds[k]) {
      assert k < |head.evidenceIds| ==> Supports(i, r, head, head.evidenceIds[k]);
    }
  }
}
