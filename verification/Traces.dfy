/** Recall traces: the frozen, ranked result of one recall. */
module Traces {
  import opened Common

  datatype ScoreBreakdown = ScoreBreakdown(
    semantic: real, context: real, belief: real, utility: real, recency: real, lexical: real, vector: Option<real>)

  datatype RecalledItem = RecalledItem(
    recordId: Id, revisionId: Id, key: string, value: string, context: Context, validFrom: Time, recordedAt: Time,
    rank: int, score: real, breakdown: ScoreBreakdown, evidenceIds: seq<Id>)

  datatype Trace = Trace(
    id: Id, scope: Scope, query: string, context: Context, policyId: Id, policyVersion: int,
    items: seq<RecalledItem>, validAt: Time, knownAt: Time, createdAt: Time)

  predicate InUnit(x: real) {
    0.0 <= x <= 1.0
  }

  /** What the constructors of a breakdown, an item and a trace accept. */
  predicate BreakdownAccepted(b: ScoreBreakdown) {
    && InUnit(b.semantic) && InUnit(b.context) && InUnit(b.belief) && InUnit(b.utility) && InUnit(b.recency)
    && InUnit(b.lexical) && (b.vector.Some? ==> InUnit(b.vector.value))
  }

  predicate ItemAccepted(i: RecalledItem) {
    i.rank >= 1 && InUnit(i.score) && BreakdownAccepted(i.breakdown)
  }

  predicate TraceAccepted(t: Trace) {
    && t.knownAt <= t.createdAt
    && forall i | i in t.items :: ItemAccepted(i) && i.validFrom <= t.validAt && i.recordedAt <= t.knownAt
  }

  /** No revision is listed twice. */
  predicate DistinctItems(items: seq<RecalledItem>) {
    forall i, j | 0 <= i < j < |items| :: items[i].revisionId != items[j].revisionId
  }

  function RevisionIds(items: seq<RecalledItem>): set<Id> {
    set i | 0 <= i < |items| :: items[i].revisionId
  }
}
