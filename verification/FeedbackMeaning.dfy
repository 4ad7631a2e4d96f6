/** What feedback means: which way an outcome moves which estimate and by how much, what is stored of it and of a usage,
    which are refused, and what a used key answers. */
module FeedbackMeaning {
  import opened Common
  import opened MemoryTables
  import opened Recall
  import opened Service
  import opened ExperienceInvariant
  import opened ScopeErasure
  import opened MemoryRuns
  import C = Compression
  import T = Traces
  import P = Projections

  // ---------------------------------------------------------------- estimates

  /** The share of good feedback, counting one good and one bad before there is any. */
  lemma MeanInNumbers(u: Utility)
    requires u.positive >= 0.0 && u.negative >= 0.0
    ensures u.Mean() * (2.0 + u.positive + u.negative) == 1.0 + u.positive
    ensures NO_OUTCOMES.positive == 0.0 && NO_OUTCOMES.negative == 0.0 && NO_OUTCOMES.lastAt.None?
    ensures NO_OUTCOMES.Mean() == 0.5
  {
    MeanIsRatio(u);
    MeanIsRatio(NO_OUTCOMES);
    var part, whole := 1.0 + u.positive, 2.0 + u.positive + u.negative;
    assert part / whole * whole == part;
  }

  lemma MeanIsRatio(u: Utility)
    requires u.positive >= 0.0 && u.negative >= 0.0
    ensures u.Mean() == (1.0 + u.positive) / (2.0 + u.positive + u.negative)
  {
  }

  lemma Cancelled(x: real, y: real, w: real)
    requires w > 0.0 && x * w < y * w
    ensures x < y
  {
    if y < x {
      Larger(y, x, w);
    }
  }

  /** More good feedback strictly raises the mean, more bad feedback strictly lowers it. */
  lemma MeanMoves(u: Utility, v: Utility, w: real)
    requires u.positive >= 0.0 && u.negative >= 0.0 && w > 0.0
    ensures v.positive == u.positive + w && v.negative == u.negative ==> u.Mean() < v.Mean()
    ensures v.positive == u.positive && v.negative == u.negative + w ==> v.Mean() < u.Mean()
  {
    hide Utility.Mean;
    MeanIsRatio(u);
    if v.positive == u.positive + w && v.negative == u.negative {
      MeanIsRatio(v);
      MoreRaises(1.0 + u.positive, 2.0 + u.positive + u.negative, w);
    }
    if v.positive == u.positive && v.negative == u.negative + w {
      MeanIsRatio(v);
      WiderLowers(1.0 + u.positive, 2.0 + u.positive + u.negative, w);
    }
  }

  /** A fraction below one grows when the same is added to its part and to its whole. */
  lemma MoreRaises(part: real, whole: real, w: real)
    requires 0.0 < part < whole && w > 0.0
    ensures part / whole < (part + w) / (whole + w)
  {
    Grown(part / whole, (part + w) / (whole + w), part, whole, whole + w, w);
  }

  lemma Grown(x: real, y: real, part: real, whole: real, wider: real, w: real)
    requires 0.0 < part < whole && w > 0.0 && wider == whole + w
    requires x * whole == part && y * wider == part + w
    ensures x < y
  {
    Cancelled(x, 1.0, whole);
    Larger(x, 1.0, w);
    Distributed(x, whole, w, wider);
    Cancelled(x, y, wider);
  }

  /** It shrinks when something is added to its whole only. */
  lemma WiderLowers(part: real, whole: real, w: real)
    requires 0.0 < part < whole && w > 0.0
    ensures part / (whole + w) < part / whole
  {
    Shrunk(part / (whole + w), part / whole, part, whole, whole + w, w);
  }

  lemma Shrunk(x: real, y: real, part: real, whole: real, wider: real, w: real)
    requires 0.0 < part < whole && w > 0.0 && wider == whole + w
    requires x * wider == part && y * whole == part
    ensures x < y
  {
    Cancelled(0.0, x, wider);
    Positive(x, w);
    Distributed(x, whole, w, wider);
    Cancelled(x, y, whole);
  }

  lemma Distributed(x: real, y: real, z: real, sum: real)
    requires sum == y + z
    ensures x * sum == x * y + x * z
  {
  }

  lemma Larger(x: real, y: real, w: real)
    requires x < y && w > 0.0
    ensures x * w < w * y
  {
    Positive(y - x, w);
    assert (y - x) * w == y * w - x * w;
  }

  lemma Positive(x: real, y: real)
    requires x > 0.0 && y > 0.0
    ensures x * y > 0.0
  {
  }

  /** Good feedback adds its weight to the positive side, bad feedback to the negative side, and the time of the
      estimate is that of its latest feedback. */
  ghost predicate Moved(before: Utility, after: Utility, kind: OutcomeKind, weight: real, at: Time) {
    && (match kind
        case Helpful => after.positive == before.positive + weight && after.negative == before.negative
        case Accepted => after.positive == before.positive + weight && after.negative == before.negative
        case Harmful => after.positive == before.positive && after.negative == before.negative + weight
        case Rejected => after.positive == before.positive && after.negative == before.negative + weight
        case Corrected => after.positive == before.positive && after.negative == before.negative + weight)
    && after.lastAt.Some? && after.lastAt.value >= at
    && (if before.lastAt.Some? && before.lastAt.value >= at then after.lastAt == before.lastAt
        else after.lastAt == Some(at))
  }

  lemma MovedMeans(before: Utility, after: Utility, kind: OutcomeKind, weight: real, at: Time)
    requires Moved(before, after, kind, weight, at) && weight > 0.0 && before.positive >= 0.0 && before.negative >= 0.0
    ensures if kind == Helpful || kind == Accepted then before.Mean() < after.Mean() else after.Mean() < before.Mean()
  {
    MeanMoves(before, after, weight);
  }

  /** One more entry of the outcome log moves the estimate computed from it in the same way, if it was recorded by then
      for that scope and revision in a recall under that context, and not otherwise. */
  lemma LogMoves(f: Feedback, r: Recalls, scope: Scope, revisionId: Id, context: Context, knownAt: Time, ids: seq<Id>,
                 id: Id)
    requires id in f.outcomes
    ensures var before, after, o :=
              UtilityOfLog(f, r, scope, revisionId, context, knownAt, ids),
              UtilityOfLog(f, r, scope, revisionId, context, knownAt, ids + [id]), f.outcomes[id];
            if o.scope == scope && o.revisionId == revisionId && o.recordedAt <= knownAt && o.traceId in r.traces
               && r.traces[o.traceId].scope == scope && r.traces[o.traceId].context == context then
              Moved(before, after, o.kind, o.weight, o.occurredAt)
            else after == before
  {
    assert (ids + [id])[..|ids|] == ids;
  }

  // ---------------------------------------------------------------- outcomes

  /** Why an outcome is refused before its key is looked at, if it is: no such trace or usage in the scope; a usage of
      another trace; a revision the usage, or the trace, does not list; a weight outside (0, 10]. */
  ghost function OutcomeRefusal(t: Tables, c: RecordOutcome): Option<Error> {
    if c.traceId !in t.recalls.traces || t.recalls.traces[c.traceId].scope != c.scope then Some(NotFoundError)
    else if c.usageId.Some?
            && (c.usageId.value !in t.deliveries.usages || t.deliveries.usages[c.usageId.value].scope != c.scope) then
      Some(NotFoundError)
    else if c.usageId.Some?
            && (t.deliveries.usages[c.usageId.value].traceId != c.traceId
                || forall i | 0 <= i < |t.deliveries.usages[c.usageId.value].revisionIds| ::
                     t.deliveries.usages[c.usageId.value].revisionIds[i] != c.revisionId) then
      Some(AttributionError)
    else if c.usageId.None?
            && (forall i | 0 <= i < |t.recalls.traces[c.traceId].items| ::
                  t.recalls.traces[c.traceId].items[i].revisionId != c.revisionId) then
      Some(AttributionError)
    else if c.weight <= 0.0 || c.weight > 10.0 then Some(DomainError)
    else None
  }

  lemma OutcomeIsAttributed(t: Tables, c: RecordOutcome)
    ensures match Attributable(t, c)
            case Err(e) => OutcomeRefusal(t, c) == Some(e)
            case Ok(trace) =>
              && c.traceId in t.recalls.traces && trace == t.recalls.traces[c.traceId]
              && OutcomeRefusal(t, c) == (if 0.0 < c.weight <= 10.0 then None else Some(DomainError))
  {
  }

  /** Recording an outcome under a new key stores exactly what the command says, moves the estimate of its scope,
      revision and recalled context, and leaves every other estimate and every other table alone. */
  lemma OutcomeMeans(t: Tables, c: RecordOutcome, n: Id, now: Time)
    requires (c.scope, c.idempotencyKey) !in t.feedback.outcomeKeys
    ensures match Outcome(t, c, n, now)
            case Err(e) => OutcomeRefusal(t, c) == Some(e)
            case Ok((next, r)) =>
              && OutcomeRefusal(t, c).None? && !r.replay
              && c.traceId in t.recalls.traces
              && r.outcome == OutcomeEvent(
                   id := n, scope := c.scope, traceId := c.traceId, revisionId := c.revisionId, kind := c.kind,
                   key := c.idempotencyKey, occurredAt := c.occurredAt, recordedAt := now, usageId := c.usageId,
                   weight := c.weight, note := c.note)
              && next == t.(feedback := next.feedback)
              && next.feedback.outcomes == t.feedback.outcomes[n := r.outcome]
              && next.feedback.outcomeKeys == t.feedback.outcomeKeys[(c.scope, c.idempotencyKey) := n]
              && var context := t.recalls.traces[c.traceId].context;
              && r.utility == UtilityFor(next.feedback, c.scope, c.revisionId, context)
              && Moved(UtilityFor(t.feedback, c.scope, c.revisionId, context), r.utility, c.kind, c.weight,
                       c.occurredAt)
              && forall scope, revisionId, other | (scope, revisionId, other) != (c.scope, c.revisionId, context) ::
                   UtilityFor(next.feedback, scope, revisionId, other)
                   == UtilityFor(t.feedback, scope, revisionId, other)
  {
    hide Attributable, OutcomeRefusal;
    OutcomeIsAttributed(t, c);
  }

  ghost predicate NonNegative(u: Utility) {
    u.positive >= 0.0 && u.negative >= 0.0
  }

  lemma {:induction false} LogIsNonNegative(f: Feedback, r: Recalls, scope: Scope, revisionId: Id, context: Context,
                                            knownAt: Time, ids: seq<Id>)
    requires forall id | id in f.outcomes :: f.outcomes[id].weight > 0.0
    ensures NonNegative(UtilityOfLog(f, r, scope, revisionId, context, knownAt, ids))
    decreases |ids|
  {
    hide UtilityOfLog;
    if ids == [] {
      LogOfNothing(f, r, scope, revisionId, context, knownAt);
    } else {
      var init, last := ids[..|ids| - 1], ids[|ids| - 1];
      assert ids == init + [last];
      LogIsNonNegative(f, r, scope, revisionId, context, knownAt, init);
      if last in f.outcomes {
        LogMoves(f, r, scope, revisionId, context, knownAt, init, last);
      } else {
        LogSkips(f, r, scope, revisionId, context, knownAt, init, last);
      }
    }
  }

  lemma LogOfNothing(f: Feedback, r: Recalls, scope: Scope, revisionId: Id, context: Context, knownAt: Time)
    ensures UtilityOfLog(f, r, scope, revisionId, context, knownAt, []) == NO_OUTCOMES
  {
  }

  lemma LogSkips(f: Feedback, r: Recalls, scope: Scope, revisionId: Id, context: Context, knownAt: Time, ids: seq<Id>,
                 id: Id)
    requires id !in f.outcomes
    ensures UtilityOfLog(f, r, scope, revisionId, context, knownAt, ids + [id])
            == UtilityOfLog(f, r, scope, revisionId, context, knownAt, ids)
  {
    assert (ids + [id])[..|ids|] == ids;
  }

  lemma EstimatesAreNonNegative(env: Env, app: App, scope: Scope, revisionId: Id, context: Context)
    requires Reachable(env, app)
    ensures NonNegative(UtilityFor(app.tables.feedback, scope, revisionId, context))
  {
    var f, r := app.tables.feedback, app.tables.recalls;
    ReachableIsOk(env, app);
    forall id | id in f.outcomes ensures f.outcomes[id].weight > 0.0 {
      assert OutcomeOk(f, r, app.next, app.clock, id, f.outcomes[id]);
    }
    LogIsNonNegative(f, r, scope, revisionId, context, app.clock, f.order);
    assert UtilityFor(f, scope, revisionId, context) == UtilityForAsOf(f, r, scope, revisionId, context, app.clock);
  }

  /** The sign of feedback, in every reachable state: helpful and accepted outcomes strictly raise the mean of the
      revision they are about; harmful, rejected and corrected ones strictly lower it. */
  lemma FeedbackHasItsSign(env: Env, app: App, c: RecordOutcome, n: Id, now: Time)
    requires Reachable(env, app) && (c.scope, c.idempotencyKey) !in app.tables.feedback.outcomeKeys
    requires Outcome(app.tables, c, n, now).Ok? && c.traceId in app.tables.recalls.traces
    ensures var t := app.tables;
            var context := t.recalls.traces[c.traceId].context;
            var before, after :=
              UtilityFor(t.feedback, c.scope, c.revisionId, context).Mean(),
              UtilityFor(Outcome(t, c, n, now).value.0.feedback, c.scope, c.revisionId, context).Mean();
            && (c.kind in {Helpful, Accepted} ==> before < after)
            && (c.kind in {Harmful, Rejected, Corrected} ==> after < before)
  {
    hide Outcome, UtilityFor, Utility.Mean, Reachable;
    var context := app.tables.recalls.traces[c.traceId].context;
    EstimatesAreNonNegative(env, app, c.scope, c.revisionId, context);
    OutcomeMeans(app.tables, c, n, now);
    assert OutcomeRefusal(app.tables, c).None? && c.weight > 0.0;
    MovedMeans(UtilityFor(app.tables.feedback, c.scope, c.revisionId, context),
               Outcome(app.tables, c, n, now).value.1.utility, c.kind, c.weight, c.occurredAt);
  }

  /** A used key answers the outcome it was used for, without effect, when trace, usage, revision, kind, weight and note
      are the same, and refuses any other. */
  lemma OutcomeKeyAnswers(t: Tables, c: RecordOutcome, n: Id, now: Time)
    requires (c.scope, c.idempotencyKey) in t.feedback.outcomeKeys
    requires t.feedback.outcomeKeys[(c.scope, c.idempotencyKey)] in t.feedback.outcomes
    ensures var o := t.feedback.outcomes[t.feedback.outcomeKeys[(c.scope, c.idempotencyKey)]];
            match OutcomeRefusal(t, c)
            case Some(e) => Outcome(t, c, n, now) == Err(e)
            case None =>
              if o.traceId == c.traceId && o.usageId == c.usageId && o.revisionId == c.revisionId && o.kind == c.kind
                 && o.weight == c.weight && o.note == c.note then
                && c.traceId in t.recalls.traces
                && Outcome(t, c, n, now) == Ok((t, OutcomeResult(
                     o, UtilityFor(t.feedback, c.scope, c.revisionId, t.recalls.traces[c.traceId].context), true)))
              else Outcome(t, c, n, now) == Err(ConflictError)
  {
    hide Attributable, OutcomeRefusal, UtilityFor;
    OutcomeIsAttributed(t, c);
  }

  // ---------------------------------------------------------------- usages

  /** Why a usage is refused before its key is looked at, if it is: no such trace in the scope; a projection that cannot
      be made or has another digest; no revision cited, or one the projection does not have; a future time or a revision
      cited twice. */
  ghost function UsageRefusal(t: Tables, c: RecordMemoryUsage, now: Time): Option<Error> {
    if c.traceId !in t.recalls.traces || t.recalls.traces[c.traceId].scope != c.scope then Some(NotFoundError)
    else
      match P.Project(t.recalls.traces[c.traceId], c.algorithm, c.budget)
      case Err(e) => Some(e)
      case Ok(projection) =>
        if c.source != projection.digest || c.revisionIds == []
           || CitesOutside(c.revisionIds, projection.SourceRevisionIds()) then
          Some(AttributionError)
        else if c.occurredAt > now || CitesTwice(c.revisionIds) then Some(DomainError)
        else None
  }

  ghost predicate CitesOutside(ids: seq<Id>, projected: set<Id>) {
    exists i :: 0 <= i < |ids| && ids[i] !in projected
  }

  ghost predicate CitesTwice(ids: seq<Id>) {
    exists i, j :: 0 <= i < j < |ids| && ids[i] == ids[j]
  }

  lemma UsageIsCitable(t: Tables, c: RecordMemoryUsage, now: Time)
    ensures match Citable(t, c)
            case Err(e) => UsageRefusal(t, c, now) == Some(e)
            case Ok(_) =>
              UsageRefusal(t, c, now)
              == (if c.occurredAt <= now && DistinctIds(c.revisionIds) then None else Some(DomainError))
  {
    hide P.Project, P.Projection.SourceRevisionIds, DistinctIds, CitesTwice, CitesOutside;
    TwiceIsNotDistinct(c.revisionIds);
    if TraceOf(t.recalls, c.scope, c.traceId).Some? {
      var projected := P.Project(t.recalls.traces[c.traceId], c.algorithm, c.budget);
      if projected.Ok? {
        OutsideIsNotInside(c.revisionIds, projected.value.SourceRevisionIds());
      }
    }
  }

  lemma TwiceIsNotDistinct(ids: seq<Id>)
    ensures CitesTwice(ids) <==> !DistinctIds(ids)
  {
  }

  lemma OutsideIsNotInside(ids: seq<Id>, inside: set<Id>)
    ensures CitesOutside(ids, inside) <==> !(forall id | id in ids :: id in inside)
  {
    if CitesOutside(ids, inside) {
      var i :| 0 <= i < |ids| && ids[i] !in inside;
      var id := ids[i];
      assert id in ids && id !in inside;
    } else {
      forall id | id in ids ensures id in inside {
        var i :| 0 <= i < |ids| && ids[i] == id;
      }
    }
  }

  /** Recording a usage under a new key stores exactly what the command says and nothing else; under a used key it
      answers the usage it was used for when trace, projection, delivered text and revisions are the same, and refuses
      any other. */
  lemma UsageMeans(t: Tables, c: RecordMemoryUsage, n: Id, now: Time)
    requires (c.scope, c.idempotencyKey) in t.deliveries.usageKeys ==>
               t.deliveries.usageKeys[(c.scope, c.idempotencyKey)] in t.deliveries.usages
    ensures var r, d, key := RecordUsage(t, c, n, now), t.deliveries, (c.scope, c.idempotencyKey);
            match UsageRefusal(t, c, now)
            case Some(e) => r == Err(e)
            case None =>
              if key !in d.usageKeys then
                var u := Usage(
                  id := n, scope := c.scope, traceId := c.traceId, algorithm := c.algorithm, budget := c.budget,
                  source := c.source, delivered := c.delivered, revisionIds := c.revisionIds, key := c.idempotencyKey,
                  occurredAt := c.occurredAt, recordedAt := now);
                r == Ok((t.(deliveries := Deliveries(d.usages[n := u], d.usageKeys[key := n])), UsageResult(u, false)))
              else
                var u := d.usages[d.usageKeys[key]];
                if u.traceId == c.traceId && u.algorithm == c.algorithm && u.budget == c.budget && u.source == c.source
                   && u.delivered == c.delivered && u.revisionIds == c.revisionIds then
                  r == Ok((t, UsageResult(u, true)))
                else r == Err(ConflictError)
  {
    hide Citable, UsageRefusal;
    UsageIsCitable(t, c, now);
  }
}
