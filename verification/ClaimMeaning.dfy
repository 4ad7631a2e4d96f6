/** What the statements of the job queue mean for a row, told by its columns and by which later claim takes it. */
module ClaimMeaning {
  import opened Common
  import opened Queue
  import Projector
  import Sorting

  /** The row is due: pending or failed and available, or leased until a time that has come. */
  ghost predicate Due(j: Job, now: Time) {
    match j.status
    case Pending => j.availableAt <= now
    case Failed => j.availableAt <= now
    case Processing => j.leaseUntil.Some? && j.leaseUntil.value <= now
    case Succeeded => false
    case DeadLetter => false
  }

  /** The event happened before the other one, or at the same time with a smaller identifier. */
  ghost predicate Older(a: Event, b: Event) {
    if a.occurredAt != b.occurredAt then a.occurredAt < b.occurredAt else a.id < b.id
  }

  /** A claim takes due rows nobody has locked, oldest first and each once; a due row is left only by a claim that is
      full of older ones. */
  lemma ClaimsOldestDue(q: JobTable, outbox: map<Id, Event>, now: Time, locked: set<Id>, limit: nat)
    requires Keyed(outbox)
    ensures var taken := Claimed(q, outbox, now, locked, limit);
            && |taken| <= limit
            && (forall i | 0 <= i < |taken| ::
                 var id := taken[i].id;
                 id in q.jobs && id in outbox && outbox[id] == taken[i] && id !in locked && Due(q.jobs[id], now))
            && (forall i, j | 0 <= i < j < |taken| :: Older(taken[i], taken[j]))
            && (forall id | id in q.jobs && id in outbox && id !in locked && Due(q.jobs[id], now) ::
                 outbox[id] in taken || (|taken| == limit && forall i | 0 <= i < limit :: Older(taken[i], outbox[id])))
  {
    hide Due, Older, Claimable;
    ClaimSetIsTotal(q, outbox, now, locked);
    var eligible := ClaimSet(q, outbox, now, locked);
    var all := Sorting.Sort(eligible, EventLe);
    var taken := Claimed(q, outbox, now, locked, limit);
    forall i | 0 <= i < |taken|
      ensures var id := taken[i].id;
              id in q.jobs && id in outbox && outbox[id] == taken[i] && id !in locked && Due(q.jobs[id], now)
    {
      assert taken[i] == all[i] && all[i] in eligible;
      DueIsClaimable(q.jobs[taken[i].id], now);
    }
    forall i, j | 0 <= i < j < |all| ensures Older(all[i], all[j]) {
      assert all[i] in eligible && all[j] in eligible;
      OrderedIsOlder(outbox, all[i], all[j]);
    }
    forall id | id in q.jobs && id in outbox && id !in locked && Due(q.jobs[id], now) && outbox[id] !in taken
      ensures |taken| == limit && forall i | 0 <= i < limit :: Older(taken[i], outbox[id])
    {
      DueIsClaimable(q.jobs[id], now);
      assert outbox[id] in eligible && outbox[id] in all;
      var k :| 0 <= k < |all| && all[k] == outbox[id];
      assert forall m | 0 <= m < |taken| :: all[m] == taken[m] && taken[m] in taken;
    }
  }

  lemma DueIsClaimable(j: Job, now: Time)
    ensures Due(j, now) <==> Claimable(j, now)
  {
  }

  /** Different events in claim order. */
  lemma OrderedIsOlder(outbox: map<Id, Event>, a: Event, b: Event)
    requires Keyed(outbox) && a.id in outbox && outbox[a.id] == a && b.id in outbox && outbox[b.id] == b
    requires EventLe(a, b) && a != b
    ensures Older(a, b)
  {
  }

  lemma {:induction false} ImageIsNoLarger(ids: set<Id>, outbox: map<Id, Event>)
    requires ids <= outbox.Keys
    ensures |set id | id in ids :: outbox[id]| <= |ids|
    decreases |ids|
  {
    if ids != {} {
      var x := Sorting.Pick(ids);
      ImageIsNoLarger(ids - {x}, outbox);
      assert (set id | id in ids :: outbox[id]) == (set id | id in ids - {x} :: outbox[id]) + {outbox[x]};
    }
  }

  /** With room for every row, a claim takes exactly the due rows that nobody has locked. */
  lemma RoomyClaimTakesDue(q: JobTable, outbox: map<Id, Event>, now: Time, locked: set<Id>, limit: nat, id: Id)
    requires Keyed(outbox) && |q.jobs| <= limit && id in q.jobs && id in outbox && id !in locked
    ensures outbox[id] in Claimed(q, outbox, now, locked, limit) <==> Due(q.jobs[id], now)
  {
    var eligible := ClaimSet(q, outbox, now, locked);
    var ids := set x | x in q.jobs && x in outbox && x !in locked && Claimable(q.jobs[x], now);
    ClaimsOldestDue(q, outbox, now, locked, limit);
    ClaimSetIsTotal(q, outbox, now, locked);
    assert eligible == set x | x in ids :: outbox[x];
    ImageIsNoLarger(ids, outbox);
    SubsetIsNoLarger(ids, q.jobs.Keys);
    assert Claimed(q, outbox, now, locked, limit) == Sorting.Sort(eligible, EventLe);
    assert Due(q.jobs[id], now) <==> outbox[id] in eligible;
  }

  lemma SubsetIsNoLarger(a: set<Id>, b: set<Id>)
    requires a <= b
    ensures |a| <= |b|
  {
    assert b == a + (b - a);
  }

  /** No row but the one is touched. */
  ghost predicate OthersStay(before: map<Id, Job>, after: map<Id, Job>, id: Id) {
    after.Keys == before.Keys && forall other | other in before && other != id :: after[other] == before[other]
  }

  /** A job that failed for now is due again exactly from its retry time on, with the attempts it had; only its owner
      can fail it, and one given up for good is never due. */
  lemma FailedIsRetried(q: JobTable, outbox: map<Id, Event>, e: Event, worker: Id, retryAt: Time, dead: bool, now: Time,
                        locked: set<Id>, limit: nat)
    requires Keyed(outbox) && e.id in outbox && e.id !in locked && |q.jobs| <= limit
    ensures var r := Fail(q, e, worker, retryAt, dead);
            && (if e.id in q.jobs && q.jobs[e.id].status == Processing && q.jobs[e.id].owner == Some(worker) then r.Ok?
                else r == Err(LeaseLost))
            && (r.Ok? ==>
                 && OthersStay(q.jobs, r.value.jobs, e.id) && r.value.cursor == q.cursor
                 && r.value.jobs[e.id].attempts == q.jobs[e.id].attempts && r.value.jobs[e.id].processedAt.None?
                 && (outbox[e.id] in Claimed(r.value, outbox, now, locked, limit) <==> !dead && retryAt <= now))
  {
    if Fail(q, e, worker, retryAt, dead).Ok? {
      var next := Fail(q, e, worker, retryAt, dead).value;
      assert next.jobs.Keys == q.jobs.Keys;
      assert |next.jobs| == |next.jobs.Keys| && |q.jobs| == |q.jobs.Keys|;
      RoomyClaimTakesDue(next, outbox, now, locked, limit, e.id);
    }
  }

  /** A completed job is never claimed again; only its owner can complete it. The cursor moves to the event unless it is
      already at a later time. */
  lemma CompletedIsDone(q: JobTable, outbox: map<Id, Event>, e: Event, worker: Id, at: Time, now: Time, locked: set<Id>,
                        limit: nat)
    requires Keyed(outbox) && e.id in outbox && e.id !in locked && |q.jobs| <= limit
    ensures var r := Complete(q, e, worker, at);
            && (if e.id in q.jobs && q.jobs[e.id].status == Processing && q.jobs[e.id].owner == Some(worker) then r.Ok?
                else r == Err(LeaseLost))
            && (r.Ok? ==>
                 && OthersStay(q.jobs, r.value.jobs, e.id)
                 && r.value.jobs[e.id].status == Succeeded && r.value.jobs[e.id].processedAt == Some(at)
                 && r.value.jobs[e.id].attempts == q.jobs[e.id].attempts
                 && outbox[e.id] !in Claimed(r.value, outbox, now, locked, limit)
                 && (if q.cursor.Some? && q.cursor.value.occurredAt > e.occurredAt then r.value.cursor == q.cursor
                     else r.value.cursor == Some(Cursor(Some(e.id), e.occurredAt))))
  {
    if Complete(q, e, worker, at).Ok? {
      var next := Complete(q, e, worker, at).value;
      assert next.jobs.Keys == q.jobs.Keys;
      assert |next.jobs| == |next.jobs.Keys| && |q.jobs| == |q.jobs.Keys|;
      RoomyClaimTakesDue(next, outbox, now, locked, limit, e.id);
    }
  }

  /** A leased job has one more attempt and is due again exactly when the lease has run out; other rows are as they
      were. */
  lemma LeasedIsHidden(q: JobTable, outbox: map<Id, Event>, es: seq<Event>, worker: Id, until: Time, i: int, now: Time,
                       locked: set<Id>, limit: nat)
    requires Keyed(outbox) && 0 <= i < |es| && es[i].id in q.jobs && es[i].id in outbox && es[i].id !in locked
    requires |q.jobs| <= limit
    ensures var next, id := Lease(q, es, worker, until), es[i].id;
            && next.jobs.Keys == q.jobs.Keys && next.cursor == q.cursor
            && next.jobs[id].status == Processing && next.jobs[id].owner == Some(worker)
            && next.jobs[id].attempts == q.jobs[id].attempts + 1
            && (outbox[id] in Claimed(next, outbox, now, locked, limit) <==> until <= now)
            && (forall other | other in q.jobs && (forall k | 0 <= k < |es| :: es[k].id != other) ::
                 next.jobs[other] == q.jobs[other])
  {
    var next := Lease(q, es, worker, until);
    assert es[i].id in EventIds(es);
    assert next.jobs.Keys == q.jobs.Keys;
    assert |next.jobs| == |next.jobs.Keys| && |q.jobs| == |q.jobs.Keys|;
    RoomyClaimTakesDue(next, outbox, now, locked, limit, es[i].id);
  }

  /** A discovered job is due from its event's time on, without attempts; rows that were there stay. */
  lemma DiscoveredIsDue(q: JobTable, outbox: map<Id, Event>, id: Id, now: Time, locked: set<Id>, limit: nat)
    requires Keyed(outbox) && id in outbox && id !in locked && |Discover(q, outbox).jobs| <= limit
    ensures var next := Discover(q, outbox);
            && next.jobs.Keys == q.jobs.Keys + outbox.Keys && next.cursor == q.cursor
            && (forall other | other in q.jobs :: next.jobs[other] == q.jobs[other])
            && (id !in q.jobs ==>
                 && next.jobs[id].attempts == 0 && next.jobs[id].owner.None? && next.jobs[id].processedAt.None?
                 && (outbox[id] in Claimed(next, outbox, now, locked, limit) <==> outbox[id].occurredAt <= now))
  {
    RoomyClaimTakesDue(Discover(q, outbox), outbox, now, locked, limit, id);
  }

  /** A requeued job is due from the given time on, without attempts, whatever had become of it. */
  lemma RequeuedIsDue(q: JobTable, outbox: map<Id, Event>, at: Time, id: Id, now: Time, locked: set<Id>, limit: nat)
    requires Keyed(outbox) && id in q.jobs && id in outbox && id !in locked && |q.jobs| <= limit
    ensures var next := Requeue(q, at);
            && next.jobs.Keys == q.jobs.Keys && next.cursor.None?
            && next.jobs[id].attempts == 0 && next.jobs[id].owner.None? && next.jobs[id].processedAt.None?
            && (outbox[id] in Claimed(next, outbox, now, locked, limit) <==> at <= now)
  {
    var next := Requeue(q, at);
    assert next.jobs.Keys == q.jobs.Keys;
    assert |next.jobs| == |next.jobs.Keys| && |q.jobs| == |q.jobs.Keys|;
    RoomyClaimTakesDue(next, outbox, now, locked, limit, id);
  }

  /** Jobs whose events are gone go with them; the cursor keeps its time and forgets an event that is gone. */
  lemma CascadeFollowsOutbox(q: JobTable, outbox: map<Id, Event>)
    ensures var next := Cascade(q, outbox);
            && (forall id :: id in next.jobs <==> id in q.jobs && id in outbox)
            && (forall id | id in next.jobs :: next.jobs[id] == q.jobs[id])
            && (q.cursor.None? <==> next.cursor.None?)
            && (q.cursor.Some? ==>
                 && next.cursor.value.occurredAt == q.cursor.value.occurredAt
                 && (forall id :: next.cursor.value.eventId == Some(id) <==>
                                    q.cursor.value.eventId == Some(id) && id in outbox))
  {
  }

  /** The delay starts at the base, doubles with every attempt, and stops at the cap. */
  lemma BackoffDoubles(base: nat, cap: nat, attempts: int)
    ensures attempts <= 1 ==> Backoff(base, cap, attempts) == if base <= cap then base else cap
    ensures attempts >= 1 ==>
              var delay := Backoff(base, cap, attempts);
              Backoff(base, cap, attempts + 1) == if 2 * delay <= cap then 2 * delay else cap
  {
    if attempts >= 1 {
      DoubledGrows(base, attempts - 1);
    }
  }

  /** One item of a run: it succeeds exactly when its revision is readable in the event's scope and record, the scope is
      not fenced, and neither the write nor the completion raises; otherwise it waits for its delay, or is given up once
      it has used the attempts allowed. */
  lemma ItemSettles(run: Projector.Run, e: Event, leased: Job, at: Time)
    ensures var job, f := run.SettledJob(e, leased, at), run.faults;
            var readable := f.load(e.id) && e.revisionId in run.rows && run.rows[e.revisionId].event.scope == e.scope
                            && run.rows[e.revisionId].event.recordId == e.recordId;
            var written := readable && e.scope !in run.fences && f.upsert(e.id);
            && (run.Writes(e) <==> written)
            && (readable ==> Projector.Loadable(run.rows, e) == Ok(run.rows[e.revisionId].(event := e)))
            && job.owner.None? && job.leaseUntil.None? && job.attempts == leased.attempts
            && (job.status == Succeeded <==> written && f.complete(e.id))
            && (job.status == DeadLetter <==>
                  !(written && f.complete(e.id)) && leased.attempts >= run.settings.maxAttempts)
            && (job.status == Failed <==>
                  !(written && f.complete(e.id)) && leased.attempts < run.settings.maxAttempts)
            && (if job.status == Succeeded then job.processedAt == Some(at)
                else
                  job.processedAt.None? && job.availableAt
                  == at + Backoff(run.settings.retryBase, run.settings.retryMax, leased.attempts))
  {
  }
}
