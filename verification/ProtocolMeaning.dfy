/** What the steps of the protocol do when nothing stands in their way, written out: who is let in, what a write leaves,
    what a worker is handed and what becomes of each item, what a rebuild and an erasure leave, and who waits for whom.
    */
module ProtocolMeaning {
  import opened Common
  import opened Protocol
  import ClaimMeaning
  import G = Governance
  import Q = Queue

  // ---------------------------------------------------------------- writers

  /** The grant lets a purpose of a scope in at a time. */
  ghost predicate Live(grant: G.Grant, scope: Scope, purpose: string, at: Time) {
    && grant.scope == scope && purpose in grant.purposes
    && grant.revokedAt.None?
    && at >= grant.validFrom && (grant.validUntil.Some? ==> grant.validUntil.value > at)
  }

  /** A writer that takes the lock and asks is let in exactly if its scope is not fenced and a live grant covers its
      purpose; one that is refused lets go of the lock. */
  lemma WriterIsLetIn(cfg: Config, s: Sys, a: Id, scope: Scope, purpose: string, at: Time)
    requires WriterOf(s, a) == WriterIdle
    ensures var locked := Next(cfg, s, ByWriter(a, WriterAcquire(scope)));
            var t := Next(cfg, locked, ByWriter(a, WriterCheck(purpose, at)));
            && WriterOf(locked, a) == WriterLocked(scope)
            && WriterOf(t, a) == (if scope !in s.gov.fences && exists id | id in s.gov.grants ::
                                       Live(s.gov.grants[id], scope, purpose, at) then WriterEntered(scope)
                                  else WriterIdle)
            && t.store == s.store && t.gov == s.gov && t.queue == s.queue && t.projection == s.projection
  {
  }

  /** A writer inside a scope stores a fresh revision of it with its event, and other entities of it, and nothing else;
      a writer that is not inside stores nothing. */
  lemma WriterStores(cfg: Config, s: Sys, a: Id, d: Document, id: Id)
    ensures var t := Next(cfg, s, ByWriter(a, WriterCommit(d)));
            && t.gov == s.gov && t.queue == s.queue && t.projection == s.projection
            && t.store ==
               (if WriterOf(s, a) == WriterEntered(d.event.scope) && d.event.id !in s.history.log
                   && (forall e | e in s.history.log :: s.history.log[e].event.revisionId != d.event.revisionId) then
                  s.store.(rows := s.store.rows[d.event.revisionId := d],
                           outbox := s.store.outbox[d.event.id := d.event])
                else s.store)
    ensures var t := Next(cfg, s, ByWriter(a, WriterRecord(id)));
            && t.gov == s.gov && t.queue == s.queue && t.projection == s.projection
            && t.store ==
               (if WriterOf(s, a).WriterEntered? && id !in s.store.entities then
                  s.store.(entities := s.store.entities[id := WriterOf(s, a).scope])
                else s.store)
  {
  }

  // ---------------------------------------------------------------- workers

  /** What an idle worker's claim hands it: due jobs that were not skipped, leased to it with one more attempt, as many
      as fit its batch; one that is left out is in nobody's way only if the batch is full of older ones. */
  lemma ClaimHandsOut(cfg: Config, s: Sys, w: Id, skipped: set<Id>, order: seq<Q.Event>)
    requires WorkerOf(s, w).items == [] && Q.Keyed(s.store.outbox)
    ensures var t := Next(cfg, s, ByWorker(w, WorkerClaim(skipped, order)));
            var worker, jobs := WorkerOf(t, w), s.queue.jobs;
            && worker.head == Fresh && worker.claimed == |worker.items| <= cfg.batch
            && worker.succeeded == worker.failed == 0
            && t.store == s.store && t.projection == s.projection && t.queue.jobs.Keys == jobs.Keys
            && (forall i | 0 <= i < |worker.items| ::
                 var e := worker.items[i].item.event;
                 && e.id in jobs && e.id in s.store.outbox && e == s.store.outbox[e.id] && e.id !in skipped
                 && ClaimMeaning.Due(jobs[e.id], s.now)
                 && worker.items[i].item.attempts == jobs[e.id].attempts + 1
                 && t.queue.jobs[e.id] == Q.Job(
                      status := Q.Processing, attempts := jobs[e.id].attempts + 1,
                      availableAt := jobs[e.id].availableAt, owner := Some(w),
                      leaseUntil := Some(s.now + cfg.lease), processedAt := None))
            && (forall id | id in jobs && (forall i | 0 <= i < |worker.items| :: worker.items[i].item.event.id != id) ::
                 && t.queue.jobs[id] == jobs[id]
                 && (id in s.store.outbox && id !in skipped && ClaimMeaning.Due(jobs[id], s.now) ==>
                      |worker.items| == cfg.batch
                      && forall i | 0 <= i < cfg.batch ::
                           ClaimMeaning.Older(worker.items[i].item.event, s.store.outbox[id])))
  {
    hide ClaimMeaning.Due, ClaimMeaning.Older, Q.Claimed, Q.Returned;
    var taken := Q.Claimed(s.queue, s.store.outbox, s.now, skipped, cfg.batch);
    var returned := Q.Returned(taken, order);
    ClaimMeaning.ClaimsOldestDue(s.queue, s.store.outbox, s.now, skipped, cfg.batch);
    Q.ReturnedAreTaken(taken, order);
    ReturnedIsAll(taken, order);
    ClaimingLeases(cfg, s, w, skipped, order);
    var t := Next(cfg, s, ByWorker(w, WorkerClaim(skipped, order)));
    var worker := WorkerOf(t, w);
    forall i | 0 <= i < |worker.items|
      ensures worker.items[i].item.event == returned[i] && returned[i] in taken
      ensures returned[i].id in Q.EventIds(returned)
    {
    }
    forall id | id in s.queue.jobs && (forall i | 0 <= i < |worker.items| :: worker.items[i].item.event.id != id)
      ensures t.queue.jobs[id] == s.queue.jobs[id]
      ensures id in s.store.outbox && id !in skipped && ClaimMeaning.Due(s.queue.jobs[id], s.now) ==>
                |worker.items| == cfg.batch
                && forall i | 0 <= i < cfg.batch ::
                     ClaimMeaning.Older(worker.items[i].item.event, s.store.outbox[id])
    {
      forall i | 0 <= i < |returned| ensures returned[i].id != id {
        assert worker.items[i].item.event == returned[i];
      }
      assert id in s.store.outbox ==> s.store.outbox[id] !in returned;
    }
  }

  lemma ClaimingLeases(cfg: Config, s: Sys, w: Id, skipped: set<Id>, order: seq<Q.Event>)
    requires WorkerOf(s, w).items == [] && Q.Keyed(s.store.outbox)
    ensures var t := Next(cfg, s, ByWorker(w, WorkerClaim(skipped, order)));
            var returned := Q.Returned(Q.Claimed(s.queue, s.store.outbox, s.now, skipped, cfg.batch), order);
            && t.queue == Q.Lease(s.queue, returned, w, s.now + cfg.lease)
            && WorkerOf(t, w) == Worker(Leases(s, returned), Fresh, |returned|, 0, 0)
            && t.store == s.store && t.projection == s.projection
  {
    hide Q.Claimed, Q.Returned, Q.Lease, Q.Keyed;
  }

  lemma ReturnedIsAll(taken: seq<Q.Event>, order: seq<Q.Event>)
    ensures forall e | e in taken :: e in Q.Returned(taken, order)
  {
    forall e | e in taken ensures e in Q.Returned(taken, order) {
      assert e in multiset(taken) && e in multiset(Q.Returned(taken, order));
    }
  }

  /** The worker is at a fresh item whose job it holds. */
  ghost predicate AtItem(s: Sys, w: Id, e: Q.Event) {
    && AtHead(s, w) && HeadEvent(s, w) == e && e.id in s.queue.jobs
    && s.queue.jobs[e.id].status == Q.Processing && s.queue.jobs[e.id].owner == Some(w)
  }

  /** The event's revision is stored, in the event's scope and record. */
  ghost predicate Readable(s: Sys, e: Q.Event) {
    && e.revisionId in s.store.rows && s.store.rows[e.revisionId].event.scope == e.scope
    && s.store.rows[e.revisionId].event.recordId == e.recordId
  }

  /** The worker is done with its first item and goes on with the rest. */
  ghost predicate WentOn(before: Worker, after: Worker, succeeded: bool)
    requires before.items != []
  {
    && after.items == before.items[1..] && after.head == Fresh && after.claimed == before.claimed
    && after.succeeded == (if succeeded then before.succeeded + 1 else before.succeeded)
    && after.failed == (if succeeded then before.failed else before.failed + 1)
  }

  /** An item the worker holds, whose revision is readable and whose scope is not fenced, ends in the projection and as
      a succeeded job when nothing raises; on the way the worker takes the lock and asks for the fence. */
  lemma ItemSucceeds(cfg: Config, s: Sys, w: Id, e: Q.Event)
    requires AtItem(s, w, e) && WorkerOf(s, w).head == Fresh && Readable(s, e) && e.scope !in s.gov.fences
    ensures var d := s.store.rows[e.revisionId].(event := e);
            var loaded := Next(cfg, s, ByWorker(w, WorkerLoad(true)));
            var locked := Next(cfg, loaded, ByWorker(w, WorkerAcquire));
            var entered := Next(cfg, locked, ByWorker(w, WorkerCheck));
            var upserted := Next(cfg, entered, ByWorker(w, WorkerUpsert(true, true)));
            var t := Next(cfg, upserted, ByWorker(w, WorkerComplete(true)));
            && WorkerOf(loaded, w).head == Loaded(d) && WorkerOf(locked, w).head == Locked(d)
            && WorkerOf(entered, w).head == Entered(d) && entered.projection == s.projection
            && t.projection.documents == s.projection.documents[e.revisionId := d]
            && t.queue.jobs == s.queue.jobs[e.id := t.queue.jobs[e.id]]
            && t.queue.jobs[e.id].status == Q.Succeeded && t.queue.jobs[e.id].processedAt == Some(s.now)
            && t.queue.jobs[e.id].attempts == s.queue.jobs[e.id].attempts && t.queue.jobs[e.id].owner.None?
            && WentOn(WorkerOf(s, w), WorkerOf(t, w), true)
            && t.store == s.store && t.gov == s.gov
  {
    hide Q.Complete, Q.Backoff;
    var d := s.store.rows[e.revisionId].(event := e);
    ItemIsUpserted(cfg, s, w, e);
    var loaded := Next(cfg, s, ByWorker(w, WorkerLoad(true)));
    var locked := Next(cfg, loaded, ByWorker(w, WorkerAcquire));
    var entered := Next(cfg, locked, ByWorker(w, WorkerCheck));
    UpsertedIsCompleted(cfg, Next(cfg, entered, ByWorker(w, WorkerUpsert(true, true))), w, e);
  }

  lemma ItemIsUpserted(cfg: Config, s: Sys, w: Id, e: Q.Event)
    requires AtItem(s, w, e) && WorkerOf(s, w).head == Fresh && Readable(s, e) && e.scope !in s.gov.fences
    ensures var d := s.store.rows[e.revisionId].(event := e);
            var loaded := Next(cfg, s, ByWorker(w, WorkerLoad(true)));
            var locked := Next(cfg, loaded, ByWorker(w, WorkerAcquire));
            var entered := Next(cfg, locked, ByWorker(w, WorkerCheck));
            var t := Next(cfg, entered, ByWorker(w, WorkerUpsert(true, true)));
            && WorkerOf(loaded, w).head == Loaded(d) && WorkerOf(locked, w).head == Locked(d)
            && WorkerOf(entered, w).head == Entered(d) && entered.projection == s.projection
            && t.projection.documents == s.projection.documents[e.revisionId := d]
            && t.queue == s.queue && t.store == s.store && t.gov == s.gov && t.now == s.now
            && WorkerOf(t, w).head.Upserted? && WorkerOf(t, w) == WorkerOf(s, w).(head := WorkerOf(t, w).head)
  {
    hide Q.Complete, Q.Backoff;
  }

  lemma UpsertedIsCompleted(cfg: Config, s: Sys, w: Id, e: Q.Event)
    requires AtItem(s, w, e) && WorkerOf(s, w).head.Upserted?
    ensures var t := Next(cfg, s, ByWorker(w, WorkerComplete(true)));
            && t.queue.jobs == s.queue.jobs[e.id := t.queue.jobs[e.id]]
            && t.queue.jobs[e.id].status == Q.Succeeded && t.queue.jobs[e.id].processedAt == Some(s.now)
            && t.queue.jobs[e.id].attempts == s.queue.jobs[e.id].attempts && t.queue.jobs[e.id].owner.None?
            && WentOn(WorkerOf(s, w), WorkerOf(t, w), true)
            && t.projection == s.projection && t.store == s.store && t.gov == s.gov
  {
  }

  /** How an item comes to be raised: its revision is not readable or reading raises; its scope is fenced; the upsert
      raises, having written or not; completing it raises or the lease is lost. */
  lemma ItemRaises(cfg: Config, s: Sys, w: Id, ok: bool, written: bool)
    requires AtHead(s, w)
    ensures WorkerOf(s, w).head == Fresh ==>
              (WorkerOf(Next(cfg, s, ByWorker(w, WorkerLoad(ok))), w).head == Raised
               <==> !ok || !Readable(s, HeadEvent(s, w)))
    ensures WorkerOf(s, w).head.Locked? ==>
              (WorkerOf(Next(cfg, s, ByWorker(w, WorkerCheck)), w).head == Raised
               <==> WorkerOf(s, w).head.document.event.scope in s.gov.fences)
    ensures WorkerOf(s, w).head.Entered? ==>
              var d, t := WorkerOf(s, w).head.document, Next(cfg, s, ByWorker(w, WorkerUpsert(written, ok)));
              && (WorkerOf(t, w).head == Raised <==> !ok)
              && t.projection.documents == (if ok || written then s.projection.documents[d.event.revisionId := d]
                                            else s.projection.documents)
    ensures WorkerOf(s, w).head.Upserted? ==>
              (WorkerOf(Next(cfg, s, ByWorker(w, WorkerComplete(ok))), w).head == Raised
               <==> !ok || !AtItem(s, w, HeadEvent(s, w)))
  {
    hide Q.Backoff;
    if WorkerOf(s, w).head.Upserted? {
      var t := Next(cfg, s, ByWorker(w, WorkerComplete(ok)));
      assert !ok || !AtItem(s, w, HeadEvent(s, w)) ==> t.queue == s.queue;
    }
  }

  /** A raised item the worker still holds waits for its delay, or is given up once it has used the attempts allowed; if
      the lease is lost, the worker drops the rest of its batch and the queue is as it was. */
  lemma RaisedIsFailed(cfg: Config, s: Sys, w: Id)
    requires AtHead(s, w) && WorkerOf(s, w).head == Raised
    ensures var item := WorkerOf(s, w).items[0].item;
            var t, e := Next(cfg, s, ByWorker(w, WorkerFail)), item.event;
            && t.projection == s.projection && t.store == s.store && t.gov == s.gov
            && if !AtItem(s, w, e) then t.queue == s.queue && WorkerOf(t, w) == Worker([], Fresh, 0, 0, 0)
            else
              && WentOn(WorkerOf(s, w), WorkerOf(t, w), false)
              && t.queue.jobs == s.queue.jobs[e.id := t.queue.jobs[e.id]]
              && t.queue.jobs[e.id].status == (if item.attempts < cfg.maxAttempts then Q.Failed else Q.DeadLetter)
              && t.queue.jobs[e.id].attempts == s.queue.jobs[e.id].attempts && t.queue.jobs[e.id].owner.None?
              && t.queue.jobs[e.id].availableAt
                 == s.now + Q.Backoff(cfg.backoffBase, cfg.backoffCap, item.attempts)
  {
    hide Q.Backoff;
  }

  // ---------------------------------------------------------------- rebuilds

  /** A rebuild empties the projection, sees to it that every event has a job, and makes every job pending from the
      given time on, without attempts or owner; it touches nothing else. */
  lemma RebuildRuns(cfg: Config, s: Sys, r: Id, at: Time)
    requires RebuildOf(s, r) == RebuildIdle
    ensures var reset := Next(cfg, s, ByRebuild(r, RebuildReset));
            var discovered := Next(cfg, reset, ByRebuild(r, RebuildDiscover));
            var t := Next(cfg, discovered, ByRebuild(r, RebuildRequeue(at)));
            && reset.projection.documents == map[] && reset.queue == s.queue
            && t.projection.documents == map[]
            && t.queue.jobs.Keys == s.queue.jobs.Keys + s.store.outbox.Keys && t.queue.cursor.None?
            && (forall id | id in t.queue.jobs :: t.queue.jobs[id] == Q.Job(
                  status := Q.Pending, attempts := 0, availableAt := at, owner := None, leaseUntil := None,
                  processedAt := None))
            && RebuildOf(t, r) == RebuildIdle && t.store == s.store && t.gov == s.gov
  {
  }

  // ---------------------------------------------------------------- erasing callers

  /** Somebody else holds the scope's lock in shared mode: a writer between taking and releasing it, or a worker between
      taking it and its upsert. Scopes may share a lock. */
  ghost predicate Held(cfg: Config, s: Sys, scope: Scope) {
    || (exists a :: a in s.callers.writers && !s.callers.writers[a].WriterIdle?
                    && cfg.lockOf(s.callers.writers[a].scope) == cfg.lockOf(scope))
    || (exists w :: w in s.projectors.workers
                    && (s.projectors.workers[w].head.Locked? || s.projectors.workers[w].head.Entered?)
                    && cfg.lockOf(s.projectors.workers[w].head.document.event.scope) == cfg.lockOf(scope))
  }

  /** Beginning an erasure, and suppressing a scope, wait for everyone who holds the lock; then the scope is fenced, a
      new request is recorded as pending, and a fence that stood before stays. */
  lemma FencingWaits(cfg: Config, s: Sys, a: Id, requestId: Id, fenceId: Id, scope: Scope, reason: string,
                     policy: string, requester: string, key: string, fence: G.Fence)
    requires EraserOf(s, a) == EraserIdle && requestId !in s.gov.erasures && (scope, key) !in s.gov.erasureKeys
    requires fence.scope == scope
    ensures var t := Next(cfg, s, ByEraser(a, EraserBegin(requestId, fenceId, scope, reason, policy, requester, key)));
            && t.store == s.store && t.projection == s.projection && t.queue == s.queue
            && if Held(cfg, s, scope) then t.gov == s.gov && EraserOf(t, a) == EraserIdle
            else
              && EraserOf(t, a) == Begun(scope, requestId)
              && t.gov.grants == s.gov.grants
              && t.gov.fences == (if scope in s.gov.fences then s.gov.fences
                                  else s.gov.fences[scope := G.Fence(
                                         id := fenceId, scope := scope, reason := reason, policyVersion := policy,
                                         requestedBy := requester, key := "erasure:" + key, createdAt := s.now)])
              && t.gov.erasures == s.gov.erasures[requestId := G.Erasure(
                   id := requestId, scope := scope, reason := reason, policyVersion := policy, requestedBy := requester,
                   key := key, status := G.Pending, createdAt := s.now, completedAt := None, error := None,
                   report := None)]
              && t.gov.erasureKeys == s.gov.erasureKeys[(scope, key) := requestId]
    ensures Next(cfg, s, ByControl(Suppress(fence))).gov ==
            if Held(cfg, s, scope) || scope in s.gov.fences then s.gov
            else s.gov.(fences := s.gov.fences[scope := fence])
  {
    HeldIsNotFree(cfg, s, scope);
    hide Held, LockFree;
  }

  lemma HeldIsNotFree(cfg: Config, s: Sys, scope: Scope)
    ensures Held(cfg, s, scope) <==> !LockFree(cfg, s, scope)
  {
  }

  /** An erasing caller deletes exactly its scope: from the projection, then from the authority with the jobs of the
      events that go; another scope's documents, rows, events, entities and jobs are as they were. */
  lemma EraserDeletesItsScope(cfg: Config, s: Sys, a: Id, scope: Scope, request: Id)
    requires EraserOf(s, a) == Begun(scope, request) && forall id | id in s.queue.jobs :: id in s.store.outbox
    ensures var t := Next(cfg, s, ByEraser(a, EraserDeleteProjection({}, true)));
            var u := Next(cfg, t, ByEraser(a, EraserDeleteAuthority(true)));
            && EraserOf(u, a) == AuthorityDeleted(scope, request) && u.gov == t.gov == s.gov
            && t.store == s.store && t.queue == s.queue && u.projection == t.projection
            && (cfg.projected ==> Without(s.projection.documents, t.projection.documents,
                                          (d: Document) => d.event.scope == scope))
            && (!cfg.projected ==> t.projection == s.projection)
            && Without(s.store.rows, u.store.rows, (d: Document) => d.event.scope == scope)
            && Without(s.store.outbox, u.store.outbox, (e: Q.Event) => e.scope == scope)
            && Without(s.store.entities, u.store.entities, (owner: Scope) => owner == scope)
            && (forall id :: id in u.queue.jobs <==> id in s.queue.jobs && s.store.outbox[id].scope != scope)
            && (forall id | id in u.queue.jobs :: u.queue.jobs[id] == s.queue.jobs[id])
  {
  }

  /** `after` is `before` without exactly the entries whose value is gone. */
  ghost predicate Without<V>(before: map<Id, V>, after: map<Id, V>, gone: V -> bool) {
    && (forall id :: id in after <==> id in before && !gone(before[id]))
    && (forall id | id in after :: after[id] == before[id])
  }

  /** The clock only goes forward; a grant with a fresh identifier is issued, and one of the scope is revoked now. */
  lemma ControlActs(cfg: Config, s: Sys, time: Time, grant: G.Grant, id: Id, revoker: string)
    ensures var t := Next(cfg, s, ByControl(Tick(time)));
            t.now == (if time > s.now then time else s.now)
            && t.store == s.store && t.gov == s.gov && t.queue == s.queue && t.projection == s.projection
    ensures grant.id !in s.gov.grants && (grant.scope, grant.key) !in s.gov.grantKeys ==>
              var t := Next(cfg, s, ByControl(IssueGrant(grant)));
              t.gov.grants == s.gov.grants[grant.id := grant] && t.gov.fences == s.gov.fences
    ensures id in s.gov.grants && s.gov.grants[id].revokedAt.None? ==>
              var t := Next(cfg, s, ByControl(RevokeGrant(s.gov.grants[id].scope, id, revoker)));
              t.gov.grants
              == s.gov.grants[id := s.gov.grants[id].(revokedAt := Some(s.now), revokedBy := Some(revoker))]
              && t.gov.fences == s.gov.fences
  {
  }

  /** A deletion that raises: the projection may have lost some documents of the scope, and the caller is where it was;
      the authority's transaction leaves everything; a completion that raises leaves the request. */
  lemma RaisingErasureStays(cfg: Config, s: Sys, a: Id, kept: set<Id>, report: G.Report)
    ensures var t := Next(cfg, s, ByEraser(a, EraserDeleteProjection(kept, false)));
            && t.store == s.store && t.gov == s.gov && t.queue == s.queue
            && (EraserOf(s, a).Begun? && cfg.projected ==>
                 var documents, scope := s.projection.documents, EraserOf(s, a).scope;
                 EraserOf(t, a) == EraserOf(s, a)
                 && t.projection.documents
                    == documents - set id | id in documents && documents[id].event.scope == scope && id !in kept)
    ensures var t := Next(cfg, s, ByEraser(a, EraserDeleteAuthority(false)));
            t.store == s.store && t.queue == s.queue && t.gov == s.gov && t.projection == s.projection
            && EraserOf(t, a) == EraserOf(s, a)
    ensures var t := Next(cfg, s, ByEraser(a, EraserComplete(report, false)));
            t.store == s.store && t.gov == s.gov && EraserOf(t, a) == EraserOf(s, a)
  {
  }

  /** A writer that releases is idle again; a worker or a rebuild that dies drops what it was doing; an erasing caller
      that gives up is idle again, with its failure recorded if it could be. What they had stored stays. */
  lemma CallersLetGo(cfg: Config, s: Sys, a: Id, recorded: bool)
    ensures WriterOf(s, a).WriterEntered? ==> WriterOf(Next(cfg, s, ByWriter(a, WriterRelease)), a) == WriterIdle
    ensures WorkerOf(Next(cfg, s, ByWorker(a, WorkerCrash)), a) == Worker([], Fresh, 0, 0, 0)
    ensures RebuildOf(Next(cfg, s, ByRebuild(a, RebuildCrash)), a) == RebuildIdle
    ensures var t := Next(cfg, s, ByEraser(a, EraserGiveUp(recorded)));
            && EraserOf(t, a) == EraserIdle
            && t.store == s.store && t.queue == s.queue && t.projection == s.projection
            && (!recorded ==> t.gov == s.gov)
            && (recorded && EraserOf(s, a) != EraserIdle ==>
                 var id := EraserOf(s, a).request;
                 id in s.gov.erasures && s.gov.erasures[id].scope == EraserOf(s, a).scope
                 && s.gov.erasures[id].status == G.Pending ==>
                   t.gov.erasures == s.gov.erasures[id := s.gov.erasures[id].(error := Some("raised"))])
    ensures Next(cfg, s, ByWorker(a, WorkerCrash)).queue == s.queue
  {
  }
}
