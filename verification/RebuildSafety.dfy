/** What every run keeps of the projection queue: rows agree with their status, completions are backed by upserts,
    and a rebuild that has returned is never undone by a worker that started before it. */
module RebuildSafety {
  import opened Common
  import opened Protocol
  import G = Governance
  import Q = Queue
  import Erasing = ErasureSafety

  /** The document is exactly what was committed with its event. */
  ghost predicate InLog(h: History, d: Document) {
    d.event.id in h.log && h.log[d.event.id] == d
  }

  ghost predicate LogOk(h: History) {
    && (forall id | id in h.log :: h.log[id].event.id == id)
    && (forall a, b | a in h.log && b in h.log && h.log[a].event.revisionId == h.log[b].event.revisionId :: a == b)
  }

  ghost predicate StoreOk(store: Store, h: History) {
    && (forall r | r in store.rows :: InLog(h, store.rows[r]) && store.rows[r].event.revisionId == r)
    && (forall id | id in store.outbox :: id in h.log && store.outbox[id] == h.log[id].event)
  }

  /** The projection against its writes: a document is there exactly when it was written after the last reset, except
      that documents of fenced scopes may have been deleted; and what was written is what was committed. */
  ghost predicate WritesOk(gov: G.Gov, p: Projection, h: History) {
    && (forall r | r in h.written ::
          && InLog(h, h.written[r].document) && h.written[r].document.event.revisionId == r
          && h.written[r].at < h.step)
    && (forall r | r in p.documents ::
          r in h.written && p.documents[r] == h.written[r].document && h.lastReset < h.written[r].at)
    && (forall r | r in h.written && h.lastReset < h.written[r].at
                   && h.written[r].document.event.scope !in gov.fences :: r in p.documents)
  }

  /** The event's revision was last written to the projection at the given step or later. */
  ghost predicate WrittenSince(h: History, e: Q.Event, at: int) {
    e.revisionId in h.written && at <= h.written[e.revisionId].at
  }

  /** The table's check constraints, and what attempts mean. */
  ghost predicate RowOk(maxAttempts: int, j: Q.Job) {
    && (j.status == Q.Processing <==> j.owner.Some?) && (j.owner.Some? <==> j.leaseUntil.Some?)
    && (j.status == Q.Succeeded <==> j.processedAt.Some?)
    && (j.status == Q.Pending <==> j.attempts == 0) && 0 <= j.attempts
    && (j.status == Q.Failed ==> j.attempts < maxAttempts)
    && (j.status == Q.DeadLetter ==> j.attempts >= maxAttempts)
  }

  ghost predicate DoneOk(h: History, id: Id) {
    && id in h.log && id in h.doneAt && h.floor < h.doneAt[id] < h.step
    && WrittenSince(h, h.log[id].event, h.doneAt[id])
  }

  ghost predicate JobsOk(cfg: Config, q: Q.JobTable, h: History) {
    forall id | id in q.jobs ::
      RowOk(cfg.maxAttempts, q.jobs[id]) && (q.jobs[id].status == Q.Succeeded ==> DoneOk(h, id))
  }

  /** A job the worker still owns was claimed after the last rebuild that returned, and nobody else touched it. */
  ghost predicate ItemOk(q: Q.JobTable, h: History, w: Id, l: Leased) {
    && l.item.event.id in h.log && l.item.event == h.log[l.item.event.id].event && l.claimedAt < h.step
    && (Q.Holds(q, l.item.event.id, w) ==>
         h.floor < l.claimedAt && q.jobs[l.item.event.id].attempts == l.item.attempts)
  }

  ghost predicate ItemsOk(q: Q.JobTable, h: History, w: Id, items: seq<Leased>) {
    forall i | 0 <= i < |items| :: ItemOk(q, h, w, items[i])
  }

  ghost predicate HeadOk(h: History, items: seq<Leased>, head: Head) {
    && (head != Fresh ==> items != [])
    && (head.Loaded? || head.Locked? || head.Entered? ==>
         InLog(h, head.document) && head.document.event == items[0].item.event)
    && (head.Upserted? ==>
         && items[0].claimedAt < head.at < h.step
         && WrittenSince(h, items[0].item.event, head.at))
  }

  ghost predicate WorkerOk(q: Q.JobTable, h: History, w: Id, x: Worker) {
    ItemsOk(q, h, w, x.items) && HeadOk(h, x.items, x.head) && x.claimed == |x.items| + x.succeeded + x.failed
  }

  ghost predicate WorkersOk(m: Projectors, q: Q.JobTable, h: History) {
    forall w | w in m.workers :: WorkerOk(q, h, w, m.workers[w])
  }

  ghost predicate RebuildsOk(m: Projectors, h: History) {
    && h.floor < h.step && h.lastReset < h.step
    && (forall r | r in m.rebuilds && m.rebuilds[r].ResetDone? :: m.rebuilds[r].at < h.step)
    && (forall r | r in m.rebuilds && m.rebuilds[r].DiscoverDone? :: m.rebuilds[r].at < h.step)
  }

  ghost predicate Latest(t: Time, times: seq<Time>) {
    t in times && forall u | u in times :: u <= t
  }

  /** The cursor stands at the latest event time completed since the last requeue. */
  ghost predicate CursorOk(c: Option<Q.Cursor>, h: History) {
    && (c.None? <==> h.completed == [])
    && (c.Some? ==> Latest(c.value.occurredAt, h.completed))
    && (c.Some? && c.value.eventId.Some? ==>
         c.value.eventId.value in h.log && h.log[c.value.eventId.value].event.occurredAt == c.value.occurredAt)
  }

  ghost predicate Invariant(cfg: Config, s: Sys) {
    && Erasing.Invariant(cfg, s)
    && LogOk(s.history) && StoreOk(s.store, s.history) && WritesOk(s.gov, s.projection, s.history)
    && JobsOk(cfg, s.queue, s.history)
    && WorkersOk(s.projectors, s.queue, s.history)
    && RebuildsOk(s.projectors, s.history)
    && CursorOk(s.queue.cursor, s.history)
  }

  /** Whatever is known of a worker's items and of its progress stays true. */
  ghost predicate Carries(q: Q.JobTable, h: History, r: Q.JobTable, g: History) {
    && (forall w, l | ItemOk(q, h, w, l) :: ItemOk(r, g, w, l))
    && (forall items, head | HeadOk(h, items, head) :: HeadOk(g, items, head))
  }

  lemma WorkersCarry(m: Projectors, q: Q.JobTable, h: History, r: Q.JobTable, g: History)
    requires WorkersOk(m, q, h) && Carries(q, h, r, g)
    ensures WorkersOk(m, r, g)
  {
    hide ItemOk, HeadOk;
    forall w | w in m.workers ensures WorkerOk(r, g, w, m.workers[w]) {
      assert WorkerOk(q, h, w, m.workers[w]);
      forall i | 0 <= i < |m.workers[w].items| ensures ItemOk(r, g, w, m.workers[w].items[i]) {
        assert ItemOk(q, h, w, m.workers[w].items[i]);
      }
    }
  }

  lemma JobsCarry(cfg: Config, q: Q.JobTable, h: History, g: History)
    requires JobsOk(cfg, q, h) && forall id | DoneOk(h, id) :: DoneOk(g, id)
    ensures JobsOk(cfg, q, g)
  {
    hide DoneOk, RowOk;
  }

  // ---------------------------------------------------------------- steps outside the queue

  /** Governance only adds fences, and the callers hold no projection state. */
  lemma GovernanceKeeps(cfg: Config, s: Sys, t: Sys)
    requires Invariant(cfg, s) && Erasing.Invariant(cfg, t)
    requires t == s.(now := t.now, gov := t.gov, callers := t.callers)
    requires forall scope | scope in s.gov.fences :: scope in t.gov.fences
    ensures Invariant(cfg, t)
  {
  }

  lemma CommitKeeps(cfg: Config, s: Sys, a: Id, d: Document)
    requires Invariant(cfg, s)
    ensures Invariant(cfg, Commit(s, a, d))
  {
    var t := Commit(s, a, d);
    Erasing.CommitKeeps(cfg, s, a, d);
    if t != s {
      LogGrows(cfg, s, t, d);
    }
  }

  /** The queue and the projection read no other entity. */
  lemma EntityKeeps(cfg: Config, s: Sys, t: Sys)
    requires Invariant(cfg, s) && Erasing.Invariant(cfg, t)
    requires t == s.(store := s.store.(entities := t.store.entities))
    ensures Invariant(cfg, t)
  {
  }

  lemma LogGrows(cfg: Config, s: Sys, t: Sys, d: Document)
    requires Invariant(cfg, s) && Erasing.Invariant(cfg, t)
    requires d.event.id !in s.history.log
    requires forall id | id in s.history.log :: s.history.log[id].event.revisionId != d.event.revisionId
    requires t == s.(store := t.store,
                     callers := t.callers,
                     history := s.history.(log := s.history.log[d.event.id := d]))
    requires t.store == s.store.(rows := s.store.rows[d.event.revisionId := d],
                                 outbox := s.store.outbox[d.event.id := d.event])
    ensures Invariant(cfg, t)
  {
    hide WorkersOk, JobsOk, Carries, DoneOk, Erasing.Invariant;
    var h, g := s.history, t.history;
    LogCarries(s.queue, h, g);
    JobsCarry(cfg, s.queue, h, g);
    assert forall id | id in h.log :: id in g.log && g.log[id] == h.log[id];
    WorkersCarry(s.projectors, s.queue, s.history, t.queue, t.history);
  }

  lemma LogCarries(q: Q.JobTable, h: History, g: History)
    requires g == h.(log := g.log) && forall id | id in h.log :: id in g.log && g.log[id] == h.log[id]
    ensures Carries(q, h, q, g) && forall id | DoneOk(h, id) :: DoneOk(g, id)
  {
  }

  /** Taking a step number only makes room. */
  lemma TickKeeps(cfg: Config, s: Sys)
    requires Invariant(cfg, s)
    ensures Invariant(cfg, Ticked(s))
  {
    hide WorkersOk, JobsOk, DoneOk, Carries, Erasing.Invariant;
    var t := Ticked(s);
    TickIsQuiet(cfg, s);
    TickCarries(s);
    JobsCarry(cfg, s.queue, s.history, t.history);
    WorkersCarry(s.projectors, s.queue, s.history, t.queue, t.history);
  }

  lemma TickCarries(s: Sys)
    ensures var t := Ticked(s);
            && Carries(s.queue, s.history, t.queue, t.history)
            && (forall id | DoneOk(s.history, id) :: DoneOk(t.history, id))
  {
  }

  // ---------------------------------------------------------------- workers

  /** Replacing one worker's progress. */
  lemma WorkerMoves(cfg: Config, s: Sys, w: Id, x: Worker)
    requires Invariant(cfg, s) && WorkerOk(s.queue, s.history, w, x)
    requires x.head.Entered? ==> x.head.document.event.scope !in s.gov.fences
    ensures Invariant(cfg, SetWorker(s, w, x))
  {
    Erasing.WorkerMoves(cfg, s, SetWorker(s, w, x), w, x);
  }

  lemma WorkerIsOk(cfg: Config, s: Sys, w: Id)
    requires Invariant(cfg, s)
    ensures WorkerOk(s.queue, s.history, w, WorkerOf(s, w))
  {
  }

  lemma CrashKeeps(cfg: Config, s: Sys, w: Id)
    requires Invariant(cfg, s)
    ensures Invariant(cfg, Crash(s, w))
  {
    WorkerMoves(cfg, s, w, IDLE);
  }

  lemma LoadKeeps(cfg: Config, s: Sys, w: Id, ok: bool)
    requires Invariant(cfg, s)
    ensures Invariant(cfg, Load(s, w, ok))
  {
    WorkerIsOk(cfg, s, w);
    if AtHead(s, w) && WorkerOf(s, w).head.Fresh? {
      var x, e := WorkerOf(s, w), HeadEvent(s, w);
      assert ItemOk(s.queue, s.history, w, x.items[0]);
      if e.revisionId in s.store.rows {
        var d := s.store.rows[e.revisionId];
        assert InLog(s.history, d) && d.event == e;
        WorkerMoves(cfg, s, w, x.(head := Loaded(d.(event := e))));
      }
      WorkerMoves(cfg, s, w, x.(head := Raised));
    }
  }

  lemma LockSharedKeeps(cfg: Config, s: Sys, w: Id)
    requires Invariant(cfg, s)
    ensures Invariant(cfg, LockShared(s, w))
  {
    WorkerIsOk(cfg, s, w);
    if WorkerOf(s, w).head.Loaded? {
      WorkerMoves(cfg, s, w, WorkerOf(s, w).(head := Locked(WorkerOf(s, w).head.document)));
    }
  }

  lemma CheckFenceKeeps(cfg: Config, s: Sys, w: Id)
    requires Invariant(cfg, s)
    ensures Invariant(cfg, CheckFence(s, w))
  {
    WorkerIsOk(cfg, s, w);
    if WorkerOf(s, w).head.Locked? {
      var x := WorkerOf(s, w);
      if x.head.document.event.scope in s.gov.fences {
        WorkerMoves(cfg, s, w, x.(head := Raised));
      } else {
        WorkerMoves(cfg, s, w, x.(head := Entered(x.head.document)));
      }
    }
  }

  /** A write is remembered as the last one of its revision. */
  lemma WritingKeeps(cfg: Config, s: Sys, d: Document)
    requires Invariant(cfg, s) && InLog(s.history, d) && d.event.scope !in s.gov.fences
    ensures Invariant(cfg, Ticked(Writing(s, d)))
  {
    hide WorkersOk, JobsOk, WritesOk, DoneOk, Carries, Erasing.Invariant;
    var t := Ticked(Writing(s, d));
    Erasing.WritingKeeps(cfg, s, d);
    TickIsQuiet(cfg, Writing(s, d));
    WritesGrow(s, d);
    WritingCarries(s, d);
    JobsCarry(cfg, s.queue, s.history, t.history);
    WorkersCarry(s.projectors, s.queue, s.history, t.queue, t.history);
  }

  lemma TickIsQuiet(cfg: Config, s: Sys)
    requires Erasing.Invariant(cfg, s)
    ensures Erasing.Invariant(cfg, Ticked(s))
  {
    Erasing.QuietStepKeeps(cfg, s, Ticked(s));
  }

  lemma WritesGrow(s: Sys, d: Document)
    requires WritesOk(s.gov, s.projection, s.history) && InLog(s.history, d) && s.history.lastReset < s.history.step
    ensures var t := Ticked(Writing(s, d));
            WritesOk(t.gov, t.projection, t.history)
  {
  }

  /** A later write of a revision is still a write since any earlier step. */
  lemma WritingCarries(s: Sys, d: Document)
    requires WritesOk(s.gov, s.projection, s.history)
    ensures var t := Ticked(Writing(s, d));
            && Carries(s.queue, s.history, t.queue, t.history)
            && (forall id | DoneOk(s.history, id) :: DoneOk(t.history, id))
  {
  }

  /** Inside the context a worker holds a committed document of an unfenced scope, the one of its first item. */
  lemma EnteredIsOk(cfg: Config, s: Sys, w: Id)
    requires Invariant(cfg, s) && WorkerOf(s, w).head.Entered?
    ensures var x := WorkerOf(s, w);
            && x.items != [] && x.head.document.event == x.items[0].item.event && x.items[0].claimedAt < s.history.step
            && InLog(s.history, x.head.document) && x.head.document.event.scope !in s.gov.fences
  {
    WorkerIsOk(cfg, s, w);
    assert ItemOk(s.queue, s.history, w, WorkerOf(s, w).items[0]);
  }

  /** A worker whose document has just been written. */
  lemma UpsertedIsOk(q: Q.JobTable, h: History, w: Id, x: Worker, at: int)
    requires WorkerOk(q, h, w, x) && x.items != [] && x.items[0].claimedAt < at < h.step
    requires WrittenSince(h, x.items[0].item.event, at)
    ensures WorkerOk(q, h, w, x.(head := Upserted(at)))
  {
  }

  lemma UpsertKeeps(cfg: Config, s: Sys, w: Id, written: bool, ok: bool)
    requires Invariant(cfg, s)
    ensures Invariant(cfg, Ticked(Upsert(s, w, written, ok)))
  {
    hide Invariant, InLog, WrittenSince, WorkerOk;
    TickKeeps(cfg, s);
    if WorkerOf(s, w).head.Entered? {
      EnteredIsOk(cfg, s, w);
      var x, d := WorkerOf(s, w), WorkerOf(s, w).head.document;
      if ok || written {
        WritingKeeps(cfg, s, d);
      }
      var t := Ticked(if ok || written then Writing(s, d) else s);
      WorkerIsOk(cfg, t, w);
      if ok {
        StillWritten(s, d);
        UpsertedIsOk(t.queue, t.history, w, x, s.history.step);
      } else {
        RaisedIsOk(t.queue, t.history, w, x);
      }
      WorkerMoves(cfg, t, w, x.(head := if ok then Upserted(s.history.step) else Raised));
    }
  }

  lemma StillWritten(s: Sys, d: Document)
    ensures WrittenSince(Ticked(Writing(s, d)).history, d.event, s.history.step)
  {
  }

  lemma RaisedIsOk(q: Q.JobTable, h: History, w: Id, x: Worker)
    requires WorkerOk(q, h, w, x) && x.items != []
    ensures WorkerOk(q, h, w, x.(head := Raised))
  {
  }

  /** A claim takes its jobs from their former owners, who can no longer complete or fail them. */
  lemma ClaimKeeps(cfg: Config, s: Sys, w: Id, skipped: set<Id>, order: seq<Q.Event>)
    requires Invariant(cfg, s)
    ensures Invariant(cfg, Ticked(Claim(cfg, s, w, skipped, order)))
    ensures WorkerOf(s, w).items == [] ==> OnlyOwner(Claim(cfg, s, w, skipped, order), w)
  {
    hide Invariant, OnlyOwner;
    TickKeeps(cfg, s);
    OutboxIsKeyed(cfg, s);
    if WorkerOf(s, w).items == [] {
      var taken := Q.Claimed(s.queue, s.store.outbox, s.now, skipped, cfg.batch);
      Q.ClaimedAreClaimable(s.queue, s.store.outbox, s.now, skipped, cfg.batch);
      Q.ReturnedAreTaken(taken, order);
      Erasing.ClaimKeeps(cfg, s, w, skipped, order);
      LeasingKeeps(cfg, s, w, Q.Returned(taken, order));
      LeasingTakesOver(cfg, s, w, Q.Returned(taken, order));
    }
  }

  /** Nobody but the worker holds any of the jobs it has claimed. */
  ghost predicate OnlyOwner(s: Sys, w: Id) {
    forall i, v | 0 <= i < |WorkerOf(s, w).items| && v != w ::
      !Q.Holds(s.queue, WorkerOf(s, w).items[i].item.event.id, v)
  }

  lemma OutboxIsKeyed(cfg: Config, s: Sys)
    requires Invariant(cfg, s)
    ensures Q.Keyed(s.store.outbox) && Erasing.Invariant(cfg, s)
  {
  }

  lemma LeasingTakesOver(cfg: Config, s: Sys, w: Id, taken: seq<Q.Event>)
    requires forall i | 0 <= i < |taken| :: Q.IsClaimable(s.queue, s.store.outbox, s.now, taken[i])
    ensures OnlyOwner(Leasing(cfg, s, w, taken), w)
  {
    assert forall i | 0 <= i < |taken| :: taken[i].id in Q.EventIds(taken);
  }

  lemma LeasingKeeps(cfg: Config, s: Sys, w: Id, taken: seq<Q.Event>)
    requires Invariant(cfg, s)
    requires forall i | 0 <= i < |taken| :: Q.IsClaimable(s.queue, s.store.outbox, s.now, taken[i])
    requires Erasing.Invariant(cfg, Leasing(cfg, s, w, taken))
    ensures Invariant(cfg, Ticked(Leasing(cfg, s, w, taken)))
  {
    hide WorkersOk, JobsOk, Erasing.Invariant, DoneOk;
    var t := Ticked(Leasing(cfg, s, w, taken));
    TickIsQuiet(cfg, Leasing(cfg, s, w, taken));
    LeasingKeepsWorkers(cfg, s, w, taken);
    LeasingKeepsJobs(cfg, s.queue, s.history, taken, w, s.now + cfg.lease);
    TickCarries(s);
    JobsCarry(cfg, t.queue, s.history, t.history);
  }

  lemma LeasingKeepsJobs(cfg: Config, q: Q.JobTable, h: History, taken: seq<Q.Event>, w: Id, until: Time)
    requires JobsOk(cfg, q, h)
    ensures JobsOk(cfg, Q.Lease(q, taken, w, until), h)
  {
    hide DoneOk;
  }

  lemma LeasingKeepsWorkers(cfg: Config, s: Sys, w: Id, taken: seq<Q.Event>)
    requires WorkersOk(s.projectors, s.queue, s.history) && StoreOk(s.store, s.history) && LogOk(s.history)
    requires s.history.floor < s.history.step
    requires forall i | 0 <= i < |taken| :: Q.IsClaimable(s.queue, s.store.outbox, s.now, taken[i])
    ensures var t := Ticked(Leasing(cfg, s, w, taken));
            WorkersOk(t.projectors, t.queue, t.history)
  {
    var t := Ticked(Leasing(cfg, s, w, taken));
    forall v | v in t.projectors.workers
      ensures WorkerOk(t.queue, t.history, v, t.projectors.workers[v])
    {
      var x := t.projectors.workers[v];
      if v == w {
        forall i | 0 <= i < |x.items| ensures ItemOk(t.queue, t.history, v, x.items[i]) {
          assert taken[i].id in Q.EventIds(taken);
        }
      } else {
        assert WorkerOk(s.queue, s.history, v, x);
        forall i | 0 <= i < |x.items| ensures ItemOk(t.queue, t.history, v, x.items[i]) {
          assert ItemOk(s.queue, s.history, v, x.items[i]);
        }
      }
    }
  }

  /** Only what was recorded of the settled event's completion differs. */
  ghost predicate RecordsCompletion(h: History, g: History, id: Id) {
    && g == h.(doneAt := g.doneAt, completed := g.completed)
    && (forall other | other in h.doneAt && other != id :: other in g.doneAt && g.doneAt[other] == h.doneAt[other])
  }

  /** The worker moves on to its next item, and nobody holds the settled job. */
  lemma SettlingKeepsWorkers(s: Sys, w: Id, succeeded: bool, j: Q.Job, h: History)
    requires WorkersOk(s.projectors, s.queue, s.history) && AtHead(s, w) && j.owner.None?
    requires RecordsCompletion(s.history, h, HeadEvent(s, w).id)
    ensures var e := HeadEvent(s, w);
            WorkersOk(SetWorker(s, w, Settled(WorkerOf(s, w), succeeded)).projectors,
                      s.queue.(jobs := s.queue.jobs[e.id := j]), h)
  {
    var e := HeadEvent(s, w);
    var m, q := SetWorker(s, w, Settled(WorkerOf(s, w), succeeded)).projectors,
                s.queue.(jobs := s.queue.jobs[e.id := j]);
    forall v | v in m.workers ensures WorkerOk(q, h, v, m.workers[v]) {
      var x := m.workers[v];
      assert v in s.projectors.workers && WorkerOk(s.queue, s.history, v, s.projectors.workers[v]);
      forall i | 0 <= i < |x.items| ensures ItemOk(q, h, v, x.items[i]) {
        assert ItemOk(s.queue, s.history, v, s.projectors.workers[v].items[if v == w then i + 1 else i]);
      }
    }
  }

  /** A settled job is released by its owner and by nobody else. */
  lemma SettlingKeeps(cfg: Config, s: Sys, w: Id, succeeded: bool, j: Q.Job, cursor: Option<Q.Cursor>, h: History)
    requires Invariant(cfg, s) && AtHead(s, w) && Q.Holds(s.queue, HeadEvent(s, w).id, w)
    requires j.owner.None? && RowOk(cfg.maxAttempts, j) && RecordsCompletion(s.history, h, HeadEvent(s, w).id)
    requires j.status == Q.Succeeded ==> DoneOk(h, HeadEvent(s, w).id)
    requires CursorOk(cursor, h)
    ensures Invariant(cfg, SetWorker(s.(queue := Q.JobTable(s.queue.jobs[HeadEvent(s, w).id := j], cursor),
                                        history := h),
                                     w, Settled(WorkerOf(s, w), succeeded)))
  {
    hide CursorOk, JobsOk, WorkersOk, Erasing.Invariant, Settled;
    var e := HeadEvent(s, w);
    var t := SetWorker(s.(queue := Q.JobTable(s.queue.jobs[e.id := j], cursor), history := h),
                       w, Settled(WorkerOf(s, w), succeeded));
    SettlingIsQuiet(cfg, s, w, succeeded, j, cursor, h);
    SettlingKeepsJobs(cfg, s.queue, s.history, h, e.id, j, cursor);
    SettlingKeepsWorkers(s, w, succeeded, j, h);
    CursorIsNobodys(t.projectors, s.queue.(jobs := s.queue.jobs[e.id := j]), t.queue, h);
  }

  lemma SettlingIsQuiet(cfg: Config, s: Sys, w: Id, succeeded: bool, j: Q.Job, cursor: Option<Q.Cursor>, h: History)
    requires Erasing.Invariant(cfg, s) && AtHead(s, w) && HeadEvent(s, w).id in s.queue.jobs
    ensures Erasing.Invariant(cfg, SetWorker(s.(queue := Q.JobTable(s.queue.jobs[HeadEvent(s, w).id := j], cursor),
                                                history := h),
                                             w, Settled(WorkerOf(s, w), succeeded)))
  {
    var t := SetWorker(s.(queue := Q.JobTable(s.queue.jobs[HeadEvent(s, w).id := j], cursor), history := h),
                       w, Settled(WorkerOf(s, w), succeeded));
    Erasing.WorkerMoves(cfg, s, t, w, Settled(WorkerOf(s, w), succeeded));
  }

  lemma SettlingKeepsJobs(cfg: Config, q: Q.JobTable, h: History, g: History, id: Id, j: Q.Job,
                          cursor: Option<Q.Cursor>)
    requires JobsOk(cfg, q, h) && RecordsCompletion(h, g, id) && RowOk(cfg.maxAttempts, j)
    requires j.status == Q.Succeeded ==> DoneOk(g, id)
    ensures JobsOk(cfg, Q.JobTable(q.jobs[id := j], cursor), g)
  {
    hide RowOk;
  }

  /** What is known of the workers does not depend on the cursor. */
  lemma CursorIsNobodys(m: Projectors, q: Q.JobTable, r: Q.JobTable, h: History)
    requires q.jobs == r.jobs && WorkersOk(m, q, h)
    ensures WorkersOk(m, r, h)
  {
    WorkersCarry(m, q, h, r, h);
  }

  lemma CursorAdvances(q: Q.JobTable, h: History, e: Q.Event, w: Id, at: Time)
    requires CursorOk(q.cursor, h) && Q.Complete(q, e, w, at).Ok? && e.id in h.log && h.log[e.id].event == e
    ensures CursorOk(Q.Complete(q, e, w, at).value.cursor, h.(completed := h.completed + [e.occurredAt]))
  {
    var times := h.completed + [e.occurredAt];
    assert times[|times| - 1] == e.occurredAt;
  }

  lemma CompleteKeeps(cfg: Config, s: Sys, w: Id, ok: bool)
    requires Invariant(cfg, s)
    ensures Invariant(cfg, CompleteItem(s, w, ok))
  {
    WorkerIsOk(cfg, s, w);
    if AtHead(s, w) && WorkerOf(s, w).head.Upserted? {
      var x, e := WorkerOf(s, w), HeadEvent(s, w);
      assert ItemOk(s.queue, s.history, w, x.items[0]);
      if ok && Q.Holds(s.queue, e.id, w) {
        var done := Q.Complete(s.queue, e, w, s.now).value;
        var h := s.history.(doneAt := s.history.doneAt[e.id := x.head.at],
                            completed := s.history.completed + [e.occurredAt]);
        CursorAdvances(s.queue, s.history, e, w, s.now);
        assert CursorOk(done.cursor, h);
        SettlingKeeps(cfg, s, w, true, done.jobs[e.id], done.cursor, h);
      } else {
        WorkerMoves(cfg, s, w, x.(head := Raised));
      }
    }
  }

  lemma FailingKeeps(cfg: Config, s: Sys, w: Id, retryAt: Time)
    requires Invariant(cfg, s) && AtHead(s, w) && Q.Holds(s.queue, HeadEvent(s, w).id, w)
    ensures var dead := WorkerOf(s, w).items[0].item.attempts >= cfg.maxAttempts;
            var failed := Q.Fail(s.queue, HeadEvent(s, w), w, retryAt, dead);
            failed.Ok? && Invariant(cfg, SetWorker(s.(queue := failed.value), w, Settled(WorkerOf(s, w), false)))
  {
    var x, e := WorkerOf(s, w), HeadEvent(s, w);
    WorkerIsOk(cfg, s, w);
    assert ItemOk(s.queue, s.history, w, x.items[0]);
    var failed := Q.Fail(s.queue, e, w, retryAt, x.items[0].item.attempts >= cfg.maxAttempts).value;
    SettlingKeeps(cfg, s, w, false, failed.jobs[e.id], s.queue.cursor, s.history);
  }

  lemma FailKeeps(cfg: Config, s: Sys, w: Id)
    requires Invariant(cfg, s)
    ensures Invariant(cfg, FailItem(cfg, s, w))
  {
    hide Invariant;
    WorkerIsOk(cfg, s, w);
    if AtHead(s, w) && WorkerOf(s, w).head.Raised? {
      var x, e := WorkerOf(s, w), HeadEvent(s, w);
      assert ItemOk(s.queue, s.history, w, x.items[0]);
      if Q.Holds(s.queue, e.id, w) {
        FailingKeeps(cfg, s, w, s.now + Q.Backoff(cfg.backoffBase, cfg.backoffCap, x.items[0].item.attempts));
      } else {
        WorkerMoves(cfg, s, w, IDLE);
      }
    }
  }

  lemma DiscoverKeeps(cfg: Config, s: Sys)
    requires Invariant(cfg, s)
    ensures Invariant(cfg, DiscoverAll(s))
  {
    hide WorkersOk;
    var t := DiscoverAll(s);
    Erasing.QuietStepKeeps(cfg, s, t);
    WorkersCarry(s.projectors, s.queue, s.history, t.queue, t.history);
  }

  // ---------------------------------------------------------------- rebuilds

  lemma RebuildMoves(cfg: Config, s: Sys, r: Id, x: Rebuild)
    requires Invariant(cfg, s)
    requires x.ResetDone? ==> x.at < s.history.step
    requires x.DiscoverDone? ==> x.at < s.history.step
    ensures Invariant(cfg, SetRebuild(s, r, x))
  {
    Erasing.QuietStepKeeps(cfg, s, SetRebuild(s, r, x));
  }

  /** An empty projection keeps every promise, because none is older than its own reset. */
  lemma EmptyingKeeps(cfg: Config, s: Sys)
    requires Invariant(cfg, s)
    ensures Invariant(cfg, Ticked(s.(projection := Projection(map[]),
                                     history := s.history.(lastReset := s.history.step))))
  {
    hide WorkersOk, JobsOk, Carries, DoneOk, Erasing.Invariant;
    var u := s.(projection := Projection(map[]), history := s.history.(lastReset := s.history.step));
    var t := Ticked(u);
    ResetIsQuiet(cfg, s, u);
    TickIsQuiet(cfg, u);
    ResetCarries(s.queue, s.history);
    JobsCarry(cfg, s.queue, s.history, t.history);
    WorkersCarry(s.projectors, s.queue, s.history, t.queue, t.history);
  }

  lemma ResetIsQuiet(cfg: Config, s: Sys, t: Sys)
    requires Erasing.Invariant(cfg, s) && t == s.(projection := Projection(map[]), history := t.history)
    ensures Erasing.Invariant(cfg, t)
  {
    Erasing.QuietStepKeeps(cfg, s, t);
  }

  lemma ResetCarries(q: Q.JobTable, h: History)
    ensures var g := h.(lastReset := h.step, step := h.step + 1);
            Carries(q, h, q, g) && forall id | DoneOk(h, id) :: DoneOk(g, id)
  {
  }

  lemma ResetKeeps(cfg: Config, s: Sys, r: Id)
    requires Invariant(cfg, s)
    ensures Invariant(cfg, Ticked(Reset(s, r)))
  {
    hide Invariant;
    if RebuildOf(s, r) == RebuildIdle {
      EmptyingKeeps(cfg, s);
      var t := Ticked(s.(projection := Projection(map[]), history := s.history.(lastReset := s.history.step)));
      RebuildMoves(cfg, t, r, ResetDone(s.history.step));
    } else {
      TickKeeps(cfg, s);
    }
  }

  /** Requeueing takes every job from every worker, so the new floor concerns nobody's claim. */
  lemma RequeueKeeps(cfg: Config, s: Sys, r: Id, at: Time)
    requires Invariant(cfg, s)
    ensures Invariant(cfg, RequeueAll(s, r, at))
    ensures RebuildOf(s, r).DiscoverDone? ==> forall id, w :: !Q.Holds(RequeueAll(s, r, at).queue, id, w)
  {
    if RebuildOf(s, r).DiscoverDone? {
      var u := s.(queue := Q.Requeue(s.queue, at),
                  history := s.history.(floor := Max(s.history.floor, RebuildOf(s, r).at), completed := []));
      Erasing.QuietStepKeeps(cfg, s, u);
      WorkersCarry(s.projectors, s.queue, s.history, u.queue, u.history);
      assert Invariant(cfg, u);
      RebuildMoves(cfg, u, r, RebuildIdle);
    }
  }

  // ---------------------------------------------------------------- erasing callers

  lemma ProjectionShrinks(cfg: Config, s: Sys, t: Sys, scope: Scope)
    requires Invariant(cfg, s) && Erasing.Invariant(cfg, t)
    requires t == s.(projection := t.projection, callers := t.callers)
    requires scope in s.gov.fences
    requires forall r | r in t.projection.documents ::
               r in s.projection.documents && t.projection.documents[r] == s.projection.documents[r]
    requires forall r | r in s.projection.documents && s.projection.documents[r].event.scope != scope ::
               r in t.projection.documents
    ensures Invariant(cfg, t)
  {
    assert forall r | r in s.history.written && s.history.lastReset < s.history.written[r].at
        && s.history.written[r].document.event.scope !in s.gov.fences :: r in s.projection.documents;
  }

  lemma DeleteProjectionKeeps(cfg: Config, s: Sys, a: Id, kept: set<Id>, ok: bool)
    requires Invariant(cfg, s)
    ensures Invariant(cfg, DeleteProjection(cfg, s, a, kept, ok))
  {
    Erasing.DeleteProjectionKeeps(cfg, s, a, kept, ok);
    if EraserOf(s, a).Begun? {
      assert Erasing.EraserOk(cfg, s, s.callers.erasers[a]);
      ProjectionShrinks(cfg, s, DeleteProjection(cfg, s, a, kept, ok), EraserOf(s, a).scope);
    }
  }

  lemma AuthorityShrinks(cfg: Config, s: Sys, t: Sys)
    requires Invariant(cfg, s) && Erasing.Invariant(cfg, t)
    requires t == s.(store := t.store, queue := Q.Cascade(s.queue, t.store.outbox), callers := t.callers)
    requires forall r | r in t.store.rows :: r in s.store.rows && t.store.rows[r] == s.store.rows[r]
    requires forall id | id in t.store.outbox :: id in s.store.outbox && t.store.outbox[id] == s.store.outbox[id]
    ensures Invariant(cfg, t)
  {
    WorkersCarry(s.projectors, s.queue, s.history, t.queue, t.history);
  }

  lemma DeleteAuthorityKeeps(cfg: Config, s: Sys, a: Id, ok: bool)
    requires Invariant(cfg, s)
    ensures Invariant(cfg, DeleteAuthority(s, a, ok))
  {
    Erasing.DeleteAuthorityKeeps(cfg, s, a, ok);
    var t := DeleteAuthority(s, a, ok);
    if t != s {
      AuthorityShrinks(cfg, s, t);
    }
  }

  // ---------------------------------------------------------------- runs

  /** Planting a fence adds to the fences and to nothing else the queue sees. */
  lemma ControlKeeps(cfg: Config, s: Sys, move: ControlMove)
    requires Invariant(cfg, s)
    ensures Invariant(cfg, ControlEffect(cfg, s, move))
  {
    Erasing.ControlKeeps(cfg, s, move);
    GovernanceKeeps(cfg, s, ControlEffect(cfg, s, move));
  }

  lemma WriterKeeps(cfg: Config, s: Sys, a: Id, move: WriterMove)
    requires Invariant(cfg, s)
    ensures Invariant(cfg, WriterEffect(s, a, move))
  {
    Erasing.WriterKeeps(cfg, s, a, move);
    match move
    case WriterAcquire(scope) => GovernanceKeeps(cfg, s, Acquire(s, a, scope));
    case WriterCheck(purpose, at) => GovernanceKeeps(cfg, s, Check(s, a, purpose, at));
    case WriterCommit(d) => CommitKeeps(cfg, s, a, d);
    case WriterRecord(id) => EntityKeeps(cfg, s, Record(s, a, id));
    case WriterRelease => GovernanceKeeps(cfg, s, Release(s, a));
  }

  lemma WorkerKeeps(cfg: Config, s: Sys, w: Id, move: WorkerMove)
    requires Invariant(cfg, s) && !move.WorkerClaim? && !move.WorkerUpsert?
    ensures Invariant(cfg, WorkerEffect(cfg, s, w, move))
  {
    match move
    case WorkerDiscover => DiscoverKeeps(cfg, s);
    case WorkerLoad(ok) => LoadKeeps(cfg, s, w, ok);
    case WorkerAcquire => LockSharedKeeps(cfg, s, w);
    case WorkerCheck => CheckFenceKeeps(cfg, s, w);
    case WorkerComplete(ok) => CompleteKeeps(cfg, s, w, ok);
    case WorkerFail => FailKeeps(cfg, s, w);
    case WorkerCrash => CrashKeeps(cfg, s, w);
  }

  lemma RebuildKeeps(cfg: Config, s: Sys, r: Id, move: RebuildMove)
    requires Invariant(cfg, s) && !move.RebuildReset?
    ensures Invariant(cfg, RebuildEffect(s, r, move))
  {
    match move
    case RebuildDiscover =>
      DiscoverKeeps(cfg, s);
      if RebuildOf(s, r).ResetDone? {
        RebuildMoves(cfg, DiscoverAll(s), r, DiscoverDone(RebuildOf(s, r).at));
      }
    case RebuildRequeue(at) => RequeueKeeps(cfg, s, r, at);
    case RebuildCrash => RebuildMoves(cfg, s, r, RebuildIdle);
  }

  lemma EraserKeeps(cfg: Config, s: Sys, a: Id, move: EraserMove)
    requires Invariant(cfg, s)
    ensures Invariant(cfg, EraserEffect(cfg, s, a, move))
  {
    hide Invariant, Erasing.Invariant, DeleteProjection, DeleteAuthority, G.BeginErasure, G.CompleteErasure,
         G.FailErasure;
    OutboxIsKeyed(cfg, s);
    Erasing.EraserKeeps(cfg, s, a, move);
    match move
    case EraserBegin(requestId, fenceId, scope, reason, policy, requester, key) =>
      BeginKeepsFences(s.gov, requestId, fenceId, scope, reason, policy, requester, key, s.now);
      GovernanceKeeps(cfg, s, Begin(cfg, s, a, requestId, fenceId, scope, reason, policy, requester, key));
    case EraserDeleteProjection(kept, ok) => DeleteProjectionKeeps(cfg, s, a, kept, ok);
    case EraserDeleteAuthority(ok) => DeleteAuthorityKeeps(cfg, s, a, ok);
    case EraserComplete(report, ok) =>
      if EraserOf(s, a).AuthorityDeleted? {
        SettlingKeepsFences(s.gov, EraserOf(s, a).scope, EraserOf(s, a).request, report, s.now, "raised");
      }
      GovernanceKeeps(cfg, s, Finish(s, a, report, ok));
    case EraserGiveUp(recorded) =>
      Erasing.GiveUpKeeps(cfg, s, a, recorded);
      GovernanceKeeps(cfg, s, GiveUp(s, a, recorded));
  }

  lemma BeginKeepsFences(g: G.Gov, requestId: Id, fenceId: Id, scope: Scope, reason: string, policy: string,
                         requester: string, key: string, at: Time)
    ensures var r := G.BeginErasure(g, requestId, fenceId, scope, reason, policy, requester, key, at);
            r.Ok? ==> forall s | s in g.fences :: s in r.value.0.fences
  {
  }

  lemma SettlingKeepsFences(g: G.Gov, scope: Scope, id: Id, report: G.Report, at: Time, error: string)
    ensures var r := G.CompleteErasure(g, scope, id, report, at);
            r.Ok? ==> r.value.0.fences == g.fences
    ensures var r := G.FailErasure(g, scope, id, error);
            r.Ok? ==> r.value.0.fences == g.fences
  {
  }

  lemma NextKeeps(cfg: Config, s: Sys, step: Step)
    requires Invariant(cfg, s)
    ensures Invariant(cfg, Next(cfg, s, step))
  {
    hide Invariant, ControlEffect, WriterEffect, EraserEffect, Claim, Upsert, Reset, Ticked;
    match step
    case ByControl(move) =>
      ControlKeeps(cfg, s, move);
      TickKeeps(cfg, ControlEffect(cfg, s, move));
    case ByWriter(a, move) =>
      WriterKeeps(cfg, s, a, move);
      TickKeeps(cfg, WriterEffect(s, a, move));
    case ByWorker(w, WorkerClaim(skipped, order)) => ClaimKeeps(cfg, s, w, skipped, order);
    case ByWorker(w, WorkerUpsert(written, ok)) => UpsertKeeps(cfg, s, w, written, ok);
    case ByWorker(w, move) =>
      WorkerKeeps(cfg, s, w, move);
      TickKeeps(cfg, WorkerEffect(cfg, s, w, move));
    case ByRebuild(r, RebuildReset) => ResetKeeps(cfg, s, r);
    case ByRebuild(r, move) =>
      RebuildKeeps(cfg, s, r, move);
      TickKeeps(cfg, RebuildEffect(s, r, move));
    case ByEraser(a, move) =>
      EraserKeeps(cfg, s, a, move);
      TickKeeps(cfg, EraserEffect(cfg, s, a, move));
  }

  lemma {:induction false} RunKeeps(cfg: Config, s: Sys, steps: seq<Step>)
    requires Invariant(cfg, s)
    ensures Invariant(cfg, Run(cfg, s, steps))
    decreases |steps|
  {
    if steps != [] {
      RunKeeps(cfg, s, steps[..|steps| - 1]);
      NextKeeps(cfg, Run(cfg, s, steps[..|steps| - 1]), steps[|steps| - 1]);
    }
  }

  lemma InitIsOk(cfg: Config)
    ensures Invariant(cfg, INIT)
  {
  }

  lemma FloorGrows(cfg: Config, s: Sys, step: Step)
    ensures Next(cfg, s, step).history.floor >= s.history.floor
  {
    match step
    case ByControl(move) => assert ControlEffect(cfg, s, move).history == s.history;
    case ByWriter(a, move) => assert WriterEffect(s, a, move).history.floor == s.history.floor;
    case ByWorker(w, move) => WorkersLeaveFloor(cfg, s, w, move);
    case ByRebuild(r, move) => assert RebuildEffect(s, r, move).history.floor >= s.history.floor;
    case ByEraser(a, move) => assert EraserEffect(cfg, s, a, move).history == s.history;
  }

  lemma WorkersLeaveFloor(cfg: Config, s: Sys, w: Id, move: WorkerMove)
    ensures WorkerEffect(cfg, s, w, move).history.floor == s.history.floor
  {
  }

  lemma {:induction false} FloorStays(cfg: Config, s: Sys, steps: seq<Step>)
    ensures Run(cfg, s, steps).history.floor >= s.history.floor
    decreases |steps|
  {
    if steps != [] {
      FloorStays(cfg, s, steps[..|steps| - 1]);
      FloorGrows(cfg, Run(cfg, s, steps[..|steps| - 1]), steps[|steps| - 1]);
    }
  }

  /** The upsert behind every succeeded job came after the given step. */
  ghost predicate UpsertedSince(s: Sys, step: int) {
    forall id | id in s.queue.jobs && s.queue.jobs[id].status == Q.Succeeded ::
      id in s.history.doneAt && s.history.doneAt[id] > step
  }

  /** Rebuild is safe against in-flight workers. In any run, once a rebuild whose reset was step `at` has returned, a
      job is 'succeeded' only if its document was upserted after that reset: then, and after anything that follows. */
  lemma RebuildIsSafe(cfg: Config, steps: seq<Step>, r: Id, time: Time, more: seq<Step>)
    requires RebuildOf(Run(cfg, INIT, steps), r).DiscoverDone?
    ensures var s := Run(cfg, INIT, steps);
            UpsertedSince(Run(cfg, Next(cfg, s, ByRebuild(r, RebuildRequeue(time))), more), RebuildOf(s, r).at)
  {
    InitIsOk(cfg);
    RunKeeps(cfg, INIT, steps);
    ReturnedRebuildIsSafe(cfg, Run(cfg, INIT, steps), r, time, more);
  }

  lemma ReturnedRebuildIsSafe(cfg: Config, s: Sys, r: Id, time: Time, more: seq<Step>)
    requires Invariant(cfg, s) && RebuildOf(s, r).DiscoverDone?
    ensures UpsertedSince(Run(cfg, Next(cfg, s, ByRebuild(r, RebuildRequeue(time))), more), RebuildOf(s, r).at)
  {
    var t := Next(cfg, s, ByRebuild(r, RebuildRequeue(time)));
    NextKeeps(cfg, s, ByRebuild(r, RebuildRequeue(time)));
    assert t.history.floor >= RebuildOf(s, r).at;
    RunKeeps(cfg, t, more);
    FloorStays(cfg, t, more);
  }

  /** The event's committed document is in the projection. */
  ghost predicate Projected(s: Sys, id: Id) {
    && id in s.store.outbox && id in s.history.log
    && s.store.outbox[id].revisionId in s.projection.documents
    && s.projection.documents[s.store.outbox[id].revisionId] == s.history.log[id]
  }

  ghost predicate Succeeded(s: Sys, id: Id) {
    id in s.queue.jobs && s.queue.jobs[id].status == Q.Succeeded
  }

  lemma SucceededExactly(cfg: Config, s: Sys, id: Id)
    requires Invariant(cfg, s) && Succeeded(s, id)
    ensures id in s.store.outbox && s.store.outbox[id].revisionId in s.history.written
    ensures id in s.history.doneAt
            && s.history.floor < s.history.doneAt[id] <= s.history.written[s.store.outbox[id].revisionId].at
    ensures s.store.outbox[id].scope !in s.gov.fences ==>
              (Projected(s, id) <==>
               s.history.lastReset < s.history.written[s.store.outbox[id].revisionId].at)
  {
    var e := s.store.outbox[id];
    assert DoneOk(s.history, id);
    var d := s.history.written[e.revisionId].document;
    assert InLog(s.history, d) && d.event.revisionId == s.history.log[id].event.revisionId;
  }

  /** In every run, a succeeded job of an unfenced scope has its committed document in the projection exactly when the
      last write of its revision is later than the last reset. */
  lemma SucceededIsProjected(cfg: Config, steps: seq<Step>, id: Id)
    requires Succeeded(Run(cfg, INIT, steps), id)
    ensures var s := Run(cfg, INIT, steps);
            && id in s.store.outbox && s.store.outbox[id].revisionId in s.history.written
            && (s.store.outbox[id].scope !in s.gov.fences ==>
                  (Projected(s, id) <==>
                   s.history.lastReset < s.history.written[s.store.outbox[id].revisionId].at))
  {
    InitIsOk(cfg);
    RunKeeps(cfg, INIT, steps);
    SucceededExactly(cfg, Run(cfg, INIT, steps), id);
  }

  /** What an operator can check: after a rebuild has returned and while no other has reset the projection since, every
      succeeded job of an unfenced scope has its document in the projection. */
  lemma RebuiltIsProjected(cfg: Config, steps: seq<Step>, id: Id)
    requires var s := Run(cfg, INIT, steps);
             Succeeded(s, id) && s.history.lastReset <= s.history.floor
    ensures var s := Run(cfg, INIT, steps);
            id in s.store.outbox && (s.store.outbox[id].scope !in s.gov.fences ==> Projected(s, id))
  {
    InitIsOk(cfg);
    RunKeeps(cfg, INIT, steps);
    SucceededExactly(cfg, Run(cfg, INIT, steps), id);
  }

  /** The projection never invents or alters content: every document was committed with its event, in every run. */
  lemma ProjectionIsFaithful(cfg: Config, steps: seq<Step>)
    ensures var s := Run(cfg, INIT, steps);
            forall r | r in s.projection.documents ::
              InLog(s.history, s.projection.documents[r]) && s.projection.documents[r].event.revisionId == r
  {
    InitIsOk(cfg);
    RunKeeps(cfg, INIT, steps);
    WritesAreFaithful(cfg, Run(cfg, INIT, steps));
  }

  lemma WritesAreFaithful(cfg: Config, s: Sys)
    requires Invariant(cfg, s)
    ensures forall r | r in s.projection.documents ::
              InLog(s.history, s.projection.documents[r]) && s.projection.documents[r].event.revisionId == r
  {
  }

  /** Queue accounting, in every reachable state: each row satisfies the table's constraints with attempts below the
      maximum unless dead-lettered; a worker between runs has settled all it claimed; and the cursor stands at the
      latest event time completed since the last requeue. */
  lemma QueueAccounts(cfg: Config, steps: seq<Step>)
    ensures var s := Run(cfg, INIT, steps);
            && (forall id | id in s.queue.jobs :: id in s.store.outbox && RowOk(cfg.maxAttempts, s.queue.jobs[id]))
            && (forall w | w in s.projectors.workers && s.projectors.workers[w].items == [] ::
                 s.projectors.workers[w].claimed == s.projectors.workers[w].succeeded + s.projectors.workers[w].failed)
            && CursorOk(s.queue.cursor, s.history)
  {
    InitIsOk(cfg);
    RunKeeps(cfg, INIT, steps);
  }
}
