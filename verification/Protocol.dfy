/** One transition system for everything that touches a scope's data at the same time: gated writers, projection
    workers, rebuilds, and erasing callers, over one governance state, one authority, one queue and one projection. */
module Protocol {
  import opened Common
  import G = Governance
  import Q = Queue

  datatype Config = Config(
    lockOf: Scope -> int,      // the advisory lock of a scope; distinct scopes may share one
    maxAttempts: int,          // the same for every worker
    batch: nat,
    lease: nat,
    backoffBase: nat,
    backoffCap: nat,
    projected: bool)           // whether the erasing application has the recall projection configured

  /** A projection document: one revision's content with the event that announced it. */
  datatype Document = Document(event: Q.Event, body: string)

  datatype Writer = WriterIdle | WriterLocked(scope: Scope) | WriterEntered(scope: Scope)

  /** What a worker is doing with the first of its items. */
  datatype Head =
    | Fresh
    | Loaded(document: Document)
    | Locked(document: Document)
    | Entered(document: Document)
    | Upserted(at: int)
    | Raised

  datatype Leased = Leased(item: Q.Item, claimedAt: int)

  /** A worker's `run_once` in progress: the items it has not settled, and its counters. */
  datatype Worker = Worker(items: seq<Leased>, head: Head, claimed: int, succeeded: int, failed: int)

  const IDLE := Worker([], Fresh, 0, 0, 0)

  datatype Rebuild = RebuildIdle | ResetDone(at: int) | DiscoverDone(at: int)

  datatype Eraser =
    | EraserIdle
    | Begun(scope: Scope, request: Id)
    | ProjectionDeleted(scope: Scope, request: Id)
    | AuthorityDeleted(scope: Scope, request: Id)

  /** The authority: the revisions and events the projection reads, and every other entity it stores for a scope
      (observations, evidence, candidates, records, transitions, traces, usages, outcomes), by its scope. */
  datatype Store = Store(rows: map<Id, Document>, outbox: map<Id, Q.Event>, entities: map<Id, Scope>)

  /** The projection, by revision. */
  datatype Projection = Projection(documents: map<Id, Document>)

  datatype Callers = Callers(writers: map<Id, Writer>, erasers: map<Id, Eraser>)

  datatype Projectors = Projectors(workers: map<Id, Worker>, rebuilds: map<Id, Rebuild>)

  /** A write to the projection: the document, and the step it happened at. */
  datatype Write = Write(document: Document, at: int)

  /** What has happened, kept only to state properties. */
  datatype History = History(
    step: int,                     // how many steps have been taken
    log: map<Id, Document>,        // everything ever committed, by event
    written: map<Id, Write>,       // the last write of each revision to the projection
    doneAt: map<Id, int>,          // when the upsert behind a job's last completion happened
    lastReset: int,                // when the projection was last reset
    floor: int,                    // the latest reset of a rebuild that has returned
    completed: seq<Time>)          // event times completed since the last requeue

  datatype Sys = Sys(
    now: Time, gov: G.Gov, store: Store, queue: Q.JobTable, projection: Projection, callers: Callers,
    projectors: Projectors, history: History)

  const INIT := Sys(0, G.EMPTY, Store(map[], map[], map[]), Q.EMPTY, Projection(map[]), Callers(map[], map[]),
                    Projectors(map[], map[]), History(1, map[], map[], map[], 0, 0, []))

  function WriterOf(s: Sys, a: Id): Writer {
    if a in s.callers.writers then s.callers.writers[a] else WriterIdle
  }

  function WorkerOf(s: Sys, w: Id): Worker {
    if w in s.projectors.workers then s.projectors.workers[w] else IDLE
  }

  function RebuildOf(s: Sys, r: Id): Rebuild {
    if r in s.projectors.rebuilds then s.projectors.rebuilds[r] else RebuildIdle
  }

  function EraserOf(s: Sys, a: Id): Eraser {
    if a in s.callers.erasers then s.callers.erasers[a] else EraserIdle
  }

  function SetWriter(s: Sys, a: Id, writer: Writer): Sys {
    s.(callers := s.callers.(writers := s.callers.writers[a := writer]))
  }

  function SetWorker(s: Sys, w: Id, worker: Worker): Sys {
    s.(projectors := s.projectors.(workers := s.projectors.workers[w := worker]))
  }

  function SetRebuild(s: Sys, r: Id, rebuild: Rebuild): Sys {
    s.(projectors := s.projectors.(rebuilds := s.projectors.rebuilds[r := rebuild]))
  }

  function SetEraser(s: Sys, a: Id, eraser: Eraser): Sys {
    s.(callers := s.callers.(erasers := s.callers.erasers[a := eraser]))
  }

  datatype ControlMove =
    | Tick(time: Time)
    | IssueGrant(grant: G.Grant)
    | RevokeGrant(scope: Scope, grantId: Id, revoker: string)
    | Suppress(fence: G.Fence)

  datatype WriterMove =
    | WriterAcquire(scope: Scope)
    | WriterCheck(purpose: string, at: Time)
    | WriterCommit(document: Document)
    | WriterRecord(id: Id)
    | WriterRelease

  datatype WorkerMove =
    | WorkerDiscover
    | WorkerClaim(skipped: set<Id>, order: seq<Q.Event>)
    | WorkerLoad(ok: bool)
    | WorkerAcquire
    | WorkerCheck
    | WorkerUpsert(written: bool, ok: bool)
    | WorkerComplete(ok: bool)
    | WorkerFail
    | WorkerCrash

  datatype RebuildMove = RebuildReset | RebuildDiscover | RebuildRequeue(at: Time) | RebuildCrash

  datatype EraserMove =
    | EraserBegin(requestId: Id, fenceId: Id, scope: Scope, reason: string, policy: string, requester: string,
                  key: string)
    | EraserDeleteProjection(kept: set<Id>, ok: bool)
    | EraserDeleteAuthority(ok: bool)
    | EraserComplete(report: G.Report, ok: bool)
    | EraserGiveUp(recorded: bool)

  datatype Step =
    | ByControl(control: ControlMove)
    | ByWriter(a: Id, writer: WriterMove)
    | ByWorker(w: Id, worker: WorkerMove)
    | ByRebuild(r: Id, rebuild: RebuildMove)
    | ByEraser(e: Id, eraser: EraserMove)

  /** No ordinary writer or worker holds the scope's lock in shared mode. */
  predicate LockFree(cfg: Config, s: Sys, scope: Scope) {
    && (forall a | a in s.callers.writers && s.callers.writers[a] != WriterIdle ::
        cfg.lockOf(s.callers.writers[a].scope) != cfg.lockOf(scope))
    && (forall w | w in s.projectors.workers
        && (s.projectors.workers[w].head.Locked? || s.projectors.workers[w].head.Entered?) ::
         cfg.lockOf(s.projectors.workers[w].head.document.event.scope) != cfg.lockOf(scope))
  }

  // ---------------------------------------------------------------- writers

  function Acquire(s: Sys, a: Id, scope: Scope): Sys {
    if WriterOf(s, a) != WriterIdle then s else SetWriter(s, a, WriterLocked(scope))
  }

  /** Inside the lock: fenced or ungranted callers are denied and release it. */
  function Check(s: Sys, a: Id, purpose: string, at: Time): Sys {
    if !WriterOf(s, a).WriterLocked? then s
    else
      var scope := WriterOf(s, a).scope;
      if scope in s.gov.fences || !G.Granted(s.gov, scope, purpose, at) then SetWriter(s, a, WriterIdle)
      else SetWriter(s, a, WriterEntered(scope))
  }

  /** A transaction of the entered scope commits a new revision and its outbox event; identifiers are fresh. */
  function Commit(s: Sys, a: Id, d: Document): Sys {
    if !WriterOf(s, a).WriterEntered? || d.event.scope != WriterOf(s, a).scope || d.event.id in s.history.log
       || exists id :: id in s.history.log && s.history.log[id].event.revisionId == d.event.revisionId then s
    else
      s.(store := s.store.(rows := s.store.rows[d.event.revisionId := d],
                           outbox := s.store.outbox[d.event.id := d.event]),
         history := s.history.(log := s.history.log[d.event.id := d]))
  }

  /** A transaction of the entered scope stores any other entity. */
  function Record(s: Sys, a: Id, id: Id): Sys {
    if !WriterOf(s, a).WriterEntered? || id in s.store.entities then s
    else s.(store := s.store.(entities := s.store.entities[id := WriterOf(s, a).scope]))
  }

  function Release(s: Sys, a: Id): Sys {
    if !WriterOf(s, a).WriterEntered? then s else SetWriter(s, a, WriterIdle)
  }

  // ---------------------------------------------------------------- workers

  function SetHead(s: Sys, w: Id, head: Head): Sys {
    SetWorker(s, w, WorkerOf(s, w).(head := head))
  }

  function Leases(s: Sys, taken: seq<Q.Event>): (r: seq<Leased>)
    ensures |r| == |taken|
  {
    seq(|taken|, i requires 0 <= i < |taken| =>
      Leased(Q.Item(taken[i], (if taken[i].id in s.queue.jobs then s.queue.jobs[taken[i].id].attempts else 0) + 1),
             s.history.step))
  }

  function Leasing(cfg: Config, s: Sys, w: Id, taken: seq<Q.Event>): Sys {
    SetWorker(s.(queue := Q.Lease(s.queue, taken, w, s.now + cfg.lease)),
              w, Worker(Leases(s, taken), Fresh, |taken|, 0, 0))
  }

  /** A worker claims only between runs: it has settled or dropped every earlier item. */
  function Claim(cfg: Config, s: Sys, w: Id, skipped: set<Id>, order: seq<Q.Event>): Sys {
    if WorkerOf(s, w).items != [] || !Q.Keyed(s.store.outbox) then s
    else
      var taken := Q.Claimed(s.queue, s.store.outbox, s.now, skipped, cfg.batch);
      Leasing(cfg, s, w, Q.Returned(taken, order))
  }

  predicate AtHead(s: Sys, w: Id) {
    WorkerOf(s, w).items != []
  }

  function HeadEvent(s: Sys, w: Id): Q.Event
    requires AtHead(s, w)
  {
    WorkerOf(s, w).items[0].item.event
  }

  /** `load_document` finds the revision in the item's scope or raises. */
  function Load(s: Sys, w: Id, ok: bool): Sys {
    if !AtHead(s, w) || !WorkerOf(s, w).head.Fresh? then s
    else
      var e := HeadEvent(s, w);
      if ok && e.revisionId in s.store.rows && s.store.rows[e.revisionId].event.scope == e.scope
         && s.store.rows[e.revisionId].event.recordId == e.recordId then
        SetHead(s, w, Loaded(s.store.rows[e.revisionId].(event := e)))
      else SetHead(s, w, Raised)
  }

  function LockShared(s: Sys, w: Id): Sys {
    if !WorkerOf(s, w).head.Loaded? then s else SetHead(s, w, Locked(WorkerOf(s, w).head.document))
  }

  function CheckFence(s: Sys, w: Id): Sys {
    if !WorkerOf(s, w).head.Locked? then s
    else
      var d := WorkerOf(s, w).head.document;
      if d.event.scope in s.gov.fences then SetHead(s, w, Raised) else SetHead(s, w, Entered(d))
  }

  /** The upsert, after which the worker leaves the context. A raising upsert may or may not have written. */
  function Upsert(s: Sys, w: Id, written: bool, ok: bool): Sys {
    if !WorkerOf(s, w).head.Entered? then s
    else
      var d := WorkerOf(s, w).head.document;
      SetHead(if ok || written then Writing(s, d) else s, w, if ok then Upserted(s.history.step) else Raised)
  }

  function Writing(s: Sys, d: Document): Sys {
    s.(projection := Projection(s.projection.documents[d.event.revisionId := d]),
       history := s.history.(written := s.history.written[d.event.revisionId := Write(d, s.history.step)]))
  }

  function Settled(worker: Worker, succeeded: bool): Worker
    requires worker.items != []
  {
    worker.(items := worker.items[1..], head := Fresh,
            succeeded := worker.succeeded + (if succeeded then 1 else 0),
            failed := worker.failed + (if succeeded then 0 else 1))
  }

  function CompleteItem(s: Sys, w: Id, ok: bool): Sys {
    if !AtHead(s, w) || !WorkerOf(s, w).head.Upserted? then s
    else
      var e := HeadEvent(s, w);
      var done := Q.Complete(s.queue, e, w, s.now);
      if !ok || done.Err? then SetHead(s, w, Raised)
      else
        SetWorker(
          s.(queue := done.value,
             history := s.history.(doneAt := s.history.doneAt[e.id := WorkerOf(s, w).head.at],
                                   completed := s.history.completed + [e.occurredAt])),
          w, Settled(WorkerOf(s, w), true))
  }

  /** Recording the failure; if the lease is lost this raises out of the run, which drops the remaining items. */
  function FailItem(cfg: Config, s: Sys, w: Id): Sys {
    if !AtHead(s, w) || !WorkerOf(s, w).head.Raised? then s
    else
      var item := WorkerOf(s, w).items[0].item;
      var failed := Q.Fail(s.queue, item.event, w, s.now + Q.Backoff(cfg.backoffBase, cfg.backoffCap, item.attempts),
                           item.attempts >= cfg.maxAttempts);
      if failed.Err? then SetWorker(s, w, IDLE)
      else SetWorker(s.(queue := failed.value), w, Settled(WorkerOf(s, w), false))
  }

  function DiscoverAll(s: Sys): Sys {
    s.(queue := Q.Discover(s.queue, s.store.outbox))
  }

  /** The process dies; its leases stay until they expire. */
  function Crash(s: Sys, w: Id): Sys {
    SetWorker(s, w, IDLE)
  }

  // ---------------------------------------------------------------- rebuilds

  function Reset(s: Sys, r: Id): Sys {
    if RebuildOf(s, r) != RebuildIdle then s
    else
      SetRebuild(s.(projection := Projection(map[]), history := s.history.(lastReset := s.history.step)),
                 r, ResetDone(s.history.step))
  }

  function Rediscover(s: Sys, r: Id): Sys {
    if !RebuildOf(s, r).ResetDone? then s
    else SetRebuild(DiscoverAll(s), r, DiscoverDone(RebuildOf(s, r).at))
  }

  /** The last step of a rebuild: it returns, and from here on its reset counts. */
  function RequeueAll(s: Sys, r: Id, at: Time): Sys {
    if !RebuildOf(s, r).DiscoverDone? then s
    else
      SetRebuild(
        s.(queue := Q.Requeue(s.queue, at),
           history := s.history.(floor := Max(s.history.floor, RebuildOf(s, r).at), completed := [])),
        r, RebuildIdle)
  }

  // ---------------------------------------------------------------- erasing callers

  /** `begin_erasure` runs under the exclusive lock, so it waits for every shared holder. */
  function Begin(cfg: Config, s: Sys, a: Id, requestId: Id, fenceId: Id, scope: Scope, reason: string, policy: string,
                 requestedBy: string, key: string): Sys
  {
    if EraserOf(s, a) != EraserIdle || !LockFree(cfg, s, scope) || requestId in s.gov.erasures then s
    else
      match G.BeginErasure(s.gov, requestId, fenceId, scope, reason, policy, requestedBy, key, s.now)
      case Err(_) => s
      case Ok((gov, request)) =>
        if request.status == G.Completed then s
        else SetEraser(s.(gov := gov), a, Begun(scope, request.id))
  }

  /** The projection deletes by scope. A raising delete may have removed some of the scope's documents. */
  function DeleteProjection(cfg: Config, s: Sys, a: Id, kept: set<Id>, ok: bool): Sys {
    if !EraserOf(s, a).Begun? then s
    else
      var scope, request := EraserOf(s, a).scope, EraserOf(s, a).request;
      var documents := s.projection.documents;
      var left := map id | id in documents && (documents[id].event.scope != scope || (!ok && id in kept)) ::
          documents[id];
      var t := if cfg.projected then s.(projection := Projection(left)) else s;
      if cfg.projected && !ok then t else SetEraser(t, a, ProjectionDeleted(scope, request))
  }

  /** The authority deletes in one transaction, outbox events and jobs included. */
  function DeleteAuthority(s: Sys, a: Id, ok: bool): Sys {
    if !EraserOf(s, a).ProjectionDeleted? || !ok then s
    else
      var scope, request := EraserOf(s, a).scope, EraserOf(s, a).request;
      var rows := map id | id in s.store.rows && s.store.rows[id].event.scope != scope :: s.store.rows[id];
      var outbox := map id | id in s.store.outbox && s.store.outbox[id].scope != scope :: s.store.outbox[id];
      var entities := map id | id in s.store.entities && s.store.entities[id] != scope :: s.store.entities[id];
      SetEraser(s.(store := Store(rows, outbox, entities), queue := Q.Cascade(s.queue, outbox)), a,
                AuthorityDeleted(scope, request))
  }

  function Finish(s: Sys, a: Id, report: G.Report, ok: bool): Sys {
    if !EraserOf(s, a).AuthorityDeleted? || !ok then s
    else
      match G.CompleteErasure(s.gov, EraserOf(s, a).scope, EraserOf(s, a).request, report, s.now)
      case Err(_) => s
      case Ok((gov, _)) => SetEraser(s.(gov := gov), a, EraserIdle)
  }

  /** A handler raised, or the caller died: the request stays pending. */
  function GiveUp(s: Sys, a: Id, recorded: bool): Sys {
    if EraserOf(s, a) == EraserIdle then s
    else
      var t := SetEraser(s, a, EraserIdle);
      match G.FailErasure(s.gov, EraserOf(s, a).scope, EraserOf(s, a).request, "raised")
      case Ok((gov, _)) => if recorded then t.(gov := gov) else t
      case Err(_) => t
  }

  // ---------------------------------------------------------------- runs

  function ControlEffect(cfg: Config, s: Sys, move: ControlMove): Sys {
    match move
    case Tick(time) => s.(now := Max(s.now, time))
    case IssueGrant(grant) =>
      if grant.id in s.gov.grants then s   // identifiers are fresh
      else (match G.IssueGrant(s.gov, grant) case Ok((gov, _)) => s.(gov := gov) case Err(_) => s)
    case RevokeGrant(scope, id, revoker) =>
      (match G.RevokeGrant(s.gov, scope, id, revoker, s.now) case Ok((gov, _)) => s.(gov := gov) case Err(_) => s)
    case Suppress(fence) => if LockFree(cfg, s, fence.scope) then s.(gov := G.Suppress(s.gov, fence)) else s
  }

  function WriterEffect(s: Sys, a: Id, move: WriterMove): Sys {
    match move
    case WriterAcquire(scope) => Acquire(s, a, scope)
    case WriterCheck(purpose, at) => Check(s, a, purpose, at)
    case WriterCommit(d) => Commit(s, a, d)
    case WriterRecord(id) => Record(s, a, id)
    case WriterRelease => Release(s, a)
  }

  function WorkerEffect(cfg: Config, s: Sys, w: Id, move: WorkerMove): Sys {
    match move
    case WorkerDiscover => DiscoverAll(s)
    case WorkerClaim(skipped, order) => Claim(cfg, s, w, skipped, order)
    case WorkerLoad(ok) => Load(s, w, ok)
    case WorkerAcquire => LockShared(s, w)
    case WorkerCheck => CheckFence(s, w)
    case WorkerUpsert(written, ok) => Upsert(s, w, written, ok)
    case WorkerComplete(ok) => CompleteItem(s, w, ok)
    case WorkerFail => FailItem(cfg, s, w)
    case WorkerCrash => Crash(s, w)
  }

  function RebuildEffect(s: Sys, r: Id, move: RebuildMove): Sys {
    match move
    case RebuildReset => Reset(s, r)
    case RebuildDiscover => Rediscover(s, r)
    case RebuildRequeue(at) => RequeueAll(s, r, at)
    case RebuildCrash => SetRebuild(s, r, RebuildIdle)
  }

  function EraserEffect(cfg: Config, s: Sys, a: Id, move: EraserMove): Sys {
    match move
    case EraserBegin(requestId, fenceId, scope, reason, policy, requester, key) =>
      Begin(cfg, s, a, requestId, fenceId, scope, reason, policy, requester, key)
    case EraserDeleteProjection(kept, ok) => DeleteProjection(cfg, s, a, kept, ok)
    case EraserDeleteAuthority(ok) => DeleteAuthority(s, a, ok)
    case EraserComplete(report, ok) => Finish(s, a, report, ok)
    case EraserGiveUp(recorded) => GiveUp(s, a, recorded)
  }

  function Effect(cfg: Config, s: Sys, step: Step): Sys {
    match step
    case ByControl(move) => ControlEffect(cfg, s, move)
    case ByWriter(a, move) => WriterEffect(s, a, move)
    case ByWorker(w, move) => WorkerEffect(cfg, s, w, move)
    case ByRebuild(r, move) => RebuildEffect(s, r, move)
    case ByEraser(a, move) => EraserEffect(cfg, s, a, move)
  }

  function Ticked(s: Sys): Sys {
    s.(history := s.history.(step := s.history.step + 1))
  }

  /** One step. A step that is not enabled, or a call that is refused, leaves everything but the step count. */
  function Next(cfg: Config, s: Sys, step: Step): Sys {
    Ticked(Effect(cfg, s, step))
  }

  function Run(cfg: Config, s: Sys, steps: seq<Step>): Sys
    decreases |steps|
  {
    if steps == [] then s else Next(cfg, Run(cfg, s, steps[..|steps| - 1]), steps[|steps| - 1])
  }
}
