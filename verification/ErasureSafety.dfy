/** Erasure has no resurrection: once a scope's erasure is completed, neither the authority nor the projection holds
    anything of it, in that state or any later one. */
module ErasureSafety {
  import opened Common
  import opened Protocol
  import G = Governance
  import Q = Queue

  ghost predicate AuthorityClear(s: Sys, scope: Scope) {
    && (forall id | id in s.store.rows :: s.store.rows[id].event.scope != scope)
    && (forall id | id in s.store.outbox :: s.store.outbox[id].scope != scope)
    && (forall id | id in s.store.entities :: s.store.entities[id] != scope)
  }

  ghost predicate ProjectionClear(s: Sys, scope: Scope) {
    forall id | id in s.projection.documents :: s.projection.documents[id].event.scope != scope
  }

  ghost predicate CompletedFor(s: Sys, scope: Scope) {
    exists id | id in s.gov.erasures :: s.gov.erasures[id].scope == scope && s.gov.erasures[id].status == G.Completed
  }

  /** Every request's scope is fenced, and the key index points at requests of the same scope. */
  ghost predicate RequestsFenced(s: Sys) {
    G.WellKeyed(s.gov) && forall id | id in s.gov.erasures :: s.gov.erasures[id].scope in s.gov.fences
  }

  /** Nobody is inside the context of a fenced scope. */
  ghost predicate FencedOut(s: Sys) {
    && (forall a | a in s.callers.writers && s.callers.writers[a].WriterEntered? ::
        s.callers.writers[a].scope !in s.gov.fences)
    && (forall w | w in s.projectors.workers && s.projectors.workers[w].head.Entered? ::
         s.projectors.workers[w].head.document.event.scope !in s.gov.fences)
  }

  ghost predicate EraserOk(cfg: Config, s: Sys, e: Eraser) {
    match e
    case EraserIdle => true
    case Begun(scope, r) => r in s.gov.erasures && s.gov.erasures[r].scope == scope
    case ProjectionDeleted(scope, r) =>
      r in s.gov.erasures && s.gov.erasures[r].scope == scope && (cfg.projected ==> ProjectionClear(s, scope))
    case AuthorityDeleted(scope, r) =>
      && r in s.gov.erasures && s.gov.erasures[r].scope == scope && (cfg.projected ==> ProjectionClear(s, scope))
      && AuthorityClear(s, scope)
  }

  ghost predicate CompletedClear(cfg: Config, s: Sys) {
    forall id | id in s.gov.erasures && s.gov.erasures[id].status == G.Completed ::
      AuthorityClear(s, s.gov.erasures[id].scope) && (cfg.projected ==> ProjectionClear(s, s.gov.erasures[id].scope))
  }

  ghost predicate Invariant(cfg: Config, s: Sys) {
    && RequestsFenced(s)
    && FencedOut(s)
    && (forall a | a in s.callers.erasers :: EraserOk(cfg, s, s.callers.erasers[a]))
    && CompletedClear(cfg, s)
    && (forall id | id in s.queue.jobs :: id in s.store.outbox)
  }

  /** What a step may do to fenced scopes' data without an eraser noticing: nothing new appears. */
  ghost predicate NothingAppears(s: Sys, t: Sys) {
    forall scope | scope in s.gov.fences ::
      (AuthorityClear(s, scope) ==> AuthorityClear(t, scope))
          && (ProjectionClear(s, scope) ==> ProjectionClear(t, scope))
  }

  /** A step that leaves the erasers, the requests and the fences alone keeps the invariant if nothing of a fenced
      scope appears and nobody enters one. */
  lemma QuietStepKeeps(cfg: Config, s: Sys, t: Sys)
    requires Invariant(cfg, s) && NothingAppears(s, t)
    requires t.callers.erasers == s.callers.erasers && t.gov.erasures == s.gov.erasures
             && t.gov.erasureKeys == s.gov.erasureKeys
    requires t.gov.fences == s.gov.fences && FencedOut(t)
    requires forall id | id in t.queue.jobs :: id in t.store.outbox
    ensures Invariant(cfg, t)
  {
    forall a | a in t.callers.erasers ensures EraserOk(cfg, t, t.callers.erasers[a]) {
      assert EraserOk(cfg, s, s.callers.erasers[a]);
    }
  }

  lemma CommitKeeps(cfg: Config, s: Sys, a: Id, d: Document)
    requires Invariant(cfg, s)
    ensures Invariant(cfg, Commit(s, a, d))
  {
    QuietStepKeeps(cfg, s, Commit(s, a, d));
  }

  lemma RecordKeeps(cfg: Config, s: Sys, a: Id, id: Id)
    requires Invariant(cfg, s)
    ensures Invariant(cfg, Record(s, a, id))
  {
    QuietStepKeeps(cfg, s, Record(s, a, id));
  }

  lemma SuppressKeeps(cfg: Config, s: Sys, fence: G.Fence)
    requires Invariant(cfg, s) && LockFree(cfg, s, fence.scope)
    ensures Invariant(cfg, s.(gov := G.Suppress(s.gov, fence)))
  {
    var t := s.(gov := G.Suppress(s.gov, fence));
    forall a | a in t.callers.erasers ensures EraserOk(cfg, t, t.callers.erasers[a]) {
      assert EraserOk(cfg, s, s.callers.erasers[a]);
    }
  }

  lemma ClearIsAboutData(s: Sys, t: Sys)
    requires t.store == s.store && t.projection == s.projection
    ensures forall scope :: AuthorityClear(s, scope) == AuthorityClear(t, scope)
    ensures forall scope :: ProjectionClear(s, scope) == ProjectionClear(t, scope)
  {
  }

  /** Recording a pending request of a fenced scope. */
  lemma RequestKeeps(cfg: Config, s: Sys, r: G.Erasure)
    requires Invariant(cfg, s) && r.scope in s.gov.fences && r.status == G.Pending && r.id !in s.gov.erasures
    ensures Invariant(cfg, s.(gov := s.gov.(erasures := s.gov.erasures[r.id := r],
                                            erasureKeys := s.gov.erasureKeys[(r.scope, r.key) := r.id])))
  {
    hide AuthorityClear, ProjectionClear;
    var t := s.(gov := s.gov.(erasures := s.gov.erasures[r.id := r],
                              erasureKeys := s.gov.erasureKeys[(r.scope, r.key) := r.id]));
    ClearIsAboutData(s, t);
    forall b | b in t.callers.erasers ensures EraserOk(cfg, t, t.callers.erasers[b]) {
      assert EraserOk(cfg, s, s.callers.erasers[b]);
    }
  }

  /** Planting the fence and recording the request, apart from who asked. */
  lemma PlantKeeps(cfg: Config, s: Sys, requestId: Id, fenceId: Id, scope: Scope, reason: string, policy: string,
                   requestedBy: string, key: string)
    requires Invariant(cfg, s) && LockFree(cfg, s, scope) && requestId !in s.gov.erasures
    requires G.BeginErasure(s.gov, requestId, fenceId, scope, reason, policy, requestedBy, key, s.now).Ok?
    ensures var (gov, request) :=
              G.BeginErasure(s.gov, requestId, fenceId, scope, reason, policy, requestedBy, key, s.now).value;
            && Invariant(cfg, s.(gov := gov))
            && request.id in gov.erasures && gov.erasures[request.id] == request && request.scope == scope
  {
    var (gov, request) :=
      G.BeginErasure(s.gov, requestId, fenceId, scope, reason, policy, requestedBy, key, s.now).value;
    if (scope, key) in s.gov.erasureKeys {
      var id := s.gov.erasureKeys[(scope, key)];
      assert id in s.gov.erasures && s.gov.erasures[id].id == id;
    } else {
      var fence := G.Fence(fenceId, scope, reason, policy, requestedBy, "erasure:" + key, s.now);
      SuppressKeeps(cfg, s, fence);
      RequestKeeps(cfg, s.(gov := G.Suppress(s.gov, fence)), request);
    }
  }

  lemma BeginKeeps(cfg: Config, s: Sys, a: Id, requestId: Id, fenceId: Id, scope: Scope, reason: string,
                   policy: string, requestedBy: string, key: string)
    requires Invariant(cfg, s)
    ensures Invariant(cfg, Begin(cfg, s, a, requestId, fenceId, scope, reason, policy, requestedBy, key))
  {
    var t := Begin(cfg, s, a, requestId, fenceId, scope, reason, policy, requestedBy, key);
    if t != s {
      PlantKeeps(cfg, s, requestId, fenceId, scope, reason, policy, requestedBy, key);
      var planted := s.(gov := t.gov);
      forall b | b in t.callers.erasers ensures EraserOk(cfg, t, t.callers.erasers[b]) {
        if b != a {
          assert EraserOk(cfg, planted, planted.callers.erasers[b]);
        }
      }
    }
  }

  lemma DeleteProjectionKeeps(cfg: Config, s: Sys, a: Id, kept: set<Id>, ok: bool)
    requires Invariant(cfg, s)
    ensures Invariant(cfg, DeleteProjection(cfg, s, a, kept, ok))
  {
    var t := DeleteProjection(cfg, s, a, kept, ok);
    forall b | b in t.callers.erasers ensures EraserOk(cfg, t, t.callers.erasers[b]) {
      if b in s.callers.erasers {
        assert EraserOk(cfg, s, s.callers.erasers[b]);
      }
    }
  }

  lemma DeleteAuthorityKeeps(cfg: Config, s: Sys, a: Id, ok: bool)
    requires Invariant(cfg, s)
    ensures Invariant(cfg, DeleteAuthority(s, a, ok))
  {
    var t := DeleteAuthority(s, a, ok);
    forall b | b in t.callers.erasers ensures EraserOk(cfg, t, t.callers.erasers[b]) {
      if b in s.callers.erasers {
        assert EraserOk(cfg, s, s.callers.erasers[b]);
      }
    }
  }

  lemma FinishKeeps(cfg: Config, s: Sys, a: Id, report: G.Report, ok: bool)
    requires Invariant(cfg, s)
    ensures Invariant(cfg, Finish(s, a, report, ok))
  {
    var t := Finish(s, a, report, ok);
    if EraserOf(s, a) != EraserIdle {
      assert EraserOk(cfg, s, s.callers.erasers[a]);
    }
    forall b | b in t.callers.erasers ensures EraserOk(cfg, t, t.callers.erasers[b]) {
      if b in s.callers.erasers {
        assert EraserOk(cfg, s, s.callers.erasers[b]);
      }
    }
  }

  /** Giving up leaves every fence standing, and a pending request pending. */
  lemma GiveUpKeeps(cfg: Config, s: Sys, a: Id, recorded: bool)
    requires Invariant(cfg, s)
    ensures Invariant(cfg, GiveUp(s, a, recorded)) && EraserOf(GiveUp(s, a, recorded), a) == EraserIdle
    ensures GiveUp(s, a, recorded).gov.fences == s.gov.fences
    ensures forall id | id in s.gov.erasures ::
              && id in GiveUp(s, a, recorded).gov.erasures
              && GiveUp(s, a, recorded).gov.erasures[id].status == s.gov.erasures[id].status
              && GiveUp(s, a, recorded).gov.erasures[id].scope == s.gov.erasures[id].scope
  {
    var t := GiveUp(s, a, recorded);
    forall b | b in t.callers.erasers ensures EraserOk(cfg, t, t.callers.erasers[b]) {
      if b in s.callers.erasers {
        assert EraserOk(cfg, s, s.callers.erasers[b]);
      }
    }
  }

  /** A step of one worker that touches no data: it may not enter a fenced scope. */
  lemma WorkerMoves(cfg: Config, s: Sys, t: Sys, w: Id, x: Worker)
    requires Invariant(cfg, s)
    requires t == SetWorker(s, w, x).(queue := t.queue, history := t.history)
    requires t.queue.jobs.Keys == s.queue.jobs.Keys
    requires x.head.Entered? ==> x.head.document.event.scope !in s.gov.fences
    ensures Invariant(cfg, t)
  {
    assert forall id | id in t.queue.jobs :: id in t.queue.jobs.Keys;
    assert forall v | v in t.projectors.workers :: v == w || t.projectors.workers[v] == s.projectors.workers[v];
    QuietStepKeeps(cfg, s, t);
  }

  /** The same for a writer. */
  lemma WriterMoves(cfg: Config, s: Sys, a: Id, x: Writer)
    requires Invariant(cfg, s)
    requires x.WriterEntered? ==> x.scope !in s.gov.fences
    ensures Invariant(cfg, SetWriter(s, a, x))
  {
    var t := SetWriter(s, a, x);
    assert forall b | b in t.callers.writers :: b == a || t.callers.writers[b] == s.callers.writers[b];
    QuietStepKeeps(cfg, s, t);
  }

  lemma ClaimKeeps(cfg: Config, s: Sys, w: Id, skipped: set<Id>, order: seq<Q.Event>)
    requires Invariant(cfg, s)
    ensures Invariant(cfg, Claim(cfg, s, w, skipped, order))
  {
    var t := Claim(cfg, s, w, skipped, order);
    if t != s {
      WorkerMoves(cfg, s, t, w, t.projectors.workers[w]);
    }
  }

  lemma HeadKeeps(cfg: Config, s: Sys, w: Id, head: Head)
    requires Invariant(cfg, s)
    requires head.Entered? ==> head.document.event.scope !in s.gov.fences
    ensures Invariant(cfg, SetHead(s, w, head))
  {
    WorkerMoves(cfg, s, SetHead(s, w, head), w, WorkerOf(s, w).(head := head));
  }

  lemma LoadKeeps(cfg: Config, s: Sys, w: Id, ok: bool)
    requires Invariant(cfg, s)
    ensures Invariant(cfg, Load(s, w, ok))
  {
    var t := Load(s, w, ok);
    if t != s {
      HeadKeeps(cfg, s, w, t.projectors.workers[w].head);
    }
  }

  lemma LockSharedKeeps(cfg: Config, s: Sys, w: Id)
    requires Invariant(cfg, s)
    ensures Invariant(cfg, LockShared(s, w))
  {
    if WorkerOf(s, w).head.Loaded? {
      HeadKeeps(cfg, s, w, Locked(WorkerOf(s, w).head.document));
    }
  }

  lemma CheckFenceKeeps(cfg: Config, s: Sys, w: Id)
    requires Invariant(cfg, s)
    ensures Invariant(cfg, CheckFence(s, w))
  {
    if WorkerOf(s, w).head.Locked? {
      var d := WorkerOf(s, w).head.document;
      HeadKeeps(cfg, s, w, if d.event.scope in s.gov.fences then Raised else Entered(d));
    }
  }

  lemma WritingKeeps(cfg: Config, s: Sys, d: Document)
    requires Invariant(cfg, s) && d.event.scope !in s.gov.fences
    ensures Invariant(cfg, Writing(s, d))
  {
    QuietStepKeeps(cfg, s, Writing(s, d));
  }

  lemma UpsertKeeps(cfg: Config, s: Sys, w: Id, written: bool, ok: bool)
    requires Invariant(cfg, s)
    ensures Invariant(cfg, Upsert(s, w, written, ok))
  {
    if WorkerOf(s, w).head.Entered? {
      var d := WorkerOf(s, w).head.document;
      assert d.event.scope !in s.gov.fences;
      var t := if ok || written then Writing(s, d) else s;
      WritingKeeps(cfg, s, d);
      HeadKeeps(cfg, t, w, if ok then Upserted(s.history.step) else Raised);
    }
  }

  lemma CompleteItemKeeps(cfg: Config, s: Sys, w: Id, ok: bool)
    requires Invariant(cfg, s)
    ensures Invariant(cfg, CompleteItem(s, w, ok))
  {
    var t := CompleteItem(s, w, ok);
    if t != s {
      WorkerMoves(cfg, s, t, w, t.projectors.workers[w]);
    }
  }

  lemma FailItemKeeps(cfg: Config, s: Sys, w: Id)
    requires Invariant(cfg, s)
    ensures Invariant(cfg, FailItem(cfg, s, w))
  {
    if AtHead(s, w) && WorkerOf(s, w).head.Raised? {
      var t := FailItem(cfg, s, w);
      if Q.Holds(s.queue, HeadEvent(s, w).id, w) {
        WorkerMoves(cfg, s, t, w, Settled(WorkerOf(s, w), false));
      } else {
        WorkerMoves(cfg, s, t, w, IDLE);
      }
    }
  }

  lemma CheckKeeps(cfg: Config, s: Sys, a: Id, purpose: string, at: Time)
    requires Invariant(cfg, s)
    ensures Invariant(cfg, Check(s, a, purpose, at))
  {
    if WriterOf(s, a).WriterLocked? {
      var scope := WriterOf(s, a).scope;
      if scope in s.gov.fences || !G.Granted(s.gov, scope, purpose, at) {
        WriterMoves(cfg, s, a, WriterIdle);
      } else {
        WriterMoves(cfg, s, a, WriterEntered(scope));
      }
    }
  }

  lemma RebuildKeeps(cfg: Config, s: Sys, r: Id, move: RebuildMove)
    requires Invariant(cfg, s)
    ensures Invariant(cfg, RebuildEffect(s, r, move))
  {
    var t := RebuildEffect(s, r, move);
    assert NothingAppears(s, t) && FencedOut(t);
    QuietStepKeeps(cfg, s, t);
  }

  lemma GrantKeeps(cfg: Config, s: Sys, gov: G.Gov)
    requires Invariant(cfg, s)
    requires gov.fences == s.gov.fences && gov.erasures == s.gov.erasures && gov.erasureKeys == s.gov.erasureKeys
    ensures Invariant(cfg, s.(gov := gov))
  {
    QuietStepKeeps(cfg, s, s.(gov := gov));
  }

  lemma ControlKeeps(cfg: Config, s: Sys, move: ControlMove)
    requires Invariant(cfg, s)
    ensures Invariant(cfg, ControlEffect(cfg, s, move))
  {
    match move
    case Tick(time) => QuietStepKeeps(cfg, s, s.(now := Max(s.now, time)));
    case IssueGrant(grant) =>
      var r := G.IssueGrant(s.gov, grant);
      if r.Ok? {
        GrantKeeps(cfg, s, r.value.0);
      }
    case RevokeGrant(scope, id, revoker) =>
      var r := G.RevokeGrant(s.gov, scope, id, revoker, s.now);
      if r.Ok? {
        GrantKeeps(cfg, s, r.value.0);
      }
    case Suppress(fence) =>
      if LockFree(cfg, s, fence.scope) {
        SuppressKeeps(cfg, s, fence);
      }
  }

  lemma WriterKeeps(cfg: Config, s: Sys, a: Id, move: WriterMove)
    requires Invariant(cfg, s)
    ensures Invariant(cfg, WriterEffect(s, a, move))
  {
    match move
    case WriterAcquire(scope) => WriterMoves(cfg, s, a, WriterLocked(scope));
    case WriterCheck(purpose, at) => CheckKeeps(cfg, s, a, purpose, at);
    case WriterCommit(d) => CommitKeeps(cfg, s, a, d);
    case WriterRecord(id) => RecordKeeps(cfg, s, a, id);
    case WriterRelease => WriterMoves(cfg, s, a, WriterIdle);
  }

  lemma WorkerKeeps(cfg: Config, s: Sys, w: Id, move: WorkerMove)
    requires Invariant(cfg, s)
    ensures Invariant(cfg, WorkerEffect(cfg, s, w, move))
  {
    match move
    case WorkerDiscover => QuietStepKeeps(cfg, s, DiscoverAll(s));
    case WorkerClaim(skipped, order) => ClaimKeeps(cfg, s, w, skipped, order);
    case WorkerLoad(ok) => LoadKeeps(cfg, s, w, ok);
    case WorkerAcquire => LockSharedKeeps(cfg, s, w);
    case WorkerCheck => CheckFenceKeeps(cfg, s, w);
    case WorkerUpsert(written, ok) => UpsertKeeps(cfg, s, w, written, ok);
    case WorkerComplete(ok) => CompleteItemKeeps(cfg, s, w, ok);
    case WorkerFail => FailItemKeeps(cfg, s, w);
    case WorkerCrash => WorkerMoves(cfg, s, Crash(s, w), w, IDLE);
  }

  lemma EraserKeeps(cfg: Config, s: Sys, a: Id, move: EraserMove)
    requires Invariant(cfg, s)
    ensures Invariant(cfg, EraserEffect(cfg, s, a, move))
  {
    match move
    case EraserBegin(requestId, fenceId, scope, reason, policy, requester, key) =>
      BeginKeeps(cfg, s, a, requestId, fenceId, scope, reason, policy, requester, key);
    case EraserDeleteProjection(kept, ok) => DeleteProjectionKeeps(cfg, s, a, kept, ok);
    case EraserDeleteAuthority(ok) => DeleteAuthorityKeeps(cfg, s, a, ok);
    case EraserComplete(report, ok) => FinishKeeps(cfg, s, a, report, ok);
    case EraserGiveUp(recorded) => GiveUpKeeps(cfg, s, a, recorded);
  }

  lemma EffectKeeps(cfg: Config, s: Sys, step: Step)
    requires Invariant(cfg, s)
    ensures Invariant(cfg, Effect(cfg, s, step))
  {
    match step
    case ByControl(move) => ControlKeeps(cfg, s, move);
    case ByWriter(a, move) => WriterKeeps(cfg, s, a, move);
    case ByWorker(w, move) => WorkerKeeps(cfg, s, w, move);
    case ByRebuild(r, move) => RebuildKeeps(cfg, s, r, move);
    case ByEraser(a, move) => EraserKeeps(cfg, s, a, move);
  }

  lemma NextKeeps(cfg: Config, s: Sys, step: Step)
    requires Invariant(cfg, s)
    ensures Invariant(cfg, Next(cfg, s, step))
  {
    EffectKeeps(cfg, s, step);
    var t := Effect(cfg, s, step);
    QuietStepKeeps(cfg, t, Next(cfg, s, step));
  }

  ghost predicate KeepsCompleted(g: G.Gov, h: G.Gov) {
    forall id | id in g.erasures && g.erasures[id].status == G.Completed ::
      id in h.erasures && h.erasures[id] == g.erasures[id]
  }

  lemma CompletingLeavesGovernance(s: Sys, w: Id, ok: bool)
    ensures CompleteItem(s, w, ok).gov == s.gov
  {
  }

  lemma FailingLeavesGovernance(cfg: Config, s: Sys, w: Id)
    ensures FailItem(cfg, s, w).gov == s.gov
  {
  }

  lemma WorkersLeaveGovernance(cfg: Config, s: Sys, w: Id, move: WorkerMove)
    ensures WorkerEffect(cfg, s, w, move).gov == s.gov
  {
    match move
    case WorkerDiscover => assert DiscoverAll(s).gov == s.gov;
    case WorkerClaim(skipped, order) => assert Claim(cfg, s, w, skipped, order).gov == s.gov;
    case WorkerLoad(ok) => assert Load(s, w, ok).gov == s.gov;
    case WorkerAcquire => assert LockShared(s, w).gov == s.gov;
    case WorkerCheck => assert CheckFence(s, w).gov == s.gov;
    case WorkerUpsert(written, ok) => assert Upsert(s, w, written, ok).gov == s.gov;
    case WorkerComplete(ok) => CompletingLeavesGovernance(s, w, ok);
    case WorkerFail => FailingLeavesGovernance(cfg, s, w);
    case WorkerCrash => assert Crash(s, w).gov == s.gov;
  }

  lemma WritersLeaveGovernance(s: Sys, a: Id, move: WriterMove)
    ensures WriterEffect(s, a, move).gov == s.gov
  {
    match move
    case WriterAcquire(scope) => assert Acquire(s, a, scope).gov == s.gov;
    case WriterCheck(purpose, at) => assert Check(s, a, purpose, at).gov == s.gov;
    case WriterCommit(d) => assert Commit(s, a, d).gov == s.gov;
    case WriterRecord(id) => assert Record(s, a, id).gov == s.gov;
    case WriterRelease => assert Release(s, a).gov == s.gov;
  }

  lemma RebuildsLeaveGovernance(s: Sys, r: Id, move: RebuildMove)
    ensures RebuildEffect(s, r, move).gov == s.gov
  {
  }

  lemma ControlKeepsCompleted(cfg: Config, s: Sys, move: ControlMove)
    ensures ControlEffect(cfg, s, move).gov.erasures == s.gov.erasures
  {
  }

  lemma BeginKeepsCompleted(cfg: Config, s: Sys, a: Id, requestId: Id, fenceId: Id, scope: Scope, reason: string,
                            policy: string, requestedBy: string, key: string)
    ensures KeepsCompleted(s.gov, Begin(cfg, s, a, requestId, fenceId, scope, reason, policy, requestedBy, key).gov)
  {
  }

  lemma GiveUpKeepsCompleted(s: Sys, a: Id, recorded: bool)
    ensures KeepsCompleted(s.gov, GiveUp(s, a, recorded).gov)
  {
  }

  lemma FinishKeepsCompleted(s: Sys, a: Id, report: G.Report, ok: bool)
    ensures KeepsCompleted(s.gov, Finish(s, a, report, ok).gov)
  {
  }

  lemma ErasersKeepCompleted(cfg: Config, s: Sys, a: Id, move: EraserMove)
    ensures KeepsCompleted(s.gov, EraserEffect(cfg, s, a, move).gov)
  {
    match move
    case EraserBegin(requestId, fenceId, scope, reason, policy, requester, key) =>
      BeginKeepsCompleted(cfg, s, a, requestId, fenceId, scope, reason, policy, requester, key);
    case EraserDeleteProjection(kept, ok) => assert DeleteProjection(cfg, s, a, kept, ok).gov == s.gov;
    case EraserDeleteAuthority(ok) => assert DeleteAuthority(s, a, ok).gov == s.gov;
    case EraserComplete(report, ok) => FinishKeepsCompleted(s, a, report, ok);
    case EraserGiveUp(recorded) => GiveUpKeepsCompleted(s, a, recorded);
  }

  /** Erasure requests that were completed stay as they are. */
  lemma EffectKeepsCompleted(cfg: Config, s: Sys, step: Step)
    ensures KeepsCompleted(s.gov, Effect(cfg, s, step).gov)
  {
    match step
    case ByControl(move) => ControlKeepsCompleted(cfg, s, move);
    case ByWriter(a, move) => WritersLeaveGovernance(s, a, move);
    case ByWorker(w, move) => WorkersLeaveGovernance(cfg, s, w, move);
    case ByRebuild(r, move) => RebuildsLeaveGovernance(s, r, move);
    case ByEraser(a, move) => ErasersKeepCompleted(cfg, s, a, move);
  }

  lemma {:induction false} RunKeeps(cfg: Config, s: Sys, steps: seq<Step>)
    requires Invariant(cfg, s)
    ensures Invariant(cfg, Run(cfg, s, steps))
    decreases |steps|
  {
    if steps != [] {
      RunKeeps(cfg, s, steps[..|steps| - 1]);
      NextKeeps(cfg, Run(cfg, s, steps[..|steps| - 1]), steps[|steps| - 1]);
    }
  }

  lemma {:induction false} RunKeepsCompleted(cfg: Config, s: Sys, steps: seq<Step>)
    ensures KeepsCompleted(s.gov, Run(cfg, s, steps).gov)
    decreases |steps|
  {
    if steps != [] {
      RunKeepsCompleted(cfg, s, steps[..|steps| - 1]);
      EffectKeepsCompleted(cfg, Run(cfg, s, steps[..|steps| - 1]), steps[|steps| - 1]);
    }
  }

  /** Nothing of the scope is left: no revision, no outbox event, no other entity, no job, and no document if the
      erasing application has the projection. */
  ghost predicate Erased(cfg: Config, s: Sys, scope: Scope) {
    && AuthorityClear(s, scope)
    && (forall id | id in s.queue.jobs :: id in s.store.outbox && s.store.outbox[id].scope != scope)
    && (cfg.projected ==> ProjectionClear(s, scope))
  }

  lemma InvariantErases(cfg: Config, s: Sys, scope: Scope)
    requires Invariant(cfg, s) && CompletedFor(s, scope)
    ensures Erased(cfg, s, scope) && scope in s.gov.fences
  {
  }

  /** No resurrection. Take any run, with any number of actors interleaved and any failures and retries; if the
      scope's erasure is completed after it, the scope is erased there and after every continuation. */
  lemma NoResurrection(cfg: Config, steps: seq<Step>, more: seq<Step>, scope: Scope)
    requires CompletedFor(Run(cfg, INIT, steps), scope)
    ensures Erased(cfg, Run(cfg, INIT, steps), scope)
    ensures Erased(cfg, Run(cfg, Run(cfg, INIT, steps), more), scope)
  {
    RunKeeps(cfg, INIT, steps);
    var s := Run(cfg, INIT, steps);
    var id :| id in s.gov.erasures && s.gov.erasures[id].scope == scope && s.gov.erasures[id].status == G.Completed;
    InvariantErases(cfg, s, scope);
    RunKeeps(cfg, s, more);
    RunKeepsCompleted(cfg, s, more);
    InvariantErases(cfg, Run(cfg, s, more), scope);
  }

  // ---------------------------------------------------------------- progress

  /** The key is new, or leads to a pending request with the same reason and policy: a retry. */
  ghost predicate NewOrPending(g: G.Gov, scope: Scope, reason: string, policy: string, key: string) {
    (scope, key) in g.erasureKeys && g.erasureKeys[(scope, key)] in g.erasures ==>
      var request := g.erasures[g.erasureKeys[(scope, key)]];
      request.status == G.Pending && request.reason == reason && request.policyVersion == policy
  }

  /** The request an erasure under the key works on: the one found under it, or a new one. */
  function RequestFor(g: G.Gov, scope: Scope, key: string, requestId: Id): Id {
    if (scope, key) in g.erasureKeys then g.erasureKeys[(scope, key)] else requestId
  }

  lemma BeginProgresses(cfg: Config, s: Sys, a: Id, requestId: Id, fenceId: Id, scope: Scope, reason: string,
                        policy: string, requester: string, key: string)
    requires Invariant(cfg, s) && EraserOf(s, a) == EraserIdle && LockFree(cfg, s, scope)
    requires requestId !in s.gov.erasures && NewOrPending(s.gov, scope, reason, policy, key)
    ensures EraserOf(Next(cfg, s, ByEraser(a, EraserBegin(requestId, fenceId, scope, reason, policy, requester, key))),
                     a)
            == Begun(scope, RequestFor(s.gov, scope, key, requestId))
  {
    if (scope, key) in s.gov.erasureKeys {
      var id := s.gov.erasureKeys[(scope, key)];
      assert s.gov.erasures[id].id == id;
    }
  }

  lemma DeletesProgress(cfg: Config, s: Sys, a: Id)
    requires EraserOf(s, a).Begun?
    ensures var t := Next(cfg, s, ByEraser(a, EraserDeleteProjection({}, true)));
            var u := Next(cfg, t, ByEraser(a, EraserDeleteAuthority(true)));
            EraserOf(u, a) == AuthorityDeleted(EraserOf(s, a).scope, EraserOf(s, a).request)
  {
    var t := Next(cfg, s, ByEraser(a, EraserDeleteProjection({}, true)));
    assert EraserOf(t, a) == ProjectionDeleted(EraserOf(s, a).scope, EraserOf(s, a).request);
  }

  lemma FinishProgresses(cfg: Config, s: Sys, a: Id, report: G.Report)
    requires Invariant(cfg, s) && EraserOf(s, a).AuthorityDeleted?
    ensures var t := Next(cfg, s, ByEraser(a, EraserComplete(report, true)));
            && EraserOf(s, a).request in t.gov.erasures
            && t.gov.erasures[EraserOf(s, a).request].scope == EraserOf(s, a).scope
            && t.gov.erasures[EraserOf(s, a).request].status == G.Completed
  {
    assert EraserOk(cfg, s, s.callers.erasers[a]);
    var t := Next(cfg, s, ByEraser(a, EraserComplete(report, true)));
    var id := EraserOf(s, a).request;
    assert id in t.gov.erasures && t.gov.erasures[id].scope == EraserOf(s, a).scope
        && t.gov.erasures[id].status == G.Completed;
  }

  /** An erasure whose handlers succeed completes its request, new or retried: from any state the invariant allows, once
      nobody holds the scope's lock. Safety above is therefore not about erasures that never finish. */
  lemma ErasureCompletes(cfg: Config, s: Sys, a: Id, requestId: Id, fenceId: Id, scope: Scope, reason: string,
                         policy: string, requester: string, key: string, report: G.Report)
    requires Invariant(cfg, s) && EraserOf(s, a) == EraserIdle && LockFree(cfg, s, scope)
    requires requestId !in s.gov.erasures && NewOrPending(s.gov, scope, reason, policy, key)
    ensures var begun := Next(cfg, s,
                              ByEraser(a, EraserBegin(requestId, fenceId, scope, reason, policy, requester, key)));
            var t := Next(cfg, begun, ByEraser(a, EraserDeleteProjection({}, true)));
            var u := Next(cfg, t, ByEraser(a, EraserDeleteAuthority(true)));
            var done := Next(cfg, u, ByEraser(a, EraserComplete(report, true))).gov;
            var id := RequestFor(s.gov, scope, key, requestId);
            id in done.erasures && done.erasures[id].scope == scope && done.erasures[id].status == G.Completed
  {
    var begin := ByEraser(a, EraserBegin(requestId, fenceId, scope, reason, policy, requester, key));
    BeginProgresses(cfg, s, a, requestId, fenceId, scope, reason, policy, requester, key);
    NextKeeps(cfg, s, begin);
    var begun := Next(cfg, s, begin);
    DeletesProgress(cfg, begun, a);
    NextKeeps(cfg, begun, ByEraser(a, EraserDeleteProjection({}, true)));
    var t := Next(cfg, begun, ByEraser(a, EraserDeleteProjection({}, true)));
    NextKeeps(cfg, t, ByEraser(a, EraserDeleteAuthority(true)));
    FinishProgresses(cfg, Next(cfg, t, ByEraser(a, EraserDeleteAuthority(true))), a, report);
  }
}
