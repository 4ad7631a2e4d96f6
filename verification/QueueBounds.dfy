/** How often jobs can be claimed: while no lease expires, nothing is requeued and no new event arrives, at most
    (number of events) x (maximum attempts) claims are possible. */
module QueueBounds {
  import opened Common
  import opened Protocol
  import Q = Queue
  import opened Sums
  import opened RebuildSafety

  /** How many claims the event can still cause. */
  function Left(q: Q.JobTable, maxAttempts: nat, id: Id): (n: nat)
    ensures n <= maxAttempts
  {
    if id !in q.jobs then maxAttempts
    else
      var j := q.jobs[id];
      if j.status == Q.Succeeded || j.status == Q.DeadLetter then 0
      else Max(0, maxAttempts - Max(0, j.attempts))
  }

  function LeftOf(q: Q.JobTable, maxAttempts: nat): Id -> int {
    id => Left(q, maxAttempts, id)
  }

  /** The claims the events of a set can still cause. */
  ghost function Budget(q: Q.JobTable, maxAttempts: nat, ids: set<Id>): int {
    Sum(ids, LeftOf(q, maxAttempts))
  }

  /** Spending one claim on each event of a sequence of different ones. */
  lemma {:induction false} Spending(q: Q.JobTable, r: Q.JobTable, maxAttempts: nat, ids: set<Id>, taken: seq<Q.Event>)
    requires forall i, j | 0 <= i < j < |taken| :: taken[i].id != taken[j].id
    requires forall i | 0 <= i < |taken| ::
               taken[i].id in ids
               && Left(r, maxAttempts, taken[i].id) + 1 <= Left(q, maxAttempts, taken[i].id)
    requires forall id | id in ids && id !in Q.EventIds(taken) :: Left(r, maxAttempts, id) <= Left(q, maxAttempts, id)
    ensures Budget(r, maxAttempts, ids) + |taken| <= Budget(q, maxAttempts, ids)
    decreases |taken|
  {
    if taken == [] {
      SumIsMonotone(ids, ids, LeftOf(r, maxAttempts), LeftOf(q, maxAttempts));
    } else {
      var id, rest := taken[0].id, taken[1..];
      SumWithout(ids, LeftOf(q, maxAttempts), id);
      SumWithout(ids, LeftOf(r, maxAttempts), id);
      forall x | x in ids - {id} && x !in Q.EventIds(rest) ensures Left(r, maxAttempts, x) <= Left(q, maxAttempts, x) {
        if x in Q.EventIds(taken) {
          var i :| 0 <= i < |taken| && taken[i].id == x;
          assert rest[i - 1].id == x;
        }
      }
      Spending(q, r, maxAttempts, ids - {id}, rest);
    }
  }

  /** No new event, no requeue, and no lease that a claim could find expired. */
  ghost predicate Undisturbed(s: Sys, step: Step) {
    && !(step.ByWriter? && step.writer.WriterCommit?)
    && !(step.ByRebuild? && step.rebuild.RebuildRequeue?)
    && (step.ByWorker? && step.worker.WorkerClaim? ==>
         forall id | id in s.queue.jobs && s.queue.jobs[id].leaseUntil.Some? ::
             s.now < s.queue.jobs[id].leaseUntil.value)
  }

  ghost predicate UndisturbedRun(cfg: Config, s: Sys, steps: seq<Step>)
    decreases |steps|
  {
    steps != [] ==>
      var init := steps[..|steps| - 1];
      UndisturbedRun(cfg, s, init) && Undisturbed(Run(cfg, s, init), steps[|steps| - 1])
  }

  /** How many jobs a step claims. */
  function ClaimedBy(cfg: Config, s: Sys, step: Step): nat {
    if step.ByWorker? && step.worker.WorkerClaim? && WorkerOf(s, step.w).items == [] && Q.Keyed(s.store.outbox) then
      |Q.Claimed(s.queue, s.store.outbox, s.now, step.worker.skipped, cfg.batch)|
    else 0
  }

  function ClaimsIn(cfg: Config, s: Sys, steps: seq<Step>): nat
    decreases |steps|
  {
    if steps == [] then 0
    else
      var init := steps[..|steps| - 1];
      ClaimsIn(cfg, s, init) + ClaimedBy(cfg, Run(cfg, s, init), steps[|steps| - 1])
  }

  ghost function BudgetOf(cfg: Config, s: Sys): int {
    Budget(s.queue, Max(0, cfg.maxAttempts), s.store.outbox.Keys)
  }

  /** The events stay or go, and none has more left than before. */
  ghost predicate NothingRegained(cfg: Config, s: Sys, t: Sys) {
    forall id | id in t.store.outbox :: id in s.store.outbox &&
      Left(t.queue, Max(0, cfg.maxAttempts), id) <= Left(s.queue, Max(0, cfg.maxAttempts), id)
  }

  /** A job of a stored event that no worker has. */
  predicate Waiting(s: Sys, id: Id) {
    && id in s.store.outbox && id in s.queue.jobs
    && (s.queue.jobs[id].status == Q.Pending || s.queue.jobs[id].status == Q.Failed)
  }

  lemma LeasingSpends(cfg: Config, s: Sys, w: Id, taken: seq<Q.Event>)
    requires Invariant(cfg, s)
    requires forall i | 0 <= i < |taken| :: Waiting(s, taken[i].id)
    requires forall i, j | 0 <= i < j < |taken| :: taken[i].id != taken[j].id
    requires cfg.maxAttempts >= 1
    ensures BudgetOf(cfg, Leasing(cfg, s, w, taken)) + |taken| <= BudgetOf(cfg, s)
  {
    var t := Leasing(cfg, s, w, taken);
    forall i | 0 <= i < |taken|
      ensures Left(t.queue, cfg.maxAttempts, taken[i].id) + 1 <= Left(s.queue, cfg.maxAttempts, taken[i].id)
    {
      assert taken[i].id in Q.EventIds(taken);
      assert RowOk(cfg.maxAttempts, s.queue.jobs[taken[i].id]);
    }
    Spending(s.queue, t.queue, cfg.maxAttempts, s.store.outbox.Keys, taken);
  }

  lemma ClaimSpends(cfg: Config, s: Sys, w: Id, skipped: set<Id>, order: seq<Q.Event>)
    requires Invariant(cfg, s) && cfg.maxAttempts >= 1 && Undisturbed(s, ByWorker(w, WorkerClaim(skipped, order)))
    ensures BudgetOf(cfg, Claim(cfg, s, w, skipped, order))
            + ClaimedBy(cfg, s, ByWorker(w, WorkerClaim(skipped, order)))
            <= BudgetOf(cfg, s)
  {
    hide Invariant, BudgetOf;
    OutboxIsKeyed(cfg, s);
    if WorkerOf(s, w).items == [] {
      var taken := Q.Claimed(s.queue, s.store.outbox, s.now, skipped, cfg.batch);
      Q.ClaimTakesOldest(s.queue, s.store.outbox, s.now, skipped, cfg.batch);
      Q.ReturnedAreTaken(taken, order);
      Q.ReturnedAreDistinct(taken, order);
      var returned := Q.Returned(taken, order);
      forall i | 0 <= i < |returned| ensures Waiting(s, returned[i].id) {
        var j :| 0 <= j < |taken| && taken[j] == returned[i];
        assert Q.IsClaimable(s.queue, s.store.outbox, s.now, taken[j]);
      }
      LeasingSpends(cfg, s, w, returned);
    }
  }

  lemma CompleteRegainsNothing(cfg: Config, s: Sys, w: Id, ok: bool)
    ensures NothingRegained(cfg, s, CompleteItem(s, w, ok))
  {
  }

  lemma FailRegainsNothing(cfg: Config, s: Sys, w: Id)
    ensures NothingRegained(cfg, s, FailItem(cfg, s, w))
  {
  }

  lemma WorkerRegainsNothing(cfg: Config, s: Sys, w: Id, move: WorkerMove)
    requires !move.WorkerClaim?
    ensures NothingRegained(cfg, s, WorkerEffect(cfg, s, w, move))
  {
    match move
    case WorkerComplete(ok) => CompleteRegainsNothing(cfg, s, w, ok);
    case WorkerFail => FailRegainsNothing(cfg, s, w);
    case WorkerDiscover => assert NothingRegained(cfg, s, DiscoverAll(s));
    case WorkerLoad(ok) => assert Load(s, w, ok).queue == s.queue && Load(s, w, ok).store == s.store;
    case WorkerAcquire => assert LockShared(s, w).queue == s.queue && LockShared(s, w).store == s.store;
    case WorkerCheck => assert CheckFence(s, w).queue == s.queue && CheckFence(s, w).store == s.store;
    case WorkerUpsert(written, ok) =>
      assert Upsert(s, w, written, ok).queue == s.queue && Upsert(s, w, written, ok).store == s.store;
    case WorkerCrash => assert Crash(s, w).queue == s.queue;
  }

  lemma EraserRegainsNothing(cfg: Config, s: Sys, a: Id, move: EraserMove)
    ensures NothingRegained(cfg, s, EraserEffect(cfg, s, a, move))
  {
    match move
    case EraserBegin(requestId, fenceId, scope, reason, policy, requester, key) =>
      var t := Begin(cfg, s, a, requestId, fenceId, scope, reason, policy, requester, key);
      assert t.queue == s.queue && t.store == s.store;
    case EraserDeleteProjection(kept, ok) =>
      var t := DeleteProjection(cfg, s, a, kept, ok);
      assert t.queue == s.queue && t.store == s.store;
    case EraserDeleteAuthority(ok) => assert NothingRegained(cfg, s, DeleteAuthority(s, a, ok));
    case EraserComplete(report, ok) =>
      assert Finish(s, a, report, ok).queue == s.queue && Finish(s, a, report, ok).store == s.store;
    case EraserGiveUp(recorded) => assert GiveUp(s, a, recorded).queue == s.queue
        && GiveUp(s, a, recorded).store == s.store;
  }

  lemma OthersRegainNothing(cfg: Config, s: Sys, step: Step)
    requires Undisturbed(s, step) && !(step.ByWorker? && step.worker.WorkerClaim?)
    ensures NothingRegained(cfg, s, Effect(cfg, s, step))
  {
    match step
    case ByControl(move) =>
      assert ControlEffect(cfg, s, move).queue == s.queue && ControlEffect(cfg, s, move).store == s.store;
    case ByWriter(a, move) => assert WriterEffect(s, a, move).queue == s.queue
        && WriterEffect(s, a, move).store.outbox == s.store.outbox;
    case ByWorker(w, move) => WorkerRegainsNothing(cfg, s, w, move);
    case ByRebuild(r, move) => assert NothingRegained(cfg, s, RebuildEffect(s, r, move));
    case ByEraser(a, move) => EraserRegainsNothing(cfg, s, a, move);
  }

  /** Every claim is paid for out of the budget. */
  lemma StepSpends(cfg: Config, s: Sys, step: Step)
    requires Invariant(cfg, s) && cfg.maxAttempts >= 1 && Undisturbed(s, step)
    ensures BudgetOf(cfg, Next(cfg, s, step)) + ClaimedBy(cfg, s, step) <= BudgetOf(cfg, s)
  {
    hide Invariant, Undisturbed, NothingRegained, BudgetOf, ClaimedBy, Claim;
    if step.ByWorker? && step.worker.WorkerClaim? {
      ClaimSpends(cfg, s, step.w, step.worker.skipped, step.worker.order);
    } else {
      OthersRegainNothing(cfg, s, step);
      NothingRegainedSpends(cfg, s, Effect(cfg, s, step));
      OthersClaimNothing(cfg, s, step);
    }
    TickSpendsNothing(cfg, Effect(cfg, s, step));
  }

  lemma OthersClaimNothing(cfg: Config, s: Sys, step: Step)
    requires !(step.ByWorker? && step.worker.WorkerClaim?)
    ensures ClaimedBy(cfg, s, step) == 0
  {
  }

  lemma TickSpendsNothing(cfg: Config, s: Sys)
    ensures BudgetOf(cfg, Ticked(s)) == BudgetOf(cfg, s)
  {
  }

  lemma NothingRegainedSpends(cfg: Config, s: Sys, t: Sys)
    requires NothingRegained(cfg, s, t)
    ensures BudgetOf(cfg, t) <= BudgetOf(cfg, s)
  {
    var m := Max(0, cfg.maxAttempts);
    forall id | id in t.store.outbox.Keys
      ensures id in s.store.outbox.Keys && LeftOf(t.queue, m)(id) <= LeftOf(s.queue, m)(id)
    {
      assert id in t.store.outbox;
    }
    assert forall id | id in s.store.outbox.Keys :: LeftOf(s.queue, m)(id) == Left(s.queue, m, id);
    SumIsMonotone(t.store.outbox.Keys, s.store.outbox.Keys, LeftOf(t.queue, m), LeftOf(s.queue, m));
  }

  lemma {:induction false} RunSpends(cfg: Config, s: Sys, steps: seq<Step>)
    requires Invariant(cfg, s) && cfg.maxAttempts >= 1 && UndisturbedRun(cfg, s, steps)
    ensures BudgetOf(cfg, Run(cfg, s, steps)) + ClaimsIn(cfg, s, steps) <= BudgetOf(cfg, s)
    decreases |steps|
  {
    if steps != [] {
      var init := steps[..|steps| - 1];
      RunSpends(cfg, s, init);
      RunKeeps(cfg, s, init);
      StepSpends(cfg, Run(cfg, s, init), steps[|steps| - 1]);
    }
  }

  /** From any reachable state, while no lease expires, nothing is requeued and no event is added, the workers together
      claim at most (events) x (maximum attempts) jobs, so the queue comes to rest. */
  lemma ClaimsAreBounded(cfg: Config, before: seq<Step>, steps: seq<Step>)
    requires cfg.maxAttempts >= 1 && UndisturbedRun(cfg, Run(cfg, INIT, before), steps)
    ensures var s := Run(cfg, INIT, before);
            ClaimsIn(cfg, s, steps) <= |s.store.outbox| * cfg.maxAttempts
  {
    InitIsOk(cfg);
    RunKeeps(cfg, INIT, before);
    var s := Run(cfg, INIT, before);
    RunSpends(cfg, s, steps);
    SumIsMonotone({}, Run(cfg, s, steps).store.outbox.Keys, LeftOf(s.queue, 0),
                  LeftOf(Run(cfg, s, steps).queue, cfg.maxAttempts));
    SumIsBounded(s.store.outbox.Keys, LeftOf(s.queue, cfg.maxAttempts), cfg.maxAttempts);
    assert |s.store.outbox.Keys| == |s.store.outbox|;
  }
}
