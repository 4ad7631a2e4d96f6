/** A run that leaves a succeeded job without its document: a rebuild that has reset the projection and has not yet put
    the jobs back in line. */
module RebuildGap {
  import opened Common
  import opened Protocol
  import opened RebuildSafety
  import G = Governance
  import Q = Queue

  const SCOPE := Scope("tenant", "subject")
  const EVENT := Q.Event(1, SCOPE, 2, 3, 0)
  const DOCUMENT := Document(EVENT, "tea")
  const GRANT := G.Grant(4, SCOPE, {"remember"}, "consent", "policy", "issuer", "key", 0, None, 0, None, None)

  /** A writer stores one revision; a worker projects it; a rebuild begins. */
  const RUN: seq<Step> := [
    ByControl(IssueGrant(GRANT)),
    ByWriter(0, WriterAcquire(SCOPE)), ByWriter(0, WriterCheck("remember", 0)), ByWriter(0, WriterCommit(DOCUMENT)),
    ByWorker(1, WorkerDiscover), ByWorker(1, WorkerClaim({}, [])), ByWorker(1, WorkerLoad(true)),
    ByWorker(1, WorkerAcquire), ByWorker(1, WorkerCheck), ByWorker(1, WorkerUpsert(true, true)),
    ByWorker(1, WorkerComplete(true)), ByRebuild(2, RebuildReset)]

  /** What every stage of the run shares. */
  ghost predicate Calm(s: Sys) {
    s.now == 0 && s.gov.fences == map[] && RebuildOf(s, 2) == RebuildIdle
  }

  ghost predicate Blank(s: Sys) {
    && Calm(s) && s.store.outbox == map[] && s.store.rows == map[] && s.history.log == map[] && s.queue.jobs == map[]
    && WorkerOf(s, 1) == IDLE
  }

  ghost predicate Stored(s: Sys) {
    && Calm(s) && s.store.outbox == map[1 := EVENT] && s.store.rows == map[3 := DOCUMENT]
    && s.history.log == map[1 := DOCUMENT]
  }

  ghost predicate AtWork(s: Sys, head: Head) {
    && Stored(s) && Q.Holds(s.queue, 1, 1) && WorkerOf(s, 1).head == head
    && |WorkerOf(s, 1).items| == 1 && WorkerOf(s, 1).items[0].item.event == EVENT
  }

  lemma RunOne(cfg: Config, k: nat)
    requires k < |RUN|
    ensures Run(cfg, INIT, RUN[..k + 1]) == Next(cfg, Run(cfg, INIT, RUN[..k]), RUN[k])
  {
    assert RUN[..k + 1][..k] == RUN[..k] && RUN[..k + 1][k] == RUN[k];
  }

  lemma GrantStage(cfg: Config)
    ensures var s := Next(cfg, INIT, RUN[0]);
            Blank(s) && G.Granted(s.gov, SCOPE, "remember", 0) && WriterOf(s, 0) == WriterIdle
  {
    var s := Next(cfg, INIT, RUN[0]);
    assert s.gov.grants[4] == GRANT;
  }

  lemma LockStage(cfg: Config, s: Sys)
    requires Blank(s) && G.Granted(s.gov, SCOPE, "remember", 0) && WriterOf(s, 0) == WriterIdle
    ensures var t := Next(cfg, s, RUN[1]);
            Blank(t) && G.Granted(t.gov, SCOPE, "remember", 0) && WriterOf(t, 0) == WriterLocked(SCOPE)
  {
    assert Next(cfg, s, RUN[1]).gov == s.gov;
  }

  lemma EnterStage(cfg: Config, s: Sys)
    requires Blank(s) && G.Granted(s.gov, SCOPE, "remember", 0) && WriterOf(s, 0) == WriterLocked(SCOPE)
    ensures var t := Next(cfg, s, RUN[2]);
            Blank(t) && WriterOf(t, 0) == WriterEntered(SCOPE)
  {
  }

  lemma CommitStage(cfg: Config, s: Sys)
    requires Blank(s) && WriterOf(s, 0) == WriterEntered(SCOPE)
    ensures var t := Next(cfg, s, RUN[3]);
            Stored(t) && t.queue.jobs == map[] && WorkerOf(t, 1) == IDLE
  {
  }

  lemma DiscoverStage(cfg: Config, s: Sys)
    requires Stored(s) && s.queue.jobs == map[] && WorkerOf(s, 1) == IDLE
    ensures var t := Next(cfg, s, RUN[4]);
            Stored(t) && t.queue.jobs == map[1 := Q.NewJob(EVENT)] && WorkerOf(t, 1) == IDLE
  {
    assert Next(cfg, s, RUN[4]).queue.jobs.Keys == {1};
  }

  lemma ClaimStage(cfg: Config, s: Sys)
    requires cfg.batch >= 1
    requires Stored(s) && s.queue.jobs == map[1 := Q.NewJob(EVENT)] && WorkerOf(s, 1) == IDLE
    ensures AtWork(Next(cfg, s, RUN[5]), Fresh)
  {
    OneIsClaimed(s.queue, s.store.outbox, cfg.batch);
    assert multiset([EVENT])[EVENT] == 1;
    assert Q.Returned([EVENT], []) == [EVENT];
    assert EVENT.id in Q.EventIds([EVENT]);
  }

  lemma OneIsClaimed(q: Q.JobTable, outbox: map<Id, Q.Event>, batch: nat)
    requires batch >= 1 && outbox == map[1 := EVENT] && q.jobs == map[1 := Q.NewJob(EVENT)]
    ensures Q.Keyed(outbox) && Q.Claimed(q, outbox, 0, {}, batch) == [EVENT]
  {
    OneIsClaimable(q, outbox);
    Q.ClaimTakesOldest(q, outbox, 0, {}, batch);
    var taken := Q.Claimed(q, outbox, 0, {}, batch);
    assert |taken| == 1 && Q.IsClaimable(q, outbox, 0, taken[0]);
  }

  lemma OneIsClaimable(q: Q.JobTable, outbox: map<Id, Q.Event>)
    requires outbox == map[1 := EVENT] && q.jobs == map[1 := Q.NewJob(EVENT)]
    ensures Q.ClaimSet(q, outbox, 0, {}) == {EVENT}
  {
    assert Q.Claimable(q.jobs[1], 0) && outbox[1] == EVENT;
    assert EVENT in Q.ClaimSet(q, outbox, 0, {});
  }

  lemma LoadStage(cfg: Config, s: Sys)
    requires AtWork(s, Fresh)
    ensures AtWork(Next(cfg, s, RUN[6]), Loaded(DOCUMENT))
  {
  }

  lemma AcquireStage(cfg: Config, s: Sys)
    requires AtWork(s, Loaded(DOCUMENT))
    ensures AtWork(Next(cfg, s, RUN[7]), Locked(DOCUMENT))
  {
  }

  lemma CheckStage(cfg: Config, s: Sys)
    requires AtWork(s, Locked(DOCUMENT))
    ensures AtWork(Next(cfg, s, RUN[8]), Entered(DOCUMENT))
  {
  }

  lemma UpsertStage(cfg: Config, s: Sys)
    requires AtWork(s, Entered(DOCUMENT))
    ensures AtWork(Next(cfg, s, RUN[9]), Upserted(s.history.step))
  {
  }

  lemma CompleteStage(cfg: Config, s: Sys, at: int)
    requires AtWork(s, Upserted(at))
    ensures Stored(Next(cfg, s, RUN[10])) && Succeeded(Next(cfg, s, RUN[10]), 1)
  {
  }

  lemma ResetStage(cfg: Config, s: Sys)
    requires Stored(s) && Succeeded(s, 1)
    ensures var t := Next(cfg, s, RUN[11]);
            Succeeded(t, 1) && t.gov.fences == map[] && !Projected(t, 1)
  {
  }

  lemma WriterPart(cfg: Config)
    ensures var s := Run(cfg, INIT, RUN[..4]);
            Stored(s) && s.queue.jobs == map[] && WorkerOf(s, 1) == IDLE
  {
    hide *;
    RunNone(cfg);
    RunOne(cfg, 0);
    GrantStage(cfg);
    RunOne(cfg, 1);
    LockStage(cfg, Run(cfg, INIT, RUN[..1]));
    RunOne(cfg, 2);
    EnterStage(cfg, Run(cfg, INIT, RUN[..2]));
    RunOne(cfg, 3);
    CommitStage(cfg, Run(cfg, INIT, RUN[..3]));
  }

  lemma RunNone(cfg: Config)
    ensures Run(cfg, INIT, RUN[..0]) == INIT && |RUN| == 12 && RUN[..12] == RUN
  {
  }

  /** The run ends with a succeeded job, of a scope that is not fenced, and no document of it in the projection. */
  lemma SuccessOutlivesReset(cfg: Config)
    requires cfg.batch >= 1
    ensures var s := Run(cfg, INIT, RUN);
            Succeeded(s, 1) && s.gov.fences == map[] && !Projected(s, 1)
  {
    hide *;
    RunNone(cfg);
    WriterPart(cfg);
    RunOne(cfg, 4);
    DiscoverStage(cfg, Run(cfg, INIT, RUN[..4]));
    RunOne(cfg, 5);
    ClaimStage(cfg, Run(cfg, INIT, RUN[..5]));
    RunOne(cfg, 6);
    LoadStage(cfg, Run(cfg, INIT, RUN[..6]));
    RunOne(cfg, 7);
    AcquireStage(cfg, Run(cfg, INIT, RUN[..7]));
    RunOne(cfg, 8);
    CheckStage(cfg, Run(cfg, INIT, RUN[..8]));
    RunOne(cfg, 9);
    UpsertStage(cfg, Run(cfg, INIT, RUN[..9]));
    RunOne(cfg, 10);
    CompleteStage(cfg, Run(cfg, INIT, RUN[..10]), Run(cfg, INIT, RUN[..9]).history.step);
    RunOne(cfg, 11);
    ResetStage(cfg, Run(cfg, INIT, RUN[..11]));
  }
}
