/** The projection worker as objects: a job source whose statements update rows in place, an index, and the worker's
    `run_once` and `rebuild` over them. */
module Projector {
  import opened Common
  import Q = Queue
  import opened Protocol

  /** The contract of an owner-checked statement: it updates the row, or raises because the lease was lost. */
  predicate Settles(before: Q.JobTable, r: Result<Q.JobTable>, after: Q.JobTable, error: Option<Error>) {
    match r
    case Ok(next) => error.None? && after == next
    case Err(e) => error == Some(e) && after == before
  }

  /** What the database decides about a claim: the rows it skips because others have locked them, and the order in which
      it returns the rest. */
  datatype RowOrder = RowOrder(locked: set<Id>, order: seq<Q.Event>) {
    function Taken(q: Q.JobTable, outbox: map<Id, Q.Event>, now: Time, limit: nat): seq<Q.Event>
      requires Q.Keyed(outbox)
    {
      Q.Returned(Q.Claimed(q, outbox, now, locked, limit), order)
    }

    lemma TakenAreClaimable(q: Q.JobTable, outbox: map<Id, Q.Event>, now: Time, limit: nat)
      requires Q.Keyed(outbox)
      ensures forall i | 0 <= i < |Taken(q, outbox, now, limit)| ::
                Q.IsClaimable(q, outbox, now, Taken(q, outbox, now, limit)[i])
      ensures forall i, j | 0 <= i < j < |Taken(q, outbox, now, limit)| ::
                Taken(q, outbox, now, limit)[i].id != Taken(q, outbox, now, limit)[j].id
    {
      var taken := Q.Claimed(q, outbox, now, locked, limit);
      Q.ClaimedAreClaimable(q, outbox, now, locked, limit);
      Q.ReturnedAreTaken(taken, order);
      Q.ReturnedAreDistinct(taken, order);
      forall i | 0 <= i < |taken| ensures Q.IsClaimable(q, outbox, now, Taken(q, outbox, now, limit)[i]) {
        var j :| 0 <= j < |taken| && taken[j] == Q.Returned(taken, order)[i];
      }
    }
  }

  class ProjectionJobs {
    var jobs: map<Id, Q.Job>
    var cursor: Option<Q.Cursor>
    const outbox: map<Id, Q.Event>
    const rows: map<Id, Document>

    constructor (outbox: map<Id, Q.Event>, rows: map<Id, Document>)
      ensures this.outbox == outbox && this.rows == rows && Table() == Q.EMPTY
    {
      this.outbox, this.rows, jobs, cursor := outbox, rows, map[], None;
    }

    function Table(): Q.JobTable
      reads this`jobs, this`cursor
    {
      Q.JobTable(jobs, cursor)
    }

    /** Answers with the number of rows it inserted. */
    method Discover() returns (inserted: nat)
      modifies this`jobs
      ensures Table() == Q.Discover(old(Table()), outbox) && inserted == |jobs| - |old(jobs)|
    {
      var found := map id | id in outbox && id !in jobs :: Q.NewJob(outbox[id]);
      assert (jobs + found).Keys == jobs.Keys + found.Keys;
      assert |jobs + found| == |(jobs + found).Keys| && |jobs| == |jobs.Keys| && |found| == |found.Keys|;
      inserted := |found|;
      jobs := jobs + found;
    }

    /** The oldest claimable events whose rows nobody else has locked, returned in any order. */
    method Claim(worker: Id, limit: nat, now: Time, until: Time, picked: RowOrder) returns (items: seq<Q.Item>)
      requires Q.Keyed(outbox)
      modifies this`jobs
      ensures var taken := picked.Taken(old(Table()), outbox, now, limit);
              && Table() == Q.Lease(old(Table()), taken, worker, until)
              && |items| == |taken|
              && (forall i | 0 <= i < |items| ::
                   items[i].event == taken[i] && Q.Holds(Table(), taken[i].id, worker)
                   && items[i].attempts == jobs[taken[i].id].attempts && jobs[taken[i].id].processedAt.None?)
              && (forall i, j | 0 <= i < j < |taken| :: taken[i].id != taken[j].id)
    {
      hide RowOrder.Taken;
      var taken := picked.Taken(Table(), outbox, now, limit);
      picked.TakenAreClaimable(Table(), outbox, now, limit);
      jobs := Q.Lease(Table(), taken, worker, until).jobs;
      items := [];
      var i := 0;
      while i < |taken|
        invariant 0 <= i <= |taken| && |items| == i
        invariant forall k | 0 <= k < i ::
                    items[k].event == taken[k] && taken[k].id in jobs
                    && items[k].attempts == jobs[taken[k].id].attempts
      {
        items := items + [Q.Item(taken[i], jobs[taken[i].id].attempts)];
        i := i + 1;
      }
      assert forall k | 0 <= k < |taken| :: taken[k].id in Q.EventIds(taken);
    }

    method LoadDocument(e: Q.Event) returns (r: Result<Document>)
      ensures r == Loadable(rows, e)
    {
      if e.revisionId !in rows {
        return Err(LookupFailure);
      }
      if rows[e.revisionId].event.scope != e.scope || rows[e.revisionId].event.recordId != e.recordId {
        return Err(LookupFailure);
      }
      r := Ok(rows[e.revisionId].(event := e));
    }

    method Complete(e: Q.Event, worker: Id, at: Time) returns (error: Option<Error>)
      modifies this
      ensures Settles(old(Table()), Q.Complete(old(Table()), e, worker, at), Table(), error)
    {
      if e.id !in jobs || jobs[e.id].status != Q.Processing || jobs[e.id].owner != Some(worker) {
        return Some(LeaseLost);
      }
      jobs := jobs[e.id := jobs[e.id].(status := Q.Succeeded, owner := None, leaseUntil := None,
                                       processedAt := Some(at))];
      if cursor.None? || cursor.value.occurredAt <= e.occurredAt {
        cursor := Some(Q.Cursor(Some(e.id), e.occurredAt));
      }
      error := None;
    }

    method Fail(e: Q.Event, worker: Id, retryAt: Time, dead: bool) returns (error: Option<Error>)
      modifies this
      ensures Settles(old(Table()), Q.Fail(old(Table()), e, worker, retryAt, dead), Table(), error)
    {
      if e.id !in jobs || jobs[e.id].status != Q.Processing || jobs[e.id].owner != Some(worker) {
        return Some(LeaseLost);
      }
      jobs := jobs[e.id := jobs[e.id].(
        status := if dead then Q.DeadLetter else Q.Failed, availableAt := retryAt, owner := None, leaseUntil := None,
        processedAt := None)];
      error := None;
    }

    /** Answers with the number of rows it updated. */
    method RequeueAll(at: Time) returns (requeued: nat)
      modifies this
      ensures Table() == Q.Requeue(old(Table()), at) && requeued == |jobs|
    {
      assert (map id | id in jobs :: Q.Job(Q.Pending, 0, at, None, None, None)).Keys == jobs.Keys;
      jobs := map id | id in jobs :: Q.Job(Q.Pending, 0, at, None, None, None);
      cursor := None;
      requeued := |jobs|;
    }
  }

  /** `load_document`: the revision in the event's scope and record, or an error. */
  function Loadable(rows: map<Id, Document>, e: Q.Event): Result<Document> {
    if e.revisionId !in rows || rows[e.revisionId].event.scope != e.scope
        || rows[e.revisionId].event.recordId != e.recordId then
      Err(LookupFailure)
    else Ok(rows[e.revisionId].(event := e))
  }

  class RecallIndex {
    var documents: map<Id, Document>

    constructor ()
      ensures documents == map[]
    {
      documents := map[];
    }

    method Upsert(d: Document)
      modifies this
      ensures documents == old(documents)[d.event.revisionId := d]
    {
      documents := documents[d.event.revisionId := d];
    }

    method DeleteScope(scope: Scope) returns (deleted: nat)
      modifies this
      ensures documents == map id | id in old(documents) && old(documents)[id].event.scope != scope ::
              old(documents)[id]
      ensures deleted == |old(documents)| - |documents|
    {
      var gone := set id | id in documents && documents[id].event.scope == scope;
      var kept := map id | id in documents && documents[id].event.scope != scope :: documents[id];
      assert documents.Keys == gone + kept.Keys;
      assert |documents| == |documents.Keys| && |kept| == |kept.Keys|;
      deleted := |gone|;
      documents := kept;
    }

    /** A deletion that raises half-way leaves some of the scope's documents. */
    method DeletePart(scope: Scope, kept: set<Id>)
      modifies this
      ensures documents == map id | id in old(documents) && (old(documents)[id].event.scope != scope || id in kept) ::
              old(documents)[id]
    {
      documents := map id | id in documents && (documents[id].event.scope != scope || id in kept) :: documents[id];
    }

    method Reset()
      modifies this
      ensures documents == map[]
    {
      documents := map[];
    }
  }

  /** Which port calls raise, for each event: reading the source, writing the index, recording the completion. */
  datatype Faults = Faults(load: Id -> bool, upsert: Id -> bool, complete: Id -> bool)

  datatype RunResult = RunResult(claimed: nat, succeeded: nat, failed: nat, deadLettered: nat)

  datatype Settings = Settings(batch: nat, lease: nat, retryBase: nat, retryMax: nat, maxAttempts: int)

  /** What the outcome of one item depends on: the authority's rows, the suppressed scopes, the faults, the settings. */
  datatype Run = Run(rows: map<Id, Document>, fences: set<Scope>, faults: Faults, settings: Settings) {
    /** Whether an item's document reaches the index. */
    predicate Writes(e: Q.Event) {
      faults.load(e.id) && Loadable(rows, e).Ok? && e.scope !in fences && faults.upsert(e.id)
    }

    predicate Succeeds(e: Q.Event) {
      Writes(e) && faults.complete(e.id)
    }

    /** The row a leased job ends in. */
    function SettledJob(e: Q.Event, leased: Q.Job, at: Time): Q.Job {
      if Succeeds(e) then Q.Job(Q.Succeeded, leased.attempts, leased.availableAt, None, None, Some(at))
      else
        var dead := leased.attempts >= settings.maxAttempts;
        Q.Job(if dead then Q.DeadLetter else Q.Failed, leased.attempts,
              at + Q.Backoff(settings.retryBase, settings.retryMax, leased.attempts), None, None, None)
    }

    /** The first `n` claimed jobs are settled as their own items went; no other row is touched. */
    ghost predicate Settled(leased: map<Id, Q.Job>, after: map<Id, Q.Job>, taken: seq<Q.Event>, n: int,
                            clock: int -> Time)
      requires 0 <= n <= |taken|
    {
      && after.Keys == leased.Keys
      && (forall i | 0 <= i < n ::
           taken[i].id in leased && after[taken[i].id] == SettledJob(taken[i], leased[taken[i].id], clock(i)))
      && (forall id | id in leased && id !in Q.EventIds(taken[..n]) :: after[id] == leased[id])
    }

    /** The positions of the items that succeed, and of those that are given up for good. */
    ghost function Succeeding(taken: seq<Q.Event>, n: int): set<int>
      requires 0 <= n <= |taken|
    {
      set i | 0 <= i < n && Succeeds(taken[i])
    }

    ghost function GivenUp(leased: map<Id, Q.Job>, taken: seq<Q.Event>, n: int): set<int>
      requires 0 <= n <= |taken|
    {
      set i | 0 <= i < n && taken[i].id in leased && IsGivenUp(taken[i], leased[taken[i].id])
    }

    predicate IsGivenUp(e: Q.Event, leased: Q.Job) {
      !Succeeds(e) && leased.attempts >= settings.maxAttempts
    }

    lemma GivenUpIsDeadLettered(e: Q.Event, leased: Q.Job, at: Time)
      ensures SettledJob(e, leased, at).status == Q.DeadLetter <==> IsGivenUp(e, leased)
    {
    }

    lemma CountOne(leased: map<Id, Q.Job>, taken: seq<Q.Event>, n: nat)
      requires n < |taken| && taken[n].id in leased
      ensures |Succeeding(taken, n + 1)| == |Succeeding(taken, n)| + if Succeeds(taken[n]) then 1 else 0
      ensures |GivenUp(leased, taken, n + 1)|
              == |GivenUp(leased, taken, n)|
                 + if IsGivenUp(taken[n], leased[taken[n].id]) then 1 else 0
    {
      CountSuccess(taken, n);
      CountGivenUp(leased, taken, n);
    }

    lemma CountSuccess(taken: seq<Q.Event>, n: nat)
      requires n < |taken|
      ensures |Succeeding(taken, n + 1)| == |Succeeding(taken, n)| + if Succeeds(taken[n]) then 1 else 0
    {
      hide Succeeds;
      assert Succeeding(taken, n + 1) == Succeeding(taken, n) + if Succeeds(taken[n]) then {n} else {};
    }

    lemma CountGivenUp(leased: map<Id, Q.Job>, taken: seq<Q.Event>, n: nat)
      requires n < |taken| && taken[n].id in leased
      ensures |GivenUp(leased, taken, n + 1)|
              == |GivenUp(leased, taken, n)| + if IsGivenUp(taken[n], leased[taken[n].id]) then 1 else 0
    {
      hide IsGivenUp;
      assert GivenUp(leased, taken, n + 1)
          == GivenUp(leased, taken, n) + if IsGivenUp(taken[n], leased[taken[n].id]) then {n} else {};
    }

    /** An item's own write, and no other, reaches the index with it. */
    lemma IndexOne(before: map<Id, Document>, after: map<Id, Document>, taken: seq<Q.Event>, n: nat)
      requires n < |taken| && Indexed(before, taken, n)
      requires after ==
               if Writes(taken[n]) then before[taken[n].revisionId := Loadable(rows, taken[n]).value] else before
      ensures Indexed(after, taken, n + 1)
    {
      assert Writes(taken[n]) ==> Written(taken, Loadable(rows, taken[n]).value);
    }

    /** Some item of the run put this document in the index. */
    ghost predicate Written(taken: seq<Q.Event>, d: Document) {
      exists j :: 0 <= j < |taken| && Loadable(rows, taken[j]) == Ok(d)
    }

    /** The first `n` items that were written are in the index. */
    ghost predicate Indexed(documents: map<Id, Document>, taken: seq<Q.Event>, n: int)
      requires 0 <= n <= |taken|
    {
      forall i | 0 <= i < n && Writes(taken[i]) ::
        taken[i].revisionId in documents && Written(taken, documents[taken[i].revisionId])
    }

    lemma SettleNone(leased: map<Id, Q.Job>, documents: map<Id, Document>, taken: seq<Q.Event>, clock: int -> Time)
      ensures Settled(leased, leased, taken, 0, clock) && Indexed(documents, taken, 0)
      ensures |Succeeding(taken, 0)| == 0 && |GivenUp(leased, taken, 0)| == 0
    {
    }

    lemma SettleOne(leased: map<Id, Q.Job>, before: map<Id, Q.Job>, taken: seq<Q.Event>, n: nat, clock: int -> Time)
      requires n < |taken| && Settled(leased, before, taken, n, clock) && taken[n].id in leased
      requires forall i, j | 0 <= i < j < |taken| :: taken[i].id != taken[j].id
      ensures taken[n].id in before && before[taken[n].id] == leased[taken[n].id]
      ensures Settled(leased, before[taken[n].id := SettledJob(taken[n], leased[taken[n].id], clock(n))], taken, n + 1,
                      clock)
    {
      assert taken[n].id !in Q.EventIds(taken[..n]);
      assert Q.EventIds(taken[..n + 1]) == Q.EventIds(taken[..n]) + {taken[n].id} by {
        assert taken[..n + 1] == taken[..n] + [taken[n]];
        forall id | id in Q.EventIds(taken[..n]) ensures id in Q.EventIds(taken[..n + 1]) {
          var i :| 0 <= i < n && taken[..n][i].id == id;
          assert taken[..n + 1][i].id == id;
        }
        assert taken[..n + 1][n].id == taken[n].id;
      }
    }
  }

  class MemoryProjectionWorker {
    const source: ProjectionJobs
    const sink: RecallIndex
    const workerId: Id
    const settings: Settings

    constructor (source: ProjectionJobs, sink: RecallIndex, workerId: Id, settings: Settings)
      ensures this.source == source && this.sink == sink && this.workerId == workerId && this.settings == settings
    {
      this.source, this.sink, this.workerId, this.settings := source, sink, workerId, settings;
    }

    method RunItem(item: Q.Item, run: Run, at: Time) returns (ok: bool)
      requires run.rows == source.rows && run.settings == settings
      requires Q.Holds(source.Table(), item.event.id, workerId) && source.jobs[item.event.id].attempts == item.attempts
      requires source.jobs[item.event.id].processedAt.None?
      modifies source, sink
      ensures ok == run.Succeeds(item.event)
      ensures source.jobs ==
              old(source.jobs)[item.event.id := run.SettledJob(item.event, old(source.jobs[item.event.id]), at)]
      ensures sink.documents ==
              if run.Writes(item.event) then
                old(sink.documents)[item.event.revisionId := Loadable(source.rows, item.event).value]
              else old(sink.documents)
    {
      var e := item.event;
      ok := run.faults.load(e.id);
      if ok {
        var document := source.LoadDocument(e);
        ok := document.Ok? && e.scope !in run.fences && run.faults.upsert(e.id);
        if ok {
          sink.Upsert(document.value);
          ok := run.faults.complete(e.id);
          if ok {
            var error := source.Complete(e, workerId, at);
          }
        }
      }
      if !ok {
        var retryAt := at + Q.Backoff(settings.retryBase, settings.retryMax, item.attempts);
        var error := source.Fail(e, workerId, retryAt, item.attempts >= settings.maxAttempts);
      }
    }

    /** The loop over the claimed items, which this worker holds. */
    method RunItems(items: seq<Q.Item>, run: Run, clock: int -> Time, ghost taken: seq<Q.Event>)
        returns (succeeded: nat, failed: nat, dead: nat)
      requires run.rows == source.rows && run.settings == settings && |items| == |taken|
      requires forall i | 0 <= i < |taken| ::
                 && items[i].event == taken[i] && Q.Holds(source.Table(), taken[i].id, workerId)
                 && source.jobs[taken[i].id].attempts == items[i].attempts && source.jobs[taken[i].id].processedAt.None?
      requires forall i, j | 0 <= i < j < |taken| :: taken[i].id != taken[j].id
      modifies source, sink
      ensures succeeded + failed == |items| && succeeded == |run.Succeeding(taken, |taken|)|
      ensures dead == |run.GivenUp(old(source.jobs), taken, |taken|)|
      ensures run.Settled(old(source.jobs), source.jobs, taken, |taken|, clock)
              && run.Indexed(sink.documents, taken, |taken|)
    {
      hide Run.Settled, Run.Indexed, Run.Succeeding, Run.GivenUp, Run.SettledJob, Run.Writes, Run.Succeeds;
      ghost var leased := source.jobs;
      var i := 0;
      succeeded, failed, dead := 0, 0, 0;
      run.SettleNone(leased, sink.documents, taken, clock);
      while i < |items|
        invariant 0 <= i <= |items| && succeeded + failed == i && succeeded == |run.Succeeding(taken, i)|
        invariant dead == |run.GivenUp(leased, taken, i)|
        invariant run.Settled(leased, source.jobs, taken, i, clock) && run.Indexed(sink.documents, taken, i)
      {
        run.SettleOne(leased, source.jobs, taken, i, clock);
        run.CountOne(leased, taken, i);
        ghost var documents := sink.documents;
        var ok := RunItem(items[i], run, clock(i));
        run.IndexOne(documents, sink.documents, taken, i);
        if ok {
          succeeded := succeeded + 1;
        } else {
          failed := failed + 1;
          if items[i].attempts >= settings.maxAttempts {
            dead := dead + 1;
          }
        }
        i := i + 1;
      }
    }

    /** Discover and claim: the worker now holds a batch of different jobs. */
    method ClaimBatch(now: Time, picked: RowOrder) returns (items: seq<Q.Item>, ghost taken: seq<Q.Event>)
      requires Q.Keyed(source.outbox)
      modifies source
      ensures var found := Q.Discover(old(source.Table()), source.outbox);
              && taken == picked.Taken(found, source.outbox, now, settings.batch) && |items| == |taken|
              && source.Table() == Q.Lease(found, taken, workerId, now + settings.lease)
      ensures forall i | 0 <= i < |taken| ::
                && items[i].event == taken[i] && Q.Holds(source.Table(), taken[i].id, workerId)
                && source.jobs[taken[i].id].attempts == items[i].attempts && source.jobs[taken[i].id].processedAt.None?
      ensures forall i, j | 0 <= i < j < |taken| :: taken[i].id != taken[j].id
    {
      hide RowOrder.Taken, Q.Lease, Q.Discover;
      var inserted := source.Discover();
      taken := picked.Taken(source.Table(), source.outbox, now, settings.batch);
      items := source.Claim(workerId, settings.batch, now, now + settings.lease, picked);
    }

    /** A run without interference from others settles every job it claims, as many as it reports. */
    method RunOnce(now: Time, picked: RowOrder, clock: int -> Time, fences: set<Scope>, faults: Faults)
        returns (r: RunResult, ghost taken: seq<Q.Event>)
      requires Q.Keyed(source.outbox)
      modifies source, sink
      ensures var found, run := Q.Discover(old(source.Table()), source.outbox),
              Run(source.rows, fences, faults, settings);
              && taken == picked.Taken(found, source.outbox, now, settings.batch)
              && r.claimed == |taken| && r.claimed == r.succeeded + r.failed
              && r.succeeded == |run.Succeeding(taken, |taken|)|
              && r.deadLettered == |run.GivenUp(Q.Lease(found, taken, workerId, now + settings.lease).jobs, taken,
                                                |taken|)|
              && run.Settled(Q.Lease(found, taken, workerId, now + settings.lease).jobs, source.jobs, taken, |taken|,
                             clock)
              && run.Indexed(sink.documents, taken, |taken|)
    {
      var items;
      items, taken := ClaimBatch(now, picked);
      var succeeded, failed, dead := RunItems(items, Run(source.rows, fences, faults, settings), clock, taken);
      r := RunResult(|items|, succeeded, failed, dead);
    }

    /** Empty the index, make sure every event has a job, and put every job back in line. */
    method Rebuild(now: Time) returns (requeued: nat)
      modifies source, sink
      ensures sink.documents == map[] && requeued == |source.jobs|
      ensures source.Table() == Q.Requeue(Q.Discover(old(source.Table()), source.outbox), now)
    {
      sink.Reset();
      var inserted := source.Discover();
      requeued := source.RequeueAll(now);
    }
  }
}
