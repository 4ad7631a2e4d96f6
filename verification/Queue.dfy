/** The leased projection queue: what each statement does to the job rows and the cursor of one projection. */
module Queue {
  import opened Common
  import Sorting

  /** An outbox event announcing one new revision. */
  datatype Event = Event(id: Id, scope: Scope, recordId: Id, revisionId: Id, occurredAt: Time)

  datatype Status = Pending | Processing | Failed | Succeeded | DeadLetter

  datatype Job = Job(
    status: Status, attempts: int, availableAt: Time, owner: Option<Id>, leaseUntil: Option<Time>,
    processedAt: Option<Time>)

  /** The last event completed; the event is forgotten when it is deleted, its time is not. */
  datatype Cursor = Cursor(eventId: Option<Id>, occurredAt: Time)

  datatype JobTable = JobTable(jobs: map<Id, Job>, cursor: Option<Cursor>)

  datatype Item = Item(event: Event, attempts: int)

  const EMPTY := JobTable(map[], None)

  function NewJob(e: Event): Job {
    Job(Pending, 0, e.occurredAt, None, None, None)
  }

  function Discover(q: JobTable, outbox: map<Id, Event>): JobTable {
    q.(jobs := q.jobs + map id | id in outbox && id !in q.jobs :: NewJob(outbox[id]))
  }

  predicate Claimable(j: Job, now: Time) {
    || ((j.status == Pending || j.status == Failed) && j.availableAt <= now)
    || (j.status == Processing && j.leaseUntil.Some? && j.leaseUntil.value <= now)
  }

  predicate EventLe(a: Event, b: Event) {
    a.occurredAt < b.occurredAt || (a.occurredAt == b.occurredAt && a.id <= b.id)
  }

  predicate Keyed(outbox: map<Id, Event>) {
    forall id | id in outbox :: outbox[id].id == id
  }

  function ClaimSet(q: JobTable, outbox: map<Id, Event>, now: Time, locked: set<Id>): set<Event> {
    set id | id in q.jobs && id in outbox && id !in locked && Claimable(q.jobs[id], now) :: outbox[id]
  }

  lemma ClaimSetIsTotal(q: JobTable, outbox: map<Id, Event>, now: Time, locked: set<Id>)
    requires Keyed(outbox)
    ensures Sorting.TotalOn(ClaimSet(q, outbox, now, locked), EventLe)
  {
  }

  /** `ORDER BY occurred_at, id ... SKIP LOCKED LIMIT n`: `locked` are the rows other transactions hold. */
  function Claimed(q: JobTable, outbox: map<Id, Event>, now: Time, locked: set<Id>, limit: nat): seq<Event>
    requires Keyed(outbox)
  {
    ClaimSetIsTotal(q, outbox, now, locked);
    var all := Sorting.Sort(ClaimSet(q, outbox, now, locked), EventLe);
    all[..Min(limit, |all|)]
  }

  predicate IsClaimable(q: JobTable, outbox: map<Id, Event>, now: Time, e: Event) {
    e.id in q.jobs && e.id in outbox && outbox[e.id] == e && Claimable(q.jobs[e.id], now)
  }

  /** A claim takes different claimable jobs, at most `limit`, and none that it leaves is older than one it takes. */
  lemma ClaimTakesOldest(q: JobTable, outbox: map<Id, Event>, now: Time, locked: set<Id>, limit: nat)
    requires Keyed(outbox)
    ensures var taken := Claimed(q, outbox, now, locked, limit);
            && |taken| == Min(limit, |ClaimSet(q, outbox, now, locked)|)
            && (forall i | 0 <= i < |taken| :: IsClaimable(q, outbox, now, taken[i]) && taken[i].id !in locked)
            && (forall i, j | 0 <= i < j < |taken| :: taken[i].id != taken[j].id)
            && (forall i, e | 0 <= i < |taken| && e in ClaimSet(q, outbox, now, locked) && e !in taken ::
                 EventLe(taken[i], e))
  {
    ClaimSetIsTotal(q, outbox, now, locked);
    var eligible := ClaimSet(q, outbox, now, locked);
    var all := Sorting.Sort(eligible, EventLe);
    var n := Min(limit, |all|);
    forall i | 0 <= i < n ensures IsClaimable(q, outbox, now, all[i]) && all[i].id !in locked {
      assert all[i] in eligible;
    }
    forall i, j | 0 <= i < j < n ensures all[i].id != all[j].id {
      assert all[i] != all[j] && all[i] in eligible && all[j] in eligible;
    }
    forall i, e | 0 <= i < n && e in eligible && e !in all[..n] ensures EventLe(all[i], e) {
      assert forall m | 0 <= m < n :: all[m] == all[..n][m] && all[m] in all[..n];
      var j :| 0 <= j < |all| && all[j] == e;
    }
  }

  lemma ClaimedAreClaimable(q: JobTable, outbox: map<Id, Event>, now: Time, locked: set<Id>, limit: nat)
    requires Keyed(outbox)
    ensures forall i | 0 <= i < |Claimed(q, outbox, now, locked, limit)| ::
              IsClaimable(q, outbox, now, Claimed(q, outbox, now, locked, limit)[i])
    ensures forall i, j | 0 <= i < j < |Claimed(q, outbox, now, locked, limit)| ::
              Claimed(q, outbox, now, locked, limit)[i].id != Claimed(q, outbox, now, locked, limit)[j].id
  {
    ClaimTakesOldest(q, outbox, now, locked, limit);
  }

  /** The claimed events in the order the statement returns them, which may be any. */
  function Returned(taken: seq<Event>, order: seq<Event>): (r: seq<Event>)
    ensures multiset(r) == multiset(taken)
  {
    if multiset(order) == multiset(taken) then order else taken
  }

  /** Whatever the order, every event returned was taken. */
  lemma ReturnedAreTaken(taken: seq<Event>, order: seq<Event>)
    ensures |Returned(taken, order)| == |taken|
    ensures forall i | 0 <= i < |taken| :: Returned(taken, order)[i] in taken
  {
    var r := Returned(taken, order);
    assert |multiset(r)| == |r| && |multiset(taken)| == |taken|;
    forall i | 0 <= i < |taken| ensures r[i] in taken {
      assert r[i] in multiset(r) && r[i] in multiset(taken);
    }
  }

  /** A reordering of different events with different identifiers. */
  lemma ReturnedAreDistinct(taken: seq<Event>, order: seq<Event>)
    requires forall i, j | 0 <= i < j < |taken| :: taken[i].id != taken[j].id
    ensures forall i, j | 0 <= i < j < |Returned(taken, order)| ::
              Returned(taken, order)[i].id != Returned(taken, order)[j].id
  {
    var r := Returned(taken, order);
    Sorting.FewerStayDistinct(taken, r);
    forall i, j | 0 <= i < j < |r| ensures r[i].id != r[j].id {
      assert r[i] in taken && r[j] in taken && r[i] != r[j];
    }
  }

  function EventIds(es: seq<Event>): set<Id> {
    set i | 0 <= i < |es| :: es[i].id
  }

  function Lease(q: JobTable, es: seq<Event>, worker: Id, until: Time): JobTable {
    q.(jobs := map id | id in q.jobs ::
         if id in EventIds(es) then Job(Processing, q.jobs[id].attempts + 1, q.jobs[id].availableAt, Some(worker),
                                        Some(until), None)
         else q.jobs[id])
  }

  predicate Holds(q: JobTable, id: Id, worker: Id) {
    id in q.jobs && q.jobs[id].status == Processing && q.jobs[id].owner == Some(worker)
  }

  function Complete(q: JobTable, e: Event, worker: Id, at: Time): Result<JobTable> {
    if !Holds(q, e.id, worker) then Err(LeaseLost)
    else
      Ok(JobTable(
        q.jobs[e.id := q.jobs[e.id].(status := Succeeded, owner := None, leaseUntil := None, processedAt := Some(at))],
        if q.cursor.None? || q.cursor.value.occurredAt <= e.occurredAt then Some(Cursor(Some(e.id), e.occurredAt))
        else q.cursor))
  }

  function Fail(q: JobTable, e: Event, worker: Id, retryAt: Time, dead: bool): Result<JobTable> {
    if !Holds(q, e.id, worker) then Err(LeaseLost)
    else
      Ok(q.(jobs := q.jobs[e.id := q.jobs[e.id].(
        status := if dead then DeadLetter else Failed, availableAt := retryAt, owner := None, leaseUntil := None,
        processedAt := None)]))
  }

  function Requeue(q: JobTable, at: Time): JobTable {
    JobTable(map id | id in q.jobs :: Job(Pending, 0, at, None, None, None), None)
  }

  /** Erasing the authority's rows deletes the outbox events of the scope; their jobs go with them, and a cursor at
      one of them forgets it. */
  function Cascade(q: JobTable, outbox: map<Id, Event>): JobTable {
    JobTable(
      map id | id in q.jobs && id in outbox :: q.jobs[id],
      if q.cursor.Some? && q.cursor.value.eventId.Some? && q.cursor.value.eventId.value !in outbox then
        Some(q.cursor.value.(eventId := None))
      else q.cursor)
  }

  function Doubled(base: int, times: nat): int {
    if times == 0 then base else 2 * Doubled(base, times - 1)
  }

  /** The retry delay after the given attempt. */
  function Backoff(base: nat, cap: nat, attempts: int): int {
    Min(cap, Doubled(base, Max(0, attempts - 1)))
  }

  lemma {:induction false} DoubledGrows(base: int, times: nat)
    requires base >= 0
    ensures base <= Doubled(base, times) <= Doubled(base, times + 1)
  {
    if times > 0 {
      DoubledGrows(base, times - 1);
    }
  }

  lemma {:induction false} DoubledIsMonotone(base: int, a: nat, b: nat)
    requires base >= 0 && a <= b
    ensures Doubled(base, a) <= Doubled(base, b)
    decreases b - a
  {
    if a < b {
      DoubledGrows(base, a);
      DoubledIsMonotone(base, a + 1, b);
    }
  }

  /** With accepted settings the delay stays between the base and the cap, and never shrinks with more attempts. */
  lemma BackoffIsBounded(base: nat, cap: nat, attempts: int, more: int)
    requires base <= cap && 1 <= attempts <= more
    ensures base <= Backoff(base, cap, attempts) <= Backoff(base, cap, more) <= cap
  {
    DoubledIsMonotone(base, 0, attempts - 1);
    DoubledIsMonotone(base, attempts - 1, more - 1);
  }
}
