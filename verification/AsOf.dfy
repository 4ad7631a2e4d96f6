/** The bitemporal read: which revision of each record was in force at a business time, as known at a system time. */
module AsOf {
  import opened Common
  import opened MemoryTables
  import Sorting

  /** String order, as comparison of Python strings. */
  predicate LexLe(a: string, b: string)
    decreases |a|
  {
    a == "" || (b != "" && (a[0] < b[0] || (a[0] == b[0] && LexLe(a[1..], b[1..]))))
  }

  lemma {:induction false} LexTotal(a: string, b: string)
    ensures LexLe(a, b) || LexLe(b, a)
    ensures LexLe(a, b) && LexLe(b, a) ==> a == b
    decreases |a|
  {
    if a != "" && b != "" && a[0] == b[0] {
      LexTotal(a[1..], b[1..]);
      assert a == [a[0]] + a[1..] && b == [b[0]] + b[1..];
    }
  }

  lemma {:induction false} LexTransitive(a: string, b: string, c: string)
    requires LexLe(a, b) && LexLe(b, c)
    ensures LexLe(a, c)
    decreases |a|
  {
    if a != "" && a[0] == b[0] && b[0] == c[0] {
      LexTransitive(a[1..], b[1..], c[1..]);
    }
  }

  predicate Eligible(m: Memory, id: Id, validAt: Time, knownAt: Time) {
    id in m.revisions && m.revisions[id].recordedAt <= knownAt && m.revisions[id].validFrom <= validAt
  }

  /** The key `(recorded_at, sequence, id)` compared. */
  predicate Newer(a: Revision, b: Revision) {
    || a.recordedAt > b.recordedAt
    || (a.recordedAt == b.recordedAt && (a.sequence > b.sequence || (a.sequence == b.sequence && a.id > b.id)))
  }

  /** `max(eligible, key=...)` over the revisions of a record, in list order. */
  function Best(m: Memory, ids: seq<Id>, validAt: Time, knownAt: Time): Option<Revision>
    decreases |ids|
  {
    if ids == [] then None
    else
      var n := |ids| - 1;
      var before := Best(m, ids[..n], validAt, knownAt);
      if Eligible(m, ids[n], validAt, knownAt) && (before.None? || Newer(m.revisions[ids[n]], before.value)) then
        Some(m.revisions[ids[n]])
      else before
  }

  function SnapshotAsOf(m: Memory, recordId: Id, validAt: Time, knownAt: Time): Option<Snapshot> {
    if recordId !in m.records || m.records[recordId].createdAt > knownAt || recordId !in m.chains then None
    else
      match Best(m, m.chains[recordId], validAt, knownAt)
      case None => None
      case Some(r) => Some(Snapshot(m.records[recordId], r))
  }

  function VisibleRecords(m: Memory, scope: Scope, validAt: Time, knownAt: Time): set<Id> {
    set id | id in m.records && m.records[id].scope == scope && SnapshotAsOf(m, id, validAt, knownAt).Some?
  }

  /** The fingerprint of a context is some text; ties are decided by the record. */
  predicate RecordLe(fingerprint: Context -> string, records: map<Id, Record>, a: Id, b: Id) {
    if a in records && b in records then
      var ra, rb := records[a], records[b];
      if ra.key != rb.key then LexLe(ra.key, rb.key)
      else if fingerprint(ra.context) != fingerprint(rb.context) then
        LexLe(fingerprint(ra.context), fingerprint(rb.context))
      else a <= b
    else a in records || (b !in records && a <= b)
  }

  function RecordOrder(fingerprint: Context -> string, records: map<Id, Record>): (Id, Id) -> bool {
    (a, b) => RecordLe(fingerprint, records, a, b)
  }

  lemma RecordLeIsTotal(fingerprint: Context -> string, records: map<Id, Record>, a: Id, b: Id)
    requires a in records && b in records
    ensures RecordLe(fingerprint, records, a, b) || RecordLe(fingerprint, records, b, a)
    ensures RecordLe(fingerprint, records, a, b) && RecordLe(fingerprint, records, b, a) ==> a == b
  {
    LexTotal(records[a].key, records[b].key);
    LexTotal(fingerprint(records[a].context), fingerprint(records[b].context));
  }

  lemma RecordLeIsTransitive(fingerprint: Context -> string, records: map<Id, Record>, a: Id, b: Id, c: Id)
    requires a in records && b in records && c in records
    requires RecordLe(fingerprint, records, a, b) && RecordLe(fingerprint, records, b, c)
    ensures RecordLe(fingerprint, records, a, c)
  {
    var ra, rb, rc := records[a], records[b], records[c];
    if ra.key != rb.key && rb.key != rc.key {
      LexTransitive(ra.key, rb.key, rc.key);
      LexTotal(ra.key, rb.key);
    } else if ra.key == rb.key == rc.key {
      var fa, fb, fc := fingerprint(ra.context), fingerprint(rb.context), fingerprint(rc.context);
      if fa != fb && fb != fc {
        LexTransitive(fa, fb, fc);
        LexTotal(fa, fb);
      }
    }
  }

  lemma RecordOrderIsTotal(fingerprint: Context -> string, records: map<Id, Record>, ids: set<Id>)
    requires ids <= records.Keys
    ensures Sorting.TotalOn(ids, RecordOrder(fingerprint, records))
  {
    var le := RecordOrder(fingerprint, records);
    forall a, b | a in ids && b in ids ensures (le(a, b) || le(b, a)) && (le(a, b) && le(b, a) ==> a == b) {
      RecordLeIsTotal(fingerprint, records, a, b);
    }
    forall a, b, c | a in ids && b in ids && c in ids && le(a, b) && le(b, c) ensures le(a, c) {
      RecordLeIsTransitive(fingerprint, records, a, b, c);
    }
  }

  /** The visible records in sorted order. */
  function VisibleInOrder(fingerprint: Context -> string, m: Memory, scope: Scope, validAt: Time,
                          knownAt: Time): (r: seq<Id>)
    ensures Sorting.Distinct(r) && forall id :: id in r <==> id in VisibleRecords(m, scope, validAt, knownAt)
    ensures Sorting.Ordered(r, RecordOrder(fingerprint, m.records))
  {
    RecordOrderIsTotal(fingerprint, m.records, VisibleRecords(m, scope, validAt, knownAt));
    Sorting.Sort(VisibleRecords(m, scope, validAt, knownAt), RecordOrder(fingerprint, m.records))
  }

  function SnapshotsOf(m: Memory, ids: seq<Id>, validAt: Time, knownAt: Time): (r: seq<Snapshot>)
    requires forall i | 0 <= i < |ids| :: SnapshotAsOf(m, ids[i], validAt, knownAt).Some?
    ensures |r| == |ids| && forall i | 0 <= i < |r| :: r[i] == SnapshotAsOf(m, ids[i], validAt, knownAt).value
  {
    seq(|ids|, i requires 0 <= i < |ids| => SnapshotAsOf(m, ids[i], validAt, knownAt).value)
  }

  /** `memories_as_of`. */
  function MemoriesAsOf(fingerprint: Context -> string, m: Memory, scope: Scope, validAt: Time,
                        knownAt: Time): seq<Snapshot> {
    var ids := VisibleInOrder(fingerprint, m, scope, validAt, knownAt);
    assert forall i | 0 <= i < |ids| :: ids[i] in ids;
    SnapshotsOf(m, ids, validAt, knownAt)
  }

  /** What the maximum is: an eligible revision of the list that no other eligible one beats. */
  ghost predicate IsBest(m: Memory, ids: seq<Id>, validAt: Time, knownAt: Time, r: Revision) {
    && (exists i :: 0 <= i < |ids| && Eligible(m, ids[i], validAt, knownAt) && m.revisions[ids[i]] == r)
    && (forall i | 0 <= i < |ids| && Eligible(m, ids[i], validAt, knownAt) :: !Newer(m.revisions[ids[i]], r))
  }

  lemma {:induction false} BestIsBest(m: Memory, ids: seq<Id>, validAt: Time, knownAt: Time)
    ensures match Best(m, ids, validAt, knownAt)
            case None => forall i | 0 <= i < |ids| :: !Eligible(m, ids[i], validAt, knownAt)
            case Some(r) => IsBest(m, ids, validAt, knownAt, r)
    decreases |ids|
  {
    if ids != [] {
      var n := |ids| - 1;
      var init := ids[..n];
      BestIsBest(m, init, validAt, knownAt);
      assert forall i | 0 <= i < n :: ids[i] == init[i];
      var before := Best(m, init, validAt, knownAt);
      if before.Some? {
        var i :| 0 <= i < |init| && Eligible(m, init[i], validAt, knownAt) && m.revisions[init[i]] == before.value;
        assert ids[i] == init[i];
      }
    }
  }

  ghost predicate Keyed(m: Memory) {
    forall id | id in m.records :: m.records[id].id == id
  }

  /** One snapshot per visible record. */
  lemma OneSnapshotEach(fingerprint: Context -> string, m: Memory, scope: Scope, validAt: Time, knownAt: Time)
    requires Keyed(m)
    ensures var r := MemoriesAsOf(fingerprint, m, scope, validAt, knownAt);
            forall i, j | 0 <= i < j < |r| :: r[i].record.id != r[j].record.id
  {
    var ids := VisibleInOrder(fingerprint, m, scope, validAt, knownAt);
    forall i | 0 <= i < |ids| ensures ids[i] in VisibleRecords(m, scope, validAt, knownAt) {
      assert ids[i] in ids;
    }
  }

  lemma SameOrder(fingerprint: Context -> string, m: Memory, n: Memory, scope: Scope, validAt: Time, knownAt: Time)
    requires VisibleRecords(m, scope, validAt, knownAt) == VisibleRecords(n, scope, validAt, knownAt)
    requires forall id | id in VisibleRecords(m, scope, validAt, knownAt) ::
               id in n.records
               && m.records[id] == n.records[id]
    ensures VisibleInOrder(fingerprint, m, scope, validAt, knownAt)
            == VisibleInOrder(fingerprint, n, scope, validAt, knownAt)
  {
    var s := VisibleRecords(m, scope, validAt, knownAt);
    var le, other := RecordOrder(fingerprint, m.records), RecordOrder(fingerprint, n.records);
    RecordOrderIsTotal(fingerprint, m.records, s);
    RecordOrderIsTotal(fingerprint, n.records, s);
    forall x, y | x in s && y in s ensures le(x, y) == other(x, y) {
      assert RecordLe(fingerprint, m.records, x, y) == RecordLe(fingerprint, n.records, x, y);
    }
    Sorting.SortAgrees(s, le, other);
  }

  /** The read depends only on the scope's records and what each of them shows. */
  lemma SameView(fingerprint: Context -> string, m: Memory, n: Memory, scope: Scope, validAt: Time, knownAt: Time)
    requires VisibleRecords(m, scope, validAt, knownAt) == VisibleRecords(n, scope, validAt, knownAt)
    requires forall id | id in VisibleRecords(m, scope, validAt, knownAt) ::
               && id in n.records && m.records[id] == n.records[id]
               && SnapshotAsOf(m, id, validAt, knownAt) == SnapshotAsOf(n, id, validAt, knownAt)
    ensures MemoriesAsOf(fingerprint, m, scope, validAt, knownAt)
            == MemoriesAsOf(fingerprint, n, scope, validAt, knownAt)
  {
    SameOrder(fingerprint, m, n, scope, validAt, knownAt);
    var ids := VisibleInOrder(fingerprint, m, scope, validAt, knownAt);
    SameSnapshots(m, n, ids, scope, validAt, knownAt);
  }

  lemma SameSnapshots(m: Memory, n: Memory, ids: seq<Id>, scope: Scope, validAt: Time, knownAt: Time)
    requires forall id | id in ids :: id in VisibleRecords(m, scope, validAt, knownAt)
    requires forall id | id in VisibleRecords(m, scope, validAt, knownAt) ::
               SnapshotAsOf(m, id, validAt, knownAt) == SnapshotAsOf(n, id, validAt, knownAt)
    ensures forall i | 0 <= i < |ids| ::
              SnapshotAsOf(m, ids[i], validAt, knownAt).Some?
              && SnapshotAsOf(n, ids[i], validAt, knownAt).Some?
    ensures SnapshotsOf(m, ids, validAt, knownAt) == SnapshotsOf(n, ids, validAt, knownAt)
  {
    assert forall i | 0 <= i < |ids| :: ids[i] in ids;
    forall i | 0 <= i < |ids|
      ensures SnapshotAsOf(m, ids[i], validAt, knownAt).Some?
      ensures SnapshotAsOf(n, ids[i], validAt, knownAt) == SnapshotAsOf(m, ids[i], validAt, knownAt)
    {
      assert ids[i] in VisibleRecords(m, scope, validAt, knownAt);
    }
  }

  /** Showing each visible record in order is the read. */
  lemma ReadBuilt(fingerprint: Context -> string, m: Memory, scope: Scope, validAt: Time, knownAt: Time, shown: set<Id>,
                  ids: seq<Id>, r: seq<Snapshot>)
    requires shown == VisibleRecords(m, scope, validAt, knownAt)
             && Sorting.TotalOn(shown, RecordOrder(fingerprint, m.records))
    requires ids == Sorting.Sort(shown, RecordOrder(fingerprint, m.records))
    requires |r| == |ids| && forall k | 0 <= k < |r| :: Some(r[k]) == SnapshotAsOf(m, ids[k], validAt, knownAt)
    ensures r == MemoriesAsOf(fingerprint, m, scope, validAt, knownAt)
  {
    assert ids == VisibleInOrder(fingerprint, m, scope, validAt, knownAt);
  }
}
