/** The as-of read is the chain's answer: of each visible record, the highest-sequence revision in force on both
    axes. */
module ChainReads {
  import opened Common
  import opened MemoryTables
  import opened AsOf
  import opened MemoryInvariant
  import Sorting

  /** Recording times do not decrease along a chain. */
  lemma {:induction false} RecordedInOrder(m: Memory, clock: Time, r: Record, chain: seq<Id>, i: nat, j: nat)
    requires i <= j < |chain| && forall k | 0 <= k < |chain| :: LinkOk(m, clock, r, chain, k)
    ensures chain[i] in m.revisions && chain[j] in m.revisions
    ensures m.revisions[chain[i]].recordedAt <= m.revisions[chain[j]].recordedAt
    decreases j - i
  {
    assert LinkOk(m, clock, r, chain, j) && LinkOk(m, clock, r, chain, i);
    if i < j {
      RecordedInOrder(m, clock, r, chain, i, j - 1);
    }
  }

  /** The answer the chain should give: an eligible revision after which none is eligible. */
  ghost predicate IsAnswer(m: Memory, chain: seq<Id>, validAt: Time, knownAt: Time, v: Revision) {
    exists i ::
      && 0 <= i < |chain| && Eligible(m, chain[i], validAt, knownAt) && m.revisions[chain[i]] == v
      && forall j | i < j < |chain| :: !Eligible(m, chain[j], validAt, knownAt)
  }

  lemma BestIsAnswer(m: Memory, next: Id, clock: Time, id: Id, validAt: Time, knownAt: Time)
    requires MemoryOk(m, next, clock) && id in m.records
    requires id in m.chains && Best(m, m.chains[id], validAt, knownAt).Some?
    ensures IsAnswer(m, m.chains[id], validAt, knownAt, Best(m, m.chains[id], validAt, knownAt).value)
  {
    var chain, v := m.chains[id], Best(m, m.chains[id], validAt, knownAt).value;
    BestIsBest(m, chain, validAt, knownAt);
    assert RecordOk(m, next, clock, id, m.records[id]);
    var i :| 0 <= i < |chain| && Eligible(m, chain[i], validAt, knownAt) && m.revisions[chain[i]] == v;
    forall j | i < j < |chain| ensures !Eligible(m, chain[j], validAt, knownAt) {
      RecordedInOrder(m, clock, m.records[id], chain, i, j);
      assert LinkOk(m, clock, m.records[id], chain, i) && LinkOk(m, clock, m.records[id], chain, j);
    }
  }

  /** A record is visible exactly when one of its revisions is eligible: its creation time adds nothing. */
  lemma VisibleExactly(m: Memory, next: Id, clock: Time, id: Id, validAt: Time, knownAt: Time)
    requires MemoryOk(m, next, clock) && id in m.records
    ensures id in m.chains
    ensures SnapshotAsOf(m, id, validAt, knownAt).Some? <==>
              exists k :: 0 <= k < |m.chains[id]| && Eligible(m, m.chains[id][k], validAt, knownAt)
  {
    var r := m.records[id];
    assert RecordOk(m, next, clock, id, r);
    BestIsBest(m, m.chains[id], validAt, knownAt);
    forall k | 0 <= k < |m.chains[id]| && Eligible(m, m.chains[id][k], validAt, knownAt)
        ensures r.createdAt <= knownAt {
      assert LinkOk(m, clock, r, m.chains[id], k);
    }
  }

  /** The sequence runs 1..n, each revision superseding the one before, with the active head last. */
  ghost predicate WellChained(m: Memory, id: Id) {
    && id in m.chains && m.chains[id] != [] && id in m.active && m.active[id] == m.chains[id][|m.chains[id]| - 1]
    && (forall i | 0 <= i < |m.chains[id]| ::
         && m.chains[id][i] in m.revisions
         && m.revisions[m.chains[id][i]].recordId == id && m.revisions[m.chains[id][i]].sequence == i + 1
         && m.revisions[m.chains[id][i]].supersedes == (if i == 0 then None else Some(m.chains[id][i - 1])))
  }

  lemma ChainsAreWell(m: Memory, next: Id, clock: Time, id: Id)
    requires MemoryOk(m, next, clock) && id in m.records
    ensures WellChained(m, id)
  {
    assert RecordOk(m, next, clock, id, m.records[id]);
    forall i | 0 <= i < |m.chains[id]|
      ensures && m.chains[id][i] in m.revisions
              && m.revisions[m.chains[id][i]].recordId == id && m.revisions[m.chains[id][i]].sequence == i + 1
              && m.revisions[m.chains[id][i]].supersedes == (if i == 0 then None else Some(m.chains[id][i - 1]))
    {
      assert LinkOk(m, clock, m.records[id], m.chains[id], i);
    }
  }

  ghost predicate HasEligible(m: Memory, scope: Scope, id: Id, validAt: Time, knownAt: Time) {
    && id in m.records && m.records[id].scope == scope && id in m.chains
    && exists k :: 0 <= k < |m.chains[id]| && Eligible(m, m.chains[id][k], validAt, knownAt)
  }

  lemma ReadCovers(fingerprint: Context -> string, m: Memory, next: Id, clock: Time, scope: Scope, validAt: Time,
                   knownAt: Time, id: Id)
    requires MemoryOk(m, next, clock)
    ensures id in VisibleInOrder(fingerprint, m, scope, validAt, knownAt)
            <==> HasEligible(m, scope, id, validAt, knownAt)
  {
    if id in m.records {
      VisibleExactly(m, next, clock, id, validAt, knownAt);
    }
  }

  ghost predicate ShowsAnswer(m: Memory, id: Id, validAt: Time, knownAt: Time, s: Snapshot) {
    id in m.records && s.record == m.records[id] && id in m.chains
        && IsAnswer(m, m.chains[id], validAt, knownAt, s.revision)
  }

  lemma ReadShows(fingerprint: Context -> string, m: Memory, next: Id, clock: Time, scope: Scope, validAt: Time,
                  knownAt: Time, i: nat)
    requires MemoryOk(m, next, clock) && i < |VisibleInOrder(fingerprint, m, scope, validAt, knownAt)|
    ensures var ids, read := VisibleInOrder(fingerprint, m, scope, validAt, knownAt),
            MemoriesAsOf(fingerprint, m, scope, validAt, knownAt);
            |read| == |ids| && ShowsAnswer(m, ids[i], validAt, knownAt, read[i])
  {
    var ids := VisibleInOrder(fingerprint, m, scope, validAt, knownAt);
    assert ids[i] in ids;
    BestIsAnswer(m, next, clock, ids[i], validAt, knownAt);
  }

  /** `memories_as_of` returns, in sorted order, exactly one snapshot for each record of the scope that has an eligible
      revision, showing the chain's answer. */
  lemma ReadIsChainAnswer(fingerprint: Context -> string, m: Memory, next: Id, clock: Time, scope: Scope, validAt: Time,
                          knownAt: Time)
    requires MemoryOk(m, next, clock)
    ensures var ids, read := VisibleInOrder(fingerprint, m, scope, validAt, knownAt),
            MemoriesAsOf(fingerprint, m, scope, validAt, knownAt);
            && |read| == |ids| && Sorting.Distinct(ids) && Sorting.Ordered(ids, RecordOrder(fingerprint, m.records))
            && (forall id :: id in ids <==> HasEligible(m, scope, id, validAt, knownAt))
            && (forall i | 0 <= i < |read| :: ShowsAnswer(m, ids[i], validAt, knownAt, read[i]))
  {
    var ids, read := VisibleInOrder(fingerprint, m, scope, validAt, knownAt),
        MemoriesAsOf(fingerprint, m, scope, validAt, knownAt);
    forall id ensures id in ids <==> HasEligible(m, scope, id, validAt, knownAt) {
      ReadCovers(fingerprint, m, next, clock, scope, validAt, knownAt, id);
    }
    forall i | 0 <= i < |ids| ensures |read| == |ids| && ShowsAnswer(m, ids[i], validAt, knownAt, read[i]) {
      ReadShows(fingerprint, m, next, clock, scope, validAt, knownAt, i);
    }
  }

  /** Both times cover every revision of the scope. */
  ghost predicate Covers(m: Memory, scope: Scope, validAt: Time, knownAt: Time) {
    forall r | r in m.revisions && m.revisions[r].recordId in m.records
        && m.records[m.revisions[r].recordId].scope == scope ::
      Eligible(m, r, validAt, knownAt)
  }

  lemma HeadIsShown(m: Memory, next: Id, clock: Time, scope: Scope, id: Id, validAt: Time, knownAt: Time)
    requires MemoryOk(m, next, clock) && id in m.records && m.records[id].scope == scope
             && Covers(m, scope, validAt, knownAt)
    ensures SnapshotOf(m, scope, id).Some? && SnapshotAsOf(m, id, validAt, knownAt) == SnapshotOf(m, scope, id)
  {
    ChainsAreWell(m, next, clock, id);
    var chain := m.chains[id];
    var last := |chain| - 1;
    assert chain[last] in m.revisions && Eligible(m, chain[last], validAt, knownAt);
    VisibleExactly(m, next, clock, id, validAt, knownAt);
    BestIsAnswer(m, next, clock, id, validAt, knownAt);
    var v := Best(m, chain, validAt, knownAt).value;
    var i :| 0 <= i < |chain| && Eligible(m, chain[i], validAt, knownAt) && m.revisions[chain[i]] == v
             && forall j | i < j < |chain| :: !Eligible(m, chain[j], validAt, knownAt);
  }

  lemma ReadIsActive(fingerprint: Context -> string, m: Memory, next: Id, clock: Time, scope: Scope, validAt: Time,
                     knownAt: Time, i: nat)
    requires MemoryOk(m, next, clock) && Covers(m, scope, validAt, knownAt)
    requires i < |MemoriesAsOf(fingerprint, m, scope, validAt, knownAt)|
    ensures MemoriesAsOf(fingerprint, m, scope, validAt, knownAt)[i] in ActiveMemories(m, scope)
  {
    var ids := VisibleInOrder(fingerprint, m, scope, validAt, knownAt);
    assert ids[i] in ids;
    HeadIsShown(m, next, clock, scope, ids[i], validAt, knownAt);
    assert ids[i] in m.active;
  }

  lemma ActiveIsRead(fingerprint: Context -> string, m: Memory, next: Id, clock: Time, scope: Scope, validAt: Time,
                     knownAt: Time, id: Id)
    requires MemoryOk(m, next, clock) && Covers(m, scope, validAt, knownAt)
    requires id in m.active && SnapshotOf(m, scope, id).Some?
    ensures SnapshotOf(m, scope, id).value in MemoriesAsOf(fingerprint, m, scope, validAt, knownAt)
  {
    var ids, read := VisibleInOrder(fingerprint, m, scope, validAt, knownAt),
        MemoriesAsOf(fingerprint, m, scope, validAt, knownAt);
    HeadIsShown(m, next, clock, scope, id, validAt, knownAt);
    assert id in VisibleRecords(m, scope, validAt, knownAt);
    var i :| 0 <= i < |ids| && ids[i] == id;
    assert read[i] == SnapshotOf(m, scope, id).value;
  }

  /** When both times cover every revision of the scope, the read is the set of active heads. */
  lemma FullReadIsActive(fingerprint: Context -> string, m: Memory, next: Id, clock: Time, scope: Scope, validAt: Time,
                         knownAt: Time, s: Snapshot)
    requires MemoryOk(m, next, clock) && Covers(m, scope, validAt, knownAt)
    ensures s in MemoriesAsOf(fingerprint, m, scope, validAt, knownAt) <==> s in ActiveMemories(m, scope)
  {
    var read := MemoriesAsOf(fingerprint, m, scope, validAt, knownAt);
    if s in read {
      var i :| 0 <= i < |read| && read[i] == s;
      ReadIsActive(fingerprint, m, next, clock, scope, validAt, knownAt, i);
    }
    if s in ActiveMemories(m, scope) {
      var id :| id in m.active && SnapshotOf(m, scope, id).Some? && SnapshotOf(m, scope, id).value == s;
      ActiveIsRead(fingerprint, m, next, clock, scope, validAt, knownAt, id);
    }
  }
}
