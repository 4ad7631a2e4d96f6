/** Privacy governance and the erasing use case as objects: grants, fences and requests updated in place, and `erase`
    running begin, delete, complete or fail against the store and the index. */
module Privacy {
  import opened Common
  import G = Governance
  import M = MemoryTables
  import opened MemoryStore
  import opened ScopeErasure
  import Projector
  import Sorting
  import opened Protocol

  /** A refused call leaves the state; an accepted one returns its entity. */
  predicate Returns<X(==)>(before: G.Gov, spec: Result<(G.Gov, X)>, after: G.Gov, r: Result<X>) {
    match spec
    case Ok((next, x)) => r == Ok(x) && after == next
    case Err(e) => r == Err(e) && after == before
  }

  class InMemoryPrivacyGovernance {
    var grants: map<Id, G.Grant>
    var grantKeys: map<(Scope, string), Id>
    var fences: map<Scope, G.Fence>
    var erasures: map<Id, G.Erasure>
    var erasureKeys: map<(Scope, string), Id>

    function State(): G.Gov
      reads this
    {
      G.Gov(grants, grantKeys, fences, erasures, erasureKeys)
    }

    constructor ()
      ensures State() == G.EMPTY
    {
      grants, grantKeys, fences, erasures, erasureKeys := map[], map[], map[], map[], map[];
    }

    /** Entering the processing context: refused for a fenced scope, or without a grant that covers purpose and time. */
    method EnterProcessing(scope: Scope, purpose: string, at: Time) returns (error: Option<Error>)
      ensures error.None? <==> scope !in fences && G.Granted(State(), scope, purpose, at)
      ensures error.Some? ==> error.value == ProcessingDenied
    {
      if scope in fences {
        return Some(ProcessingDenied);
      }
      var left := grants.Keys;
      while left != {}
        invariant left <= grants.Keys
        invariant forall id | id in State().grants && id !in left :: !G.Covers(State().grants[id], scope, purpose, at)
        decreases |left|
      {
        var id := Sorting.Take(left);
        left := left - {id};
        if G.Covers(grants[id], scope, purpose, at) {
          assert G.Covers(State().grants[id], scope, purpose, at);
          return None;
        }
      }
      error := Some(ProcessingDenied);
    }

    method IssueGrant(grant: G.Grant) returns (r: Result<G.Grant>)
      modifies this`grants, this`grantKeys
      ensures Returns(old(State()), G.IssueGrant(old(State()), grant), State(), r)
      ensures G.GrantsKeyed(old(State())) && r.Ok? ==>
                r.value.id in grants && grants[r.value.id] == r.value && G.SameGrant(r.value, grant)
      ensures G.GrantsKeyed(old(State())) && grant.id !in old(grants) ==> G.GrantsKeyed(State())
    {
      var key := (grant.scope, grant.key);
      if key in grantKeys {
        if grantKeys[key] !in grants {
          return Err(LookupFailure);
        }
        var existing := grants[grantKeys[key]];
        assert G.GrantsKeyed(old(State())) ==> old(State()).grants[grantKeys[key]].id == grantKeys[key];
        return if G.SameGrant(existing, grant) then Ok(existing) else Err(ConflictError);
      }
      grants := grants[grant.id := grant];
      grantKeys := grantKeys[key := grant.id];
      r := Ok(grant);
    }

    method RevokeGrant(scope: Scope, id: Id, revoker: string, at: Time) returns (r: Result<G.Grant>)
      modifies this`grants
      ensures Returns(old(State()), G.RevokeGrant(old(State()), scope, id, revoker, at), State(), r)
      ensures r.Ok? ==>
                && id in grants && grants[id] == r.value
                && forall other, purpose, when :: !G.Covers(grants[id], other, purpose, when)
    {
      if id !in grants || grants[id].scope != scope {
        return Err(NotFoundError);
      }
      if grants[id].revokedAt.Some? {
        return Ok(grants[id]);
      }
      grants := grants[id := grants[id].(revokedAt := Some(at), revokedBy := Some(revoker))];
      r := Ok(grants[id]);
    }

    /** Answers with the fence that stands, new or old. */
    method Suppress(fence: G.Fence) returns (standing: G.Fence)
      modifies this`fences
      ensures State() == G.Suppress(old(State()), fence) && fence.scope in fences && standing == fences[fence.scope]
    {
      if fence.scope !in fences {
        fences := fences[fence.scope := fence];
      }
      standing := fences[fence.scope];
    }

    method BeginErasure(requestId: Id, fenceId: Id, scope: Scope, reason: string, policyVersion: string,
                        requestedBy: string, key: string, at: Time) returns (r: Result<G.Erasure>)
      modifies this
      ensures Returns(old(State()),
                      G.BeginErasure(old(State()), requestId, fenceId, scope, reason, policyVersion, requestedBy, key,
                                     at),
                      State(), r)
    {
      if (scope, key) in erasureKeys && erasureKeys[(scope, key)] in erasures {
        var existing := erasures[erasureKeys[(scope, key)]];
        if existing.reason != reason || existing.policyVersion != policyVersion {
          return Err(ConflictError);
        }
        return Ok(existing);
      }
      var fence := Suppress(G.Fence(fenceId, scope, reason, policyVersion, requestedBy, "erasure:" + key, at));
      var request := G.Erasure(requestId, scope, reason, policyVersion, requestedBy, key, G.Pending, at, None, None,
                               None);
      erasures := erasures[requestId := request];
      erasureKeys := erasureKeys[(scope, key) := requestId];
      r := Ok(request);
    }

    method CompleteErasure(scope: Scope, id: Id, report: G.Report, at: Time) returns (r: Result<G.Erasure>)
      modifies this`erasures
      ensures Returns(old(State()), G.CompleteErasure(old(State()), scope, id, report, at), State(), r)
    {
      if id !in erasures || erasures[id].scope != scope {
        return Err(NotFoundError);
      }
      if erasures[id].status == G.Completed {
        return Ok(erasures[id]);
      }
      erasures := erasures[id := erasures[id].(status := G.Completed, completedAt := Some(at), error := None,
                                               report := Some(report))];
      r := Ok(erasures[id]);
    }

    method FailErasure(scope: Scope, id: Id, error: string) returns (r: Result<G.Erasure>)
      modifies this`erasures
      ensures Returns(old(State()), G.FailErasure(old(State()), scope, id, error), State(), r)
    {
      if id !in erasures || erasures[id].scope != scope {
        return Err(NotFoundError);
      }
      if erasures[id].status == G.Completed {
        return Ok(erasures[id]);
      }
      erasures := erasures[id := erasures[id].(status := G.Pending, error := Some(error))];
      r := Ok(erasures[id]);
    }
  }

  /** Which steps of an erasure raise: deleting from the index, which then keeps these documents; deleting from the
      authority; completing the request; recording the failure. */
  datatype Faults = Faults(projection: Option<set<Id>>, authority: bool, complete: bool, record: Option<Error>)

  /** Nothing of the scope is in the index. */
  ghost predicate IndexClear(documents: map<Id, Document>, scope: Scope) {
    forall id | id in documents :: documents[id].event.scope != scope
  }

  /** No document of another scope comes, goes or changes. */
  ghost predicate OthersStay(before: map<Id, Document>, after: map<Id, Document>, scope: Scope) {
    && (forall id | id in after :: id in before && after[id] == before[id])
    && (forall id | id in before && before[id].event.scope != scope :: id in after)
  }

  /** The request is completed with the report; or it is pending with the failure recorded; or, when recording it raises
      as well, it stays as it was. */
  ghost predicate Handled(g: G.Gov, h: G.Gov, scope: Scope, id: Id, report: G.Report, later: Time,
                          record: Option<Error>, r: Result<G.Erasure>)
  {
    match r
    case Ok(erasure) => G.CompleteErasure(g, scope, id, report, later) == Ok((h, erasure))
    case Err(error) =>
      if record.Some? then error == record.value && h == g
      else
        && error == GovernanceUnavailable && G.FailErasure(g, scope, id, "raised").Ok?
        && h == G.FailErasure(g, scope, id, "raised").value.0
  }

  class PrivacyApplication {
    const governance: InMemoryPrivacyGovernance
    const store: InMemoryMemoryStore
    const index: Option<Projector.RecallIndex>
    const policyVersion: string

    constructor (governance: InMemoryPrivacyGovernance, store: InMemoryMemoryStore,
                 index: Option<Projector.RecallIndex>, policyVersion: string)
      ensures this.governance == governance && this.store == store && this.index == index
              && this.policyVersion == policyVersion
    {
      this.governance, this.store, this.index, this.policyVersion := governance, store, index, policyVersion;
    }

    /** The objects an erasure writes. */
    ghost function Footprint(): set<object> {
      {governance, store} + if index.Some? then {index.value} else {}
    }

    /** Whether the scope's data is gone from the authority and from the index, when there is one. */
    ghost predicate Gone(scope: Scope)
      reads store, if index.Some? then {index.value} else {}
    {
      NothingOf(store.State(), scope) && (index.Some? ==> IndexClear(index.value.documents, scope))
    }

    /** The index's documents, when there is one. */
    function Documents(): map<Id, Document>
      reads if index.Some? then {index.value} else {}
    {
      if index.Some? then index.value.documents else map[]
    }

    /** Some step of deleting raises. */
    predicate Raises(faults: Faults) {
      (index.Some? && faults.projection.Some?) || faults.authority
    }

    /** What an erasure reports: the counts of both stores, and whether there is an index. */
    ghost function ReportFor(before: M.Tables, scope: Scope, documents: map<Id, Document>, left: map<Id, Document>)
      : G.Report
    {
      G.Report(M.SummaryOf(before, scope).(documents := |documents| - |left|), index.Some?)
    }

    /** The projection first, then the authority; a raising step stops the sequence. */
    method EraseData(scope: Scope, faults: Faults) returns (summary: Option<G.Summary>)
      modifies store, if index.Some? then {index.value} else {}
      ensures summary.None? <==> Raises(faults)
      ensures summary.Some? ==>
                && Gone(scope) && store.State() == M.EraseScope(old(store.State()), scope)
                && G.Report(summary.value, index.Some?)
                   == ReportFor(old(store.State()), scope, old(Documents()), Documents())
      ensures summary.None? ==> store.State() == old(store.State())
      ensures OthersStay(old(Documents()), Documents(), scope)
    {
      hide M.EraseScope, M.SummaryOf, NothingOf;
      var deleted := 0;
      if index.Some? {
        if faults.projection.Some? {
          index.value.DeletePart(scope, faults.projection.value);
          return None;
        }
        deleted := index.value.DeleteScope(scope);
      }
      if faults.authority {
        return None;
      }
      var counted := store.EraseScope(scope);
      EraseLeavesNothing(old(store.State()), scope);
      summary := Some(counted.(documents := deleted));
    }

    /** Delete, then complete; or record the failure and leave the request pending for a retry. */
    method RunHandlers(scope: Scope, id: Id, later: Time, faults: Faults) returns (r: Result<G.Erasure>)
      requires G.WellKeyed(governance.State()) && id in governance.erasures && governance.erasures[id].scope == scope
      modifies Footprint()
      ensures G.WellKeyed(governance.State()) && OthersStay(old(Documents()), Documents(), scope)
      ensures r.Ok? <==> !Raises(faults) && !faults.complete
      ensures Handled(old(governance.State()), governance.State(), scope, id,
                      ReportFor(old(store.State()), scope, old(Documents()), Documents()), later, faults.record, r)
      ensures if Raises(faults) then store.State() == old(store.State())
              else Gone(scope) && store.State() == M.EraseScope(old(store.State()), scope)
    {
      hide M.SummaryOf, M.EraseScope, NothingOf, IndexClear, OthersStay, PrivacyApplication.ReportFor;
      var summary := EraseData(scope, faults);
      if summary.Some? && !faults.complete {
        var report := G.Report(summary.value, index.Some?);
        G.CompletingStores(governance.State(), scope, id, report, later);
        r := governance.CompleteErasure(scope, id, report, later);
        return;
      }
      if faults.record.Some? {
        return Err(faults.record.value);
      }
      G.FailingStores(governance.State(), scope, id, "raised");
      var recorded := governance.FailErasure(scope, id, "raised");
      r := Err(GovernanceUnavailable);
    }

    /** `erase`: a completed request is answered as it is; otherwise the scope is fenced and the handlers run. */
    method Erase(requestId: Id, fenceId: Id, scope: Scope, reason: string, requestedBy: string, key: string,
                 now: Time, later: Time, faults: Faults) returns (r: Result<G.Erasure>)
      requires G.WellKeyed(governance.State()) && requestId !in governance.erasures
      modifies Footprint()
      ensures G.WellKeyed(governance.State()) && OthersStay(old(Documents()), Documents(), scope)
      ensures match G.BeginErasure(old(governance.State()), requestId, fenceId, scope, reason, policyVersion,
                                   requestedBy, key, now)
              case Err(e) => r == Err(e) && governance.State() == old(governance.State())
                  && store.State() == old(store.State()) && Documents() == old(Documents())
              case Ok((g, request)) =>
                if request.status == G.Completed then
                  && r == Ok(request) && governance.State() == g
                  && store.State() == old(store.State()) && Documents() == old(Documents())
                else
                  && (r.Ok? <==> !Raises(faults) && !faults.complete)
                  && Handled(g, governance.State(), scope, request.id,
                             ReportFor(old(store.State()), scope, old(Documents()), Documents()), later, faults.record,
                             r)
                  && (if Raises(faults) then store.State() == old(store.State())
                      else Gone(scope) && store.State() == M.EraseScope(old(store.State()), scope))
    {
      var began := governance.BeginErasure(requestId, fenceId, scope, reason, policyVersion, requestedBy, key, now);
      if began.Err? {
        return began;
      }
      G.BeginStores(old(governance.State()), requestId, fenceId, scope, reason, policyVersion, requestedBy, key, now);
      if began.value.status == G.Completed {
        return began;
      }
      r := RunHandlers(scope, began.value.id, later, faults);
    }
  }
}
