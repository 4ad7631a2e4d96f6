/** The privacy control plane's tables: processing grants, permanent suppression fences and erasure requests.
    Keyed pseudonymous references are collision-free, so a scope stands for its references. */
module Governance {
  import opened Common

  datatype Grant = Grant(
    id: Id, scope: Scope, purposes: set<string>, lawfulBasis: string, policyVersion: string, issuedBy: string,
    key: string, validFrom: Time, validUntil: Option<Time>, createdAt: Time,
    revokedAt: Option<Time>, revokedBy: Option<string>)

  datatype Fence = Fence(
    id: Id, scope: Scope, reason: string, policyVersion: string, requestedBy: string, key: string, createdAt: Time)

  datatype ErasureStatus = Pending | Completed

  /** What an erasure removed, by entity. */
  datatype Summary = Summary(
    observations: int, evidenceSpans: int, candidates: int, records: int, revisions: int, transitions: int,
    traces: int, traceItems: int, usages: int, usageItems: int, outcomes: int, utilities: int, documents: int)

  datatype Erasure = Erasure(
    id: Id, scope: Scope, reason: string, policyVersion: string, requestedBy: string, key: string,
    status: ErasureStatus, createdAt: Time, completedAt: Option<Time>, error: Option<string>, report: Option<Report>)

  /** What the completed handlers reported: the counts, and whether there was a projection to delete from. */
  datatype Report = Report(summary: Summary, projected: bool)

  datatype Gov = Gov(
    grants: map<Id, Grant>, grantKeys: map<(Scope, string), Id>, fences: map<Scope, Fence>,
    erasures: map<Id, Erasure>, erasureKeys: map<(Scope, string), Id>)

  const EMPTY := Gov(map[], map[], map[], map[], map[])

  /** The grant is live at the time and covers the purpose. */
  predicate Covers(grant: Grant, scope: Scope, purpose: string, at: Time) {
    && grant.scope == scope && purpose in grant.purposes && grant.revokedAt.None?
    && grant.validFrom <= at && (grant.validUntil.None? || at < grant.validUntil.value)
  }

  predicate Granted(g: Gov, scope: Scope, purpose: string, at: Time) {
    exists id | id in g.grants :: Covers(g.grants[id], scope, purpose, at)
  }

  predicate SameGrant(a: Grant, b: Grant) {
    && a.scope == b.scope && a.purposes == b.purposes && a.lawfulBasis == b.lawfulBasis
    && a.policyVersion == b.policyVersion && a.validFrom == b.validFrom && a.validUntil == b.validUntil
  }

  /** The stored grant, new or found under the key; a missing one is a failed lookup. */
  function IssueGrant(g: Gov, grant: Grant): Result<(Gov, Grant)> {
    var key := (grant.scope, grant.key);
    if key in g.grantKeys then
      if g.grantKeys[key] !in g.grants then Err(LookupFailure)
      else if !SameGrant(g.grants[g.grantKeys[key]], grant) then Err(ConflictError)
      else Ok((g, g.grants[g.grantKeys[key]]))
    else
      Ok((g.(grants := g.grants[grant.id := grant], grantKeys := g.grantKeys[key := grant.id]), grant))
  }

  function RevokeGrant(g: Gov, scope: Scope, id: Id, revoker: string, at: Time): Result<(Gov, Grant)> {
    if id !in g.grants || g.grants[id].scope != scope then Err(NotFoundError)
    else if g.grants[id].revokedAt.Some? then Ok((g, g.grants[id]))
    else
      var revoked := g.grants[id].(revokedAt := Some(at), revokedBy := Some(revoker));
      Ok((g.(grants := g.grants[id := revoked]), revoked))
  }

  /** A fence is planted once and never removed or replaced. */
  function Suppress(g: Gov, fence: Fence): Gov {
    if fence.scope in g.fences then g else g.(fences := g.fences[fence.scope := fence])
  }

  /** `begin_erasure`: the request it answers with, after planting the fence when the request is new. */
  function BeginErasure(g: Gov, requestId: Id, fenceId: Id, scope: Scope, reason: string, policyVersion: string,
                        requestedBy: string, key: string, at: Time): Result<(Gov, Erasure)>
  {
    if (scope, key) in g.erasureKeys && g.erasureKeys[(scope, key)] in g.erasures then
      var existing := g.erasures[g.erasureKeys[(scope, key)]];
      if existing.reason != reason || existing.policyVersion != policyVersion then Err(ConflictError)
      else Ok((g, existing))
    else
      var fenced := Suppress(g, Fence(fenceId, scope, reason, policyVersion, requestedBy, "erasure:" + key, at));
      var request := Erasure(requestId, scope, reason, policyVersion, requestedBy, key, Pending, at, None, None, None);
      Ok((fenced.(erasures := fenced.erasures[requestId := request],
                  erasureKeys := fenced.erasureKeys[(scope, key) := requestId]), request))
  }

  function CompleteErasure(g: Gov, scope: Scope, id: Id, report: Report, at: Time): Result<(Gov, Erasure)> {
    if id !in g.erasures || g.erasures[id].scope != scope then Err(NotFoundError)
    else if g.erasures[id].status == Completed then Ok((g, g.erasures[id]))
    else
      var done := g.erasures[id].(status := Completed, completedAt := Some(at), error := None, report := Some(report));
      Ok((g.(erasures := g.erasures[id := done]), done))
  }

  function FailErasure(g: Gov, scope: Scope, id: Id, error: string): Result<(Gov, Erasure)> {
    if id !in g.erasures || g.erasures[id].scope != scope then Err(NotFoundError)
    else if g.erasures[id].status == Completed then Ok((g, g.erasures[id]))
    else
      var pending := g.erasures[id].(status := Pending, error := Some(error));
      Ok((g.(erasures := g.erasures[id := pending]), pending))
  }

  // ---------------------------------------------------------------- grants

  /** Grants are stored under their identifier, and found under their own scope and key. */
  ghost predicate GrantsKeyed(g: Gov) {
    && (forall id | id in g.grants :: g.grants[id].id == id)
    && (forall k | k in g.grantKeys ::
          g.grantKeys[k] in g.grants && (g.grants[g.grantKeys[k]].scope, g.grants[g.grantKeys[k]].key) == k)
  }

  /** Issuing under a new key admits exactly what the new grant covers, on top of what was admitted. */
  lemma IssuingAdmits(g: Gov, grant: Grant, scope: Scope, purpose: string, at: Time)
    requires GrantsKeyed(g) && grant.id !in g.grants && (grant.scope, grant.key) !in g.grantKeys
    ensures IssueGrant(g, grant).Ok? && IssueGrant(g, grant).value.1 == grant
    ensures GrantsKeyed(IssueGrant(g, grant).value.0)
    ensures Granted(IssueGrant(g, grant).value.0, scope, purpose, at)
            <==> Granted(g, scope, purpose, at) || Covers(grant, scope, purpose, at)
  {
    var h := IssueGrant(g, grant).value.0;
    assert h.grants[grant.id] == grant;
    if id :| id in g.grants && Covers(g.grants[id], scope, purpose, at) {
      assert h.grants[id] == g.grants[id];
    }
  }

  /** A key answers for good: sent again, it changes nothing and returns the grant it was used for if it asks for the
      same purposes, basis, policy and period, and is refused otherwise. */
  lemma IssuingReplays(g: Gov, grant: Grant, again: Grant)
    requires GrantsKeyed(g) && grant.id !in g.grants && IssueGrant(g, grant).Ok?
    requires again.scope == grant.scope && again.key == grant.key
    ensures var (h, stored) := IssueGrant(g, grant).value;
            IssueGrant(h, again) ==
            if again.purposes == stored.purposes && again.lawfulBasis == stored.lawfulBasis
               && again.policyVersion == stored.policyVersion && again.validFrom == stored.validFrom
               && again.validUntil == stored.validUntil then Ok((h, stored))
            else Err(ConflictError)
  {
  }

  /** Revoking a grant of the scope takes away exactly what no other grant covers, and a second time changes nothing. */
  lemma RevokingRemoves(g: Gov, id: Id, revoker: string, revoked: Time, scope: Scope, purpose: string, at: Time)
    requires GrantsKeyed(g) && id in g.grants
    ensures var r := RevokeGrant(g, g.grants[id].scope, id, revoker, revoked);
            && r.Ok? && GrantsKeyed(r.value.0) && r.value.1.revokedAt.Some?
            && (Granted(r.value.0, scope, purpose, at)
                <==> exists other :: other in g.grants && other != id && Covers(g.grants[other], scope, purpose, at))
            && (forall again, later ::
                  RevokeGrant(r.value.0, g.grants[id].scope, id, again, later) == r)
  {
    var h := RevokeGrant(g, g.grants[id].scope, id, revoker, revoked).value.0;
    if other :| other in g.grants && other != id && Covers(g.grants[other], scope, purpose, at) {
      assert h.grants[other] == g.grants[other];
    }
  }

  // ---------------------------------------------------------------- erasure requests

  /** Requests are stored under their identifier, and found under a key of their own scope. */
  ghost predicate WellKeyed(g: Gov) {
    && (forall id | id in g.erasures :: g.erasures[id].id == id)
    && (forall k | k in g.erasureKeys :: g.erasureKeys[k] in g.erasures && g.erasures[g.erasureKeys[k]].scope == k.0)
  }

  /** Beginning answers with the stored request of the scope, new or found. */
  lemma BeginStores(g: Gov, requestId: Id, fenceId: Id, scope: Scope, reason: string, policyVersion: string,
                    requestedBy: string, key: string, at: Time)
    requires WellKeyed(g) && requestId !in g.erasures
    requires BeginErasure(g, requestId, fenceId, scope, reason, policyVersion, requestedBy, key, at).Ok?
    ensures var (h, request) := BeginErasure(g, requestId, fenceId, scope, reason, policyVersion, requestedBy, key,
                                             at).value;
            && WellKeyed(h) && request.id in h.erasures && h.erasures[request.id] == request && request.scope == scope
  {
    if (scope, key) in g.erasureKeys {
      var id := g.erasureKeys[(scope, key)];
      assert g.erasures[id].id == id;
    }
  }

  /** A key answers for good: beginning again under it plants no fence and changes nothing; the request it began is the
      answer if reason and policy are the same, whoever asks, and anything else is refused. */
  lemma BeginningReplays(g: Gov, requestId: Id, fenceId: Id, scope: Scope, reason: string, policyVersion: string,
                         requestedBy: string, key: string, at: Time)
    requires WellKeyed(g) && (scope, key) in g.erasureKeys
    ensures var request := g.erasures[g.erasureKeys[(scope, key)]];
            BeginErasure(g, requestId, fenceId, scope, reason, policyVersion, requestedBy, key, at) ==
            if request.reason == reason && request.policyVersion == policyVersion then Ok((g, request))
            else Err(ConflictError)
  {
  }

  /** Every fence, grant and key stands, and every other request is as it was. */
  ghost predicate SettlesOnly(g: Gov, h: Gov, id: Id) {
    && h == g.(erasures := h.erasures) && h.erasures.Keys == g.erasures.Keys
    && (forall other | other in g.erasures && other != id :: h.erasures[other] == g.erasures[other])
  }

  /** Completing a stored request changes that request and nothing else. */
  lemma CompletingStores(g: Gov, scope: Scope, id: Id, report: Report, at: Time)
    requires WellKeyed(g) && id in g.erasures && g.erasures[id].scope == scope
    ensures var r := CompleteErasure(g, scope, id, report, at);
            && r.Ok? && WellKeyed(r.value.0) && SettlesOnly(g, r.value.0, id) && r.value.1.status == Completed
            && r.value.0.erasures[id] == r.value.1
            && r.value.1 == if g.erasures[id].status == Completed then g.erasures[id]
                            else g.erasures[id].(status := Completed, completedAt := Some(at), error := None,
                                                 report := Some(report))
  {
  }

  /** Recording a failure leaves a pending request pending and a completed one as it is. */
  lemma FailingStores(g: Gov, scope: Scope, id: Id, error: string)
    requires WellKeyed(g) && id in g.erasures && g.erasures[id].scope == scope
    ensures var r := FailErasure(g, scope, id, error);
            && r.Ok? && WellKeyed(r.value.0) && SettlesOnly(g, r.value.0, id)
            && r.value.1.status == g.erasures[id].status && r.value.0.erasures[id] == r.value.1
            && (if g.erasures[id].status == Completed then r.value.0 == g
                else r.value.1 == g.erasures[id].(error := Some(error)))
  {
  }

  /** Grants and requests of another scope are not found, and nothing happens to them. */
  lemma ForeignIsNotFound(g: Gov, scope: Scope, id: Id, revoker: string, report: Report, error: string, at: Time)
    ensures id !in g.grants || g.grants[id].scope != scope ==>
              RevokeGrant(g, scope, id, revoker, at) == Err(NotFoundError)
    ensures id !in g.erasures || g.erasures[id].scope != scope ==>
              CompleteErasure(g, scope, id, report, at) == Err(NotFoundError)
              && FailErasure(g, scope, id, error) == Err(NotFoundError)
  {
  }
}
