/** Revocation is final: no step of any actor makes a revoked grant live again. */
module GrantSafety {
  import opened Common
  import opened Protocol
  import G = Governance
  import Erasing = ErasureSafety

  ghost predicate Revoked(g: G.Gov, id: Id) {
    id in g.grants && g.grants[id].revokedAt.Some?
  }

  /** Every revoked grant is stored as it was. */
  ghost predicate KeepsRevoked(g: G.Gov, h: G.Gov) {
    forall id | Revoked(g, id) :: id in h.grants && h.grants[id] == g.grants[id]
  }

  lemma ControlKeepsRevoked(cfg: Config, s: Sys, move: ControlMove)
    ensures KeepsRevoked(s.gov, ControlEffect(cfg, s, move).gov)
  {
  }

  lemma BeginLeavesGrants(cfg: Config, s: Sys, a: Id, requestId: Id, fenceId: Id, scope: Scope, reason: string,
                          policy: string, requestedBy: string, key: string)
    ensures Begin(cfg, s, a, requestId, fenceId, scope, reason, policy, requestedBy, key).gov.grants == s.gov.grants
  {
  }

  lemma ErasersLeaveGrants(cfg: Config, s: Sys, a: Id, move: EraserMove)
    ensures EraserEffect(cfg, s, a, move).gov.grants == s.gov.grants
  {
    match move
    case EraserBegin(requestId, fenceId, scope, reason, policy, requester, key) =>
      BeginLeavesGrants(cfg, s, a, requestId, fenceId, scope, reason, policy, requester, key);
    case EraserDeleteProjection(kept, ok) => assert DeleteProjection(cfg, s, a, kept, ok).gov == s.gov;
    case EraserDeleteAuthority(ok) => assert DeleteAuthority(s, a, ok).gov == s.gov;
    case EraserComplete(report, ok) => assert Finish(s, a, report, ok).gov.grants == s.gov.grants;
    case EraserGiveUp(recorded) => assert GiveUp(s, a, recorded).gov.grants == s.gov.grants;
  }

  lemma StepKeepsRevoked(cfg: Config, s: Sys, step: Step)
    ensures KeepsRevoked(s.gov, Next(cfg, s, step).gov)
  {
    match step
    case ByControl(move) => ControlKeepsRevoked(cfg, s, move);
    case ByWriter(a, move) => Erasing.WritersLeaveGovernance(s, a, move);
    case ByWorker(w, move) => Erasing.WorkersLeaveGovernance(cfg, s, w, move);
    case ByRebuild(r, move) => Erasing.RebuildsLeaveGovernance(s, r, move);
    case ByEraser(a, move) => ErasersLeaveGrants(cfg, s, a, move);
  }

  lemma {:induction false} RunKeepsRevoked(cfg: Config, s: Sys, steps: seq<Step>)
    ensures KeepsRevoked(s.gov, Run(cfg, s, steps).gov)
    decreases |steps|
  {
    if steps != [] {
      RunKeepsRevoked(cfg, s, steps[..|steps| - 1]);
      StepKeepsRevoked(cfg, Run(cfg, s, steps[..|steps| - 1]), steps[|steps| - 1]);
    }
  }

  /** Once a grant has been revoked it covers no purpose at any time, then and after every continuation, so a writer is
      let in only by another grant. */
  lemma RevocationIsFinal(cfg: Config, s: Sys, revoker: string, id: Id, more: seq<Step>, scope: Scope, purpose: string,
                          at: Time)
    requires id in s.gov.grants
    ensures var t := Run(cfg, Next(cfg, s, ByControl(RevokeGrant(s.gov.grants[id].scope, id, revoker))), more);
            && Revoked(t.gov, id) && !G.Covers(t.gov.grants[id], scope, purpose, at)
            && (G.Granted(t.gov, scope, purpose, at) ==>
                  exists other :: other in t.gov.grants && other != id
                      && G.Covers(t.gov.grants[other], scope, purpose, at))
  {
    var next := Next(cfg, s, ByControl(RevokeGrant(s.gov.grants[id].scope, id, revoker)));
    assert Revoked(next.gov, id);
    RunKeepsRevoked(cfg, next, more);
  }
}
