/** What the gates of evolution let through, written out: which receipt moves an experiment along which edge, and what a
    proposal is made of. */
module GateMeaning {
  import opened Common
  import opened Registry
  import opened Evolution
  import ActivationStack
  import W = Weights

  /** The edges of the stage graph. */
  const EDGES: set<(Stage, Stage)> := {
    (Proposed, OfflinePassed), (Proposed, Rejected), (OfflinePassed, Shadow), (OfflinePassed, Rejected),
    (Shadow, Canary), (Shadow, RolledBack), (Canary, Promoted), (Canary, RolledBack), (Promoted, RolledBack)}

  /** The receipt is signed by a trusted key, and the time lies in its window. */
  ghost predicate Genuine(v: Verifier, g: Receipt, at: Time) {
    var signer := (g.claims.issuer, g.claims.keyId);
    && signer in v.trusted && g.signature == v.mac(v.trusted[signer], g.claims)
    && g.claims.issuedAt <= at && at < g.claims.expiresAt
  }

  /** The receipt is about this step of this experiment: a rejection needs a rejecting receipt, a rollback one that
      rolls back, and every other step a passing one with its hard gates passed. */
  ghost predicate Entitles(g: Receipt, id: Id, baseline: Id, candidate: Id, from: Stage, to: Stage) {
    && g.claims.experiment == id && g.claims.baseline == baseline && g.claims.candidate == candidate
    && g.claims.from == from && g.claims.to == to
    && (to == Rejected ==> g.claims.decision == Reject)
    && (to == RolledBack ==> g.claims.decision == GateDecision.Rollback)
    && (to != Rejected && to != RolledBack ==> g.claims.decision == Pass && g.claims.hardGatesPassed)
  }

  lemma LegalIsEdge(from: Stage, to: Stage)
    ensures Legal(from, to) <==> (from, to) in EDGES
  {
  }

  lemma GatedIsEntitled(v: Verifier, e: Experiment, t: Transition)
    requires Gated(v, e, t)
    ensures t.from.Some? && t.request.AdvanceRequest? && t.request.experiment == e.id && t.request.target == t.to
    ensures Genuine(v, t.request.receipt, t.at)
    ensures Entitles(t.request.receipt, e.id, e.baseline, e.candidate, t.from.value, t.to)
  {
  }

  /** One step of a history, as it should be. */
  ghost predicate ProperStep(v: Verifier, e: Experiment, h: seq<Transition>, i: int)
    requires 0 < i < |h|
  {
    && h[i].experiment == e.id && h[i].from == Some(h[i - 1].to) && (h[i - 1].to, h[i].to) in EDGES
    && h[i - 1].at <= h[i].at
    && h[i].request.AdvanceRequest?
    && Genuine(v, h[i].request.receipt, h[i].at)
    && Entitles(h[i].request.receipt, e.id, e.baseline, e.candidate, h[i - 1].to, h[i].to)
  }

  /** In every run, with racing calls included, every step of every history follows an edge of the stage graph and was
      taken with a genuine receipt that entitles to it. */
  lemma EveryStepIsEntitled(v: Verifier, cs: seq<Call>, id: Id)
    requires id in DoAll(v, EMPTY, cs).experiments
    ensures var r := DoAll(v, EMPTY, cs);
            && id in r.histories && r.histories[id] != [] && r.experiments[id].id == id
            && r.histories[id][0].to == Proposed
            && r.histories[id][|r.histories[id]| - 1].to == r.experiments[id].stage
            && forall i | 0 < i < |r.histories[id]| :: ProperStep(v, r.experiments[id], r.histories[id], i)
  {
    hide *;
    EmptyIsOk(v);
    DoAllKeeps(v, EMPTY, cs);
    HistoryIsProper(v, DoAll(v, EMPTY, cs), id);
  }

  lemma HistoryIsProper(v: Verifier, r: Registry, id: Id)
    requires Invariant(v, r) && id in r.experiments
    ensures id in r.histories && r.histories[id] != [] && r.experiments[id].id == id
    ensures r.histories[id][0].to == Proposed
    ensures r.histories[id][|r.histories[id]| - 1].to == r.experiments[id].stage
    ensures forall i | 0 < i < |r.histories[id]| :: ProperStep(v, r.experiments[id], r.histories[id], i)
  {
    hide Gated, Legal, Genuine, Entitles, KeysOk, StrategiesOk;
    var e, h := r.experiments[id], r.histories[id];
    assert GatedHistory(v, e, h);
    forall i | 0 < i < |h| ensures ProperStep(v, e, h, i) {
      LegalIsEdge(h[i - 1].to, h[i].to);
      GatedIsEntitled(v, e, h[i]);
    }
  }

  /** An advance gets past its checks exactly with a genuine receipt that entitles to an edge of the stage graph, at a
      time not before the experiment's last change. */
  lemma PreparesExactly(v: Verifier, seen: Experiment, target: Stage, g: Receipt, key: string, now: Time,
                        transitionId: Id, activationId: Id)
    ensures var p := PrepareAdvance(v, seen, target, g, key, now, transitionId, activationId);
            if Genuine(v, g, now) && Entitles(g, seen.id, seen.baseline, seen.candidate, seen.stage, target)
               && (seen.stage, target) in EDGES && seen.updatedAt <= now then
              && p.Ok? && p.value.updated == seen.(stage := target, updatedAt := now)
              && p.value.transition == Transition(
                   transitionId, seen.id, Some(seen.stage), target, now, g.claims.reason, g.claims.artifactRef, key,
                   AdvanceRequest(seen.id, target, g))
              && p.value.activation ==
                 (if target == Promoted then
                    Some(Activation(activationId, seen.candidate, Promotion, now, g.claims.reason, Some(seen.baseline),
                                    Some(seen.id)))
                  else if seen.stage == Promoted then
                    Some(Activation(activationId, seen.baseline, ActivationKind.Rollback, now, g.claims.reason,
                                    Some(seen.candidate), Some(seen.id)))
                  else None)
            else p == Err(DomainError)
  {
    LegalIsEdge(seen.stage, target);
  }

  /** The strategy that has to be active for the step: a promotion replaces the baseline, a rollback of a promoted
      experiment its candidate. */
  ghost predicate MeetsActive(r: Registry, e: Experiment, target: Stage) {
    && (target == Promoted ==> Active(r).Some? && Active(r).value.id == e.baseline)
    && (e.stage == Promoted ==> Active(r).Some? && Active(r).value.id == e.candidate)
  }

  /** What an accepted advance leaves: the experiment moved, its history one entry longer, the key taken, and a
      promotion or rollback at the end of the log, which decides what is active. */
  ghost predicate Advanced(r: Registry, next: Registry, id: Id, target: Stage, key: string, now: Time)
    requires id in r.experiments && id in r.histories
  {
    var e := r.experiments[id];
    && next.strategies == r.strategies
    && next.experiments == r.experiments[id := e.(stage := target, updatedAt := now)]
    && key in next.transitionKeys
    && next.histories == r.histories[id := r.histories[id] + [next.transitionKeys[key]]]
    && (target == Promoted ==> Active(next).Some? && Active(next).value.id == e.candidate)
    && (e.stage == Promoted ==> Active(next).Some? && Active(next).value.id == e.baseline)
    && (target != Promoted && e.stage != Promoted ==> next.activations == r.activations)
  }

  lemma StoreTakesPrepared(v: Verifier, r: Registry, id: Id, target: Stage, g: Receipt, key: string, now: Time,
                           transitionId: Id, activationId: Id)
    requires Invariant(v, r) && ActivationStack.Invariant(r) && id in r.experiments
    requires key !in r.transitionKeys && transitionId !in r.transitionIds
    requires forall i | 0 <= i < |r.activations| :: r.activations[i].id != activationId
    requires PrepareAdvance(v, r.experiments[id], target, g, key, now, transitionId, activationId).Ok?
    ensures id in r.histories
    ensures var p := PrepareAdvance(v, r.experiments[id], target, g, key, now, transitionId, activationId).value;
            var written := Advance(r, p.updated, p.transition, p.activation);
            if MeetsActive(r, r.experiments[id], target) then
              written.Ok? && Advanced(r, written.value, id, target, key, now)
            else written == Err(ConflictError)
  {
    hide Verified, Matches, GatedHistory, KeysOk, ActivationStack.IsStack, ActivationStack.LogOk;
  }

  /** In every reachable registry, an advance of a stored experiment under a new key is accepted exactly when its
      receipt is genuine and entitles to an edge of the stage graph, time has not gone back, and the strategy the step
      replaces is the active one. */
  lemma AdvanceSucceedsExactly(v: Verifier, cs: seq<Call>, id: Id, target: Stage, g: Receipt, key: string, now: Time,
                               transitionId: Id, activationId: Id)
    requires var r := DoAll(v, EMPTY, cs);
             && id in r.experiments && key !in r.transitionKeys && transitionId !in r.transitionIds
             && forall i | 0 <= i < |r.activations| :: r.activations[i].id != activationId
    ensures var r := DoAll(v, EMPTY, cs);
            var (e, (next, reply)) :=
              (r.experiments[id], AdvanceExperiment(v, r, id, target, g, key, now, transitionId, activationId));
            && id in r.histories
            && (reply.Ok? <==>
                  && Genuine(v, g, now) && Entitles(g, id, e.baseline, e.candidate, e.stage, target)
                  && (e.stage, target) in EDGES && e.updatedAt <= now && MeetsActive(r, e, target))
            && (if reply.Ok? then
                  reply.value == AdvanceReply(e.(stage := target, updatedAt := now), false)
                  && Advanced(r, next, id, target, key, now)
                else next == r)
  {
    hide DoAll, Genuine, Entitles, PrepareAdvance, Advance, Advanced, MeetsActive, Invariant, ActivationStack.Invariant;
    var r := DoAll(v, EMPTY, cs);
    EmptyIsOk(v);
    DoAllKeeps(v, EMPTY, cs);
    RunsAreStacks(v, cs);
    HistoryIsProper(v, r, id);
    PreparesExactly(v, r.experiments[id], target, g, key, now, transitionId, activationId);
    if PrepareAdvance(v, r.experiments[id], target, g, key, now, transitionId, activationId).Ok? {
      StoreTakesPrepared(v, r, id, target, g, key, now, transitionId, activationId);
    }
  }

  /** A key that has been used for another request is refused without effect; so is, under a new key, an advance of an
      experiment there is not, or a proposal before there is an active strategy. */
  lemma OtherRequestConflicts(v: Verifier, r: Registry, key: string, id: Id, target: Stage, g: Receipt, now: Time,
                              d: W.FailureDiagnosis, reason: string, evidenceRef: string, a: Id, b: Id, c: Id)
    ensures key in r.transitionKeys && r.transitionKeys[key].request != AdvanceRequest(id, target, g) ==>
              AdvanceExperiment(v, r, id, target, g, key, now, a, b) == (r, Err(ConflictError))
    ensures key in r.transitionKeys && r.transitionKeys[key].request != ProposalRequest(d, reason, evidenceRef) ==>
              ProposeExperiment(r, d, reason, evidenceRef, key, now, a, b, c) == (r, Err(ConflictError))
    ensures key !in r.transitionKeys && id !in r.experiments ==>
              AdvanceExperiment(v, r, id, target, g, key, now, a, b) == (r, Err(NotFoundError))
    ensures key !in r.transitionKeys && r.activations == [] ==>
              ProposeExperiment(r, d, reason, evidenceRef, key, now, a, b, c) == (r, Err(DomainError))
  {
  }

  /** The blame falls on the component with the most failures, the first of them in declaration order: irrelevant
      answers on semantic similarity, mismatched contexts on context, low belief on belief, harmful outcomes on utility,
      stale memories on recency. */
  lemma BlameIsTheLargestCount(d: W.FailureDiagnosis)
    ensures var (a, b, c, e, f) := (d.irrelevant, d.mismatched, d.lowBelief, d.harmful, d.stale);
            match W.Dominant(d)
            case None => a == b == c == e == f == 0
            case Some(Semantic) => a > 0 && b <= a && c <= a && e <= a && f <= a
            case Some(Context) => b > 0 && a < b && c <= b && e <= b && f <= b
            case Some(Belief) => c > 0 && a < c && b < c && e <= c && f <= c
            case Some(Utility) => e > 0 && a < e && b < e && c < e && f <= e
            case Some(Recency) => f > 0 && a < f && b < f && c < f && e < f
  {
    hide W.FirstLargest;
    var size := d.Counts();
    FirstOfFive(size, W.FirstLargest(W.ORDER, size));
  }

  /** The first of the largest in declaration order: no earlier one is as large, no later one larger. */
  lemma FirstOfFive(size: map<W.Component, real>, c: W.Component)
    requires forall x | x in W.ORDER :: x in size
    requires c in W.ORDER && forall x | x in W.ORDER :: size[x] <= size[c]
    requires exists i | 0 <= i < |W.ORDER| :: W.ORDER[i] == c && forall j | 0 <= j < i :: size[W.ORDER[j]] < size[c]
    ensures {W.Semantic, W.Component.Context, W.Belief, W.Utility, W.Recency, c} <= size.Keys
    ensures size[W.Semantic] <= size[c] && size[W.Component.Context] <= size[c] && size[W.Belief] <= size[c]
    ensures size[W.Utility] <= size[c] && size[W.Recency] <= size[c]
    ensures c != W.Semantic ==> size[W.Semantic] < size[c]
    ensures c !in {W.Semantic, W.Component.Context} ==> size[W.Component.Context] < size[c]
    ensures c == W.Utility || c == W.Recency ==> size[W.Belief] < size[c]
    ensures c == W.Recency ==> size[W.Utility] < size[c]
  {
    var i :| 0 <= i < |W.ORDER| && W.ORDER[i] == c && forall j | 0 <= j < i :: size[W.ORDER[j]] < size[c];
    assert W.ORDER[0] == W.Semantic && W.ORDER[1] == W.Component.Context && W.ORDER[2] == W.Belief;
    assert W.ORDER[3] == W.Utility && W.ORDER[4] == W.Recency;
  }

  /** The candidate differs from the active strategy by one shift of weight and is one version on; the experiment puts
      it against its parent, proposed now; the transition records the request. */
  ghost predicate ShiftedFrom(active: Strategy, draft: Draft, d: W.FailureDiagnosis, reason: string,
                              evidenceRef: string, key: string, now: Time, candidateId: Id, experimentId: Id,
                              transitionId: Id)
  {
    var c, e, t := draft.candidate, draft.experiment, draft.transition;
    && c.minScore == active.minScore && c.halfLifeDays == active.halfLifeDays && c.createdAt == now
    && c.parent == Some(active.id) && c.version == active.version + 1 && c.id == candidateId
    && W.Proposal(active.weights, d) == Some(c.weights)
    && e == Experiment(experimentId, active.id, candidateId, Proposed, now, now)
    && t == Transition(transitionId, experimentId, None, Proposed, now, reason, evidenceRef, key,
                       ProposalRequest(d, reason, evidenceRef))
  }

  /** What a proposal drafts: nothing without a shift of weight, otherwise exactly that. */
  lemma DraftIsTheParentShifted(active: Strategy, d: W.FailureDiagnosis, reason: string, evidenceRef: string,
                                key: string, now: Time, candidateId: Id, experimentId: Id, transitionId: Id)
    ensures var prepared :=
              PrepareProposal(active, d, reason, evidenceRef, key, now, candidateId, experimentId, transitionId);
            if W.Proposal(active.weights, d).None? then prepared == Ok(None)
            else if candidateId == active.id then prepared == Err(DomainError)
            else
              prepared.Ok? && prepared.value.Some?
              && ShiftedFrom(active, prepared.value.value, d, reason, evidenceRef, key, now, candidateId, experimentId,
                             transitionId)
  {
  }

  /** `delta` moves from the heaviest of the other components to `target`, and nothing else moves. */
  ghost predicate MovesTo(w: W.RetrievalWeights, p: W.RetrievalWeights, target: W.Component, donor: W.Component,
                          delta: real) {
    && donor != target && (forall c: W.Component | c != target :: w.Of(c) <= w.Of(donor))
    && p.Of(target) == w.Of(target) + delta && p.Of(donor) == w.Of(donor) - delta
    && (forall c: W.Component | c != target && c != donor :: p.Of(c) == w.Of(c))
  }

  /** With the numbers written out: the blamed component gains 0.03, or what it lacks to 0.60; the heaviest of the
      others gives it; every weight stays in [0.05, 0.60]; and there is no proposal without blame or room. */
  lemma ProposalInNumbers(w: W.RetrievalWeights, d: W.FailureDiagnosis)
    requires w.Valid()
    ensures W.Dominant(d).None? ==> W.Proposal(w, d).None?
    ensures W.Dominant(d).Some? ==>
              var target := W.Dominant(d).value;
              var room := if 0.60 - w.Of(target) <= 0.03 then 0.60 - w.Of(target) else 0.03;
              if room == 0.0 then W.Proposal(w, d).None?
              else
                && W.Proposal(w, d).Some?
                && MovesTo(w, W.Proposal(w, d).value, target, W.Donor(w, target), room)
                && forall c: W.Component :: 0.05 <= W.Proposal(w, d).value.Of(c) <= 0.60
  {
    hide W.Dominant, W.Donor, W.Proposal, W.FailureDiagnosis.Empty;
    W.BlameIsExact(d);
    W.ProposalIsBounded(w, d);
    if W.Proposal(w, d).Some? {
      WeightsInRange(W.Proposal(w, d).value);
    }
  }

  lemma WeightsInRange(w: W.RetrievalWeights)
    requires w.Valid()
    ensures forall c: W.Component :: 0.05 <= w.Of(c) <= 0.60
  {
  }

  /** Which weights the constructor takes: each between 0.05 and 0.60, and together 1 up to a rounding error. */
  lemma AcceptedWeights(w: W.RetrievalWeights)
    ensures w.Valid() ==>
              && (forall c: W.Component :: 0.05 <= w.Of(c) <= 0.60)
              && 0.999999999 <= w.semantic + w.context + w.belief + w.utility + w.recency <= 1.00000001
    ensures (forall c: W.Component :: 0.05 <= w.Of(c) <= 0.60)
            && w.semantic + w.context + w.belief + w.utility + w.recency == 1.0
            ==> w.Valid()
  {
    if forall c: W.Component :: 0.05 <= w.Of(c) <= 0.60 {
      assert w.Of(W.Semantic) == w.semantic && w.Of(W.Component.Context) == w.context && w.Of(W.Belief) == w.belief;
      assert w.Of(W.Utility) == w.utility && w.Of(W.Recency) == w.recency;
    }
  }

  /** In every run every stored strategy is one its constructor takes. */
  lemma EveryStrategyIsAcceptable(v: Verifier, cs: seq<Call>, id: Id)
    requires id in DoAll(v, EMPTY, cs).strategies
    ensures var s := DoAll(v, EMPTY, cs).strategies[id];
            && s.id == id && s.version >= 1 && 0.0 <= s.minScore <= 1.0 && 1.0 <= s.halfLifeDays <= 3650.0
            && (forall c: W.Component :: 0.05 <= s.weights.Of(c) <= 0.60)
            && 0.999999999 <= s.weights.Total() <= 1.00000001
  {
    hide DoAll, W.RetrievalWeights.Valid, LogsOk;
    EmptyIsOk(v);
    DoAllKeeps(v, EMPTY, cs);
    AcceptedWeights(DoAll(v, EMPTY, cs).strategies[id].weights);
  }

  /** Bootstrapping: an empty registry takes exactly a root strategy that its constructor takes, with a bootstrap
      activation of it, which is then active; a registry with an active strategy is left as it is. */
  lemma BootstrapActivates(v: Verifier, r: Registry, s: Strategy, a: Activation)
    ensures var next := Do(v, EMPTY, Boot(s, a));
            if s.weights.Valid() && 0.0 <= s.minScore && s.minScore <= 1.0 && 1.0 <= s.halfLifeDays
               && s.halfLifeDays <= 3650.0 && s.parent.None? && s.version == 1
               && a.kind == Bootstrap && a.strategy == s.id then
              Active(next) == Some(s) && next.activations == [a] && next.strategies == map[s.id := s]
            else next == EMPTY
    ensures Active(r).Some? ==> Do(v, r, Boot(s, a)) == r
  {
    hide W.RetrievalWeights.Valid;
  }

  ghost predicate DistinctActivations(r: Registry) {
    forall i, j | 0 <= i < j < |r.activations| :: r.activations[i].id != r.activations[j].id
  }

  lemma StepKeepsActivations(r: Registry, c: Command)
    requires DistinctActivations(r) && ActivationStack.Invariant(r)
    ensures DistinctActivations(Step(r, c))
  {
    hide ActivationStack.IsStack, ActivationStack.LogOk;
    if Apply(r, c).Ok? && c.Ensure? {
      EmptyLogBeforeBootstrap(r);
    }
  }

  lemma EmptyLogBeforeBootstrap(r: Registry)
    requires ActivationStack.Invariant(r)
    ensures Active(r).None? ==> r.activations == []
  {
  }

  /** In every run no activation identifier is used twice. */
  lemma {:induction false} ActivationsAreDistinct(v: Verifier, cs: seq<Call>)
    ensures DistinctActivations(DoAll(v, EMPTY, cs))
    decreases |cs|
  {
    hide Written, Step, DistinctActivations, ActivationStack.Invariant;
    if cs == [] {
      NothingActivated();
    } else {
      var before, last := DoAll(v, EMPTY, cs[..|cs| - 1]), cs[|cs| - 1];
      ActivationsAreDistinct(v, cs[..|cs| - 1]);
      RunsAreStacks(v, cs[..|cs| - 1]);
      if Written(v, before, last).Some? {
        StepKeepsActivations(before, Written(v, before, last).value);
      }
    }
  }

  lemma NothingActivated()
    ensures DistinctActivations(EMPTY)
  {
  }

  // ---------------------------------------------------------------- what the store itself checks

  /** Whatever it is asked to write, the store moves an experiment only along an edge and forward in time, with the
      transition that says so under a new identifier and key, and with exactly the activation that a promotion or a
      rollback of a promoted experiment needs, under a new identifier, or none. */
  lemma StoreAdvancesOnly(r: Registry, e: Experiment, t: Transition, a: Option<Activation>)
    requires Advance(r, e, t, a).Ok?
    ensures e.id in r.experiments
    ensures var current := r.experiments[e.id];
            && e == current.(stage := e.stage, updatedAt := t.at) && (current.stage, e.stage) in EDGES
            && current.updatedAt <= t.at
            && t.experiment == current.id && t.from == Some(current.stage) && t.to == e.stage
            && t.id !in r.transitionIds && t.key !in r.transitionKeys
            && (a.Some? <==> e.stage == Promoted || current.stage == Promoted)
            && (a.Some? ==>
                 && (forall i | 0 <= i < |r.activations| :: r.activations[i].id != a.value.id)
                 && MeetsActive(r, current, e.stage)
                 && a.value ==
                    if e.stage == Promoted then
                      Activation(a.value.id, current.candidate, Promotion, t.at, t.reason, Some(current.baseline),
                                 Some(current.id))
                    else
                      Activation(a.value.id, current.baseline, ActivationKind.Rollback, t.at, t.reason,
                                 Some(current.candidate), Some(current.id)))
  {
    LegalIsEdge(r.experiments[e.id].stage, e.stage);
  }

  /** It registers only a new experiment of the active strategy against a candidate one version on, proposed, with the
      first transition of its history; and it saves only what is consistent with what is stored. */
  lemma StoreRegistersOnly(r: Registry, c: Strategy, e: Experiment, t: Transition)
    ensures Register(r, c, e, t).Ok? ==>
              && Active(r).Some? && e.baseline == Active(r).value.id && e.candidate == c.id
              && c.parent == Some(e.baseline) && c.version == Active(r).value.version + 1
              && e.id !in r.experiments && e.stage == Proposed && e.createdAt == e.updatedAt == t.at
              && t.experiment == e.id && t.from.None? && t.to == Proposed
              && t.id !in r.transitionIds && t.key !in r.transitionKeys
    ensures SaveStrategy(r, c).Ok? <==>
              if c.id in r.strategies then r.strategies[c.id] == c
              else if c.parent.None? then c.version == 1
              else c.parent.value in r.strategies && c.version == r.strategies[c.parent.value].version + 1
  {
  }
}
