/** The registry half of the in-memory store, and the evolution application over it, as objects. */
module RegistryStore {
  import opened Common
  import opened Registry
  import opened Evolution
  import W = Weights

  /** The contract all writers share: the named command either takes effect or is refused without effect. */
  predicate Outcome(before: Registry, c: Command, after: Registry, error: Option<Error>) {
    match Apply(before, c)
    case Ok(next) => error.None? && after == next
    case Err(e) => error == Some(e) && after == before
  }

  class StrategyRegistry {
    var strategies: map<Id, Strategy>
    var activations: seq<Activation>
    var experiments: map<Id, Experiment>
    var histories: map<Id, seq<Transition>>
    var transitionIds: set<Id>
    var transitionKeys: map<string, Transition>

    /** The tables as one value. */
    function State(): Registry
      reads this
    {
      RegistryTables(strategies, activations, experiments, histories, transitionIds, transitionKeys)
    }

    constructor ()
      ensures State() == EMPTY
    {
      strategies, activations, experiments, histories := map[], [], map[], map[];
      transitionIds, transitionKeys := {}, map[];
    }

    method SaveStrategy(s: Strategy) returns (error: Option<Error>)
      modifies this
      ensures Outcome(old(State()), Save(s), State(), error)
    {
      if s.id in strategies {
        return if strategies[s.id] != s then Some(ConflictError) else None;
      }
      if s.parent.None? {
        if s.version != 1 {
          return Some(ConflictError);
        }
      } else if s.parent.value !in strategies || s.version != strategies[s.parent.value].version + 1 {
        return Some(ConflictError);
      }
      strategies := strategies[s.id := s];
      error := None;
    }

    /** Answers with the strategy that is active afterwards. */
    method EnsureActiveStrategy(s: Strategy, a: Activation) returns (r: Result<Strategy>)
      modifies this
      ensures Outcome(old(State()), Ensure(s, a), State(), if r.Ok? then None else Some(r.error))
      ensures r.Ok? ==> Active(State()) == Some(r.value)
    {
      var active := Active(State());
      if active.Some? {
        return Ok(active.value);
      }
      if a.kind != Bootstrap || a.strategy != s.id || s.parent.Some? || s.version != 1 {
        return Err(ConflictError);
      }
      var error := SaveStrategy(s);
      if error.Some? {
        return Err(error.value);
      }
      activations := activations + [a];
      r := Ok(s);
    }

    method RegisterExperiment(c: Strategy, e: Experiment, t: Transition) returns (error: Option<Error>)
      modifies this
      ensures Outcome(old(State()), Create(c, e, t), State(), error)
    {
      var active := Active(State());
      if active.None? || active.value.id != e.baseline {
        return Some(ConflictError);
      }
      if c.id != e.candidate || c.parent != Some(active.value.id) || c.version != active.value.version + 1 {
        return Some(ConflictError);
      }
      if e.id in experiments {
        return Some(ConflictError);
      }
      if e.stage != Proposed || e.createdAt != e.updatedAt || t.id in transitionIds || t.key in transitionKeys
         || t.experiment != e.id || t.from.Some? || t.to != Proposed || t.at != e.createdAt {
        return Some(ConflictError);
      }
      error := SaveStrategy(c);
      if error.None? {
        experiments := experiments[e.id := e];
        histories := histories[e.id := [t]];
        transitionIds := transitionIds + {t.id};
        transitionKeys := transitionKeys[t.key := t];
      }
    }

    method AdvanceExperiment(e: Experiment, t: Transition, a: Option<Activation>) returns (error: Option<Error>)
      modifies this
      ensures Outcome(old(State()), Move(e, t, a), State(), error)
    {
      if e.id !in experiments || e.id !in histories {
        return Some(ConflictError);
      }
      var current := experiments[e.id];
      if e.baseline != current.baseline || e.candidate != current.candidate || e.createdAt != current.createdAt
         || t.id in transitionIds || t.key in transitionKeys || t.experiment != current.id
         || t.from != Some(current.stage) || t.to != e.stage || t.at != e.updatedAt {
        return Some(ConflictError);
      }
      var expected := Moved(current, e.stage, t.at);
      if expected.Err? {
        return Some(expected.error);
      }
      if e != expected.value || !ActivationAccepted(State(), current, e, t, a) {
        return Some(ConflictError);
      }
      if a.Some? {
        activations := activations + [a.value];
      }
      experiments := experiments[e.id := e];
      histories := histories[e.id := histories[e.id] + [t]];
      transitionIds := transitionIds + {t.id};
      transitionKeys := transitionKeys[t.key := t];
      error := None;
    }
  }

  /** `EvolutionApplication`: the clock and identifiers are parameters. */
  class EvolutionApplication {
    const store: StrategyRegistry
    const verifier: Verifier

    constructor (store: StrategyRegistry, verifier: Verifier)
      ensures this.store == store && this.verifier == verifier
    {
      this.store := store;
      this.verifier := verifier;
    }

    method Propose(d: W.FailureDiagnosis, reason: string, evidenceRef: string, key: string, now: Time,
                   candidateId: Id, experimentId: Id, transitionId: Id) returns (reply: Result<ProposalReply>)
      modifies store
      ensures (store.State(), reply) ==
              ProposeExperiment(old(store.State()), d, reason, evidenceRef, key, now, candidateId, experimentId,
                                transitionId)
    {
      var existing := if key in store.transitionKeys then Some(store.transitionKeys[key]) else None;
      if existing.Some? {
        return ReplayedProposal(store.State(), existing.value, ProposalRequest(d, reason, evidenceRef));
      }
      var baseline := Active(store.State());
      if baseline.None? {
        return Err(DomainError);
      }
      var prepared := PrepareProposal(
        baseline.value, d, reason, evidenceRef, key, now, candidateId, experimentId, transitionId);
      if prepared.Err? {
        return Err(prepared.error);
      }
      if prepared.value.None? {
        return Ok(NoProposal);
      }
      var draft := prepared.value.value;
      var error := store.RegisterExperiment(draft.candidate, draft.experiment, draft.transition);
      if error.Some? {
        return Err(error.value);
      }
      reply := Ok(ProposalReply(draft.candidate, draft.experiment, false));
    }

    method Advance(id: Id, target: Stage, g: Receipt, key: string, now: Time, transitionId: Id, activationId: Id)
      returns (reply: Result<AdvanceReply>)
      modifies store
      ensures (store.State(), reply) ==
              Evolution.AdvanceExperiment(
                verifier, old(store.State()), id, target, g, key, now, transitionId, activationId)
    {
      if key in store.transitionKeys {
        return ReplayedAdvance(store.State(), store.transitionKeys[key], AdvanceRequest(id, target, g));
      }
      if id !in store.experiments {
        return Err(NotFoundError);
      }
      var current := store.experiments[id];
      var prepared := PrepareAdvance(verifier, current, target, g, key, now, transitionId, activationId);
      if prepared.Err? {
        return Err(prepared.error);
      }
      var p := prepared.value;
      var error := store.AdvanceExperiment(p.updated, p.transition, p.activation);
      if error.Some? {
        return Err(error.value);
      }
      reply := Ok(AdvanceReply(p.updated, false));
    }
  }
}
