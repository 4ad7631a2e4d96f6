/** The strategy registry: immutable strategies, experiments walking a stage graph, and an append-only
    activation log. Functions here say what each operation does to the registry's tables. */
module Registry {
  import opened Common
  import W = Weights

  datatype Strategy = Strategy(
    id: Id, version: int, weights: W.RetrievalWeights, minScore: real, halfLifeDays: real, createdAt: Time,
    parent: Option<Id>)
  {
    /** What the constructor accepts. */
    predicate Accepted() {
      version >= 1 && weights.Valid() && 0.0 <= minScore <= 1.0 && 1.0 <= halfLifeDays <= 3650.0
    }
  }

  datatype ActivationKind = Bootstrap | Promotion | Rollback

  datatype Activation = Activation(
    id: Id, strategy: Id, kind: ActivationKind, at: Time, reason: string, previous: Option<Id>, experiment: Option<Id>)

  datatype Stage = Proposed | OfflinePassed | Shadow | Canary | Promoted | Rejected | RolledBack

  predicate Legal(from: Stage, to: Stage) {
    match from
    case Proposed => to == OfflinePassed || to == Rejected
    case OfflinePassed => to == Shadow || to == Rejected
    case Shadow => to == Canary || to == RolledBack
    case Canary => to == Promoted || to == RolledBack
    case Promoted => to == RolledBack
    case Rejected => false
    case RolledBack => false
  }

  datatype Experiment = Experiment(
    id: Id, baseline: Id, candidate: Id, stage: Stage, createdAt: Time, updatedAt: Time)

  datatype GateDecision = Pass | Reject | Rollback

  datatype ReceiptClaims = ReceiptClaims(
    id: Id, experiment: Id, baseline: Id, candidate: Id, from: Stage, to: Stage, decision: GateDecision,
    artifactRef: string, artifactDigest: string, issuer: string, keyId: string, issuedAt: Time, expiresAt: Time,
    hardGatesPassed: bool, reason: string)

  datatype Receipt = Receipt(claims: ReceiptClaims, signature: string)

  /** The business fields of a request. Its SHA-256 fingerprint is represented by the request itself. */
  datatype Request =
    | ProposalRequest(diagnosis: W.FailureDiagnosis, reason: string, evidenceRef: string)
    | AdvanceRequest(experiment: Id, target: Stage, receipt: Receipt)

  datatype Transition = Transition(
    id: Id, experiment: Id, from: Option<Stage>, to: Stage, at: Time, reason: string, evidenceRef: string,
    key: string, request: Request)

  datatype Registry = RegistryTables(
    strategies: map<Id, Strategy>,
    activations: seq<Activation>,
    experiments: map<Id, Experiment>,
    histories: map<Id, seq<Transition>>,
    transitionIds: set<Id>,
    transitionKeys: map<string, Transition>)

  const EMPTY := RegistryTables(map[], [], map[], map[], {}, map[])

  function Active(r: Registry): Option<Strategy> {
    if r.activations == [] then None
    else
      var id := r.activations[|r.activations| - 1].strategy;
      if id in r.strategies then Some(r.strategies[id]) else None
  }

  function SaveStrategy(r: Registry, s: Strategy): Result<Registry> {
    if s.id in r.strategies then
      if r.strategies[s.id] != s then Err(ConflictError) else Ok(r)
    else if s.parent.None? then
      if s.version != 1 then Err(ConflictError) else Ok(r.(strategies := r.strategies[s.id := s]))
    else if s.parent.value !in r.strategies || s.version != r.strategies[s.parent.value].version + 1 then
      Err(ConflictError)
    else
      Ok(r.(strategies := r.strategies[s.id := s]))
  }

  function EnsureActive(r: Registry, s: Strategy, a: Activation): Result<Registry> {
    if Active(r).Some? then
      Ok(r)
    else if a.kind != Bootstrap || a.strategy != s.id || s.parent.Some? || s.version != 1 then
      Err(ConflictError)
    else
      var saved :- SaveStrategy(r, s);
      Ok(saved.(activations := saved.activations + [a]))
  }

  function Register(r: Registry, c: Strategy, e: Experiment, t: Transition): Result<Registry> {
    var active := Active(r);
    if active.None? || active.value.id != e.baseline then Err(ConflictError)
    else if c.id != e.candidate || c.parent != Some(active.value.id) || c.version != active.value.version + 1 then
      Err(ConflictError)
    else if e.id in r.experiments then Err(ConflictError)
    else if e.stage != Proposed || e.createdAt != e.updatedAt || t.id in r.transitionIds || t.key in r.transitionKeys
            || t.experiment != e.id || t.from.Some? || t.to != Proposed || t.at != e.createdAt then
      Err(ConflictError)
    else
      var saved :- SaveStrategy(r, c);
      Ok(saved.(
         experiments := saved.experiments[e.id := e],
         histories := saved.histories[e.id := [t]],
         transitionIds := saved.transitionIds + {t.id},
         transitionKeys := saved.transitionKeys[t.key := t]))
  }

  /** `EvolutionExperiment.transition`. */
  function Moved(e: Experiment, target: Stage, at: Time): Result<Experiment> {
    if at < e.updatedAt || !Legal(e.stage, target) then Err(DomainError)
    else Ok(e.(stage := target, updatedAt := at))
  }

  predicate IsPromotion(from: Stage, to: Stage) {
    from == Canary && to == Promoted
  }

  predicate IsRollback(from: Stage, to: Stage) {
    from == Promoted && to == RolledBack
  }

  function ActivationIds(r: Registry): set<Id> {
    set i | 0 <= i < |r.activations| :: r.activations[i].id
  }

  predicate ActivationAccepted(r: Registry, current: Experiment, updated: Experiment, t: Transition,
                               a: Option<Activation>) {
    var promotion := IsPromotion(current.stage, updated.stage);
    if !promotion && !IsRollback(current.stage, updated.stage) then
      a.None?
    else
      var target := if promotion then current.candidate else current.baseline;
      var previous := if promotion then current.baseline else current.candidate;
      && a.Some? && a.value.id !in ActivationIds(r)
      && a.value.kind == (if promotion then Promotion else ActivationKind.Rollback)
      && a.value.strategy == target && a.value.previous == Some(previous)
      && a.value.experiment == Some(current.id) && a.value.at == t.at && a.value.reason == t.reason
      && Active(r).Some? && Active(r).value.id == previous && target in r.strategies
  }

  function Advance(r: Registry, e: Experiment, t: Transition, a: Option<Activation>): Result<Registry> {
    if e.id !in r.experiments || e.id !in r.histories then Err(ConflictError)
    else
      var current := r.experiments[e.id];
      if e.baseline != current.baseline || e.candidate != current.candidate || e.createdAt != current.createdAt
         || t.id in r.transitionIds || t.key in r.transitionKeys || t.experiment != current.id
         || t.from != Some(current.stage) || t.to != e.stage || t.at != e.updatedAt then
        Err(ConflictError)
      else
        var expected :- Moved(current, e.stage, t.at);
        if e != expected || !ActivationAccepted(r, current, e, t, a) then Err(ConflictError)
        else
          Ok(r.(
             activations := if a.Some? then r.activations + [a.value] else r.activations,
             experiments := r.experiments[e.id := e],
             histories := r.histories[e.id := r.histories[e.id] + [t]],
             transitionIds := r.transitionIds + {t.id},
             transitionKeys := r.transitionKeys[t.key := t]))
  }

  /** Every way to change the registry, with arbitrary arguments. */
  datatype Command =
    | Save(strategy: Strategy)
    | Ensure(strategy: Strategy, activation: Activation)
    | Create(candidate: Strategy, experiment: Experiment, transition: Transition)
    | Move(experiment: Experiment, transition: Transition, decision: Option<Activation>)

  function Apply(r: Registry, c: Command): Result<Registry> {
    match c
    case Save(s) => SaveStrategy(r, s)
    case Ensure(s, a) => EnsureActive(r, s, a)
    case Create(s, e, t) => Register(r, s, e, t)
    case Move(e, t, a) => Advance(r, e, t, a)
  }

  /** A refused command raises and leaves the registry as it was. */
  function Step(r: Registry, c: Command): Registry {
    match Apply(r, c)
    case Ok(next) => next
    case Err(_) => r
  }

  function Run(r: Registry, cs: seq<Command>): Registry
    decreases |cs|
  {
    if cs == [] then r else Step(Run(r, cs[..|cs| - 1]), cs[|cs| - 1])
  }
}

/** The activation log replays as a stack. */
module ActivationStack {
  import opened Common
  import opened Registry
  import Sorting

  /** The experiments pushed by promotions and not yet popped by rollbacks, oldest first. */
  function Replay(log: seq<Activation>): seq<Id>
    decreases |log|
  {
    if log == [] then []
    else
      var before, last := Replay(log[..|log| - 1]), log[|log| - 1];
      match last.kind
      case Bootstrap => before
      case Promotion => if last.experiment.Some? then before + [last.experiment.value] else before
      case Rollback => if before == [] then before else before[..|before| - 1]
  }

  function CountKind(log: seq<Activation>, kind: ActivationKind): nat
    decreases |log|
  {
    if log == [] then 0
    else CountKind(log[..|log| - 1], kind) + (if log[|log| - 1].kind == kind then 1 else 0)
  }

  /** Entry `i` of the stack extends the strategy below it, which is the bootstrap strategy for the lowest one. */
  ghost predicate Level(r: Registry, stack: seq<Id>, i: nat)
    requires i < |stack| && r.activations != []
  {
    && stack[i] in r.experiments
    && var e := r.experiments[stack[i]];
    && e.stage == Promoted && e.candidate in r.strategies && r.strategies[e.candidate].version == i + 2
    && if i == 0 then e.baseline == r.activations[0].strategy
       else stack[i - 1] in r.experiments && e.baseline == r.experiments[stack[i - 1]].candidate
  }

  /** Every experiment extends a stored baseline by one version; nothing precedes the bootstrap. */
  ghost predicate TablesAgree(r: Registry) {
    && (forall id | id in r.strategies :: r.strategies[id].id == id)
    && (forall id | id in r.experiments ::
         && var e := r.experiments[id];
         && e.id == id && e.candidate in r.strategies && e.baseline in r.strategies
         && r.strategies[e.candidate].version == r.strategies[e.baseline].version + 1)
    && (r.activations == [] ==> r.experiments == map[])
  }

  /** The active strategy is the candidate on top of the stack. */
  ghost predicate TopIsActive(r: Registry, stack: seq<Id>)
    requires r.activations != []
  {
    var root, active := r.activations[0].strategy, r.activations[|r.activations| - 1].strategy;
    && root in r.strategies && r.strategies[root].version == 1
    && active in r.strategies && r.strategies[active].version == |stack| + 1
    && if stack == [] then active == root
       else stack[|stack| - 1] in r.experiments && active == r.experiments[stack[|stack| - 1]].candidate
  }

  /** `stack` lists exactly the promoted experiments, each on top of the one it extends. */
  ghost predicate IsStack(r: Registry, stack: seq<Id>) {
    && (forall id :: id in stack <==> id in r.experiments && r.experiments[id].stage == Promoted)
    && (r.activations != [] ==> (forall i | 0 <= i < |stack| :: Level(r, stack, i)) && TopIsActive(r, stack))
  }

  ghost predicate LogOk(log: seq<Activation>) {
    && (forall i | 0 <= i < |log| :: log[i].kind == Bootstrap <==> i == 0)
    && |Replay(log)| == CountKind(log, Promotion) - CountKind(log, ActivationKind.Rollback)
  }

  ghost predicate Invariant(r: Registry) {
    TablesAgree(r) && LogOk(r.activations) && IsStack(r, Replay(r.activations))
  }

  lemma ReplayAppend(log: seq<Activation>, a: Activation)
    requires a.kind == Promotion ==> a.experiment.Some?
    ensures Replay(log + [a]) == match a.kind
                                 case Bootstrap => Replay(log)
                                 case Promotion => Replay(log) + [a.experiment.value]
                                 case Rollback => if Replay(log) == [] then [] else Replay(log)[..|Replay(log)| - 1]
    ensures forall k :: CountKind(log + [a], k) == CountKind(log, k) + (if a.kind == k then 1 else 0)
  {
    assert (log + [a])[..|log|] == log;
  }

  lemma SaveKeeps(r: Registry, s: Strategy)
    requires Invariant(r) && SaveStrategy(r, s).Ok?
    ensures Invariant(SaveStrategy(r, s).value)
  {
    var next, stack := SaveStrategy(r, s).value, Replay(r.activations);
    if r.activations != [] {
      forall i | 0 <= i < |stack| ensures Level(next, stack, i) {
        assert Level(r, stack, i);
      }
    }
  }

  lemma EnsureKeeps(r: Registry, s: Strategy, a: Activation)
    requires Invariant(r) && EnsureActive(r, s, a).Ok?
    ensures Invariant(EnsureActive(r, s, a).value)
  {
    if Active(r).None? {
      var saved, next := SaveStrategy(r, s).value, EnsureActive(r, s, a).value;
      assert r.activations == [];
      SaveKeeps(r, s);
      assert [] + [a] == [a];
      ReplayAppend([], a);
      assert next.activations == [a] && Replay([a]) == [];
      assert next.strategies == saved.strategies && next.experiments == saved.experiments == map[];
      assert saved.strategies[s.id] == s;
      assert IsStack(next, []);
    }
  }

  lemma RegisterKeeps(r: Registry, c: Strategy, e: Experiment, t: Transition)
    requires Invariant(r) && Register(r, c, e, t).Ok?
    ensures Invariant(Register(r, c, e, t).value)
  {
    hide Invariant, TablesAgree, IsStack;
    SaveKeeps(r, c);
    RegisterKeepsTables(r, c, e, t);
    RegisterKeepsStack(r, c, e, t);
    TogetherInvariant(Register(r, c, e, t).value);
  }

  lemma TogetherInvariant(r: Registry)
    requires TablesAgree(r) && LogOk(r.activations) && IsStack(r, Replay(r.activations))
    ensures Invariant(r)
  {
  }

  lemma RegisterKeepsTables(r: Registry, c: Strategy, e: Experiment, t: Transition)
    requires Register(r, c, e, t).Ok? && SaveStrategy(r, c).Ok? && Invariant(SaveStrategy(r, c).value)
    ensures TablesAgree(Register(r, c, e, t).value) && LogOk(Register(r, c, e, t).value.activations)
  {
    hide IsStack;
  }

  lemma RegisterKeepsStack(r: Registry, c: Strategy, e: Experiment, t: Transition)
    requires Register(r, c, e, t).Ok? && SaveStrategy(r, c).Ok? && Invariant(SaveStrategy(r, c).value)
    ensures IsStack(Register(r, c, e, t).value, Replay(Register(r, c, e, t).value.activations))
  {
    var saved, next, stack := SaveStrategy(r, c).value, Register(r, c, e, t).value, Replay(r.activations);
    forall i | 0 <= i < |stack| ensures Level(next, stack, i) {
      assert Level(saved, stack, i);
    }
  }

  /** Two entries of the stack differ, because their candidates' versions do. */
  lemma PositionIsVersion(r: Registry, i: nat)
    requires Invariant(r) && r.activations != [] && i < |Replay(r.activations)|
    ensures var e := Replay(r.activations)[i];
            e in r.experiments && r.experiments[e].candidate in r.strategies
            && r.strategies[r.experiments[e].candidate].version == i + 2
  {
    assert Level(r, Replay(r.activations), i);
  }

  /** Only the experiment on top of the stack can be rolled back. */
  lemma RollbackIsTop(r: Registry, e: Experiment, t: Transition, a: Option<Activation>)
    requires Invariant(r) && Advance(r, e, t, a).Ok? && IsRollback(r.experiments[e.id].stage, e.stage)
    ensures var stack := Replay(r.activations); stack != [] && stack[|stack| - 1] == e.id
    ensures a.Some? && a.value.kind == ActivationKind.Rollback
  {
    var stack := Replay(r.activations);
    assert e.id in stack;
    var i :| 0 <= i < |stack| && stack[i] == e.id;
    PositionIsVersion(r, i);
    assert r.strategies[Active(r).value.id].version == |stack| + 1;
  }

  lemma AdvanceKeepsTables(r: Registry, e: Experiment, t: Transition, a: Option<Activation>)
    requires Invariant(r) && Advance(r, e, t, a).Ok?
    ensures TablesAgree(Advance(r, e, t, a).value) && r.activations != []
  {
  }

  lemma NeutralKeeps(r: Registry, e: Experiment, t: Transition)
    requires Invariant(r) && Advance(r, e, t, None).Ok?
    ensures IsStack(Advance(r, e, t, None).value, Replay(r.activations))
  {
    var next, stack := Advance(r, e, t, None).value, Replay(r.activations);
    AdvanceKeepsTables(r, e, t, None);
    assert e.id !in stack;
    forall i | 0 <= i < |stack| ensures Level(next, stack, i) {
      assert Level(r, stack, i);
    }
  }

  lemma PromotionPushes(r: Registry, e: Experiment, t: Transition, a: Activation)
    requires Invariant(r) && Advance(r, e, t, Some(a)).Ok? && IsPromotion(r.experiments[e.id].stage, e.stage)
    ensures IsStack(Advance(r, e, t, Some(a)).value, Replay(r.activations) + [e.id])
  {
    var next, stack := Advance(r, e, t, Some(a)).value, Replay(r.activations);
    AdvanceKeepsTables(r, e, t, Some(a));
    assert e.id !in stack;
    var grown := stack + [e.id];
    forall i | 0 <= i < |grown| ensures Level(next, grown, i) {
      if i < |stack| {
        assert Level(r, stack, i);
      }
    }
  }

  lemma StackIsDistinct(r: Registry)
    requires Invariant(r)
    ensures Sorting.Distinct(Replay(r.activations))
  {
    var stack := Replay(r.activations);
    if r.activations != [] {
      forall i, j | 0 <= i < j < |stack| ensures stack[i] != stack[j] {
        PositionIsVersion(r, i);
        PositionIsVersion(r, j);
      }
    }
  }

  lemma RollbackPops(r: Registry, e: Experiment, t: Transition, a: Activation)
    requires Invariant(r) && Advance(r, e, t, Some(a)).Ok? && IsRollback(r.experiments[e.id].stage, e.stage)
    ensures Replay(r.activations) != []
    ensures IsStack(Advance(r, e, t, Some(a)).value, Replay(r.activations)[..|Replay(r.activations)| - 1])
  {
    hide TablesAgree, Level, TopIsActive;
    var next, stack := Advance(r, e, t, Some(a)).value, Replay(r.activations);
    AdvanceKeepsTables(r, e, t, Some(a));
    RollbackIsTop(r, e, t, Some(a));
    StackIsDistinct(r);
    Sorting.LastIsOnce(stack);
    RollbackKeepsLevels(r, e, t, a);
    RollbackRestoresTop(r, e, t, a);
    RestIsStack(r, next, e, stack);
  }

  /** The experiments promoted after the rollback are those below the top. */
  lemma RestIsStack(r: Registry, next: Registry, e: Experiment, stack: seq<Id>)
    requires IsStack(r, stack) && stack != [] && stack[|stack| - 1] == e.id && r.activations != []
    requires next.experiments == r.experiments[e.id := e] && e.stage != Promoted && next.activations != []
    requires var rest := stack[..|stack| - 1];
             && e.id !in rest && (forall id :: id in stack <==> id in rest || id == e.id)
             && (forall i | 0 <= i < |rest| :: Level(next, rest, i)) && TopIsActive(next, rest)
    ensures IsStack(next, stack[..|stack| - 1])
  {
    hide Level, TopIsActive;
  }

  lemma RollbackKeepsLevels(r: Registry, e: Experiment, t: Transition, a: Activation)
    requires Invariant(r) && Advance(r, e, t, Some(a)).Ok? && IsRollback(r.experiments[e.id].stage, e.stage)
    requires var stack := Replay(r.activations); stack != [] && e.id !in stack[..|stack| - 1]
    ensures var rest := Replay(r.activations)[..|Replay(r.activations)| - 1];
            forall i | 0 <= i < |rest| :: Level(Advance(r, e, t, Some(a)).value, rest, i)
  {
    hide TablesAgree, TopIsActive;
    var next, stack := Advance(r, e, t, Some(a)).value, Replay(r.activations);
    var rest := stack[..|stack| - 1];
    AdvanceKeepsTables(r, e, t, Some(a));
    forall i | 0 <= i < |rest| ensures Level(next, rest, i) {
      assert Level(r, stack, i);
      assert rest[i] in rest && (i > 0 ==> rest[i - 1] in rest);
    }
  }

  lemma RollbackRestoresTop(r: Registry, e: Experiment, t: Transition, a: Activation)
    requires Invariant(r) && Advance(r, e, t, Some(a)).Ok? && IsRollback(r.experiments[e.id].stage, e.stage)
    requires var stack := Replay(r.activations);
             && stack != [] && stack[|stack| - 1] == e.id && e.id !in stack[..|stack| - 1]
    ensures TopIsActive(Advance(r, e, t, Some(a)).value, Replay(r.activations)[..|Replay(r.activations)| - 1])
  {
    var next, stack := Advance(r, e, t, Some(a)).value, Replay(r.activations);
    var n := |stack| - 1;
    AdvanceKeepsTables(r, e, t, Some(a));
    assert Level(r, stack, n);
    if n > 0 {
      assert Level(r, stack, n - 1) && stack[n - 1] in stack[..n];
    }
  }

  lemma AdvanceKeeps(r: Registry, e: Experiment, t: Transition, a: Option<Activation>)
    requires Invariant(r) && Advance(r, e, t, a).Ok?
    ensures Invariant(Advance(r, e, t, a).value)
  {
    hide IsStack, Level;
    AdvanceKeepsTables(r, e, t, a);
    if a.Some? {
      ReplayAppend(r.activations, a.value);
      if IsRollback(r.experiments[e.id].stage, e.stage) {
        RollbackPops(r, e, t, a.value);
      } else {
        PromotionPushes(r, e, t, a.value);
      }
    } else {
      NeutralKeeps(r, e, t);
    }
  }

  lemma StepKeeps(r: Registry, c: Command)
    requires Invariant(r)
    ensures Invariant(Step(r, c))
  {
    if Apply(r, c).Ok? {
      match c
      case Save(s) => SaveKeeps(r, s);
      case Ensure(s, a) => EnsureKeeps(r, s, a);
      case Create(s, e, t) => RegisterKeeps(r, s, e, t);
      case Move(e, t, a) => AdvanceKeeps(r, e, t, a);
    }
  }

  lemma {:induction false} RunKeeps(r: Registry, cs: seq<Command>)
    requires Invariant(r)
    ensures Invariant(Run(r, cs))
    decreases |cs|
  {
    if cs != [] {
      RunKeeps(r, cs[..|cs| - 1]);
      StepKeeps(Run(r, cs[..|cs| - 1]), cs[|cs| - 1]);
    }
  }

  /** The promoted experiments form a chain from the bootstrap strategy to the active one. */
  ghost predicate Chain(r: Registry, stack: seq<Id>) {
    && (forall i | 0 <= i < |stack| :: stack[i] in r.experiments)
    && r.activations != [] && Active(r).Some?
    && (stack == [] ==> Active(r).value.id == r.activations[0].strategy)
    && (stack != [] ==> r.experiments[stack[0]].baseline == r.activations[0].strategy)
    && (stack != [] ==> r.experiments[stack[|stack| - 1]].candidate == Active(r).value.id)
    && (forall i | 0 < i < |stack| :: r.experiments[stack[i]].baseline == r.experiments[stack[i - 1]].candidate)
  }

  lemma InvariantMeansChain(r: Registry)
    requires Invariant(r)
    ensures Sorting.Distinct(Replay(r.activations))
    ensures r.activations != [] ==>
              Chain(r, Replay(r.activations))
              && Active(r).value.version == 1 + |Replay(r.activations)|
  {
    var stack := Replay(r.activations);
    if r.activations != [] {
      if stack != [] {
        assert Level(r, stack, 0);
      }
      forall i | 0 <= i < |stack|
        ensures stack[i] in r.experiments
        ensures 0 < i ==>
                  stack[i - 1] in r.experiments
                  && r.experiments[stack[i]].baseline == r.experiments[stack[i - 1]].candidate
      {
        assert Level(r, stack, i);
        assert 0 < i ==> Level(r, stack, i - 1);
      }
    }
    StackIsDistinct(r);
  }

  /** In every reachable registry: the replayed log lists exactly the promoted experiments, once each, in promotion
      order; they form a chain from the bootstrap strategy to the active one; and the active version counts
      promotions minus rollbacks. */
  lemma LogIsAStack(cs: seq<Command>)
    ensures var r := Run(EMPTY, cs);
            var stack := Replay(r.activations);
            && Sorting.Distinct(stack)
            && (forall id :: id in stack <==> id in r.experiments && r.experiments[id].stage == Promoted)
            && (r.activations != [] ==>
                 && Chain(r, stack)
                 && Active(r).value.version ==
                    1 + CountKind(r.activations, Promotion) - CountKind(r.activations, ActivationKind.Rollback))
  {
    hide Run;
    EmptyIsInvariant();
    RunKeeps(EMPTY, cs);
    InvariantMeansChain(Run(EMPTY, cs));
  }

  /** The experiment was the top of the stack; now it is popped and its baseline is active again. */
  ghost predicate Popped(r: Registry, e: Experiment, next: Registry) {
    var stack := Replay(r.activations);
    && stack != [] && stack[|stack| - 1] == e.id
    && Replay(next.activations) == stack[..|stack| - 1]
    && Active(next).Some? && Active(next).value.id == e.baseline
  }

  lemma RollbackRestoresBaseline(r: Registry, e: Experiment, t: Transition, a: Option<Activation>)
    requires Invariant(r) && e.id in r.experiments && r.experiments[e.id].stage == Promoted
    requires Advance(r, e, t, a).Ok?
    ensures Popped(r, e, Advance(r, e, t, a).value)
  {
    RollbackIsTop(r, e, t, a);
    ReplayAppend(r.activations, a.value);
    AdvanceKeepsTables(r, e, t, a);
  }

  ghost predicate Reachable(r: Registry) {
    exists cs :: r == Run(EMPTY, cs)
  }

  lemma ReachableIsInvariant(r: Registry)
    requires Reachable(r)
    ensures Invariant(r)
  {
    hide Run, Invariant;
    var cs :| r == Run(EMPTY, cs);
    EmptyIsInvariant();
    RunKeeps(EMPTY, cs);
  }

  lemma EmptyIsInvariant()
    ensures Invariant(EMPTY)
  {
  }

  /** In every reachable registry a promoted experiment is refused a rollback unless it is on top; the rollback pops
      it and makes its baseline active again. */
  lemma OnlyTopRollsBack(r: Registry, e: Experiment, t: Transition, a: Option<Activation>)
    requires Reachable(r) && e.id in r.experiments && r.experiments[e.id].stage == Promoted
    requires Advance(r, e, t, a).Ok?
    ensures Popped(r, e, Advance(r, e, t, a).value)
  {
    hide *;
    ReachableIsInvariant(r);
    RollbackRestoresBaseline(r, e, t, a);
  }
}
