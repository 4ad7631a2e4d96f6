/** Gated evolution: proposals and stage advances over the registry, their receipts, and their replays. */
module Evolution {
  import opened Common
  import opened Registry
  import W = Weights
  import ActivationStack

  /** The trusted keys of a receipt verifier. `mac` stands for HMAC-SHA-256 over the canonical claims. */
  datatype Verifier = Verifier(trusted: map<(string, string), string>, mac: (string, ReceiptClaims) -> string)

  /** `HmacGateReceiptSigner.issue`. */
  function Issue(mac: (string, ReceiptClaims) -> string, secret: string, claims: ReceiptClaims): Receipt {
    Receipt(claims, mac(secret, claims))
  }

  /** `HmacGateReceiptVerifier.verify` returns instead of raising. */
  predicate Verified(v: Verifier, g: Receipt, at: Time) {
    && (g.claims.issuer, g.claims.keyId) in v.trusted
    && v.mac(v.trusted[(g.claims.issuer, g.claims.keyId)], g.claims) == g.signature
    && g.claims.issuedAt <= at < g.claims.expiresAt
  }

  function ExpectedDecision(target: Stage): GateDecision {
    match target
    case Rejected => Reject
    case RolledBack => GateDecision.Rollback
    case _ => Pass
  }

  /** `_require_matching_gate_receipt`. */
  predicate Matches(e: Experiment, target: Stage, g: Receipt) {
    && g.claims.experiment == e.id && g.claims.baseline == e.baseline && g.claims.candidate == e.candidate
    && g.claims.from == e.stage && g.claims.to == target
    && g.claims.decision == ExpectedDecision(target)
    && (g.claims.decision == Pass ==> g.claims.hardGatesPassed)
  }

  function ActivationFor(current: Experiment, updated: Experiment, reason: string, at: Time,
                         id: Id): Option<Activation> {
    if IsPromotion(current.stage, updated.stage) then
      Some(Activation(id, current.candidate, Promotion, at, reason, Some(current.baseline), Some(current.id)))
    else if IsRollback(current.stage, updated.stage) then
      Some(Activation(
        id, current.baseline, ActivationKind.Rollback, at, reason, Some(current.candidate), Some(current.id)))
    else None
  }

  datatype Prepared = Prepared(updated: Experiment, transition: Transition, activation: Option<Activation>)

  /** The part of `advance` between reading the experiment and writing to the store. `seen` is what was read. */
  function PrepareAdvance(v: Verifier, seen: Experiment, target: Stage, g: Receipt, key: string, now: Time,
                          transitionId: Id, activationId: Id): Result<Prepared>
  {
    if !Verified(v, g, now) || !Matches(seen, target, g) then Err(DomainError)
    else
      var updated :- Moved(seen, target, now);
      var transition := Transition(transitionId, seen.id, Some(seen.stage), target, now, g.claims.reason,
                                         g.claims.artifactRef, key, AdvanceRequest(seen.id, target, g));
      Ok(Prepared(updated, transition, ActivationFor(seen, updated, g.claims.reason, now, activationId)))
  }

  datatype AdvanceReply = AdvanceReply(experiment: Experiment, replay: bool)

  function ReplayedAdvance(r: Registry, t: Transition, request: Request): Result<AdvanceReply> {
    if t.request != request || t.experiment !in r.experiments then Err(ConflictError)
    else
      var current := r.experiments[t.experiment];
      if current.createdAt > t.at then Err(DomainError)
      else Ok(AdvanceReply(current.(stage := t.to, updatedAt := t.at), true))
  }

  /** `advance`. A call that raises leaves the registry as it was. */
  function AdvanceExperiment(v: Verifier, r: Registry, id: Id, target: Stage, g: Receipt, key: string, now: Time,
                             transitionId: Id, activationId: Id): (Registry, Result<AdvanceReply>)
  {
    if key in r.transitionKeys then
      (r, ReplayedAdvance(r, r.transitionKeys[key], AdvanceRequest(id, target, g)))
    else if id !in r.experiments then
      (r, Err(NotFoundError))
    else
      match PrepareAdvance(v, r.experiments[id], target, g, key, now, transitionId, activationId)
      case Err(e) => (r, Err(e))
      case Ok(p) =>
        var written := Advance(r, p.updated, p.transition, p.activation);
        if written.Err? then (r, Err(written.error)) else (written.value, Ok(AdvanceReply(p.updated, false)))
  }

  datatype ProposalReply = NoProposal | ProposalReply(candidate: Strategy, experiment: Experiment, replay: bool)

  function ReplayedProposal(r: Registry, t: Transition, request: Request): Result<ProposalReply> {
    if t.from.Some? || t.to != Proposed || t.request != request || t.experiment !in r.experiments then
      Err(ConflictError)
    else
      var current := r.experiments[t.experiment];
      if current.candidate !in r.strategies then Err(ConflictError)
      else if current.createdAt > t.at then Err(DomainError)
      else Ok(ProposalReply(r.strategies[current.candidate], current.(stage := Proposed, updatedAt := t.at), true))
  }

  /** `PolicyEvolution.propose` as a whole snapshot. */
  function CandidateOf(parent: Strategy, d: W.FailureDiagnosis, id: Id, now: Time): Option<Strategy> {
    match W.Proposal(parent.weights, d)
    case None => None
    case Some(weights) =>
      Some(Strategy(id, parent.version + 1, weights, parent.minScore, parent.halfLifeDays, now, Some(parent.id)))
  }

  datatype Draft = Draft(candidate: Strategy, experiment: Experiment, transition: Transition)

  /** The part of `propose` between reading the active strategy and writing to the store. */
  function PrepareProposal(active: Strategy, d: W.FailureDiagnosis, reason: string, evidenceRef: string, key: string,
                           now: Time, candidateId: Id, experimentId: Id, transitionId: Id): Result<Option<Draft>>
  {
    match CandidateOf(active, d, candidateId, now)
    case None => Ok(None)
    case Some(candidate) =>
      if active.id == candidateId then Err(DomainError)
      else
        Ok(Some(Draft(
          candidate,
          Experiment(experimentId, active.id, candidateId, Proposed, now, now),
          Transition(transitionId, experimentId, None, Proposed, now, reason, evidenceRef, key,
                     ProposalRequest(d, reason, evidenceRef)))))
  }

  function ProposeExperiment(r: Registry, d: W.FailureDiagnosis, reason: string, evidenceRef: string, key: string,
                             now: Time, candidateId: Id, experimentId: Id, transitionId: Id)
    : (Registry, Result<ProposalReply>)
  {
    if key in r.transitionKeys then
      (r, ReplayedProposal(r, r.transitionKeys[key], ProposalRequest(d, reason, evidenceRef)))
    else if Active(r).None? then
      (r, Err(DomainError))
    else
      match PrepareProposal(Active(r).value, d, reason, evidenceRef, key, now, candidateId, experimentId, transitionId)
      case Err(e) => (r, Err(e))
      case Ok(None) => (r, Ok(NoProposal))
      case Ok(Some(draft)) =>
        var written := Register(r, draft.candidate, draft.experiment, draft.transition);
        if written.Err? then (r, Err(written.error))
        else (written.value, Ok(ProposalReply(draft.candidate, draft.experiment, false)))
  }

  /** A call into the application. `LateAdvance` is an `advance` whose reads happened before other calls wrote: it
      carries whatever experiment value it read, and only its final write happens now. */
  datatype Call =
    | Boot(strategy: Strategy, activation: Activation)
    | Propose(diagnosis: W.FailureDiagnosis, reason: string, evidenceRef: string, key: string, now: Time,
              candidateId: Id, experimentId: Id, transitionId: Id)
    | AdvanceNow(id: Id, target: Stage, receipt: Receipt, key: string, now: Time, transitionId: Id, activationId: Id)
    | LateAdvance(seen: Experiment, target: Stage, receipt: Receipt, key: string, now: Time, transitionId: Id,
                  activationId: Id)

  /** What the call finally asks of the store, if it gets that far. */
  function Written(v: Verifier, r: Registry, c: Call): Option<Command> {
    match c
    case Boot(s, a) => if s.Accepted() then Some(Ensure(s, a)) else None
    case Propose(d, reason, evidenceRef, key, now, candidateId, experimentId, transitionId) =>
      if key in r.transitionKeys || Active(r).None? then None
      else
        (match PrepareProposal(
                 Active(r).value, d, reason, evidenceRef, key, now, candidateId, experimentId, transitionId)
         case Ok(Some(draft)) => Some(Create(draft.candidate, draft.experiment, draft.transition))
         case _ => None)
    case AdvanceNow(id, target, g, key, now, transitionId, activationId) =>
      if key in r.transitionKeys || id !in r.experiments then None
      else AsMove(PrepareAdvance(v, r.experiments[id], target, g, key, now, transitionId, activationId))
    case LateAdvance(seen, target, g, key, now, transitionId, activationId) =>
      AsMove(PrepareAdvance(v, seen, target, g, key, now, transitionId, activationId))
  }

  function AsMove(p: Result<Prepared>): Option<Command> {
    match p
    case Err(_) => None
    case Ok(p) => Some(Move(p.updated, p.transition, p.activation))
  }

  function Do(v: Verifier, r: Registry, c: Call): Registry {
    match Written(v, r, c)
    case None => r
    case Some(command) => Step(r, command)
  }

  /** A sequential call writes exactly that. */
  lemma CallsWriteCommands(v: Verifier, r: Registry)
    ensures forall d, reason, evidenceRef, key, now, candidateId, experimentId, transitionId ::
              ProposeExperiment(r, d, reason, evidenceRef, key, now, candidateId, experimentId, transitionId).0
              == Do(v, r, Propose(d, reason, evidenceRef, key, now, candidateId, experimentId, transitionId))
    ensures forall id, target, g, key, now, transitionId, activationId ::
              AdvanceExperiment(v, r, id, target, g, key, now, transitionId, activationId).0
              == Do(v, r, AdvanceNow(id, target, g, key, now, transitionId, activationId))
  {
  }

  function DoAll(v: Verifier, r: Registry, cs: seq<Call>): Registry
    decreases |cs|
  {
    if cs == [] then r else Do(v, DoAll(v, r, cs[..|cs| - 1]), cs[|cs| - 1])
  }

  /** The advance recorded by `t` was authorised by a receipt that verified at the time of the advance, names the
      same experiment, strategies and edge, and carries the decision the edge needs. */
  ghost predicate Gated(v: Verifier, e: Experiment, t: Transition) {
    && t.from.Some? && t.request.AdvanceRequest?
    && t.request.experiment == e.id && t.request.target == t.to
    && var g := t.request.receipt;
    && Verified(v, g, t.at)
    && g.claims.experiment == e.id && g.claims.baseline == e.baseline && g.claims.candidate == e.candidate
    && g.claims.from == t.from.value && g.claims.to == t.to
    && g.claims.decision == ExpectedDecision(t.to)
    && (t.to != Rejected && t.to != RolledBack ==> g.claims.hardGatesPassed)
  }

  /** A legal, gated path from PROPOSED whose last entry gives the stored stage and time. */
  ghost predicate GatedHistory(v: Verifier, e: Experiment, h: seq<Transition>) {
    && h != [] && h[0].from.None? && h[0].to == Proposed && h[0].at == e.createdAt
    && (forall i | 0 <= i < |h| :: h[i].experiment == e.id)
    && (forall i | 0 < i < |h| ::
         h[i].from == Some(h[i - 1].to) && Legal(h[i - 1].to, h[i].to) && h[i - 1].at <= h[i].at && Gated(v, e, h[i]))
    && h[|h| - 1].to == e.stage && h[|h| - 1].at == e.updatedAt
  }

  ghost predicate HistoriesOk(v: Verifier, r: Registry) {
    && r.histories.Keys == r.experiments.Keys
    && forall id | id in r.experiments ::
         r.experiments[id].id == id && GatedHistory(v, r.experiments[id], r.histories[id])
  }

  ghost predicate StrategiesOk(r: Registry) {
    && (forall id | id in r.strategies :: r.strategies[id].id == id && r.strategies[id].Accepted())
    && (forall id | id in r.experiments :: r.experiments[id].candidate in r.strategies)
  }

  ghost predicate KeysOk(r: Registry) {
    forall k | k in r.transitionKeys ::
      var t := r.transitionKeys[k];
      t.key == k && t.experiment in r.experiments && r.experiments[t.experiment].createdAt <= t.at
  }

  ghost predicate LogsOk(v: Verifier, r: Registry) {
    HistoriesOk(v, r) && KeysOk(r)
  }

  ghost predicate Invariant(v: Verifier, r: Registry) {
    LogsOk(v, r) && StrategiesOk(r)
  }

  lemma CandidateAccepted(parent: Strategy, d: W.FailureDiagnosis, id: Id, now: Time)
    requires parent.Accepted()
    ensures CandidateOf(parent, d, id, now).Some? ==> CandidateOf(parent, d, id, now).value.Accepted()
  {
    W.ProposalIsBounded(parent.weights, d);
  }

  /** Strategies are only ever added, with constructor-accepted values. */
  lemma StrategiesKept(r: Registry, c: Command)
    requires StrategiesOk(r) && Apply(r, c).Ok?
    requires match c {
               case Save(s) => s.Accepted() case Ensure(s, _) => s.Accepted() case Create(s, _, _) => s.Accepted()
               case Move(_, _, _) => true }
    ensures StrategiesOk(Apply(r, c).value)
  {
  }

  lemma EnsureKeeps(v: Verifier, r: Registry, s: Strategy, a: Activation)
    requires LogsOk(v, r) && EnsureActive(r, s, a).Ok?
    ensures LogsOk(v, EnsureActive(r, s, a).value)
  {
    var next := EnsureActive(r, s, a).value;
    assert next.experiments == r.experiments && next.histories == r.histories;
    assert next.transitionKeys == r.transitionKeys;
  }

  /** Replacing or adding one experiment whose history is gated keeps all histories gated. */
  lemma HistoriesFrame(v: Verifier, r: Registry, next: Registry, e: Experiment, h: seq<Transition>)
    requires HistoriesOk(v, r) && GatedHistory(v, e, h)
    requires next.experiments == r.experiments[e.id := e] && next.histories == r.histories[e.id := h]
    ensures HistoriesOk(v, next)
  {
    forall id | id in next.experiments
      ensures next.experiments[id].id == id && GatedHistory(v, next.experiments[id], next.histories[id])
    {
      if id != e.id {
        assert GatedHistory(v, r.experiments[id], r.histories[id]);
      }
    }
  }

  /** Adding a created experiment, or one more gated entry to an existing history, keeps the logs. */
  lemma LogsExtend(v: Verifier, r: Registry, next: Registry, e: Experiment, h: seq<Transition>, t: Transition)
    requires LogsOk(v, r) && GatedHistory(v, e, h) && h[|h| - 1] == t
    requires next.experiments == r.experiments[e.id := e] && next.histories == r.histories[e.id := h]
    requires next.transitionKeys == r.transitionKeys[t.key := t]
    requires e.id in r.experiments ==> e.createdAt == r.experiments[e.id].createdAt
    ensures LogsOk(v, next)
  {
    HistoriesFrame(v, r, next, e, h);
    TimesFollowCreation(v, e, h, |h| - 1);
  }

  lemma RegisterKeeps(v: Verifier, r: Registry, c: Strategy, e: Experiment, t: Transition)
    requires LogsOk(v, r) && Register(r, c, e, t).Ok?
    ensures LogsOk(v, Register(r, c, e, t).value)
  {
    assert GatedHistory(v, e, [t]);
    LogsExtend(v, r, Register(r, c, e, t).value, e, [t], t);
  }

  lemma GatedHistoryExtends(v: Verifier, current: Experiment, e: Experiment, h: seq<Transition>, t: Transition)
    requires GatedHistory(v, current, h) && Gated(v, e, t) && t.experiment == e.id
    requires Moved(current, t.to, t.at) == Ok(e) && t.from == Some(current.stage)
    ensures GatedHistory(v, e, h + [t])
  {
    hide Gated, Legal;
    forall i | 0 < i < |h| ensures Gated(v, e, h[i]) {
      GateStays(v, current, e, h[i]);
    }
  }

  /** A gate is about an experiment's identity and strategies. */
  lemma GateStays(v: Verifier, current: Experiment, e: Experiment, t: Transition)
    requires Gated(v, current, t)
    requires e.id == current.id && e.baseline == current.baseline && e.candidate == current.candidate
    ensures Gated(v, e, t)
  {
  }

  lemma PreparedIsGated(v: Verifier, seen: Experiment, target: Stage, g: Receipt, key: string, now: Time,
                        transitionId: Id, activationId: Id)
    requires PrepareAdvance(v, seen, target, g, key, now, transitionId, activationId).Ok?
    ensures var p := PrepareAdvance(v, seen, target, g, key, now, transitionId, activationId).value;
            Gated(v, p.updated, p.transition)
  {
  }

  lemma AdvanceKeeps(v: Verifier, r: Registry, p: Prepared)
    requires LogsOk(v, r) && Gated(v, p.updated, p.transition)
    requires Advance(r, p.updated, p.transition, p.activation).Ok?
    ensures LogsOk(v, Advance(r, p.updated, p.transition, p.activation).value)
  {
    hide Gated, Legal, GatedHistory;
    var e, t := p.updated, p.transition;
    GatedHistoryExtends(v, r.experiments[e.id], e, r.histories[e.id], t);
    LogsExtend(v, r, Advance(r, e, t, p.activation).value, e, r.histories[e.id] + [t], t);
  }

  /** Writing what an advance has prepared, from whatever experiment value it had read. */
  lemma PreparedKeeps(v: Verifier, r: Registry, seen: Experiment, target: Stage, g: Receipt, key: string, now: Time,
                      transitionId: Id, activationId: Id)
    requires LogsOk(v, r) && PrepareAdvance(v, seen, target, g, key, now, transitionId, activationId).Ok?
    ensures var p := PrepareAdvance(v, seen, target, g, key, now, transitionId, activationId).value;
            var written := Advance(r, p.updated, p.transition, p.activation);
            written.Ok? ==> LogsOk(v, written.value)
  {
    hide LogsOk, Gated, Advance;
    PreparedIsGated(v, seen, target, g, key, now, transitionId, activationId);
    var p := PrepareAdvance(v, seen, target, g, key, now, transitionId, activationId).value;
    if Advance(r, p.updated, p.transition, p.activation).Ok? {
      AdvanceKeeps(v, r, p);
    }
  }

  lemma DoKeeps(v: Verifier, r: Registry, c: Call)
    requires Invariant(v, r)
    ensures Invariant(v, Do(v, r, c))
  {
    hide LogsOk, Gated;
    if Written(v, r, c).Some? && Apply(r, Written(v, r, c).value).Ok? {
      if c.Propose? {
        CandidateAccepted(Active(r).value, c.diagnosis, c.candidateId, c.now);
      }
      StrategiesKept(r, Written(v, r, c).value);
      match c
      case Boot(s, a) => EnsureKeeps(v, r, s, a);
      case Propose(d, reason, evidenceRef, key, now, candidateId, experimentId, transitionId) =>
        var create := Written(v, r, c).value;
        RegisterKeeps(v, r, create.candidate, create.experiment, create.transition);
      case AdvanceNow(id, target, g, key, now, transitionId, activationId) =>
        PreparedKeeps(v, r, r.experiments[id], target, g, key, now, transitionId, activationId);
      case LateAdvance(seen, target, g, key, now, transitionId, activationId) =>
        PreparedKeeps(v, r, seen, target, g, key, now, transitionId, activationId);
    }
  }

  lemma {:induction false} DoAllKeeps(v: Verifier, r: Registry, cs: seq<Call>)
    requires Invariant(v, r)
    ensures Invariant(v, DoAll(v, r, cs))
    decreases |cs|
  {
    if cs != [] {
      DoAllKeeps(v, r, cs[..|cs| - 1]);
      DoKeeps(v, DoAll(v, r, cs[..|cs| - 1]), cs[|cs| - 1]);
    }
  }

  /** How far along the stage graph a stage lies; every legal edge goes up. */
  function Rank(s: Stage): nat {
    match s
    case Proposed => 0
    case OfflinePassed => 1
    case Shadow => 2
    case Canary => 3
    case Promoted => 4
    case Rejected => 5
    case RolledBack => 5
  }

  lemma {:induction false} HistoryIsShort(v: Verifier, e: Experiment, h: seq<Transition>, i: nat)
    requires GatedHistory(v, e, h) && i < |h|
    ensures i <= Rank(h[i].to)
  {
    if i > 0 {
      HistoryIsShort(v, e, h, i - 1);
      assert h[i].from == Some(h[i - 1].to);
    }
  }

  /** In any run, with racing calls included: every experiment's history is a legal path from PROPOSED with
      non-decreasing times, its last entry gives the stored stage and time, it has at most five advances, and each
      advance was covered by a receipt verified at its time. */
  lemma EveryAdvanceIsGated(v: Verifier, cs: seq<Call>, id: Id)
    requires id in DoAll(v, EMPTY, cs).experiments
    ensures var r := DoAll(v, EMPTY, cs);
            id in r.histories && GatedHistory(v, r.experiments[id], r.histories[id]) && |r.histories[id]| <= 6
  {
    hide *;
    EmptyIsOk(v);
    DoAllKeeps(v, EMPTY, cs);
    StoredHistoryIsGated(v, DoAll(v, EMPTY, cs), id);
  }

  lemma EmptyIsOk(v: Verifier)
    ensures Invariant(v, EMPTY)
  {
  }

  lemma StoredHistoryIsGated(v: Verifier, r: Registry, id: Id)
    requires Invariant(v, r) && id in r.experiments
    ensures id in r.histories && GatedHistory(v, r.experiments[id], r.histories[id]) && |r.histories[id]| <= 6
  {
    hide Gated, Legal, KeysOk, StrategiesOk;
    HistoryIsShort(v, r.experiments[id], r.histories[id], |r.histories[id]| - 1);
  }

  /** What later calls never change. */
  ghost predicate Grows(r: Registry, later: Registry) {
    && (forall k | k in r.transitionKeys :: k in later.transitionKeys && later.transitionKeys[k] == r.transitionKeys[k])
    && (forall id | id in r.strategies :: id in later.strategies && later.strategies[id] == r.strategies[id])
    && (forall id | id in r.experiments ::
         && id in later.experiments
         && var e, f := r.experiments[id], later.experiments[id];
         && e.id == f.id && e.baseline == f.baseline && e.candidate == f.candidate && e.createdAt == f.createdAt)
  }

  lemma StepGrows(r: Registry, c: Command)
    ensures Grows(r, Step(r, c))
  {
    if Apply(r, c).Ok? {
      match c
      case Save(s) =>
      case Ensure(s, a) =>
      case Create(s, e, t) => assert SaveStrategy(r, s).Ok?;
      case Move(e, t, a) => assert Moved(r.experiments[e.id], e.stage, t.at) == Ok(e);
    }
  }

  lemma {:induction false} DoAllGrows(v: Verifier, r: Registry, cs: seq<Call>)
    ensures Grows(r, DoAll(v, r, cs))
    decreases |cs|
  {
    if cs != [] {
      DoAllGrows(v, r, cs[..|cs| - 1]);
      var before := DoAll(v, r, cs[..|cs| - 1]);
      if Written(v, before, cs[|cs| - 1]).Some? {
        StepGrows(before, Written(v, before, cs[|cs| - 1]).value);
      }
    }
  }

  /** The registry remembers that `key` was used for `request` with this result. */
  ghost predicate Recorded(r: Registry, key: string, request: Request, result: Experiment) {
    && key in r.transitionKeys
    && var t := r.transitionKeys[key];
    && t.request == request && t.experiment in r.experiments && r.experiments[t.experiment].createdAt <= t.at
    && result == r.experiments[t.experiment].(stage := t.to, updatedAt := t.at)
  }

  lemma GrowthKeepsRecords(r: Registry, later: Registry, key: string, request: Request, result: Experiment)
    requires Grows(r, later) && Recorded(r, key, request, result)
    ensures Recorded(later, key, request, result)
  {
  }

  lemma AdvanceIsRecorded(v: Verifier, r: Registry, id: Id, target: Stage, g: Receipt, key: string, now: Time,
                          transitionId: Id, activationId: Id)
    requires LogsOk(v, r)
    requires AdvanceExperiment(v, r, id, target, g, key, now, transitionId, activationId).1.Ok?
    ensures var (next, reply) := AdvanceExperiment(v, r, id, target, g, key, now, transitionId, activationId);
            Recorded(next, key, AdvanceRequest(id, target, g), reply.value.experiment)
  {
    if key !in r.transitionKeys {
      ExperimentIsOrdered(v, r, id);
      AdvanceRecords(r, PrepareAdvance(v, r.experiments[id], target, g, key, now, transitionId, activationId).value);
    }
  }

  lemma ExperimentIsOrdered(v: Verifier, r: Registry, id: Id)
    requires LogsOk(v, r) && id in r.experiments
    ensures r.experiments[id].id == id && r.experiments[id].createdAt <= r.experiments[id].updatedAt
  {
    hide Gated, Legal, KeysOk;
    assert GatedHistory(v, r.experiments[id], r.histories[id]);
    TimesFollowCreation(v, r.experiments[id], r.histories[id], |r.histories[id]| - 1);
  }

  lemma AdvanceRecords(r: Registry, p: Prepared)
    requires Advance(r, p.updated, p.transition, p.activation).Ok?
    requires r.experiments[p.updated.id].createdAt <= p.transition.at
    ensures Recorded(Advance(r, p.updated, p.transition, p.activation).value, p.transition.key, p.transition.request,
                     p.updated)
  {
  }

  lemma {:induction false} TimesFollowCreation(v: Verifier, e: Experiment, h: seq<Transition>, i: nat)
    requires GatedHistory(v, e, h) && i < |h|
    ensures e.createdAt <= h[i].at
  {
    if i > 0 {
      TimesFollowCreation(v, e, h, i - 1);
    }
  }

  /** Replaying the key of an accepted advance at any later point returns the original experiment value and changes
      nothing, however far the experiment has moved on. */
  lemma AdvanceReplays(v: Verifier, r: Registry, id: Id, target: Stage, g: Receipt, key: string, now: Time,
                       transitionId: Id, activationId: Id, cs: seq<Call>,
                       now': Time, transitionId': Id, activationId': Id)
    requires LogsOk(v, r)
    requires AdvanceExperiment(v, r, id, target, g, key, now, transitionId, activationId).1.Ok?
    ensures var (r1, first) := AdvanceExperiment(v, r, id, target, g, key, now, transitionId, activationId);
            var r2 := DoAll(v, r1, cs);
            AdvanceExperiment(v, r2, id, target, g, key, now', transitionId', activationId')
            == (r2, Ok(AdvanceReply(first.value.experiment, true)))
  {
    var (r1, first) := AdvanceExperiment(v, r, id, target, g, key, now, transitionId, activationId);
    AdvanceIsRecorded(v, r, id, target, g, key, now, transitionId, activationId);
    DoAllGrows(v, r1, cs);
    GrowthKeepsRecords(r1, DoAll(v, r1, cs), key, AdvanceRequest(id, target, g), first.value.experiment);
  }

  lemma RegisterRecords(r: Registry, c: Strategy, e: Experiment, t: Transition)
    requires Register(r, c, e, t).Ok?
    ensures var next := Register(r, c, e, t).value;
            && Recorded(next, t.key, t.request, e) && e.stage == Proposed
            && next.transitionKeys[t.key] == t && t.from.None? && t.to == Proposed
            && c.id in next.strategies && next.strategies[c.id] == c && c.id == e.candidate
  {
    assert SaveStrategy(r, c).Ok?;
  }

  /** An accepted proposal is recorded together with its candidate. */
  lemma ProposalIsRecorded(v: Verifier, r: Registry, d: W.FailureDiagnosis, reason: string, evidenceRef: string,
                           key: string, now: Time, candidateId: Id, experimentId: Id, transitionId: Id)
    requires LogsOk(v, r)
    requires var reply :=
               ProposeExperiment(r, d, reason, evidenceRef, key, now, candidateId, experimentId, transitionId).1;
             reply.Ok? && reply.value.ProposalReply?
    ensures var (next, reply) :=
              ProposeExperiment(r, d, reason, evidenceRef, key, now, candidateId, experimentId, transitionId);
            var x := reply.value.experiment;
            && Recorded(next, key, ProposalRequest(d, reason, evidenceRef), x) && x.stage == Proposed
            && next.transitionKeys[key].from.None? && next.transitionKeys[key].to == Proposed
            && x.candidate in next.strategies && next.strategies[x.candidate] == reply.value.candidate
  {
    if key !in r.transitionKeys {
      var draft := PrepareProposal(
                     Active(r).value, d, reason, evidenceRef, key, now, candidateId, experimentId,
                         transitionId).value.value;
      RegisterRecords(r, draft.candidate, draft.experiment, draft.transition);
    }
  }

  /** Replaying the key of an accepted proposal returns the original candidate and the experiment as proposed. */
  lemma ProposalReplays(v: Verifier, r: Registry, d: W.FailureDiagnosis, reason: string, evidenceRef: string,
                        key: string, now: Time, candidateId: Id, experimentId: Id, transitionId: Id, cs: seq<Call>,
                        now': Time, candidateId': Id, experimentId': Id, transitionId': Id)
    requires LogsOk(v, r)
    requires var reply :=
               ProposeExperiment(r, d, reason, evidenceRef, key, now, candidateId, experimentId, transitionId).1;
             reply.Ok? && reply.value.ProposalReply?
    ensures var (r1, first) :=
              ProposeExperiment(r, d, reason, evidenceRef, key, now, candidateId, experimentId, transitionId);
            var r2 := DoAll(v, r1, cs);
            ProposeExperiment(r2, d, reason, evidenceRef, key, now', candidateId', experimentId', transitionId')
            == (r2, Ok(first.value.(replay := true)))
  {
    var (r1, first) :=
      ProposeExperiment(r, d, reason, evidenceRef, key, now, candidateId, experimentId, transitionId);
    ProposalIsRecorded(v, r, d, reason, evidenceRef, key, now, candidateId, experimentId, transitionId);
    var r2 := DoAll(v, r1, cs);
    DoAllGrows(v, r1, cs);
    GrowthKeepsRecords(r1, r2, key, ProposalRequest(d, reason, evidenceRef), first.value.experiment);
  }

  /** There is a draft unless the diagnosis is empty or the blamed component is already at its ceiling, and its
      candidate satisfies the constructor. */
  lemma DraftOutcome(active: Strategy, d: W.FailureDiagnosis, reason: string, evidenceRef: string, key: string,
                     now: Time, candidateId: Id, experimentId: Id, transitionId: Id)
    requires active.Accepted() && active.id != candidateId
    ensures var prepared := PrepareProposal(
                              active, d, reason, evidenceRef, key, now, candidateId, experimentId, transitionId);
            var blamed := W.Dominant(d);
            && prepared.Ok?
            && (prepared.value.None? <==>
                 d.Empty() || (blamed.Some? && active.weights.Of(blamed.value) == W.CEILING))
            && (prepared.value.Some? ==> prepared.value.value.candidate.Accepted())
  {
    W.ProposalIsBounded(active.weights, d);
    CandidateAccepted(active, d, candidateId, now);
  }

  /** The draft extends the strategy it was made from, under the given identifiers. */
  ghost predicate Extends(active: Strategy, draft: Draft, key: string, candidateId: Id, experimentId: Id,
                          transitionId: Id) {
    var c, e, t := draft.candidate, draft.experiment, draft.transition;
    && c.id == candidateId == e.candidate && c.parent == Some(active.id) && c.version == active.version + 1
    && e.id == experimentId && e.baseline == active.id && e.stage == Proposed && e.createdAt == e.updatedAt
    && t.id == transitionId && t.experiment == experimentId && t.from.None? && t.to == Proposed && t.at == e.createdAt
        && t.key == key
  }

  lemma DraftExtends(active: Strategy, draft: Draft, d: W.FailureDiagnosis, reason: string, evidenceRef: string,
                     key: string, now: Time, candidateId: Id, experimentId: Id, transitionId: Id)
    requires PrepareProposal(active, d, reason, evidenceRef, key, now, candidateId, experimentId, transitionId)
             == Ok(Some(draft))
    ensures Extends(active, draft, key, candidateId, experimentId, transitionId)
  {
  }

  lemma ExtensionIsRegistered(r: Registry, draft: Draft, key: string, candidateId: Id, experimentId: Id,
                              transitionId: Id)
    requires ActivationStack.TablesAgree(r) && Active(r).Some? && key !in r.transitionKeys
    requires candidateId !in r.strategies && experimentId !in r.experiments && transitionId !in r.transitionIds
    requires Extends(Active(r).value, draft, key, candidateId, experimentId, transitionId)
    ensures Register(r, draft.candidate, draft.experiment, draft.transition).Ok?
  {
    var active := Active(r).value;
    assert r.strategies[active.id] == active;
    FreshCandidateIsSaved(r, active, draft.candidate);
  }

  /** With fresh identifiers the store accepts every draft made from its active strategy. */
  lemma DraftIsRegistered(r: Registry, draft: Draft, d: W.FailureDiagnosis, reason: string, evidenceRef: string,
                          key: string, now: Time, candidateId: Id, experimentId: Id, transitionId: Id)
    requires ActivationStack.TablesAgree(r) && Active(r).Some? && key !in r.transitionKeys
    requires candidateId !in r.strategies && experimentId !in r.experiments && transitionId !in r.transitionIds
    requires PrepareProposal(Active(r).value, d, reason, evidenceRef, key, now, candidateId, experimentId, transitionId)
             == Ok(Some(draft))
    ensures Register(r, draft.candidate, draft.experiment, draft.transition).Ok?
  {
    DraftExtends(Active(r).value, draft, d, reason, evidenceRef, key, now, candidateId, experimentId, transitionId);
    ExtensionIsRegistered(r, draft, key, candidateId, experimentId, transitionId);
  }

  lemma FreshCandidateIsSaved(r: Registry, parent: Strategy, c: Strategy)
    requires parent.id in r.strategies && r.strategies[parent.id] == parent
    requires c.id !in r.strategies && c.parent == Some(parent.id) && c.version == parent.version + 1
    ensures SaveStrategy(r, c).Ok?
  {
  }

  /** Issuing and verifying are inverse: an issued receipt verifies exactly while its key is trusted with the same
      secret and the time lies in its window. */
  lemma IssuedReceiptVerifies(v: Verifier, secret: string, claims: ReceiptClaims, at: Time)
    requires claims.baseline != claims.candidate && Legal(claims.from, claims.to) && claims.issuedAt < claims.expiresAt
    requires forall s: string, t: string, c: ReceiptClaims, d: ReceiptClaims :: v.mac(s, c) == v.mac(t, d) ==>
               s == t
               && c == d
    ensures Verified(v, Issue(v.mac, secret, claims), at)
            <==> (claims.issuer, claims.keyId) in v.trusted && v.trusted[(claims.issuer, claims.keyId)] == secret
                 && claims.issuedAt <= at < claims.expiresAt
  {
  }

  lemma DoKeepsStack(v: Verifier, r: Registry, c: Call)
    requires ActivationStack.Invariant(r)
    ensures ActivationStack.Invariant(Do(v, r, c))
  {
    hide Written, Step, ActivationStack.Invariant;
    if Written(v, r, c).Some? {
      ActivationStack.StepKeeps(r, Written(v, r, c).value);
    }
  }

  /** Every run of the application is a run of registry commands, so its activation log is a stack as well. */
  lemma {:induction false} RunsAreStacks(v: Verifier, cs: seq<Call>)
    ensures ActivationStack.Invariant(DoAll(v, EMPTY, cs))
    decreases |cs|
  {
    if cs != [] {
      RunsAreStacks(v, cs[..|cs| - 1]);
      DoKeepsStack(v, DoAll(v, EMPTY, cs[..|cs| - 1]), cs[|cs| - 1]);
    }
  }
}
