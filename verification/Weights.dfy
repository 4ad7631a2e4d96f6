/** Bounded policy evolution: one diagnosis moves a little weight from the heaviest other component to the
    component blamed for the failures. */
module Weights {
  import opened Common

  datatype Component = Semantic | Context | Belief | Utility | Recency

  /** The declaration order of the fields, which decides ties. */
  const ORDER: seq<Component> := [Semantic, Component.Context, Belief, Utility, Recency]

  const FLOOR: real := 0.05
  const CEILING: real := 0.60
  const MAX_DELTA: real := 0.03

  datatype RetrievalWeights = RetrievalWeights(
    semantic: real, context: real, belief: real, utility: real, recency: real)
  {
    function Of(c: Component): real {
      match c
      case Semantic => semantic
      case Context => context
      case Belief => belief
      case Utility => utility
      case Recency => recency
    }

    function Values(): map<Component, real> {
      map[Semantic := semantic, Component.Context := context, Belief := belief, Utility := utility, Recency := recency]
    }

    function Plus(c: Component, delta: real): RetrievalWeights {
      match c
      case Semantic => this.(semantic := semantic + delta)
      case Context => this.(context := context + delta)
      case Belief => this.(belief := belief + delta)
      case Utility => this.(utility := utility + delta)
      case Recency => this.(recency := recency + delta)
    }

    function Total(): real {
      semantic + context + belief + utility + recency
    }

    /** What the constructor accepts: `isclose` combines a relative and an absolute tolerance of 1e-9. */
    predicate Valid() {
      && InRange(semantic) && InRange(context) && InRange(belief) && InRange(utility) && InRange(recency)
      && (var gap := Total() - 1.0; (if gap < 0.0 then -gap else gap) <= 0.000000001 * RealMax(1.0, Total()))
    }
  }

  predicate InRange(weight: real) {
    FLOOR <= weight <= CEILING
  }

  function RealMax(a: real, b: real): real {
    if a >= b then a else b
  }

  function RealMin(a: real, b: real): real {
    if a <= b then a else b
  }

  const DEFAULT: RetrievalWeights := RetrievalWeights(0.35, 0.25, 0.20, 0.15, 0.05)

  /** Failure counts; the constructor rejects negative ones. */
  datatype FailureDiagnosis = FailureDiagnosis(
    irrelevant: nat, mismatched: nat, lowBelief: nat, harmful: nat, stale: nat)
  {
    function Counts(): map<Component, real> {
      map[Semantic := irrelevant as real, Component.Context := mismatched as real, Belief := lowBelief as real,
          Utility := harmful as real, Recency := stale as real]
    }

    predicate Empty() {
      irrelevant == mismatched == lowBelief == harmful == stale == 0
    }
  }

  /** Python's `max` and the head of a stable descending `sorted`: the first of the largest. */
  function FirstLargest(names: seq<Component>, size: map<Component, real>): (r: Component)
    requires names != [] && forall c | c in names :: c in size
    ensures r in names && forall c | c in names :: size[c] <= size[r]
    ensures exists i | 0 <= i < |names| :: names[i] == r && forall j | 0 <= j < i :: size[names[j]] < size[r]
  {
    if |names| == 1 then names[0]
    else
      var r := FirstLargest(names[1..], size);
      if size[names[0]] >= size[r] then names[0]
      else
        assert forall i | 0 <= i < |names| - 1 :: names[1..][i] == names[i + 1];
        r
  }

  function Dominant(d: FailureDiagnosis): Option<Component> {
    var c := FirstLargest(ORDER, d.Counts());
    if d.Counts()[c] > 0.0 then Some(c) else None
  }

  /** The names other than `target`, in order. */
  function Without(names: seq<Component>, target: Component): (r: seq<Component>)
    ensures forall c :: c in r <==> c in names && c != target
  {
    if names == [] then []
    else if names[0] == target then Without(names[1..], target)
    else [names[0]] + Without(names[1..], target)
  }

  lemma EveryComponent(w: RetrievalWeights, c: Component)
    ensures c in ORDER && c in w.Values() && w.Values()[c] == w.Of(c)
  {
    assert ORDER[0] == Semantic && ORDER[1] == Component.Context && ORDER[2] == Belief;
    assert ORDER[3] == Utility && ORDER[4] == Recency;
  }

  function Donor(w: RetrievalWeights, target: Component): (r: Component)
    ensures r != target && forall c | c != target :: w.Of(c) <= w.Of(r)
  {
    assert forall c :: c in ORDER && c in w.Values() && w.Values()[c] == w.Of(c) by {
      forall c ensures c in ORDER && c in w.Values() && w.Values()[c] == w.Of(c) {
        EveryComponent(w, c);
      }
    }
    var spare := if target == Semantic then Component.Context else Semantic;
    assert spare in Without(ORDER, target);
    FirstLargest(Without(ORDER, target), w.Values())
  }

  function FromValues(values: map<Component, real>): RetrievalWeights
    requires Semantic in values && Component.Context in values && Belief in values
    requires Utility in values && Recency in values
  {
    RetrievalWeights(values[Semantic], values[Component.Context], values[Belief], values[Utility], values[Recency])
  }

  /** The weights after moving `delta` from one component to another. */
  function Shift(w: RetrievalWeights, from: Component, to: Component, delta: real): RetrievalWeights {
    w.Plus(to, delta).Plus(from, -delta)
  }

  /** The proposal rule, for any parent weights. */
  function Proposal(w: RetrievalWeights, d: FailureDiagnosis): Option<RetrievalWeights> {
    match Dominant(d)
    case None => None
    case Some(target) =>
      var donor := Donor(w, target);
      var delta := Delta(w.Of(target), w.Of(donor));
      if delta <= 0.0 then None else Some(Shift(w, donor, target, delta))
  }

  function Delta(target: real, donor: real): real {
    RealMin(RealMin(MAX_DELTA, CEILING - target), donor - FLOOR)
  }

  lemma UpdateIsPlus(w: RetrievalWeights, c: Component, delta: real)
    ensures w.Values()[c := w.Of(c) + delta] == w.Plus(c, delta).Values()
  {
  }

  /** Adding to one entry of the working dictionary and taking from another. */
  lemma UpdatesAreShift(w: RetrievalWeights, from: Component, to: Component, delta: real)
    requires from != to
    ensures from in w.Values() && to in w.Values() && w.Values()[from] == w.Of(from) && w.Values()[to] == w.Of(to)
    ensures w.Values()[to := w.Of(to) + delta][from := w.Of(from) - delta] == Shift(w, from, to, delta).Values()
    ensures FromValues(Shift(w, from, to, delta).Values()) == Shift(w, from, to, delta)
  {
    EveryComponent(w, from);
    EveryComponent(w, to);
    UpdateIsPlus(w, to, delta);
    assert w.Plus(to, delta).Of(from) == w.Of(from);
    UpdateIsPlus(w.Plus(to, delta), from, -delta);
  }

  /** The working dictionary: add to the target, take from the donor, and rebuild the weights. */
  method Rebalance(w: RetrievalWeights, donor: Component, target: Component, delta: real)
    returns (p: RetrievalWeights)
    requires donor != target
    ensures p == Shift(w, donor, target, delta)
  {
    UpdatesAreShift(w, donor, target, delta);
    var values := w.Values();
    values := values[target := values[target] + delta];
    values := values[donor := values[donor] - delta];
    p := FromValues(values);
  }

  /** `PolicyEvolution.propose`. */
  method Propose(w: RetrievalWeights, d: FailureDiagnosis) returns (r: Option<RetrievalWeights>)
    ensures r == Proposal(w, d)
  {
    var dominant := Dominant(d);
    if dominant.None? {
      return None;
    }
    var target := dominant.value;
    var donor := Donor(w, target);
    var delta := Delta(w.Of(target), w.Of(donor));
    if delta <= 0.0 {
      return None;
    }
    var p := Rebalance(w, donor, target, delta);
    r := Some(p);
  }

  /** The heaviest other component is far above its floor, so the floor never limits a proposal. */
  lemma DonorFloorNeverBinds(w: RetrievalWeights, target: Component)
    requires w.Valid()
    ensures w.Of(Donor(w, target)) - FLOOR > MAX_DELTA
  {
    assert w.Of(Semantic) == w.semantic && w.Of(Component.Context) == w.context && w.Of(Belief) == w.belief;
    assert w.Of(Utility) == w.utility && w.Of(Recency) == w.recency;
    assert w.Total() >= 0.9;
  }

  lemma BlameIsExact(d: FailureDiagnosis)
    ensures Dominant(d).None? <==> d.Empty()
  {
    var c := FirstLargest(ORDER, d.Counts());
    assert Semantic == ORDER[0] && Component.Context == ORDER[1] && Belief == ORDER[2];
    assert Utility == ORDER[3] && Recency == ORDER[4];
  }

  /** What one proposal does: the result is acceptable to the constructor, keeps the sum exactly, moves at most
      0.03 from the heaviest other component to the blamed one, and exists unless there is no blame or no room. */
  lemma ProposalIsBounded(w: RetrievalWeights, d: FailureDiagnosis)
    requires w.Valid()
    ensures Proposal(w, d).None? <==> d.Empty() || (Dominant(d).Some? && w.Of(Dominant(d).value) == CEILING)
    ensures Proposal(w, d).Some? ==>
              && var p, target := Proposal(w, d).value, Dominant(d).value;
              && p.Valid() && p.Total() == w.Total()
              && p.Of(target) == RealMin(CEILING, w.Of(target) + MAX_DELTA)
              && p.Of(Donor(w, target)) == w.Of(Donor(w, target)) - (p.Of(target) - w.Of(target))
              && forall c | c != target && c != Donor(w, target) :: p.Of(c) == w.Of(c)
  {
    BlameIsExact(d);
    if Dominant(d).Some? {
      var target := Dominant(d).value;
      var donor, room := Donor(w, target), RealMin(MAX_DELTA, CEILING - w.Of(target));
      DonorFloorNeverBinds(w, target);
      assert FLOOR <= w.Of(target) <= CEILING && w.Of(donor) <= CEILING;
      assert RealMin(room, w.Of(donor) - FLOOR) == room;
      ShiftMovesWeight(w, donor, target, room);
    }
  }

  lemma ShiftMovesWeight(w: RetrievalWeights, from: Component, to: Component, delta: real)
    requires from != to
    ensures var p := Shift(w, from, to, delta);
            && p.Total() == w.Total() && p.Of(to) == w.Of(to) + delta && p.Of(from) == w.Of(from) - delta
            && forall c | c != to && c != from :: p.Of(c) == w.Of(c)
    ensures w.Valid() && FLOOR <= w.Of(to) + delta <= CEILING && FLOOR <= w.Of(from) - delta <= CEILING ==>
              Shift(w, from, to, delta).Valid()
  {
  }

  /** The weights after a whole sequence of diagnoses, each proposal becoming the next parent. */
  function Evolve(w: RetrievalWeights, ds: seq<FailureDiagnosis>): RetrievalWeights
    decreases |ds|
  {
    if ds == [] then w
    else
      var before := Evolve(w, ds[..|ds| - 1]);
      match Proposal(before, ds[|ds| - 1])
      case None => before
      case Some(p) => p
  }

  lemma {:induction false} EvolutionStaysInBounds(w: RetrievalWeights, ds: seq<FailureDiagnosis>)
    requires w.Valid()
    ensures Evolve(w, ds).Valid() && Evolve(w, ds).Total() == w.Total()
    decreases |ds|
  {
    if ds != [] {
      EvolutionStaysInBounds(w, ds[..|ds| - 1]);
      ProposalIsBounded(Evolve(w, ds[..|ds| - 1]), ds[|ds| - 1]);
    }
  }

  /** `n` accepted proposals in a row for one diagnosis, or None when one of them is refused. */
  function Repeat(w: RetrievalWeights, d: FailureDiagnosis, n: nat): Option<RetrievalWeights> {
    if n == 0 then Some(w)
    else
      match Repeat(w, d, n - 1)
      case None => None
      case Some(p) => Proposal(p, d)
  }

  /** Exactly how often one non-empty diagnosis can be repeated: the n-th proposal is accepted if and only if the
      n - 1 before it leave room, which is n <= ceil((0.60 - start) / 0.03). */
  lemma {:induction false} RepetitionTerminates(w: RetrievalWeights, d: FailureDiagnosis, n: nat)
    requires w.Valid()
    ensures d.Empty() && n > 0 ==> Repeat(w, d, n).None?
    ensures !d.Empty() ==>
              && Dominant(d).Some?
              && (Repeat(w, d, n).Some? <==> n == 0 || w.Of(Dominant(d).value) + MAX_DELTA * (n - 1) as real < CEILING)
    ensures Repeat(w, d, n).Some? ==> Repeat(w, d, n).value.Valid()
    ensures Repeat(w, d, n).Some? && !d.Empty() ==>
              Repeat(w, d, n).value.Of(Dominant(d).value)
              == RealMin(CEILING, w.Of(Dominant(d).value) + MAX_DELTA * n as real)
  {
    ProposalIsBounded(w, d);
    BlameIsExact(d);
    if n > 0 {
      RepetitionTerminates(w, d, n - 1);
      assert (n - 1) as real == n as real - 1.0;
      if Repeat(w, d, n - 1).Some? {
        ProposalIsBounded(Repeat(w, d, n - 1).value, d);
      } else if n > 1 {
        assert (n - 2) as real == n as real - 2.0;
      }
    }
  }
}
