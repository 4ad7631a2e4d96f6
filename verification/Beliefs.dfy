/** Belief states: how confidence, support and provenance accumulate from pieces of evidence. */
module Beliefs {
  import opened Common
  import Sorting

  const CAP := 0.995

  /** `sourceKeys` is the sorted tuple of distinct sources, as a set. */
  datatype Belief = Belief(
    confidence: real, supportCount: int, contradictionCount: int, sourceDiversity: int, lastEvidenceAt: Time,
    sourceKeys: set<string>)

  /** What one piece of evidence contributes. */
  datatype Item = Item(confidence: real, at: Time, source: string)

  predicate InUnit(x: real) {
    0.0 <= x <= 1.0
  }

  function Least(x: real, y: real): real {
    if x <= y then x else y
  }

  /** The belief a single piece of evidence justifies. */
  function FromEvidence(i: Item): Belief {
    Belief(i.confidence, 1, 0, 1, i.at, {i.source})
  }

  /** `BeliefState.reinforced` with a source. A state without known sources keeps only its aggregate count. */
  function Reinforced(b: Belief, i: Item): Result<Belief> {
    if !InUnit(i.confidence) then Err(DomainError)
    else
      var sources := b.sourceKeys + {i.source};
      Ok(Belief(
           Least(CAP, 1.0 - (1.0 - b.confidence) * (1.0 - i.confidence)),
           b.supportCount + 1, b.contradictionCount,
           if b.sourceKeys != {} then |sources| else Max(b.sourceDiversity, |sources|),
           Max(b.lastEvidenceAt, i.at),
           if b.sourceKeys != {} then sources else {}))
  }

  predicate Confidences(items: seq<Item>) {
    forall i | 0 <= i < |items| :: InUnit(items[i].confidence)
  }

  /** The belief after the given evidence, piece by piece. */
  function Accumulated(items: seq<Item>): Belief
    requires items != [] && Confidences(items)
    decreases |items|
  {
    var n := |items| - 1;
    if n == 0 then FromEvidence(items[0]) else Reinforced(Accumulated(items[..n]), items[n]).value
  }

  /** The probability that every piece of evidence is wrong. */
  function Doubt(items: seq<Item>): real
    decreases |items|
  {
    if items == [] then 1.0 else Doubt(items[..|items| - 1]) * (1.0 - items[|items| - 1].confidence)
  }

  function Sources(items: seq<Item>): set<string> {
    set i | 0 <= i < |items| :: items[i].source
  }

  predicate IsLatest(t: Time, items: seq<Item>) {
    && (exists i | 0 <= i < |items| :: items[i].at == t)
    && (forall i | 0 <= i < |items| :: items[i].at <= t)
  }

  lemma ProductInUnit(x: real, y: real)
    requires InUnit(x) && InUnit(y)
    ensures InUnit(x * y) && x * y <= x
  {
    assert x * y <= x * 1.0;
  }

  lemma {:induction false} DoubtInUnit(items: seq<Item>)
    requires Confidences(items)
    ensures InUnit(Doubt(items))
    decreases |items|
  {
    if items != [] {
      DoubtInUnit(items[..|items| - 1]);
      ProductInUnit(Doubt(items[..|items| - 1]), 1.0 - items[|items| - 1].confidence);
    }
  }

  /** Capping before a further step makes no difference once the step is capped as well. */
  lemma CapOnce(doubt: real, c: real)
    requires InUnit(doubt) && InUnit(c)
    ensures Least(CAP, 1.0 - (1.0 - Least(CAP, 1.0 - doubt)) * (1.0 - c)) == Least(CAP, 1.0 - doubt * (1.0 - c))
  {
    if 1.0 - doubt > CAP {
      ProductInUnit(doubt, 1.0 - c);
      ProductInUnit(1.0 - CAP, 1.0 - c);
    }
  }

  /** More evidence for a belief keeps or raises its confidence exactly when the confidence is not above the cap. */
  lemma ReinforcementRaises(b: Belief, i: Item)
    requires InUnit(b.confidence) && InUnit(i.confidence)
    ensures Reinforced(b, i).value.confidence >= b.confidence <==> b.confidence <= CAP
  {
    var doubt := (1.0 - b.confidence) * (1.0 - i.confidence);
    ProductInUnit(1.0 - b.confidence, 1.0 - i.confidence);
    assert doubt <= 1.0 - b.confidence;
    assert Reinforced(b, i).value.confidence == Least(CAP, 1.0 - doubt);
  }

  /** A certain belief is less certain after any further evidence. */
  lemma CertaintyIsLowered(b: Belief, i: Item)
    requires b.confidence == 1.0 && InUnit(i.confidence)
    ensures Reinforced(b, i).value.confidence == CAP < b.confidence
  {
    var doubt := (1.0 - b.confidence) * (1.0 - i.confidence);
    assert doubt == 0.0;
    assert Reinforced(b, i).value.confidence == Least(CAP, 1.0 - doubt);
  }

  lemma {:induction false} ConfidenceClosedForm(items: seq<Item>)
    requires items != [] && Confidences(items)
    ensures Accumulated(items).confidence ==
            if |items| == 1 then items[0].confidence else Least(CAP, 1.0 - Doubt(items))
    decreases |items|
  {
    var n := |items| - 1;
    if n > 0 {
      var init, c := items[..n], items[n].confidence;
      ConfidenceClosedForm(init);
      DoubtInUnit(init);
      if n == 1 {
        assert Doubt(init) == Doubt(init[..0]) * (1.0 - items[0].confidence);
      } else {
        CapOnce(Doubt(init), c);
      }
    }
  }

  lemma SourcesGrow(items: seq<Item>)
    requires items != []
    ensures Sources(items) == Sources(items[..|items| - 1]) + {items[|items| - 1].source}
  {
    var init := items[..|items| - 1];
    forall x | x in Sources(items) ensures x in Sources(init) + {items[|items| - 1].source} {
      var i :| 0 <= i < |items| && items[i].source == x;
      assert i < |init| ==> init[i].source == x;
    }
    forall x | x in Sources(init) ensures x in Sources(items) {
      var i :| 0 <= i < |init| && init[i].source == x;
      assert items[i].source == x;
    }
  }

  lemma {:induction false} SourcesClosedForm(items: seq<Item>)
    requires items != [] && Confidences(items)
    ensures Accumulated(items).sourceKeys == Sources(items) && Accumulated(items).sourceDiversity == |Sources(items)|
    decreases |items|
  {
    SourcesGrow(items);
    assert items[0].source in Sources(items);
    if |items| > 1 {
      SourcesClosedForm(items[..|items| - 1]);
      assert items[0].source in Sources(items[..|items| - 1]);
    } else {
      assert Sources(items) == {items[0].source};
    }
  }

  lemma {:induction false} CountsClosedForm(items: seq<Item>)
    requires items != [] && Confidences(items)
    ensures Accumulated(items).supportCount == |items| && Accumulated(items).contradictionCount == 0
    decreases |items|
  {
    if |items| > 1 {
      CountsClosedForm(items[..|items| - 1]);
    }
  }

  lemma {:induction false} LatestClosedForm(items: seq<Item>)
    requires items != [] && Confidences(items)
    ensures IsLatest(Accumulated(items).lastEvidenceAt, items)
    decreases |items|
  {
    var n := |items| - 1;
    if n > 0 {
      var init, t := items[..n], Accumulated(items[..n]).lastEvidenceAt;
      LatestClosedForm(init);
      var k :| 0 <= k < |init| && init[k].at == t;
      assert items[k].at == t && Accumulated(items).lastEvidenceAt == Max(t, items[n].at);
    }
  }

  lemma DoubtAdds(items: seq<Item>, i: Item)
    ensures Doubt(items + [i]) == Doubted(Doubt(items), i)
  {
    assert (items + [i])[..|items|] == items;
  }

  /** Doubt `d` after one more item. */
  function Doubted(d: real, i: Item): real {
    d * (1.0 - i.confidence)
  }

  lemma Exchange(d: real, i: Item, j: Item)
    ensures Doubted(Doubted(d, i), j) == Doubted(Doubted(d, j), i)
  {
    var x, y := 1.0 - i.confidence, 1.0 - j.confidence;
    assert d * x * y == d * y * x;
  }

  lemma {:induction false} DoubtWithout(items: seq<Item>, k: nat)
    requires k < |items|
    ensures Doubt(items) == Doubted(Doubt(items[..k] + items[k + 1..]), items[k])
    decreases |items|
  {
    hide *;
    var n := |items| - 1;
    assert items == items[..n] + [items[n]];
    DoubtAdds(items[..n], items[n]);
    if k == n {
      assert items[..k] + items[k + 1..] == items[..n];
    } else {
      var init := items[..n];
      DoubtWithout(init, k);
      var shorter, rest := init[..k] + init[k + 1..], items[..k] + items[k + 1..];
      assert rest == shorter + [items[n]];
      DoubtAdds(shorter, items[n]);
      Exchange(Doubt(shorter), items[k], items[n]);
    }
  }

  lemma {:induction false} DoubtIgnoresOrder(a: seq<Item>, b: seq<Item>)
    requires multiset(a) == multiset(b)
    ensures Doubt(a) == Doubt(b)
    decreases |a|
  {
    hide *;
    assert |multiset(a)| == |a| && |multiset(b)| == |b|;
    if a != [] {
      var init, last := a[..|a| - 1], a[|a| - 1];
      var k := Sorting.RemoveLast(a, b);
      DoubtIgnoresOrder(init, b[..k] + b[k + 1..]);
      DoubtWithout(b, k);
      DoubtAdds(init, last);
      assert a == init + [last];
    }
  }

  lemma ElementsCarryOver(a: seq<Item>, b: seq<Item>)
    requires multiset(a) == multiset(b)
    ensures forall i | 0 <= i < |a| :: exists j :: 0 <= j < |b| && b[j] == a[i]
    ensures |a| == |b|
  {
    assert |multiset(a)| == |a| && |multiset(b)| == |b|;
    forall i | 0 <= i < |a| ensures exists j :: 0 <= j < |b| && b[j] == a[i] {
      assert a[i] in multiset(a);
      assert a[i] in multiset(b);
    }
  }

  lemma SourcesIgnoreOrder(a: seq<Item>, b: seq<Item>)
    requires multiset(a) == multiset(b)
    ensures Sources(a) <= Sources(b)
  {
    ElementsCarryOver(a, b);
  }

  lemma LatestIgnoresOrder(a: seq<Item>, b: seq<Item>, s: Time, t: Time)
    requires multiset(a) == multiset(b) && IsLatest(s, a) && IsLatest(t, b)
    ensures s == t
  {
    ElementsCarryOver(a, b);
    ElementsCarryOver(b, a);
  }

  lemma ConfidenceIgnoresOrder(a: seq<Item>, b: seq<Item>)
    requires a != [] && b != [] && Confidences(a) && Confidences(b) && multiset(a) == multiset(b)
    ensures Accumulated(a).confidence == Accumulated(b).confidence
  {
    ElementsCarryOver(a, b);
    ConfidenceClosedForm(a);
    ConfidenceClosedForm(b);
    DoubtIgnoresOrder(a, b);
    assert exists j :: 0 <= j < |b| && b[j] == a[0];
  }

  lemma CountsIgnoreOrder(a: seq<Item>, b: seq<Item>)
    requires a != [] && b != [] && Confidences(a) && Confidences(b) && multiset(a) == multiset(b)
    ensures Accumulated(a).supportCount == Accumulated(b).supportCount
    ensures Accumulated(a).contradictionCount == Accumulated(b).contradictionCount
  {
    ElementsCarryOver(a, b);
    CountsClosedForm(a);
    CountsClosedForm(b);
  }

  lemma SourceKeysIgnoreOrder(a: seq<Item>, b: seq<Item>)
    requires a != [] && b != [] && Confidences(a) && Confidences(b) && multiset(a) == multiset(b)
    ensures Accumulated(a).sourceKeys == Accumulated(b).sourceKeys
    ensures Accumulated(a).sourceDiversity == Accumulated(b).sourceDiversity
  {
    SourcesClosedForm(a);
    SourcesClosedForm(b);
    SourcesIgnoreOrder(a, b);
    SourcesIgnoreOrder(b, a);
  }

  /** The belief depends only on which evidence there is, not on the order it came in. */
  lemma OrderIsIrrelevant(a: seq<Item>, b: seq<Item>)
    requires a != [] && b != [] && Confidences(a) && Confidences(b) && multiset(a) == multiset(b)
    ensures Accumulated(a) == Accumulated(b)
  {
    ConfidenceIgnoresOrder(a, b);
    CountsIgnoreOrder(a, b);
    SourceKeysIgnoreOrder(a, b);
    LatestClosedForm(a);
    LatestClosedForm(b);
    LatestIgnoresOrder(a, b, Accumulated(a).lastEvidenceAt, Accumulated(b).lastEvidenceAt);
  }
}
