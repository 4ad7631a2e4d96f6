/** Recall: score the memories in force, keep those that are relevant and strong enough, and return the best. */
module Recall {
  import opened Common
  import opened Beliefs
  import opened MemoryTables
  import opened Traces
  import opened AsOf
  import P = Projections
  import R = Registry
  import W = Weights
  import Sorting

  /** What the model leaves open: tokenisation, exponential decay of an age, and the text of a fingerprint. */
  datatype Env = Env(tokens: string -> set<string>, decay: (int, real) -> real, fingerprint: Context -> string)

  datatype RecallMemory = RecallMemory(
    scope: Scope, query: string, context: Context, limit: int, validAt: Option<Time>, knownAt: Option<Time>)

  function Jaccard<T>(a: set<T>, b: set<T>): real {
    if a + b == {} then 0.0 else |a * b| as real / |a + b| as real
  }

  function Facets(c: Context): set<(string, string)> {
    set f | f in c.facets
  }

  /** The keys both contexts set, to different values. */
  function Conflicts(stored: Context, requested: Context): set<string> {
    set f, g | f in Facets(stored) && g in Facets(requested) && f.0 == g.0 && f.1 != g.1 :: f.0
  }

  /** `ContextSignature.similarity`. */
  function Similarity(stored: Context, requested: Context): real {
    if stored.facets == [] && requested.facets == [] then 1.0
    else if stored.facets == [] then 0.8
    else if requested.facets == [] then 0.25
    else
      var score := Jaccard(Facets(stored), Facets(requested)) - 0.35 * |Conflicts(stored, requested)| as real;
      if score < 0.0 then 0.0 else score
  }

  function LexicalSimilarity(env: Env, query: string, document: string): real {
    var q, d := env.tokens(query), env.tokens(document);
    if q == {} || d == {} then 0.0 else Jaccard(q, d)
  }

  /** The relevance floor: words in common, or an explicit context that agrees. */
  predicate Relevant(semantic: real, stored: Context, requested: Context, contextScore: real) {
    semantic > 0.0 || (stored.facets != [] && requested.facets != [] && contextScore > 0.0)
  }

  function WeightedScore(b: ScoreBreakdown, w: W.RetrievalWeights): real {
    Least(1.0, b.semantic * w.semantic + b.context * w.context + b.belief * w.belief + b.utility * w.utility
               + b.recency * w.recency)
  }

  /** One recall in progress: the command with its times resolved, and what the projection found. */
  datatype Query = Query(command: RecallMemory, validAt: Time, knownAt: Time, hits: map<Id, real>)

  function BreakdownFor(env: Env, t: Tables, policy: R.Strategy, q: Query, s: Snapshot): ScoreBreakdown {
    var lexical := LexicalSimilarity(env, q.command.query, s.record.key + " " + s.revision.value);
    var vector := if s.revision.id in q.hits then Some(q.hits[s.revision.id]) else None;
    ScoreBreakdown(
      if vector.Some? && vector.value > lexical then vector.value else lexical,
      Similarity(s.record.context, q.command.context),
      s.revision.belief.confidence,
      UtilityForAsOf(t.feedback, t.recalls, q.command.scope, s.revision.id, q.command.context, q.knownAt).Mean(),
      env.decay(Max(0, q.validAt - s.revision.belief.lastEvidenceAt), policy.halfLifeDays),
      lexical, vector)
  }

  datatype Entry = Entry(score: real, snapshot: Snapshot, breakdown: ScoreBreakdown)

  function EntryFor(env: Env, t: Tables, policy: R.Strategy, q: Query, s: Snapshot): Entry {
    var b := BreakdownFor(env, t, policy, q, s);
    Entry(WeightedScore(b, policy.weights), s, b)
  }

  predicate Admitted(e: Entry, q: Query, minScore: real) {
    && Relevant(e.breakdown.semantic, e.snapshot.record.context, q.command.context, e.breakdown.context)
    && e.score >= minScore
  }

  /** The scoring loop: constructing an inadmissible breakdown raises. */
  function Scored(env: Env, t: Tables, policy: R.Strategy, q: Query, snapshots: seq<Snapshot>): Result<seq<Entry>>
    decreases |snapshots|
  {
    if snapshots == [] then Ok([])
    else
      var n := |snapshots| - 1;
      var before :- Scored(env, t, policy, q, snapshots[..n]);
      var e := EntryFor(env, t, policy, q, snapshots[n]);
      if !BreakdownAccepted(e.breakdown) then Err(DomainError)
      else if Admitted(e, q, policy.minScore) then Ok(before + [e])
      else Ok(before)
  }

  /** `a` sorts no later than `b` by (score, recorded_at, id), greatest first. */
  predicate Outranks(a: Entry, b: Entry) {
    || a.score > b.score
    || (a.score == b.score
        && (|| a.snapshot.revision.recordedAt > b.snapshot.revision.recordedAt
            || (a.snapshot.revision.recordedAt == b.snapshot.revision.recordedAt
                && a.snapshot.revision.id >= b.snapshot.revision.id)))
  }

  function ItemOf(e: Entry, rank: int): RecalledItem {
    var record, revision := e.snapshot.record, e.snapshot.revision;
    RecalledItem(record.id, revision.id, record.key, revision.value, record.context, revision.validFrom,
                 revision.recordedAt, rank, e.score, e.breakdown, revision.evidenceIds)
  }

  function ItemsOf(es: seq<Entry>): (r: seq<RecalledItem>)
    ensures |r| == |es| && forall i | 0 <= i < |r| :: r[i] == ItemOf(es[i], i + 1)
  {
    seq(|es|, i requires 0 <= i < |es| => ItemOf(es[i], i + 1))
  }

  function Resolved(c: RecallMemory, hits: map<Id, real>, now: Time): Query {
    Query(c.(query := P.Strip(c.query)), if c.validAt.Some? then c.validAt.value else now,
          if c.knownAt.Some? then c.knownAt.value else now, hits)
  }

  /** The entries a recall chooses from. */
  function Entries(env: Env, t: Tables, policy: R.Strategy, q: Query): Result<seq<Entry>> {
    Scored(env, t, policy, q, MemoriesAsOf(env.fingerprint, t.memory, q.command.scope, q.validAt, q.knownAt))
  }

  /** `MemoryApplication.recall`, up to storing the trace. */
  function RecallTrace(env: Env, t: Tables, id: Id, c: RecallMemory, policy: R.Strategy, hits: map<Id, real>,
                       now: Time): Result<Trace> {
    if !(1 <= c.limit <= 100) || P.Strip(c.query) == "" then Err(DomainError)
    else
      var q := Resolved(c, hits, now);
      if q.knownAt > now then Err(DomainError)
      else
        var es :- Entries(env, t, policy, q);
        var trace := Trace(id, c.scope, q.command.query, c.context, policy.id, policy.version,
                           ItemsOf(Sorting.FirstSorted(es, c.limit, Outranks)), q.validAt, q.knownAt, now);
        if TraceAccepted(trace) then Ok(trace) else Err(DomainError)
  }
}
