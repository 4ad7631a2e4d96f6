/** What one call of a run does: the use case it names, with readings of a clock that never goes back, kept when it is
    accepted and undone when it raises. */
module CallMeaning {
  import opened Common
  import opened MemoryTables
  import opened Recall
  import opened Service

  /** The tables after a call that answers with tables and a result, or raises. */
  ghost predicate Leaves<X>(before: Tables, r: Result<(Tables, X)>, after: Tables) {
    after == if r.Ok? then r.value.0 else before
  }

  /** The clock reading a call takes: its own time, unless the clock is already past it. */
  ghost function Reading(clock: Time, time: Time): Time {
    if time > clock then time else clock
  }

  /** Each call does what its use case does, under fresh identifiers, and the clock ends at its last reading. */
  lemma CallsAreUseCases(env: Env, app: App, call: Call)
    ensures var t, n, after := app.tables, app.next, Do(env, app, call);
            && after.next > n
            && match call
               case RememberCall(c, now, later) =>
                 var first := Reading(app.clock, now);
                 Leaves(t, Remember(t, c, n, first, Reading(first, later)), after.tables)
                 && after.clock == Reading(first, later)
               case CorrectCall(c, now, later) =>
                 var first := Reading(app.clock, now);
                 Leaves(t, Correct(t, c, n, first, Reading(first, later)), after.tables)
                 && after.clock == Reading(first, later)
               case RecallCall(c, policy, hits, now) =>
                 var r := RecallTrace(env, t, n, c, policy, hits, Reading(app.clock, now));
                 && after.clock == Reading(app.clock, now)
                 && after.tables == (if r.Ok? then t.(recalls := Recalls(t.recalls.traces[n := r.value])) else t)
               case UsageCall(c, now) =>
                 Leaves(t, RecordUsage(t, c, n, Reading(app.clock, now)), after.tables)
                 && after.clock == Reading(app.clock, now)
               case OutcomeCall(c, now) =>
                 Leaves(t, Outcome(t, c, n, Reading(app.clock, now)), after.tables)
                 && after.clock == Reading(app.clock, now)
               case EraseCall(scope) => after.tables == EraseScope(t, scope) && after.clock == app.clock
  {
    hide Remember, Correct, RecallTrace, RecordUsage, Outcome, EraseScope;
  }
}
