/** Nested transactions: a stack of snapshots, one per open `with transaction()` block, implements "a block that raises
    leaves the state as it found it" at every depth. */
module Transactions {
  /** A use case as the store sees it: writes, raises, blocks, and handlers that catch what a part raises. */
  datatype Prog<!S> =
    | Write(update: S -> S)
    | Raise
    | Then(first: Prog<S>, second: Prog<S>)
    | Block(body: Prog<S>)
    | Catch(attempt: Prog<S>, handler: Prog<S>)

  datatype Exit<S> = Exit(state: S, raised: bool)

  /** What the program means, block by block. */
  function Meaning<S>(p: Prog<S>, s: S): Exit<S> {
    match p
    case Write(update) => Exit(update(s), false)
    case Raise => Exit(s, true)
    case Then(first, second) =>
      var e := Meaning(first, s);
      if e.raised then e else Meaning(second, e.state)
    case Block(body) =>
      var e := Meaning(body, s);
      if e.raised then Exit(s, true) else e
    case Catch(attempt, handler) =>
      var e := Meaning(attempt, s);
      if e.raised then Meaning(handler, e.state) else e
  }

  datatype Machine<S> = Machine(state: S, snapshots: seq<S>, raised: bool)

  /** `__enter__` and `__exit__`. */
  function Enter<S>(m: Machine<S>): Machine<S> {
    m.(snapshots := m.snapshots + [m.state])
  }

  function Leave<S>(m: Machine<S>): Machine<S>
    requires m.snapshots != []
  {
    var last := |m.snapshots| - 1;
    Machine(if m.raised then m.snapshots[last] else m.state, m.snapshots[..last], m.raised)
  }

  /** How the store runs it: only blocks touch the snapshots. */
  function Execute<S>(p: Prog<S>, m: Machine<S>): (r: Machine<S>)
    ensures |r.snapshots| == |m.snapshots|
  {
    match p
    case Write(update) => m.(state := update(m.state), raised := false)
    case Raise => m.(raised := true)
    case Then(first, second) =>
      var n := Execute(first, m);
      if n.raised then n else Execute(second, n)
    case Block(body) => Leave(Execute(body, Enter(m)))
    case Catch(attempt, handler) =>
      var n := Execute(attempt, m);
      if n.raised then Execute(handler, n.(raised := false)) else n
  }

  /** The snapshot stack implements the meaning, whatever is already open around the program. */
  lemma {:induction false} StackImplementsBlocks<S>(p: Prog<S>, m: Machine<S>)
    ensures var e := Meaning(p, m.state);
            Execute(p, m) == Machine(e.state, m.snapshots, e.raised)
  {
    match p
    case Write(update) =>
    case Raise =>
    case Then(first, second) =>
      StackImplementsBlocks(first, m);
      StackImplementsBlocks(second, Execute(first, m));
    case Block(body) =>
      StackImplementsBlocks(body, Enter(m));
      assert (m.snapshots + [m.state])[..|m.snapshots|] == m.snapshots;
    case Catch(attempt, handler) =>
      StackImplementsBlocks(attempt, m);
      StackImplementsBlocks(handler, Execute(attempt, m).(raised := false));
  }

  lemma RaisedBlockRestores<S>(p: Prog<S>, s: S)
    requires p.Block? && Meaning(p, s).raised
    ensures Meaning(p, s).state == s
  {
  }

  /** A block that raises leaves the state and the outer snapshots as it found them, however deeply it nests. */
  lemma FailedBlockIsUndone<S>(p: Prog<S>, m: Machine<S>)
    requires p.Block? && Execute(p, m).raised
    ensures Execute(p, m) == m.(raised := true)
  {
    StackImplementsBlocks(p, m);
    RaisedBlockRestores(p, m.state);
  }
}
