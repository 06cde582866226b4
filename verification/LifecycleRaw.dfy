/**
 * Functors with a raw pointer to a connection, as Send and ShutDown queue them:
 * exactly when one runs on a connection that nothing holds any more, and exactly
 * when a channel that one puts back into the poller is nobody's.
 */
module LifecycleRaw {
  import opened LifecycleSpec
  import opened LifecycleLedger

  // ------------------------------------------------- what has run in a batch

  predicate RanTaskOk(k: Core, l: nat, t: Task) {
    match t
    case Establish(c) => c in k.home && k.home[c] == l && c in k.established
    case Remove(c) => l == BASE && c in k.established
    case Destroy(c) => c in k.home && k.home[c] == l && c in k.established
    case User(_, _) => true
  }

  predicate RanOk(s: State) {
    forall l | l in s.loops :: forall t | t in Ran(s.loops[l]) :: RanTaskOk(s.core, l, t)
  }

  /** Homes and establishments only grow. */
  predicate Grown(k: Core, k': Core) {
    && k.established <= k'.established && k.home.Keys <= k'.home.Keys
    && forall c | c in k.home :: k'.home[c] == k.home[c]
  }

  lemma RanGrows(k: Core, k': Core, l: nat, ts: seq<Task>)
    requires Grown(k, k') && forall u | u in ts :: RanTaskOk(k, l, u)
    ensures forall u | u in ts :: RanTaskOk(k', l, u)
  {
  }

  lemma RanKept(s: State, t: State)
    requires RanOk(s) && t.loops.Keys == s.loops.Keys && Grown(s.core, t.core)
    requires forall l | l in s.loops :: Ran(t.loops[l]) == [] || Ran(t.loops[l]) == Ran(s.loops[l])
    ensures RanOk(t)
  {
    forall l | l in t.loops
      ensures forall u | u in Ran(t.loops[l]) :: RanTaskOk(t.core, l, u)
    {
      RanGrows(s.core, t.core, l, Ran(s.loops[l]));
    }
  }

  lemma AcceptRanOk(s: State, io: nat)
    requires Inv(s) && RanOk(s) && Enabled(s, Accept(io))
    ensures RanOk(NewConnection(s, io))
  {
    RanKept(s, NewConnection(s, io));
  }

  lemma ContinueRanOk(s: State, l: nat)
    requires RanOk(s) && Enabled(s, Continue(l))
    ensures RanOk(Step(s, l))
  {
    RanKept(s, Step(s, l));
  }

  /** The functor that runs is in its place. */
  lemma HeadRanOk(s: State, l: nat, write: bool)
    requires Enabled(s, Run(l, write)) && TaskOk(s.core, l, s.loops[l].stage.batch[0])
    ensures var k := RunTask(s, l, write).core; Grown(s.core, k) && RanTaskOk(k, l, s.loops[l].stage.batch[0])
  {
  }

  lemma RunRanOk(s: State, l: nat, write: bool)
    requires Inv(s) && RanOk(s) && Enabled(s, Run(l, write))
    ensures RanOk(RunTask(s, l, write))
  {
    PopTasks(s.core, l, s.loops[l]);
    HeadRanOk(s, l, write);
    var t, head := RunTask(s, l, write), s.loops[l].stage.batch[0];
    forall m | m in t.loops
      ensures forall u | u in Ran(t.loops[m]) :: RanTaskOk(t.core, m, u)
    {
      RanGrows(s.core, t.core, m, Ran(s.loops[m]));
      if m == l {
        assert Ran(t.loops[l]) == Ran(s.loops[l]) + [head];
      }
    }
  }

  lemma LoopRanOk(s: State, l: nat, loop: Loop)
    requires RanOk(s) && l in s.loops && (Ran(loop) == [] || Ran(loop) == Ran(s.loops[l]))
    ensures RanOk(s.(loops := s.loops[l := loop]))
  {
    RanKept(s, s.(loops := s.loops[l := loop]));
  }

  lemma NextRanOk(s: State, a: Action)
    requires Inv(s) && RanOk(s)
    ensures RanOk(Next(s, a))
  {
    if Enabled(s, a) {
      match a {
        case Accept(io) => AcceptRanOk(s, io);
        case Continue(l) => ContinueRanOk(s, l);
        case Run(l, write) => RunRanOk(s, l, write);
        case Return(l, _) => LoopRanOk(s, l, Next(s, a).loops[l]);
        case Event(l, _, _) => LoopRanOk(s, l, Next(s, a).loops[l]);
        case Swap(l) => LoopRanOk(s, l, Next(s, a).loops[l]);
        case Finish(l) => LoopRanOk(s, l, Next(s, a).loops[l]);
        case Post(l, _) => LoopRanOk(s, l, Next(s, a).loops[l]);
      }
    }
  }

  // -------------------------------------------- on which side of the removal

  /** Every functor of the list with a raw pointer to c was queued early, or none was. */
  predicate Sides(ts: seq<Task>, c: nat, early: bool) {
    forall t | t in ts && t.User? && t.target == c :: t.early == early
  }

  /** The functors of the running batch and of the queue are early as far as the swap that took ConnectionDestroyed says. */
  predicate HomeSided(k: Core, loop: Loop, c: nat) {
    && Sides(Batch(loop), c, c !in k.destroyed || Destroy(c) in Ran(loop))
    && Sides(loop.pending, c, c !in k.destroyed && Destroy(c) !in Batch(loop))
    && (Establish(c) in Ran(loop) && c in k.destroyed ==> Destroy(c) in Ran(loop))
  }

  predicate Sided(s: State, c: nat) {
    if c in s.core.home then s.core.home[c] in s.loops && HomeSided(s.core, s.loops[s.core.home[c]], c)
    else forall l | l in s.loops :: Sides(Tasks(s.loops[l]), c, true)
  }

  /** Running the oldest functor; ConnectionDestroyed runs for the first time. */
  lemma RunHomeSided(s: State, l: nat, write: bool, c: nat)
    requires Inv(s) && Enabled(s, Run(l, write)) && c in s.core.home && s.core.home[c] == l
    requires HomeSided(s.core, s.loops[l], c)
    requires s.loops[l].stage.batch[0] == Destroy(c) ==> c !in s.core.destroyed
    ensures HomeSided(RunTask(s, l, write).core, RunTask(s, l, write).loops[l], c)
  {
    var loop, t := s.loops[l], RunTask(s, l, write);
    assert LoopOk(s.core, l, loop);
    PopTasks(s.core, l, loop);
    var head := loop.stage.batch[0];
    assert loop.stage.batch == [head] + Batch(t.loops[l]);
    assert Ran(t.loops[l]) == Ran(loop) + [head] && t.loops[l].pending == loop.pending;
    assert Destroy(c) in loop.stage.batch <==> head == Destroy(c) || Destroy(c) in Batch(t.loops[l]);
  }

  lemma RunSided(s: State, l: nat, write: bool, c: nat)
    requires Inv(s) && Sided(s, c) && Enabled(s, Run(l, write))
    requires s.loops[l].stage.batch[0] == Destroy(c) ==> c !in s.core.destroyed
    ensures Sided(RunTask(s, l, write), c)
  {
    if c !in s.core.home {
      RunUnknownSided(s, l, write, c);
    } else if s.core.home[c] == l {
      RunHomeSided(s, l, write, c);
    } else {
      RunElsewhereSided(s, l, write, c);
    }
  }

  lemma RunUnknownSided(s: State, l: nat, write: bool, c: nat)
    requires Inv(s) && Sided(s, c) && Enabled(s, Run(l, write)) && c !in s.core.home
    ensures Sided(RunTask(s, l, write), c)
  {
    PopTasks(s.core, l, s.loops[l]);
    assert Tasks(RunTask(s, l, write).loops[l]) == Tasks(Popped(s.loops[l]));
  }

  /** ConnectionDestroyed runs at home, so here it is another connection's. */
  lemma RunElsewhereSided(s: State, l: nat, write: bool, c: nat)
    requires Inv(s) && Sided(s, c) && Enabled(s, Run(l, write)) && c in s.core.home && s.core.home[c] != l
    ensures Sided(RunTask(s, l, write), c)
  {
    PopTasks(s.core, l, s.loops[l]);
    assert c in RunTask(s, l, write).core.destroyed <==> c in s.core.destroyed;
  }

  /** A queued functor joins on the side it says, and changes nobody else's. */
  lemma QueueSided(s: State, l: nat, t: Task, c: nat)
    requires Sided(s, c) && l in s.loops
    requires t.User? && t.target == c && c !in s.core.home ==> t.early
    requires t.User? && t.target == c && c in s.core.home && s.core.home[c] == l ==> t.early == Ahead(s, l, c)
    ensures Sided(s.(loops := Queue(s.loops, l, t)), c)
  {
    QueueTasks(s.loops[l], t);
  }

  /** A loop that keeps its functors, in the same batch. */
  lemma KeepsSided(s: State, k: Core, l: nat, loop: Loop, c: nat)
    requires Sided(s, c) && l in s.loops && k.home == s.core.home && k.destroyed == s.core.destroyed
    requires loop.pending == s.loops[l].pending && Batch(loop) == Batch(s.loops[l])
    requires Ran(loop) == Ran(s.loops[l]) || Ran(loop) == Batch(loop) == []
    ensures Sided(State(s.loops[l := loop], k), c)
  {
  }

  lemma AcceptSided(s: State, io: nat, c: nat)
    requires Inv(s) && Sided(s, c) && Enabled(s, Accept(io))
    ensures Sided(NewConnection(s, io), c)
  {
    var t := NewConnection(s, io);
    var u := State(s.loops, t.core);
    if c == s.core.next {
      assert LoopOk(s.core, io, s.loops[io]);
      Mentioned(s.core, io, s.loops[io], c);
      assert Destroy(c) !in Tasks(s.loops[io]);
    }
    assert Sided(u, c);
    if io != BASE {
      QueueSided(u, io, Establish(s.core.next), c);
    }
  }

  lemma ContinueSided(s: State, l: nat, c: nat)
    requires Inv(s) && Sided(s, c) && Enabled(s, Continue(l))
    ensures Sided(Step(s, l), c)
  {
    var d := s.loops[l].todo.c;
    var idle := s.loops[l].(todo := Nothing);
    var u := s.(loops := s.loops[l := idle]);
    match s.loops[l].todo {
      case Report(_) =>
        if l == BASE {
          KeepsSided(s, s.core, l, s.loops[l].(todo := Erase(d)), c);
        } else {
          KeepsSided(s, s.core, l, idle, c);
          QueueSided(u, BASE, Remove(d), c);
        }
      case Erase(_) => KeepsSided(s, Step(s, l).core, l, s.loops[l].(todo := Hand(d)), c);
      case Hand(_) =>
        KeepsSided(s, s.core, l, idle, c);
        QueueSided(u, s.core.home[d], Destroy(d), c);
    }
  }

  lemma SwapSided(s: State, l: nat, c: nat)
    requires Inv(s) && Sided(s, c) && Enabled(s, Swap(l))
    ensures Sided(Next(s, Swap(l)), c)
  {
    var t := Next(s, Swap(l));
    assert Batch(s.loops[l]) == [] && Batch(t.loops[l]) == s.loops[l].pending && Ran(t.loops[l]) == [];
    assert Tasks(t.loops[l]) == s.loops[l].pending + [] == [] + s.loops[l].pending == Tasks(s.loops[l]);
  }

  lemma PostSided(s: State, l: nat, target: nat, c: nat)
    requires Inv(s) && Sided(s, c) && l in s.loops
    ensures Sided(Next(s, Post(l, target)), c)
  {
    if c == target && c !in s.core.home {
      assert LoopOk(s.core, l, s.loops[l]);
      Mentioned(s.core, l, s.loops[l], c);
      assert forall t | t in Batch(s.loops[l]) :: t in Tasks(s.loops[l]);
    }
    QueueSided(s, l, User(target, Ahead(s, l, target)), c);
  }

  lemma NextSided(s: State, a: Action, c: nat)
    requires Inv(s) && Sided(s, c)
    requires c in s.core.destroyed ==> Removals(s, a, c) == 0
    ensures Sided(Next(s, a), c)
  {
    if Enabled(s, a) {
      match a {
        case Accept(io) => AcceptSided(s, io, c);
        case Continue(l) => ContinueSided(s, l, c);
        case Run(l, write) => RunSided(s, l, write, c);
        case Post(l, target) => PostSided(s, l, target, c);
        case Swap(l) => SwapSided(s, l, c);
        case Return(l, _) => KeepsSided(s, s.core, l, Next(s, a).loops[l], c);
        case Event(l, _, _) => KeepsSided(s, s.core, l, Next(s, a).loops[l], c);
        case Finish(l) => KeepsSided(s, s.core, l, Next(s, a).loops[l], c);
      }
    }
  }

  lemma {:induction false} ExecSided(s: State, acts: seq<Action>, c: nat)
    requires Inv(s) && RanOk(s) && Sided(s, c)
    requires One(c in s.core.destroyed) + Ledger(s, acts, c).removals <= 1
    ensures RanOk(Exec(s, acts)) && Sided(Exec(s, acts), c)
    decreases |acts|
  {
    if acts != [] {
      NextKeepsInv(s, acts[0]);
      NextRanOk(s, acts[0]);
      NextSided(s, acts[0], c);
      PollerStep(s, acts[0], c);
      ExecSided(Next(s, acts[0]), acts[1..], c);
    }
  }

  // ---------------------------------------------------------------- theorems

  lemma {:induction false} MarkedIff(ts: seq<Task>, c: nat)
    requires forall t | t in ts :: t != Establish(c)
    ensures Marked(ts, c) > 0 <==> Keeps(ts, c)
  {
    if ts != [] {
      assert forall t | t in ts[1..] :: t in ts;
      MarkedIff(ts[1..], c);
      assert ts == [ts[0]] + ts[1..];
    }
  }

  /**
   * What holds a connection, in any reachable state: it is not destroyed, or a
   * close of it is in flight, or a functor of a running vector has run with it.
   */
  lemma HeldIff(s: State, c: nat)
    requires Inv(s) && c in s.core.home
    ensures Held(s, c) <==>
      || c !in s.core.destroyed
      || (exists l :: l in s.loops && InFlight(s.loops[l], c) > 0)
      || (exists l :: l in s.loops && Keeps(Ran(s.loops[l]), c))
  {
    if c !in s.core.destroyed {
      HeldUntilDestroyed(s, c);
    } else {
      forall l | l in s.loops
        ensures InFlight(s.loops[l], c) > 0 || Keeps(Ran(s.loops[l]), c) <==> HeldBy(s.loops[l], c)
      {
        assert LoopOk(s.core, l, s.loops[l]);
        assert forall t | t in Tasks(s.loops[l]) :: TaskOk(s.core, l, t);
        MarkedIff(Tasks(s.loops[l]), c);
      }
    }
  }

  /** The vector that ran ConnectionDestroyed, or the base loop's that ran the removal before it, still exists. */
  predicate StillKept(s: State, c: nat)
    requires BASE in s.loops && c in s.core.home && s.core.home[c] in s.loops
  {
    Destroy(c) in Ran(s.loops[s.core.home[c]]) || Remove(c) in Ran(s.loops[BASE])
  }

  lemma {:induction false} TotalZeroAll(loops: map<nat, Loop>, n: nat, c: nat, l: nat)
    requires Total(loops, n, c) == 0 && l in loops && l < n
    ensures InFlight(loops[l], c) == 0
  {
    if l != n - 1 {
      TotalZeroAll(loops, n - 1, c, l);
    }
  }

  lemma KeptIff(s: State, c: nat)
    requires Inv(s) && RanOk(s) && Sided(s, c) && c in s.core.home && c in s.core.destroyed
    ensures StillKept(s, c) <==> exists l :: l in s.loops && Keeps(Ran(s.loops[l]), c)
  {
    forall l | l in s.loops && Keeps(Ran(s.loops[l]), c) ensures StillKept(s, c) {
      var t :| t in Ran(s.loops[l]) && !t.User? && t.c == c;
      assert RanTaskOk(s.core, l, t);
    }
    if StillKept(s, c) {
      assert Keeps(Ran(s.loops[s.core.home[c]]), c) || Keeps(Ran(s.loops[BASE]), c);
    }
  }

  /** With at most one reported close, a destroyed connection is held by running vectors only. */
  lemma OneCloseHeld(others: set<nat>, acts: seq<Action>, c: nat)
    requires Ledger(Init(others), acts, c).reports <= 1
    ensures var s := Exec(Init(others), acts);
      && Inv(s) && Sided(s, c)
      && (c in s.core.home && c !in s.core.destroyed ==> Held(s, c))
      && (c in s.core.home ==> (Held(s, c) <==> c !in s.core.destroyed || StillKept(s, c)))
  {
    var n := FromStart(others, acts, c);
    Reachable(others, []);
    ExecSided(Init(others), acts, c);
    var s := Exec(Init(others), acts);
    if c in s.core.home {
      HeldIff(s, c);
      if c in s.core.destroyed {
        forall l | l in s.loops ensures InFlight(s.loops[l], c) == 0 {
          TotalZeroAll(s.loops, n, c, l);
        }
        KeptIff(s, c);
      }
    }
  }

  /**
   * A functor that Send or ShutDown queued with a raw pointer is about to run on
   * the connection's loop. With at most one reported close, something holds the
   * connection if and only if the functor was queued before the swap that took
   * ConnectionDestroyed, or the base loop still has the vector with the functor
   * that erased the connection.
   */
  lemma RawFunctorHeldIff(others: set<nat>, acts: seq<Action>, l: nat, write: bool)
    ensures var s := Exec(Init(others), acts);
      && BASE in s.loops
      && (Enabled(s, Run(l, write)) && s.loops[l].stage.batch[0].User? ==>
          var t := s.loops[l].stage.batch[0];
          t.target in s.core.home && s.core.home[t.target] == l &&
          Ledger(Init(others), acts, t.target).reports <= 1 ==>
            (Held(s, t.target) <==> t.early || Remove(t.target) in Ran(s.loops[BASE])))
  {
    Reachable(others, acts);
    var s := Exec(Init(others), acts);
    if Enabled(s, Run(l, write)) && s.loops[l].stage.batch[0].User? {
      var t := s.loops[l].stage.batch[0];
      assert Batch(s.loops[l])[0] == t && t in Batch(s.loops[l]);
      if t.target in s.core.home && s.core.home[t.target] == l && Ledger(Init(others), acts, t.target).reports <= 1 {
        OneCloseHeld(others, acts, t.target);
      }
    }
  }

  /**
   * However many closes are reported: a channel in a poller that no functor put
   * back belongs to a held connection, and so does one that a loop dispatches.
   */
  lemma RegisteredHeldUnlessPutBack(others: set<nat>, acts: seq<Action>, c: nat)
    ensures var s := Exec(Init(others), acts);
      Ledger(Init(others), acts, c).revivals == 0 ==>
      && (c in s.core.registered ==> c in s.core.home && c !in s.core.destroyed && Held(s, c))
      && (forall l | l in s.loops && s.loops[l].stage.Dispatching? && c in s.loops[l].stage.active :: Held(s, c))
  {
    var n := FromStart(others, acts, c);
    LifetimeAcrossLoops(others, acts);
  }

  /**
   * A channel in a poller belongs to a held connection exactly when no functor
   * put it back after ConnectionDestroyed, for a connection with at most one
   * reported close and no running vector that still has its functors.
   */
  lemma RegisteredHeldIff(others: set<nat>, acts: seq<Action>, c: nat)
    ensures var s := Exec(Init(others), acts);
      Ledger(Init(others), acts, c).reports <= 1 && c in s.core.registered ==>
        && c in s.core.home && BASE in s.loops && s.core.home[c] in s.loops
        && (Held(s, c) <==> Ledger(Init(others), acts, c).revivals == 0 || StillKept(s, c))
  {
    var n := FromStart(others, acts, c);
    if Ledger(Init(others), acts, c).reports <= 1 {
      OneCloseHeld(others, acts, c);
    }
  }

  /** With all loops quiet: exactly the channels of the map, and those put back. */
  lemma QuietRegistered(others: set<nat>, acts: seq<Action>, c: nat)
    ensures var s := Exec(Init(others), acts);
      Ledger(Init(others), acts, c).reports <= 1 && (forall l | l in s.loops :: Quiet(s.loops[l])) && c in s.core.home ==>
        (c in s.core.registered <==> c in s.core.connections || Ledger(Init(others), acts, c).revivals > 0)
  {
    var n := FromStart(others, acts, c);
    NothingLeaks(others, acts);
  }

  // ---------------------------------------------------------------- examples

  lemma {:induction false} ExecConcat(s: State, a: seq<Action>, b: seq<Action>)
    ensures Exec(s, a + b) == Exec(Exec(s, a), b)
    decreases |a|
  {
    if a == [] {
      assert a + b == b;
    } else {
      assert (a + b)[1..] == a[1..] + b;
      ExecConcat(Next(s, a[0]), a[1..], b);
    }
  }

  lemma ExecCons(s: State, a: Action, more: seq<Action>)
    ensures Exec(s, [a] + more) == Exec(Next(s, a), more)
  {
    assert ([a] + more)[1..] == more;
  }

  lemma ExecThree(s: State, a: Action, b: Action, c: Action)
    ensures Exec(s, [a, b, c]) == Next(Next(Next(s, a), b), c)
  {
    ExecCons(s, a, [b, c]);
    ExecCons(Next(s, a), b, [c]);
    ExecCons(Next(Next(s, a), b), c, []);
    assert [a] + [b, c] == [a, b, c] && [b] + [c] == [b, c] && [c] + [] == [c];
  }

  lemma ExecFour(s: State, a: Action, b: Action, c: Action, d: Action)
    ensures Exec(s, [a, b, c, d]) == Next(Next(Next(Next(s, a), b), c), d)
  {
    ExecCons(s, a, [b, c, d]);
    ExecThree(Next(s, a), b, c, d);
    assert [a] + [b, c, d] == [a, b, c, d];
  }

  /** One loop, and one connection in the stage given. */
  function Alone(loop: Loop, connected: bool, registered: bool, destroyed: bool): State {
    State(map[BASE := loop],
          Core(1, map[0 := BASE], if connected then {0} else {}, {0}, if registered then {0} else {},
               if destroyed then {0} else {}))
  }

  /** A connection is accepted and established. */
  lemma OpenedRun() returns (s: State)
    ensures s == Exec(Init({}), [Return(BASE, []), Accept(BASE), Swap(BASE), Finish(BASE)])
    ensures s == Alone(Loop(Polling, [], Nothing), true, true, false)
  {
    ExecFour(Init({}), Return(BASE, []), Accept(BASE), Swap(BASE), Finish(BASE));
    assert Init({}).loops == map[BASE := Loop(Polling, [], Nothing)];
    var a := Next(Init({}), Return(BASE, []));
    assert a.loops == map[BASE := Loop(Dispatching([]), [], Nothing)];
    var b := Next(a, Accept(BASE));
    assert b == Alone(Loop(Dispatching([]), [], Nothing), true, true, false);
    var c := Next(b, Swap(BASE));
    assert c == Alone(Loop(Running([], []), [], Nothing), true, true, false);
    s := Next(c, Finish(BASE));
    assert s.loops == map[BASE := Loop(Polling, [], Nothing)];
  }

  /** It closes: the map entry goes and ConnectionDestroyed is queued. */
  lemma ClosingRun(s: State) returns (t: State)
    requires s == Alone(Loop(Polling, [], Nothing), true, true, false)
    ensures t == Exec(s, [Return(BASE, [0]), Event(BASE, true, true), Continue(BASE), Continue(BASE)])
    ensures t == Alone(Loop(Dispatching([]), [], Hand(0)), false, true, false)
  {
    ExecFour(s, Return(BASE, [0]), Event(BASE, true, true), Continue(BASE), Continue(BASE));
    var a := Next(s, Return(BASE, [0]));
    assert a == Alone(Loop(Dispatching([0]), [], Nothing), true, true, false);
    var b := Next(a, Event(BASE, true, true));
    assert [0][1..] == [];
    assert b == Alone(Loop(Dispatching([]), [], Report(0)), true, true, false);
    var c := Next(b, Continue(BASE));
    assert c == Alone(Loop(Dispatching([]), [], Erase(0)), true, true, false);
    t := Next(c, Continue(BASE));
  }

  /** The swap takes ConnectionDestroyed. */
  lemma TakenRun(s: State) returns (t: State)
    requires s == Alone(Loop(Dispatching([]), [], Hand(0)), false, true, false)
    ensures t == Next(Next(s, Continue(BASE)), Swap(BASE))
    ensures t == Alone(Loop(Running([Destroy(0)], []), [], Nothing), false, true, false)
  {
    var a := Next(s, Continue(BASE));
    assert [] + [Destroy(0)] == [Destroy(0)];
    assert a.loops == map[BASE := Loop(Dispatching([]), [Destroy(0)], Nothing)];
    t := Next(a, Swap(BASE));
    assert t.loops == map[BASE := Loop(Running([Destroy(0)], []), [], Nothing)];
  }

  /** Another thread queues its functor, and ConnectionDestroyed runs. */
  lemma DestroyedRun(s: State) returns (t: State)
    requires s == Alone(Loop(Running([Destroy(0)], []), [], Nothing), false, true, false)
    ensures t == Next(Next(s, Post(BASE, 0)), Run(BASE, false))
    ensures t == Alone(Loop(Running([], [Destroy(0)]), [User(0, false)], Nothing), false, false, true)
  {
    assert [] + [Destroy(0)] == [Destroy(0)] && [Destroy(0)][1..] == [] && [] + [User(0, false)] == [User(0, false)];
    assert !Ahead(s, BASE, 0);
    var c := Next(s, Post(BASE, 0));
    assert c.loops == map[BASE := Loop(Running([Destroy(0)], []), [User(0, false)], Nothing)];
    t := Next(c, Run(BASE, false));
    assert t.loops == map[BASE := Loop(Running([], [Destroy(0)]), [User(0, false)], Nothing)];
  }

  /** The next swap takes the functor: it is about to run. */
  lemma WaitingRun(s: State) returns (t: State)
    requires s == Alone(Loop(Running([], [Destroy(0)]), [User(0, false)], Nothing), false, false, true)
    ensures t == Exec(s, [Finish(BASE), Return(BASE, []), Swap(BASE)])
    ensures t == Alone(Loop(Running([User(0, false)], []), [], Nothing), false, false, true)
  {
    ExecThree(s, Finish(BASE), Return(BASE, []), Swap(BASE));
    var a := Next(s, Finish(BASE));
    assert a == Alone(Loop(Polling, [User(0, false)], Nothing), false, false, true);
    var b := Next(a, Return(BASE, []));
    assert b == Alone(Loop(Dispatching([]), [User(0, false)], Nothing), false, false, true);
    t := Next(b, Swap(BASE));
    assert t.loops == map[BASE := Loop(Running([User(0, false)], []), [], Nothing)];
  }

  function LateFunctor(): seq<Action> {
    [Return(BASE, []), Accept(BASE), Swap(BASE), Finish(BASE)]
    + [Return(BASE, [0]), Event(BASE, true, true), Continue(BASE), Continue(BASE)]
    + [Continue(BASE), Swap(BASE), Post(BASE, 0), Run(BASE, false)]
    + [Finish(BASE), Return(BASE, []), Swap(BASE)]
  }

  /** ConnectionDestroyed has returned, its vector is gone, and the late functor is next. */
  function LateFunctorNext(): State {
    Alone(Loop(Running([User(0, false)], []), [], Nothing), false, false, true)
  }

  /** The channel is in the poller again. */
  function LateFunctorRan(): State {
    Alone(Loop(Running([], [User(0, false)]), [], Nothing), false, true, true)
  }

  lemma LateFunctorReached()
    ensures Exec(Init({}), LateFunctor()) == LateFunctorNext()
  {
    var open := [Return(BASE, []), Accept(BASE), Swap(BASE), Finish(BASE)];
    var close := [Return(BASE, [0]), Event(BASE, true, true), Continue(BASE), Continue(BASE)];
    var destroy := [Continue(BASE), Swap(BASE), Post(BASE, 0), Run(BASE, false)];
    var wait := [Finish(BASE), Return(BASE, []), Swap(BASE)];
    var a := OpenedRun();
    var b := ClosingRun(a);
    var taken := TakenRun(b);
    var c := DestroyedRun(taken);
    ExecFour(b, Continue(BASE), Swap(BASE), Post(BASE, 0), Run(BASE, false));
    var d := WaitingRun(c);
    ExecConcat(Init({}), open, close);
    ExecConcat(Init({}), open + close, destroy);
    ExecConcat(Init({}), open + close + destroy, wait);
  }

  /**
   * A functor with a raw pointer, queued while ConnectionDestroyed was about to
   * run, is next on a connection that nothing holds; when it enables writing,
   * the poller has a channel of that connection.
   */
  lemma LateFunctorRuns()
    ensures Exec(Init({}), LateFunctor()) == LateFunctorNext() && !Held(LateFunctorNext(), 0)
    ensures Next(LateFunctorNext(), Run(BASE, true)) == LateFunctorRan() && !Held(LateFunctorRan(), 0)
  {
    LateFunctorReached();
    LateFunctorStep();
    AloneUnheld(Loop(Running([User(0, false)], []), [], Nothing), false);
    AloneUnheld(Loop(Running([], [User(0, false)]), [], Nothing), true);
  }

  lemma LateFunctorStep()
    ensures Next(LateFunctorNext(), Run(BASE, true)) == LateFunctorRan()
  {
    var s := LateFunctorNext();
    assert [User(0, false)][1..] == [] && [] + [User(0, false)] == [User(0, false)];
    assert Popped(s.loops[BASE]) == Loop(Running([], [User(0, false)]), [], Nothing);
    assert RunTask(s, BASE, true) == LateFunctorRan();
  }

  lemma AloneUnheld(loop: Loop, registered: bool)
    requires loop.todo.Nothing? && (forall t | t in Tasks(loop) :: t.User?) && (forall t | t in Ran(loop) :: t.User?)
    ensures !Held(Alone(loop, false, registered, true), 0)
  {
    assert !HeldBy(loop, 0);
  }
}
