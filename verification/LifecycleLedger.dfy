/**
 * What a run does to one connection: how many closes it reported, how many times
 * its channel was removed, and how many times it was put back after that.
 */
module LifecycleLedger {
  import opened LifecycleSpec

  // -------------------------------------------------------- closes in flight

  /** Functors on their way from a reported close to the removal. */
  function Marked(ts: seq<Task>, c: nat): nat {
    if ts == [] then 0
    else (if ts[0] == Remove(c) || ts[0] == Destroy(c) then 1 else 0) + Marked(ts[1..], c)
  }

  function InFlight(loop: Loop, c: nat): nat {
    Marked(Tasks(loop), c) + if !loop.todo.Nothing? && loop.todo.c == c then 1 else 0
  }

  /** Over all loops with numbers below n. */
  function Total(loops: map<nat, Loop>, n: nat, c: nat): nat {
    if n == 0 then 0
    else Total(loops, n - 1, c) + if n - 1 in loops then InFlight(loops[n - 1], c) else 0
  }

  lemma {:induction false} MarkedConcat(a: seq<Task>, b: seq<Task>, c: nat)
    ensures Marked(a + b, c) == Marked(a, c) + Marked(b, c)
  {
    if a == [] {
      assert a + b == b;
    } else {
      assert (a + b)[1..] == a[1..] + b;
      MarkedConcat(a[1..], b, c);
    }
  }

  lemma {:induction false} TotalUpdate(loops: map<nat, Loop>, l: nat, loop: Loop, n: nat, c: nat)
    requires l in loops
    ensures Total(loops[l := loop], n, c) + (if l < n then InFlight(loops[l], c) else 0) ==
            Total(loops, n, c) + (if l < n then InFlight(loop, c) else 0)
  {
    if n > 0 {
      TotalUpdate(loops, l, loop, n - 1, c);
    }
  }

  lemma QueueTotal(loops: map<nat, Loop>, l: nat, t: Task, n: nat, c: nat)
    requires l in loops && l < n
    ensures Total(Queue(loops, l, t), n, c) == Total(loops, n, c) + Marked([t], c)
  {
    var loop := loops[l].(pending := loops[l].pending + [t]);
    TotalUpdate(loops, l, loop, n, c);
    QueueTasks(loops[l], t);
    MarkedConcat(Tasks(loops[l]), [t], c);
  }

  /** A connection's channel reports a close in this step. */
  function Reports(s: State, a: Action, c: nat): nat {
    if a.Event? && Enabled(s, a) && a.close && s.loops[a.l].stage.active[0] == c then 1 else 0
  }

  /** ConnectionDestroyed removes the channel in this step. */
  function Removals(s: State, a: Action, c: nat): nat {
    if a.Run? && Enabled(s, a) && s.loops[a.l].stage.batch[0] == Destroy(c) then 1 else 0
  }

  /** The same, of a channel that is not in the poller. */
  function StaleRemovals(s: State, a: Action, c: nat): nat {
    if c in s.core.registered then 0 else Removals(s, a, c)
  }

  lemma LoopStep(loops: map<nat, Loop>, l: nat, loop: Loop, n: nat, c: nat)
    requires l in loops && l < n && Tasks(loop) == Tasks(loops[l])
    ensures Total(loops[l := loop], n, c) + (if !loops[l].todo.Nothing? && loops[l].todo.c == c then 1 else 0) ==
            Total(loops, n, c) + if !loop.todo.Nothing? && loop.todo.c == c then 1 else 0
  {
    TotalUpdate(loops, l, loop, n, c);
  }

  /** Bounds every loop's number. */
  predicate Below(s: State, n: nat) {
    forall l | l in s.loops :: l < n
  }

  lemma ContinueLedger(s: State, l: nat, n: nat, c: nat)
    requires Inv(s) && Below(s, n) && Enabled(s, Continue(l))
    ensures Total(Step(s, l).loops, n, c) == Total(s.loops, n, c)
  {
    var d := s.loops[l].todo.c;
    var idle := s.loops[l].(todo := Nothing);
    match s.loops[l].todo {
      case Report(_) =>
        if l == BASE {
          LoopStep(s.loops, l, s.loops[l].(todo := Erase(d)), n, c);
        } else {
          LoopStep(s.loops, l, idle, n, c);
          QueueTotal(s.loops[l := idle], BASE, Remove(d), n, c);
        }
      case Erase(_) => LoopStep(s.loops, l, s.loops[l].(todo := Hand(d)), n, c);
      case Hand(_) =>
        LoopStep(s.loops, l, idle, n, c);
        QueueTotal(s.loops[l := idle], s.core.home[d], Destroy(d), n, c);
    }
  }

  lemma RunLedger(s: State, l: nat, write: bool, n: nat, c: nat)
    requires Inv(s) && Below(s, n) && Enabled(s, Run(l, write))
    ensures Total(RunTask(s, l, write).loops, n, c) + Removals(s, Run(l, write), c) == Total(s.loops, n, c)
  {
    var loop := RunTask(s, l, write).loops[l];
    assert LoopOk(s.core, l, s.loops[l]);
    PopTasks(s.core, l, s.loops[l]);
    assert Tasks(loop) == Tasks(Popped(s.loops[l]));
    MarkedConcat([s.loops[l].stage.batch[0]], Tasks(loop), c);
    TotalUpdate(s.loops, l, loop, n, c);
  }

  /** Conservation: a reported close is in flight until a removal uses it up. */
  lemma StepLedger(s: State, a: Action, n: nat, c: nat)
    requires Inv(s) && Below(s, n)
    ensures Total(Next(s, a).loops, n, c) + Removals(s, a, c) == Total(s.loops, n, c) + Reports(s, a, c)
  {
    if Enabled(s, a) {
      match a {
        case Accept(io) =>
          if io != BASE {
            QueueTotal(s.loops, io, Establish(s.core.next), n, c);
          }
        case Continue(l) => ContinueLedger(s, l, n, c);
        case Run(l, write) => RunLedger(s, l, write, n, c);
        case Post(l, target) => QueueTotal(s.loops, l, User(target, Ahead(s, l, target)), n, c);
        case Return(l, _) => LoopStep(s.loops, l, Next(s, a).loops[l], n, c);
        case Event(l, _, _) => LoopStep(s.loops, l, Next(s, a).loops[l], n, c);
        case Finish(l) => LoopStep(s.loops, l, Next(s, a).loops[l], n, c);
        case Swap(l) =>
          assert s.loops[l].pending + [] == s.loops[l].pending == [] + s.loops[l].pending;
          LoopStep(s.loops, l, Next(s, a).loops[l], n, c);
      }
    }
  }

  /** A functor enables writing on a channel that is not in the poller. */
  function Revivals(s: State, a: Action, c: nat): nat {
    if a.Run? && Enabled(s, a) && s.loops[a.l].stage.batch[0].User? && s.loops[a.l].stage.batch[0].target == c
       && c !in s.core.registered && c in Touched(s.core, a.l, c, a.write).registered then 1 else 0
  }

  /** Sums over a run. */
  datatype Sums = Sums(reports: nat, removals: nat, stale: nat, revivals: nat)

  function Ledger(s: State, acts: seq<Action>, c: nat): Sums
    decreases |acts|
  {
    if acts == [] then Sums(0, 0, 0, 0)
    else
      var rest := Ledger(Next(s, acts[0]), acts[1..], c);
      Sums(Reports(s, acts[0], c) + rest.reports, Removals(s, acts[0], c) + rest.removals,
           StaleRemovals(s, acts[0], c) + rest.stale, Revivals(s, acts[0], c) + rest.revivals)
  }

  lemma NextBelow(s: State, a: Action, n: nat)
    requires Below(s, n)
    ensures Below(Next(s, a), n)
  {
    ExecKeepsLoops(s, [a]);
    assert [a][1..] == [];
    assert Exec(s, [a]) == Exec(Next(s, a), []) == Next(s, a);
    assert Next(s, a).loops.Keys == s.loops.Keys;
  }

  lemma {:induction false} RunsLedger(s: State, acts: seq<Action>, n: nat, c: nat)
    requires Inv(s) && Below(s, n)
    ensures Total(Exec(s, acts).loops, n, c) + Ledger(s, acts, c).removals ==
            Total(s.loops, n, c) + Ledger(s, acts, c).reports
    decreases |acts|
  {
    if acts != [] {
      StepLedger(s, acts[0], n, c);
      NextKeepsInv(s, acts[0]);
      NextBelow(s, acts[0], n);
      RunsLedger(Next(s, acts[0]), acts[1..], n, c);
    }
  }

  function One(b: bool): nat {
    if b then 1 else 0
  }

  /**
   * The poller's side of the account: a channel enters when it is established or
   * revived, and leaves by a removal that finds it.
   */
  lemma PollerStep(s: State, a: Action, c: nat)
    requires Inv(s)
    ensures var t := Next(s, a);
      && One(c in t.core.registered) + Removals(s, a, c) + One(c in s.core.established) ==
         One(c in s.core.registered) + One(c in t.core.established) + Revivals(s, a, c) + StaleRemovals(s, a, c)
      && (c in t.core.destroyed <==> c in s.core.destroyed || Removals(s, a, c) > 0)
      && (c !in s.core.destroyed ==> StaleRemovals(s, a, c) == 0 && Revivals(s, a, c) == 0)
      && (c in s.core.established ==> c in t.core.established)
  {
    if a.Run? && Enabled(s, a) {
      assert LoopOk(s.core, a.l, s.loops[a.l]);
      PopTasks(s.core, a.l, s.loops[a.l]);
    }
  }

  lemma {:induction false} PollerRun(s: State, acts: seq<Action>, c: nat)
    requires Inv(s)
    ensures var t, r := Exec(s, acts), Ledger(s, acts, c);
      && r.stale <= r.removals
      && One(c in t.core.registered) + r.removals + One(c in s.core.established) ==
         One(c in s.core.registered) + One(c in t.core.established) + r.revivals + r.stale
      && (c in t.core.destroyed <==> c in s.core.destroyed || r.removals > 0)
      && (c !in s.core.destroyed && r.removals <= 1 ==> r.stale == 0)
      && (c !in s.core.destroyed && r.removals == 0 ==> r.revivals == 0)
      && (c !in s.core.destroyed && r.removals > 0 ==> r.stale < r.removals)
    decreases |acts|
  {
    if acts != [] {
      PollerStep(s, acts[0], c);
      NextKeepsInv(s, acts[0]);
      PollerRun(Next(s, acts[0]), acts[1..], c);
    }
  }

  lemma {:induction false} TotalZero(loops: map<nat, Loop>, n: nat, c: nat)
    requires forall l | l in loops :: InFlight(loops[l], c) == 0
    ensures Total(loops, n, c) == 0
  {
    if n > 0 {
      TotalZero(loops, n - 1, c);
    }
  }

  lemma {:induction false} Bounded(others: set<nat>) returns (n: nat)
    ensures forall l | l in others :: l < n
  {
    n := 0;
    if others != {} {
      var l :| l in others;
      var m := Bounded(others - {l});
      n := if m <= l then l + 1 else m;
      assert forall k | k in others :: k == l || k in others - {l};
    }
  }

  lemma FromStart(others: set<nat>, acts: seq<Action>, c: nat) returns (n: nat)
    ensures var s, r := Exec(Init(others), acts), Ledger(Init(others), acts, c);
      && Inv(s) && (forall l | l in s.loops :: l < n) && Total(s.loops, n, c) + r.removals == r.reports
      && r.stale <= r.removals
      && One(c in s.core.registered) + r.removals == One(c in s.core.established) + r.revivals + r.stale
      && (c in s.core.destroyed <==> r.removals > 0)
      && (r.removals <= 1 ==> r.stale == 0)
      && (r.removals == 0 ==> r.revivals == 0)
      && (r.removals > 0 ==> r.stale < r.removals)
  {
    Reachable(others, []);
    Reachable(others, acts);
    n := Bounded(others + {BASE});
    RunsLedger(Init(others), acts, n, c);
    PollerRun(Init(others), acts, c);
    TotalZero(Init(others).loops, n, c);
  }

  /**
   * Over every run, a channel that reported at most one close is never removed
   * when it is not in the poller. Once nothing is in flight, exactly one removal
   * per reported close has run, so all but the first found the channel removed,
   * except as often as it was put back meanwhile.
   */
  lemma RemovedOncePerClose(others: set<nat>, acts: seq<Action>, c: nat)
    ensures var s, r := Exec(Init(others), acts), Ledger(Init(others), acts, c);
      && r.removals <= r.reports
      && (r.reports <= 1 ==> r.stale == 0)
      && ((forall l | l in s.loops :: InFlight(s.loops[l], c) == 0) ==>
          && r.removals == r.reports
          && (r.reports > 0 ==> r.stale + r.revivals + 1 == r.reports + One(c in s.core.registered))
          && (r.revivals == 0 ==> (r.stale == 0 <==> r.reports <= 1)))
  {
    var n := FromStart(others, acts, c);
    var s := Exec(Init(others), acts);
    if forall l | l in s.loops :: InFlight(s.loops[l], c) == 0 {
      TotalZero(s.loops, n, c);
    }
  }
}
