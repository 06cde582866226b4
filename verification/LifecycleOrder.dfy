/** The order of things on each loop: functors first in, first out, channels as the poller returned them, connections where they were accepted. */
module LifecycleOrder {
  import opened LifecycleSpec

  // --------------------------------------------------------------- functors

  /** The functor that this step runs on the loop, if any. */
  function Taken(s: State, a: Action, l: nat): seq<Task> {
    if a.Run? && a.l == l && Enabled(s, a) then [s.loops[l].stage.batch[0]] else []
  }

  function TakenIn(s: State, acts: seq<Action>, l: nat): seq<Task>
    decreases |acts|
  {
    if acts == [] then [] else Taken(s, acts[0], l) + TakenIn(Next(s, acts[0]), acts[1..], l)
  }

  lemma QueueKeepsOrder(loops: map<nat, Loop>, m: nat, t: Task, l: nat)
    requires l in loops && m in loops
    ensures Tasks(loops[l]) <= Tasks(Queue(loops, m, t)[l])
  {
    QueueTasks(loops[m], t);
  }

  /** One step runs the oldest functor of a loop or none, drops none and puts new ones last. */
  lemma StepKeepsOrder(s: State, a: Action, l: nat)
    requires l in s.loops
    ensures var t := Next(s, a);
      l in t.loops && Tasks(s.loops[l]) <= Taken(s, a, l) + Tasks(t.loops[l])
  {
    if Enabled(s, a) {
      match a {
        case Accept(io) =>
          if io != BASE {
            QueueKeepsOrder(s.loops, io, Establish(s.core.next), l);
          }
        case Continue(m) => ContinueKeepsOrder(s, m, l);
        case Run(m, write) => RunKeepsOrder(s, m, write, l);
        case Post(m, target) => QueueKeepsOrder(s.loops, m, User(target, Ahead(s, m, target)), l);
        case Swap(m) =>
          assert [] + s.loops[m].pending == s.loops[m].pending + [];
        case _ =>
      }
    }
  }

  lemma ContinueKeepsOrder(s: State, m: nat, l: nat)
    requires l in s.loops && Enabled(s, Continue(m))
    ensures l in Step(s, m).loops && Tasks(s.loops[l]) <= Tasks(Step(s, m).loops[l])
  {
    var idle := s.loops[m := s.loops[m].(todo := Nothing)];
    var d := s.loops[m].todo.c;
    assert Tasks(idle[l]) == Tasks(s.loops[l]);
    QueueKeepsOrder(idle, BASE, Remove(d), l);
    QueueKeepsOrder(idle, s.core.home[d], Destroy(d), l);
  }

  lemma RunKeepsOrder(s: State, m: nat, write: bool, l: nat)
    requires l in s.loops && Enabled(s, Run(m, write))
    ensures l in RunTask(s, m, write).loops
    ensures Tasks(s.loops[l]) == Taken(s, Run(m, write), l) + Tasks(RunTask(s, m, write).loops[l])
  {
    if m == l {
      var loop := s.loops[l];
      assert loop.stage.batch == [loop.stage.batch[0]] + loop.stage.batch[1..];
    }
  }

  /**
   * First in, first out, over every interleaving: what a loop has queued at any
   * moment is run next and in that order, before anything queued later, and
   * nothing is dropped.
   */
  lemma {:induction false} FirstInFirstOut(s: State, more: seq<Action>, l: nat)
    requires l in s.loops
    ensures var t := Exec(s, more);
      l in t.loops && Tasks(s.loops[l]) <= TakenIn(s, more, l) + Tasks(t.loops[l])
    decreases |more|
  {
    if more != [] {
      var u := Next(s, more[0]);
      StepKeepsOrder(s, more[0], l);
      FirstInFirstOut(u, more[1..], l);
      Chain(Tasks(s.loops[l]), Taken(s, more[0], l), Tasks(u.loops[l]),
            TakenIn(u, more[1..], l), Tasks(Exec(s, more).loops[l]));
    }
  }

  lemma Chain<T>(a: seq<T>, b: seq<T>, c: seq<T>, d: seq<T>, e: seq<T>)
    requires a <= b + c && c <= d + e
    ensures a <= b + d + e
  {
    assert b + c <= b + (d + e);
    assert b + (d + e) == b + d + e;
  }

  // --------------------------------------------------------------- channels

  /** The channel that a loop is done with in this step. */
  function Handled(s: State, a: Action, l: nat): seq<nat> {
    if a.Event? && a.l == l && a.last && Enabled(s, a) then [s.loops[l].stage.active[0]] else []
  }

  function HandledIn(s: State, acts: seq<Action>, l: nat): seq<nat>
    decreases |acts|
  {
    if acts == [] then [] else Handled(s, acts[0], l) + HandledIn(Next(s, acts[0]), acts[1..], l)
  }

  lemma {:induction false} DispatchRun(s: State, more: seq<Action>, l: nat)
    requires l in s.loops && s.loops[l].stage.Dispatching? && Swap(l) !in more
    ensures var t := Exec(s, more);
      && l in t.loops && t.loops[l].stage.Dispatching?
      && HandledIn(s, more, l) + t.loops[l].stage.active == s.loops[l].stage.active
    decreases |more|
  {
    if more != [] {
      var a, u := more[0], Next(s, more[0]);
      assert more == [a] + more[1..];
      DispatchStep(s, a, l);
      DispatchRun(u, more[1..], l);
      assert HandledIn(s, more, l) == Handled(s, a, l) + HandledIn(u, more[1..], l);
    }
  }

  lemma DispatchStep(s: State, a: Action, l: nat)
    requires l in s.loops && s.loops[l].stage.Dispatching? && a != Swap(l)
    ensures var u := Next(s, a);
      && l in u.loops && u.loops[l].stage.Dispatching?
      && s.loops[l].stage.active == Handled(s, a, l) + u.loops[l].stage.active
  {
    if a.Event? && a.l == l && Enabled(s, a) && a.last {
      assert s.loops[l].stage.active == [s.loops[l].stage.active[0]] + s.loops[l].stage.active[1..];
    }
  }

  /**
   * Every channel the poller returned is handled, once and in that order, before
   * the loop takes its functors: done and still to do are what was returned, and
   * the swap comes only when nothing is left.
   */
  lemma DispatchesInOrder(s: State, l: nat, active: seq<nat>, more: seq<Action>)
    requires Enabled(s, Return(l, active)) && Swap(l) !in more
    ensures var u := Next(s, Return(l, active));
      var t := Exec(u, more);
      && l in t.loops && t.loops[l].stage.Dispatching?
      && HandledIn(u, more, l) + t.loops[l].stage.active == active
      && (Enabled(t, Swap(l)) ==> HandledIn(u, more, l) == active)
  {
    DispatchRun(Next(s, Return(l, active)), more, l);
  }

  // ------------------------------------------------------------ connections

  /** The loops that connections were accepted for, in order. */
  function Accepts(s: State, acts: seq<Action>): seq<nat>
    decreases |acts|
  {
    if acts == [] then []
    else
      (if acts[0].Accept? && Enabled(s, acts[0]) then [acts[0].io] else []) + Accepts(Next(s, acts[0]), acts[1..])
  }

  predicate Numbered(s: State, ios: seq<nat>) {
    s.core.next == |ios| && s.core.home == map c: nat | c < |ios| :: ios[c]
  }

  lemma {:induction false} NumberedRun(s: State, acts: seq<Action>, ios: seq<nat>)
    requires Numbered(s, ios)
    ensures Numbered(Exec(s, acts), ios + Accepts(s, acts))
    decreases |acts|
  {
    if acts == [] {
      assert ios + Accepts(s, acts) == ios;
    } else {
      var a := acts[0];
      var more := if a.Accept? && Enabled(s, a) then [a.io] else [];
      NumberedStep(s, a, ios);
      NumberedRun(Next(s, a), acts[1..], ios + more);
      assert ios + more + Accepts(Next(s, a), acts[1..]) == ios + Accepts(s, acts);
    }
  }

  lemma NumberedStep(s: State, a: Action, ios: seq<nat>)
    requires Numbered(s, ios)
    ensures Numbered(Next(s, a), ios + if a.Accept? && Enabled(s, a) then [a.io] else [])
  {
    if a.Accept? && Enabled(s, a) {
      assert Next(s, a).core.home == s.core.home[|ios| := a.io];
    } else {
      assert ios + [] == ios;
      assert Next(s, a).core.home == s.core.home;
    }
  }

  /** Over every run, the k-th connection accepted lives for good on the loop it was accepted for. */
  lemma LivesWhereAccepted(others: set<nat>, acts: seq<Action>)
    ensures var s, ios := Exec(Init(others), acts), Accepts(Init(others), acts);
      s.core.home == map c: nat | c < |ios| :: ios[c]
  {
    NumberedRun(Init(others), acts, []);
    assert [] + Accepts(Init(others), acts) == Accepts(Init(others), acts);
  }

  // --------------------------------------------------------------- RunInLoop

  /**
   * On the base loop a connection is established within NewConnection; on
   * another loop it is not until that loop runs the functor, which is its last.
   */
  lemma EstablishedAtOnceIff(others: set<nat>, acts: seq<Action>, io: nat)
    ensures var s := Exec(Init(others), acts);
      Enabled(s, Accept(io)) ==>
        var t, c := Next(s, Accept(io)), s.core.next;
        && c !in s.core.home && c in t.core.connections && io in t.loops
        && (c in t.core.established <==> io == BASE) && (c in t.core.registered <==> io == BASE)
        && t.loops[io].pending == s.loops[io].pending + (if io == BASE then [] else [Establish(c)])
  {
    Reachable(others, acts);
    var s := Exec(Init(others), acts);
    if Enabled(s, Accept(io)) {
      assert s.core.next !in s.core.home;
    }
  }

  /**
   * A close reported on the base loop is carried out there and then: two steps
   * later the map entry is gone, the third queues ConnectionDestroyed on the home
   * loop, and the base loop can handle nothing in between. From another loop the
   * removal is queued on the base loop and the reporting loop goes on.
   */
  lemma RemovedAtOnceIff(s: State, l: nat)
    requires Inv(s) && Enabled(s, Continue(l)) && s.loops[l].todo.Report?
    ensures var c := s.loops[l].todo.c;
      var t := Next(s, Continue(l));
      && (l == BASE ==>
          var u := Next(t, Continue(BASE));
          var v := Next(u, Continue(BASE));
          && t.core == s.core && t.loops[BASE].pending == s.loops[BASE].pending && !t.loops[BASE].todo.Nothing?
          && u.core.connections == s.core.connections - {c} && !u.loops[BASE].todo.Nothing?
          && c in s.core.home && s.core.home[c] in v.loops
          && v.loops[s.core.home[c]].pending == s.loops[s.core.home[c]].pending + [Destroy(c)]
          && v.loops[BASE].todo.Nothing?)
      && (l != BASE ==>
          && t.core == s.core && t.loops[l].todo.Nothing?
          && t.loops[BASE].pending == s.loops[BASE].pending + [Remove(c)])
  {
    assert LoopOk(s.core, l, s.loops[l]);
    if l == BASE {
      var t := Next(s, Continue(l));
      var u := Next(t, Continue(BASE));
      assert u.loops[BASE].todo == Hand(s.loops[l].todo.c);
    }
  }
}
