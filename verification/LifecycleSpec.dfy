/**
 * Connections handed between event loops, as a step system: the base loop
 * (number 0) owns the server's map, every connection has a home loop, and a
 * connection is kept alive by the map and by the functors that hold it.
 */
module LifecycleSpec {

  const BASE: nat := 0

  /**
   * A queued functor. All but User hold a shared pointer to the connection. A
   * User functor may have a raw pointer to `target`, as the functors of Send and
   * ShutDown do; `early` says that it was queued before the swap that took the
   * connection's ConnectionDestroyed.
   */
  datatype Task = Establish(c: nat) | Remove(c: nat) | Destroy(c: nat) | User(target: nat, early: bool)

  /** What the code running on a loop still has to do, holding the connection meanwhile. */
  datatype Todo =
    | Nothing
    | Report(c: nat)  // HandleClose is about to call close_callback_
    | Erase(c: nat)   // RemoveconnectionInLoop is about to erase the map entry
    | Hand(c: nat)    // ... and then to queue ConnectionDestroyed on the home loop

  /** The vector that DoPendingFunctors runs keeps what has run until it returns. */
  datatype Stage =
    | Polling
    | Dispatching(active: seq<nat>)  // the channels the poller returned, as raw pointers
    | Running(batch: seq<Task>, ran: seq<Task>)

  datatype Loop = Loop(stage: Stage, pending: seq<Task>, todo: Todo)

  /**
   * The server's map, each connection's home loop, and which connections were
   * established, have their channel in their loop's poller, or had
   * ConnectionDestroyed return. A channel can be registered again afterwards.
   */
  datatype Core = Core(
    next: nat, home: map<nat, nat>, connections: set<nat>,
    established: set<nat>, registered: set<nat>, destroyed: set<nat>)

  datatype State = State(loops: map<nat, Loop>, core: Core)

  /** The base loop and the others. */
  function Init(others: set<nat>): State {
    State(map l | l in others + {BASE} :: Loop(Polling, [], Nothing), Core(0, map[], {}, {}, {}, {}))
  }

  datatype Action =
    | Accept(io: nat)                         // NewConnection, in a handler of the base loop
    | Return(l: nat, active: seq<nat>)        // the poller of loop l returns
    | Event(l: nat, close: bool, last: bool)  // one callback of the first active channel
    | Continue(l: nat)                        // the next step of what loop l has to do
    | Swap(l: nat)                            // DoPendingFunctors takes the queue
    | Run(l: nat, write: bool)                // the next functor; does a User functor enable writing?
    | Finish(l: nat)
    | Post(l: nat, target: nat)               // anybody queues another functor

  predicate Enabled(s: State, a: Action) {
    match a
    case Accept(io) =>
      BASE in s.loops && io in s.loops && s.loops[BASE].stage.Dispatching? && s.loops[BASE].todo.Nothing?
    case Return(l, active) =>
      && l in s.loops && s.loops[l].stage.Polling?
      && forall c | c in active :: c in s.core.registered && c in s.core.home && s.core.home[c] == l
    case Event(l, _, _) =>
      && l in s.loops && s.loops[l].todo.Nothing?
      && s.loops[l].stage.Dispatching? && s.loops[l].stage.active != []
    case Continue(l) =>
      && l in s.loops && BASE in s.loops && !s.loops[l].todo.Nothing?
      && s.loops[l].todo.c in s.core.home && s.core.home[s.loops[l].todo.c] in s.loops
    case Swap(l) =>
      l in s.loops && s.loops[l].todo.Nothing? && s.loops[l].stage == Dispatching([])
    case Run(l, _) =>
      && l in s.loops && s.loops[l].todo.Nothing?
      && s.loops[l].stage.Running? && s.loops[l].stage.batch != []
    case Finish(l) =>
      && l in s.loops && s.loops[l].todo.Nothing?
      && s.loops[l].stage.Running? && s.loops[l].stage.batch == []
    case Post(l, _) => l in s.loops
  }

  // ------------------------------------------------------------- steps

  /** QueueInLoop on loop l. */
  function Queue(loops: map<nat, Loop>, l: nat, t: Task): map<nat, Loop>
    requires l in loops
  {
    loops[l := loops[l].(pending := loops[l].pending + [t])]
  }

  /** ConnectionEstablished: tie, enable reading, up callback. */
  function Up(k: Core, c: nat): Core {
    k.(established := k.established + {c}, registered := k.registered + {c})
  }

  /** TcpServer::NewConnection; RunInLoop runs the functor at once when the home loop is the base loop. */
  function NewConnection(s: State, io: nat): State
    requires Enabled(s, Accept(io))
  {
    var c := s.core.next;
    var k := s.core.(next := c + 1, home := s.core.home[c := io], connections := s.core.connections + {c});
    if io == BASE then State(s.loops, Up(k, c)) else State(Queue(s.loops, io, Establish(c)), k)
  }

  function Step(s: State, l: nat): State
    requires Enabled(s, Continue(l))
  {
    var c := s.loops[l].todo.c;
    match s.loops[l].todo
    case Report(_) =>
      // RunInLoop on the base loop
      if l == BASE then s.(loops := s.loops[l := s.loops[l].(todo := Erase(c))])
      else s.(loops := Queue(s.loops[l := s.loops[l].(todo := Nothing)], BASE, Remove(c)))
    case Erase(_) =>
      State(s.loops[l := s.loops[l].(todo := Hand(c))], s.core.(connections := s.core.connections - {c}))
    case Hand(_) =>
      s.(loops := Queue(s.loops[l := s.loops[l].(todo := Nothing)], s.core.home[c], Destroy(c)))
  }

  /** The loop after it took the first functor of its batch. */
  function Popped(loop: Loop): Loop
    requires loop.stage.Running? && loop.stage.batch != []
  {
    loop.(stage := Running(loop.stage.batch[1..], loop.stage.ran + [loop.stage.batch[0]]))
  }

  /** EnableWrite on a channel of this loop puts it back into the poller if it was removed. */
  function Touched(k: Core, l: nat, c: nat, write: bool): Core {
    if write && c in k.home && k.home[c] == l && c in k.established then k.(registered := k.registered + {c}) else k
  }

  function RunTask(s: State, l: nat, write: bool): State
    requires Enabled(s, Run(l, write))
  {
    var t := s.loops[l].stage.batch[0];
    var loop := Popped(s.loops[l]);
    match t
    case Establish(c) => State(s.loops[l := loop], Up(s.core, c))
    case Remove(c) => s.(loops := s.loops[l := loop.(todo := Erase(c))])
    case Destroy(c) =>
      State(s.loops[l := loop],
            s.core.(registered := s.core.registered - {c}, destroyed := s.core.destroyed + {c}))
    case User(c, _) => State(s.loops[l := loop], Touched(s.core, l, c, write))
  }

  /** The functors a loop still has to run, oldest first. */
  function Tasks(loop: Loop): seq<Task> {
    Batch(loop) + loop.pending
  }

  /** What is left of the batch that is running. */
  function Batch(loop: Loop): seq<Task> {
    if loop.stage.Running? then loop.stage.batch else []
  }

  /** What has run of it. */
  function Ran(loop: Loop): seq<Task> {
    if loop.stage.Running? then loop.stage.ran else []
  }

  /** No swap has taken a ConnectionDestroyed for the connection yet. */
  predicate Ahead(s: State, l: nat, c: nat)
    requires l in s.loops
  {
    c !in s.core.destroyed && Destroy(c) !in Batch(s.loops[l])
  }

  function Next(s: State, a: Action): State {
    if !Enabled(s, a) then s
    else
      match a
      case Accept(io) => NewConnection(s, io)
      case Return(l, active) => s.(loops := s.loops[l := s.loops[l].(stage := Dispatching(active))])
      case Event(l, close, last) =>
        var active := s.loops[l].stage.active;
        s.(loops := s.loops[l := s.loops[l].(stage := Dispatching(if last then active[1..] else active),
                                             todo := if close then Report(active[0]) else Nothing)])
      case Continue(l) => Step(s, l)
      case Swap(l) => s.(loops := s.loops[l := Loop(Running(s.loops[l].pending, []), [], Nothing)])
      case Run(l, write) => RunTask(s, l, write)
      case Finish(l) => s.(loops := s.loops[l := s.loops[l].(stage := Polling)])
      case Post(l, target) => s.(loops := Queue(s.loops, l, User(target, Ahead(s, l, target))))
  }

  function Exec(s: State, acts: seq<Action>): State
    decreases |acts|
  {
    if acts == [] then s else Exec(Next(s, acts[0]), acts[1..])
  }

  // --------------------------------------------------------- invariant

  predicate CoreOk(k: Core) {
    && (forall c | c in k.home :: c < k.next)
    && k.connections <= k.home.Keys && k.established <= k.home.Keys
    && k.connections !! k.destroyed
    && k.registered + k.destroyed == k.established
  }

  /** What a functor on loop l may be. */
  predicate TaskOk(k: Core, l: nat, t: Task) {
    match t
    case Establish(c) => c in k.home && k.home[c] == l && c in k.connections && c !in k.established
    case Remove(c) => l == BASE && c in k.established
    case Destroy(c) => c in k.home && k.home[c] == l && c in k.established && c !in k.connections
    case User(_, _) => true
  }

  predicate TodoOk(k: Core, l: nat, t: Todo) {
    match t
    case Nothing => true
    case Report(c) => c in k.established
    case Erase(c) => l == BASE && c in k.established
    case Hand(c) => l == BASE && c in k.established && c !in k.connections
  }

  /** Raw channel pointers taken from the poller. */
  predicate ActiveOk(k: Core, l: nat, stage: Stage) {
    stage.Dispatching? ==>
      forall c | c in stage.active :: c in k.registered && c in k.home && k.home[c] == l
  }

  predicate Once(ts: seq<Task>) {
    forall i, j | 0 <= i < j < |ts| && ts[i].Establish? :: ts[i] != ts[j]
  }

  predicate LoopOk(k: Core, l: nat, loop: Loop) {
    && (forall t | t in Tasks(loop) :: TaskOk(k, l, t))
    && Once(Tasks(loop))
    && TodoOk(k, l, loop.todo)
    && ActiveOk(k, l, loop.stage)
  }

  /** Whoever has left the server's map is on its way to ConnectionDestroyed, or has been there. */
  predicate Owned(s: State, c: nat)
    requires BASE in s.loops && c in s.core.home && s.core.home[c] in s.loops
  {
    var home := Tasks(s.loops[s.core.home[c]]);
    && (c !in s.core.established ==> Establish(c) in home)
    && (c !in s.core.connections ==>
          Destroy(c) in home || s.loops[BASE].todo == Hand(c) || c in s.core.destroyed)
  }

  predicate Homes(s: State) {
    BASE in s.loops && forall c | c in s.core.home :: s.core.home[c] in s.loops
  }

  predicate Inv(s: State) {
    && Homes(s) && CoreOk(s.core)
    && (forall l | l in s.loops :: LoopOk(s.core, l, s.loops[l]))
    && (forall c | c in s.core.home :: Owned(s, c))
  }

  // ------------------------------------------------------ preservation

  /** One loop changes and nothing is taken from any other loop's queue. */
  lemma InvFromParts(s: State, t: State)
    requires Homes(t) && CoreOk(t.core)
    requires forall l | l in t.loops :: LoopOk(t.core, l, t.loops[l])
    requires forall c | c in t.core.home :: Owned(t, c)
    ensures Inv(t)
  {
  }

  lemma QueueTasks(loop: Loop, t: Task)
    ensures Tasks(loop.(pending := loop.pending + [t])) == Tasks(loop) + [t]
  {
  }

  lemma QueueLoopOk(k: Core, l: nat, loop: Loop, t: Task)
    requires LoopOk(k, l, loop) && TaskOk(k, l, t)
    requires t.Establish? ==> t !in Tasks(loop)
    ensures LoopOk(k, l, loop.(pending := loop.pending + [t]))
  {
    QueueTasks(loop, t);
  }

  /** The core may change as long as what this loop refers to stays as it was. */
  lemma CoreMoves(k: Core, k': Core, l: nat, loop: Loop, c: nat)
    requires LoopOk(k, l, loop)
    requires forall d | d in k.home && d != c :: d in k'.home && k'.home[d] == k.home[d]
    requires forall d | d != c :: (d in k.connections <==> d in k'.connections) &&
                                  (d in k.established <==> d in k'.established) &&
                                  (d in k.registered <==> d in k'.registered)
    requires forall t | t in Tasks(loop) && !t.User? && t.c == c :: TaskOk(k', l, t)
    requires !loop.todo.Nothing? && loop.todo.c == c ==> TodoOk(k', l, loop.todo)
    requires loop.stage.Dispatching? && c in loop.stage.active ==>
             c in k'.registered && c in k'.home && k'.home[c] == l
    ensures LoopOk(k', l, loop)
  {
    forall t | t in Tasks(loop)
      ensures TaskOk(k', l, t)
    {
      assert TaskOk(k, l, t);
    }
  }

  lemma Mentioned(k: Core, l: nat, loop: Loop, c: nat)
    requires CoreOk(k) && LoopOk(k, l, loop) && c !in k.home
    ensures forall t | t in Tasks(loop) && !t.User? :: t.c != c
    ensures !loop.todo.Nothing? ==> loop.todo.c != c
    ensures loop.stage.Dispatching? ==> c !in loop.stage.active
  {
    forall t | t in Tasks(loop) && !t.User?
      ensures t.c != c
    {
      assert TaskOk(k, l, t);
    }
  }

  /** A fresh connection enters the core, established at once or not. */
  function Admitted(k: Core, io: nat, up: bool): Core {
    var k' := k.(next := k.next + 1, home := k.home[k.next := io], connections := k.connections + {k.next});
    if up then Up(k', k.next) else k'
  }

  lemma AdmitKeepsLoop(k: Core, l: nat, loop: Loop, io: nat, up: bool)
    requires CoreOk(k) && LoopOk(k, l, loop)
    ensures LoopOk(Admitted(k, io, up), l, loop)
  {
    Mentioned(k, l, loop, k.next);
    CoreMoves(k, Admitted(k, io, up), l, loop, k.next);
  }

  lemma AcceptLoopOk(s: State, io: nat, l: nat)
    requires Inv(s) && Enabled(s, Accept(io)) && l in s.loops
    ensures LoopOk(NewConnection(s, io).core, l, NewConnection(s, io).loops[l])
  {
    var k := Admitted(s.core, io, io == BASE);
    AdmitKeepsLoop(s.core, l, s.loops[l], io, io == BASE);
    if io != BASE && l == io {
      Mentioned(s.core, l, s.loops[l], s.core.next);
      QueueLoopOk(k, l, s.loops[l], Establish(s.core.next));
    }
  }

  lemma AcceptKeepsInv(s: State, io: nat)
    requires Inv(s) && Enabled(s, Accept(io))
    ensures Inv(NewConnection(s, io))
  {
    var t := NewConnection(s, io);
    assert t.core == Admitted(s.core, io, io == BASE);
    forall l | l in t.loops
      ensures LoopOk(t.core, l, t.loops[l])
    {
      AcceptLoopOk(s, io, l);
    }
    forall d | d in t.core.home
      ensures Owned(t, d)
    {
      AcceptOwned(s, io, d);
    }
    InvFromParts(s, t);
  }

  lemma AcceptOwned(s: State, io: nat, d: nat)
    requires Inv(s) && Enabled(s, Accept(io)) && d in NewConnection(s, io).core.home
    ensures var t := NewConnection(s, io);
      BASE in t.loops && t.core.home[d] in t.loops && Owned(t, d)
  {
    if io != BASE {
      QueueTasks(s.loops[io], Establish(s.core.next));
    }
    if d != s.core.next {
      assert Owned(s, d);
    }
  }

  /** A loop that only moves on: its tasks stay, its stage or duty changes to something legal. */
  lemma LoopMovesKeepsInv(s: State, l: nat, loop: Loop)
    requires Inv(s) && l in s.loops && Tasks(loop) == Tasks(s.loops[l])
    requires TodoOk(s.core, l, loop.todo) && ActiveOk(s.core, l, loop.stage)
    requires l == BASE && s.loops[l].todo.Hand? ==> loop.todo == s.loops[l].todo
    ensures Inv(s.(loops := s.loops[l := loop]))
  {
    var t := s.(loops := s.loops[l := loop]);
    assert LoopOk(s.core, l, s.loops[l]);
    forall c | c in t.core.home
      ensures Owned(t, c)
    {
      assert Owned(s, c);
    }
    InvFromParts(s, t);
  }

  /** Queueing a task the home loop may run. */
  lemma QueueKeepsInv(s: State, l: nat, task: Task)
    requires Inv(s) && l in s.loops && TaskOk(s.core, l, task) && !task.Establish?
    ensures Inv(s.(loops := Queue(s.loops, l, task)))
  {
    var t := s.(loops := Queue(s.loops, l, task));
    QueueTasks(s.loops[l], task);
    QueueLoopOk(s.core, l, s.loops[l], task);
    forall c | c in t.core.home
      ensures Owned(t, c)
    {
      assert Owned(s, c);
    }
    InvFromParts(s, t);
  }

  lemma ReportKeepsInv(s: State, l: nat)
    requires Inv(s) && Enabled(s, Continue(l)) && s.loops[l].todo.Report?
    ensures Inv(Step(s, l))
  {
    var c := s.loops[l].todo.c;
    assert LoopOk(s.core, l, s.loops[l]);
    if l == BASE {
      LoopMovesKeepsInv(s, l, s.loops[l].(todo := Erase(c)));
    } else {
      LoopMovesKeepsInv(s, l, s.loops[l].(todo := Nothing));
      QueueKeepsInv(s.(loops := s.loops[l := s.loops[l].(todo := Nothing)]), BASE, Remove(c));
    }
  }

  lemma EraseKeepsInv(s: State, l: nat)
    requires Inv(s) && Enabled(s, Continue(l)) && s.loops[l].todo.Erase?
    ensures Inv(Step(s, l))
  {
    var c, t := s.loops[l].todo.c, Step(s, l);
    assert LoopOk(s.core, l, s.loops[l]);
    forall m | m in t.loops
      ensures LoopOk(t.core, m, t.loops[m])
    {
      assert LoopOk(s.core, m, s.loops[m]);
      assert forall u | u in Tasks(s.loops[m]) :: TaskOk(s.core, m, u);
      CoreMoves(s.core, t.core, m, s.loops[m].(todo := Nothing), c);
      if m != BASE {
        CoreMoves(s.core, t.core, m, s.loops[m], c);
      }
      assert Tasks(t.loops[m]) == Tasks(s.loops[m]);
    }
    forall d | d in t.core.home
      ensures Owned(t, d)
    {
      assert Owned(s, d);
    }
    InvFromParts(s, t);
  }

  lemma HandKeepsInv(s: State, l: nat)
    requires Inv(s) && Enabled(s, Continue(l)) && s.loops[l].todo.Hand?
    ensures Inv(Step(s, l))
  {
    var c := s.loops[l].todo.c;
    assert LoopOk(s.core, l, s.loops[l]);
    QueueKeepsInv(s, s.core.home[c], Destroy(c));
    var u := s.(loops := Queue(s.loops, s.core.home[c], Destroy(c)));
    QueueTasks(s.loops[s.core.home[c]], Destroy(c));
    QueueThenIdle(s.loops, l, s.core.home[c], Destroy(c));
    DutyDone(u, l, c);
  }

  lemma QueueThenIdle(loops: map<nat, Loop>, l: nat, m: nat, t: Task)
    requires l in loops && m in loops
    ensures var q := Queue(loops, m, t);
      Queue(loops[l := loops[l].(todo := Nothing)], m, t) == q[l := q[l].(todo := Nothing)]
  {
  }

  /** The duty to queue ConnectionDestroyed is met by the queued functor. */
  lemma DutyDone(s: State, l: nat, c: nat)
    requires Inv(s) && l in s.loops && l == BASE && s.loops[l].todo == Hand(c)
    requires c in s.core.home && Destroy(c) in Tasks(s.loops[s.core.home[c]])
    ensures Inv(s.(loops := s.loops[l := s.loops[l].(todo := Nothing)]))
  {
    var t := s.(loops := s.loops[l := s.loops[l].(todo := Nothing)]);
    assert LoopOk(s.core, l, s.loops[l]);
    assert Tasks(t.loops[l]) == Tasks(s.loops[l]);
    forall d | d in t.core.home
      ensures Owned(t, d)
    {
      assert Owned(s, d);
    }
    InvFromParts(s, t);
  }

  lemma PopTasks(k: Core, l: nat, loop: Loop)
    requires LoopOk(k, l, loop) && loop.stage.Running? && loop.stage.batch != []
    ensures Tasks(loop) == [loop.stage.batch[0]] + Tasks(Popped(loop))
    ensures LoopOk(k, l, Popped(loop)) && TaskOk(k, l, loop.stage.batch[0])
    ensures loop.stage.batch[0].Establish? ==> loop.stage.batch[0] !in Tasks(Popped(loop))
  {
    var ts := Tasks(loop);
    assert loop.stage.batch == [loop.stage.batch[0]] + loop.stage.batch[1..];
    assert ts[1..] == Tasks(Popped(loop));
    assert ts[0] in ts && ts[0] == loop.stage.batch[0];
    assert forall t | t in ts[1..] :: t in ts;
  }

  /** No other functor is for a connection that is about to be established. */
  lemma EstablishLoopOk(s: State, l: nat, write: bool, m: nat)
    requires Inv(s) && Enabled(s, Run(l, write)) && s.loops[l].stage.batch[0].Establish? && m in s.loops
    ensures LoopOk(RunTask(s, l, write).core, m, RunTask(s, l, write).loops[m])
  {
    var c, t := s.loops[l].stage.batch[0].c, RunTask(s, l, write);
    assert LoopOk(s.core, m, s.loops[m]);
    PopTasks(s.core, l, s.loops[l]);
    var loop := if m == l then Popped(s.loops[l]) else s.loops[m];
    forall u | u in Tasks(loop) && !u.User?
      ensures u.c != c
    {
      assert TaskOk(s.core, m, u);
    }
    CoreMoves(s.core, t.core, m, loop, c);
  }

  lemma EstablishKeepsInv(s: State, l: nat, write: bool)
    requires Inv(s) && Enabled(s, Run(l, write)) && s.loops[l].stage.batch[0].Establish?
    ensures Inv(RunTask(s, l, write))
  {
    var t := RunTask(s, l, write);
    PopTasks(s.core, l, s.loops[l]);
    forall m | m in t.loops
      ensures LoopOk(t.core, m, t.loops[m])
    {
      EstablishLoopOk(s, l, write, m);
    }
    forall d | d in t.core.home
      ensures Owned(t, d)
    {
      assert Owned(s, d);
    }
    InvFromParts(s, t);
  }

  lemma RemoveKeepsInv(s: State, l: nat, write: bool)
    requires Inv(s) && Enabled(s, Run(l, write)) && s.loops[l].stage.batch[0].Remove?
    ensures Inv(RunTask(s, l, write))
  {
    var t := RunTask(s, l, write);
    assert LoopOk(s.core, l, s.loops[l]);
    PopTasks(s.core, l, s.loops[l]);
    forall d | d in t.core.home
      ensures Owned(t, d)
    {
      assert Owned(s, d);
    }
    assert Tasks(t.loops[l]) == Tasks(Popped(s.loops[l]));
    InvFromParts(s, t);
  }

  /** Only which channels are in the pollers changes, and only for a channel nobody dispatches. */
  lemma PollerMoves(k: Core, k': Core, l: nat, loop: Loop, c: nat)
    requires LoopOk(k, l, loop)
    requires k'.home == k.home && k'.connections == k.connections && k'.established == k.established
    requires k.registered - {c} <= k'.registered
    requires c in k'.registered || (loop.stage.Dispatching? ==> c !in loop.stage.active)
    ensures LoopOk(k', l, loop)
  {
    forall t | t in Tasks(loop)
      ensures TaskOk(k', l, t)
    {
      assert TaskOk(k, l, t);
    }
  }

  /** Taking a functor from a batch leaves every connection owned that the functor did not speak for. */
  lemma PopOwned(s: State, t: State, l: nat, d: nat)
    requires Inv(s) && l in s.loops && s.loops[l].stage.Running? && s.loops[l].stage.batch != []
    requires t.loops == s.loops[l := Popped(s.loops[l])] && t.core.home == s.core.home && d in s.core.home
    requires t.core.connections == s.core.connections && t.core.established == s.core.established
    requires s.core.destroyed <= t.core.destroyed && !s.loops[l].stage.batch[0].Establish?
    requires s.loops[l].stage.batch[0] == Destroy(d) ==> d in t.core.destroyed
    ensures BASE in t.loops && t.core.home[d] in t.loops && Owned(t, d)
  {
    assert Owned(s, d);
    assert LoopOk(s.core, l, s.loops[l]);
    PopTasks(s.core, l, s.loops[l]);
  }

  lemma PollerMovesCoreOk(s: State, l: nat, write: bool)
    requires Inv(s) && Enabled(s, Run(l, write))
    requires s.loops[l].stage.batch[0].Destroy? || s.loops[l].stage.batch[0].User?
    ensures CoreOk(RunTask(s, l, write).core)
  {
    var k, k' := s.core, RunTask(s, l, write).core;
    PopTasks(k, l, s.loops[l]);
    assert k'.registered + k'.destroyed == k'.established;
  }

  lemma PollerMovesKeepInv(s: State, l: nat, write: bool, c: nat)
    requires Inv(s) && Enabled(s, Run(l, write))
    requires s.loops[l].stage.batch[0] == Destroy(c) || (s.loops[l].stage.batch[0].User? && s.loops[l].stage.batch[0].target == c)
    ensures Inv(RunTask(s, l, write))
  {
    var t := RunTask(s, l, write);
    assert t.loops == s.loops[l := Popped(s.loops[l])];
    PollerMovesCoreOk(s, l, write);
    PopTasks(s.core, l, s.loops[l]);
    forall m | m in t.loops
      ensures LoopOk(t.core, m, t.loops[m])
    {
      PollerMoves(s.core, t.core, m, t.loops[m], c);
    }
    forall d | d in t.core.home
      ensures Owned(t, d)
    {
      PopOwned(s, t, l, d);
    }
    InvFromParts(s, t);
  }

  lemma NextKeepsInv(s: State, a: Action)
    requires Inv(s)
    ensures Inv(Next(s, a))
  {
    if Enabled(s, a) {
      match a {
        case Accept(io) => AcceptKeepsInv(s, io);
        case Return(l, active) =>
          assert LoopOk(s.core, l, s.loops[l]);
          LoopMovesKeepsInv(s, l, s.loops[l].(stage := Dispatching(active)));
        case Event(l, close, last) => EventKeepsInv(s, l, close, last);
        case Continue(l) =>
          if s.loops[l].todo.Report? {
            ReportKeepsInv(s, l);
          } else if s.loops[l].todo.Erase? {
            EraseKeepsInv(s, l);
          } else {
            HandKeepsInv(s, l);
          }
        case Swap(l) =>
          assert LoopOk(s.core, l, s.loops[l]);
          assert s.loops[l].pending + [] == s.loops[l].pending == [] + s.loops[l].pending;
          LoopMovesKeepsInv(s, l, Loop(Running(s.loops[l].pending, []), [], Nothing));
        case Run(l, write) => RunKeepsInv(s, l, write);
        case Finish(l) =>
          assert LoopOk(s.core, l, s.loops[l]);
          LoopMovesKeepsInv(s, l, s.loops[l].(stage := Polling));
        case Post(l, target) => QueueKeepsInv(s, l, User(target, Ahead(s, l, target)));
      }
    }
  }

  lemma RunKeepsInv(s: State, l: nat, write: bool)
    requires Inv(s) && Enabled(s, Run(l, write))
    ensures Inv(RunTask(s, l, write))
  {
    match s.loops[l].stage.batch[0] {
      case Establish(_) => EstablishKeepsInv(s, l, write);
      case Remove(_) => RemoveKeepsInv(s, l, write);
      case Destroy(c) => PollerMovesKeepInv(s, l, write, c);
      case User(c, _) => PollerMovesKeepInv(s, l, write, c);
    }
  }

  lemma EventKeepsInv(s: State, l: nat, close: bool, last: bool)
    requires Inv(s) && Enabled(s, Event(l, close, last))
    ensures Inv(Next(s, Event(l, close, last)))
  {
    assert LoopOk(s.core, l, s.loops[l]);
    var active := s.loops[l].stage.active;
    assert active[0] in active && forall c | c in active[1..] :: c in active;
    LoopMovesKeepsInv(s, l, s.loops[l].(stage := Dispatching(if last then active[1..] else active),
                                        todo := if close then Report(active[0]) else Nothing));
  }

  lemma {:induction false} ExecKeepsInv(s: State, acts: seq<Action>)
    requires Inv(s)
    ensures Inv(Exec(s, acts))
    decreases |acts|
  {
    if acts != [] {
      NextKeepsInv(s, acts[0]);
      ExecKeepsInv(Next(s, acts[0]), acts[1..]);
    }
  }

  lemma Reachable(others: set<nat>, acts: seq<Action>)
    ensures Inv(Exec(Init(others), acts)) && Exec(Init(others), acts).loops.Keys == others + {BASE}
  {
    ExecKeepsInv(Init(others), acts);
    ExecKeepsLoops(Init(others), acts);
  }

  lemma {:induction false} ExecKeepsLoops(s: State, acts: seq<Action>)
    ensures Exec(s, acts).loops.Keys == s.loops.Keys
    decreases |acts|
  {
    if acts != [] {
      ExecKeepsLoops(Next(s, acts[0]), acts[1..]);
    }
  }

  // ---------------------------------------------------------- theorems

  /** A functor of the list has a shared pointer to the connection. */
  predicate Keeps(ts: seq<Task>, c: nat) {
    exists t :: t in ts && !t.User? && t.c == c
  }

  /** Queued functors, those of the running vector that have run, and the code running now. */
  predicate HeldBy(loop: Loop, c: nat) {
    Keeps(Tasks(loop), c) || Keeps(Ran(loop), c) || (!loop.todo.Nothing? && loop.todo.c == c)
  }

  /** Something still holds a shared pointer to the connection. */
  predicate Held(s: State, c: nat) {
    c in s.core.connections || exists l :: l in s.loops && HeldBy(s.loops[l], c)
  }

  lemma HeldUntilDestroyed(s: State, c: nat)
    requires Inv(s) && c in s.core.home && c !in s.core.destroyed
    ensures Held(s, c)
  {
    assert Owned(s, c);
    var l := s.core.home[c];
    if c !in s.core.connections {
      if s.loops[BASE].todo == Hand(c) {
        assert HeldBy(s.loops[BASE], c);
      } else {
        assert Destroy(c) in Tasks(s.loops[l]);
        assert HeldBy(s.loops[l], c);
      }
    }
  }

  /**
   * Lifetime across loops, over every interleaving: from NewConnection until
   * ConnectionDestroyed returns, the server's map or some queued or running
   * functor holds the connection. So every channel in a poller, and every raw
   * channel pointer a loop is dispatching, belongs to a live connection, unless
   * a functor put it back after ConnectionDestroyed.
   */
  lemma LifetimeAcrossLoops(others: set<nat>, acts: seq<Action>)
    ensures var s := Exec(Init(others), acts);
      && (forall c | c in s.core.home && c !in s.core.destroyed :: Held(s, c))
      && (forall c | c in s.core.registered :: Held(s, c) || c in s.core.destroyed)
      && (forall l, c | l in s.loops && s.loops[l].stage.Dispatching? && c in s.loops[l].stage.active ::
            && (Held(s, c) || c in s.core.destroyed)
            && c in s.core.registered && c in s.core.home && s.core.home[c] == l)
  {
    Reachable(others, acts);
    var s := Exec(Init(others), acts);
    forall c | c in s.core.home && c !in s.core.destroyed
      ensures Held(s, c)
    {
      HeldUntilDestroyed(s, c);
    }
    assert forall c | c in s.core.registered :: c in s.core.established;
    assert forall l | l in s.loops :: LoopOk(s.core, l, s.loops[l]);
  }

  /** ConnectionDestroyed runs on the home loop only, after the base loop erased the map entry. */
  lemma DestroyedAtHomeAfterErase(others: set<nat>, acts: seq<Action>, l: nat, write: bool)
    ensures var s := Exec(Init(others), acts);
      Enabled(s, Run(l, write)) && s.loops[l].stage.batch[0].Destroy? ==>
        var c := s.loops[l].stage.batch[0].c;
        c in s.core.home && s.core.home[c] == l && c !in s.core.connections && c in s.core.established
  {
    Reachable(others, acts);
    var s := Exec(Init(others), acts);
    if Enabled(s, Run(l, write)) {
      PopTasks(s.core, l, s.loops[l]);
    }
  }

  /** A loop with nothing to run, nothing to do, and no vector of functors. */
  predicate Quiet(loop: Loop) {
    Tasks(loop) == [] && Ran(loop) == [] && loop.todo.Nothing?
  }

  lemma QuietUnheld(s: State, c: nat)
    requires Inv(s) && c in s.core.home && forall l | l in s.loops :: Quiet(s.loops[l])
    ensures c in s.core.established && (c in s.core.connections || c in s.core.destroyed)
    ensures Held(s, c) <==> c in s.core.connections
  {
    assert Owned(s, c);
    assert forall l | l in s.loops :: Quiet(s.loops[l]) && !HeldBy(s.loops[l], c);
  }

  /**
   * Nothing leaks: with all loops quiet, every connection that left the map was
   * destroyed and is unheld, and every other one is in a poller.
   */
  lemma NothingLeaks(others: set<nat>, acts: seq<Action>)
    ensures var s := Exec(Init(others), acts);
      (forall l | l in s.loops :: Quiet(s.loops[l])) ==>
        && s.core.connections == s.core.home.Keys - s.core.destroyed == s.core.registered - s.core.destroyed
        && forall c | c in s.core.destroyed :: !Held(s, c)
  {
    Reachable(others, acts);
    var s := Exec(Init(others), acts);
    if forall l | l in s.loops :: Quiet(s.loops[l]) {
      forall c | c in s.core.home
        ensures c in s.core.established && (c in s.core.connections || c in s.core.destroyed)
        ensures Held(s, c) <==> c in s.core.connections
      {
        QuietUnheld(s, c);
      }
    }
  }
}
