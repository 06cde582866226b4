/**
 * The functor queue of an event loop as a step system: other threads queue
 * functors and then wake the loop in a second step, while the loop thread goes
 * round timers, poll, handlers, swap and functors.
 */
module TaskQueueSpec {

  /** A functor: running it queues `queues` from the loop thread. */
  datatype Functor = Functor(id: nat, queues: seq<Functor>)

  /** Who queued a functor: another thread, or the loop thread in some phase. */
  datatype Origin = Remote | BeforeLoop | InTimers | InHandlers | InFunctors

  datatype Task = Task(f: Functor, origin: Origin)

  datatype Phase =
    | Idle                  // Loop has not been called
    | Timers                // CheckAndHandleTimerEvent
    | Polling               // inside the multiplexer
    | Handlers(wake: bool)  // handling active channels; is the wakeup channel still to come?
    | Swapping              // calling_pending_functors_ is set, the lock not yet taken
    | Running               // running the batch
    | Top                   // about to test quit_
    | Stopped

  datatype Queue = Queue(pending: seq<Task>, batch: seq<Task>)

  /** The eventfd's count, the threads between publishing and Wakeup, and the loop thread itself there. */
  datatype Signal = Signal(count: nat, waking: nat, selfWaking: bool)

  /** quit_ was asked for, and whether the loop thread set it with nobody to wake it. */
  datatype Quit = Quit(asked: bool, quiet: bool)

  /** Every task ever queued, and every task run, in order. */
  datatype History = History(queued: seq<Task>, done: seq<Task>)

  datatype State = State(phase: Phase, calling: bool, queue: Queue, signal: Signal, quit: Quit, log: History)

  function Init(): State {
    State(Idle, false, Queue([], []), Signal(0, 0, false), Quit(false, false), History([], []))
  }

  datatype Action =
    | RemoteQueue(f: Functor)   // another thread: emplace_back under the lock
    | RemoteWake                // another thread: Wakeup
    | RemoteQuit                // another thread: quit_ = true
    | LocalQueue(g: Functor)    // loop thread: emplace_back under the lock
    | LocalWake                 // loop thread: Wakeup, when it tested calling_pending_functors_
    | LocalQuit
    | Start                     // Loop is called
    | Enter                     // the test of quit_ at the top of the loop
    | Poll                      // timers are done, call the multiplexer
    | Ready(wake: bool)         // it returns; is the wakeup channel active?
    | Drain                     // HandleRead of the wakeup channel
    | Call                      // calling_pending_functors_ = true
    | Swap
    | Run                       // the next functor of the batch returns
    | Finish                    // calling_pending_functors_ = false

  /** What the loop thread is doing when user code can run on it. */
  predicate UserCode(p: Phase) {
    p.Idle? || p.Timers? || p.Handlers? || p.Running?
  }

  function OriginIn(p: Phase): Origin {
    match p
    case Timers => InTimers
    case Handlers(_) => InHandlers
    case Running => InFunctors
    case _ => BeforeLoop
  }

  predicate Enabled(s: State, a: Action) {
    match a
    case RemoteQueue(_) | RemoteQuit => true
    case RemoteWake => s.signal.waking > 0
    case LocalQueue(_) | LocalQuit => UserCode(s.phase) && !s.signal.selfWaking
    case LocalWake => s.signal.selfWaking
    case Start => s.phase.Idle?
    case Enter => s.phase.Top?
    case Poll => s.phase.Timers?
    case Ready(wake) => s.phase.Polling? && (wake ==> s.signal.count > 0)
    case Drain => s.phase == Handlers(true)
    case Call => s.phase == Handlers(false)
    case Swap => s.phase.Swapping?
    case Run => s.phase.Running? && !s.signal.selfWaking && s.queue.batch != []
    case Finish => s.phase.Running? && !s.signal.selfWaking && s.queue.batch == []
  }

  function Enqueue(s: State, t: Task): State {
    s.(queue := s.queue.(pending := s.queue.pending + [t]), log := s.log.(queued := s.log.queued + [t]))
  }

  function Next(s: State, a: Action): State {
    if !Enabled(s, a) then s
    else
      match a
      case RemoteQueue(f) =>
        Enqueue(s, Task(f, Remote)).(signal := s.signal.(waking := s.signal.waking + 1))
      case RemoteWake =>
        s.(signal := s.signal.(waking := s.signal.waking - 1, count := s.signal.count + 1))
      case RemoteQuit =>
        s.(quit := Quit(true, false), signal := s.signal.(waking := s.signal.waking + 1))
      case LocalQueue(f) =>
        Enqueue(s, Task(f, OriginIn(s.phase))).(signal := s.signal.(selfWaking := s.calling))
      case LocalWake =>
        s.(signal := s.signal.(selfWaking := false, count := s.signal.count + 1))
      case LocalQuit =>
        s.(quit := if s.quit.asked then s.quit else Quit(true, true))
      case Start => s.(phase := Top, quit := Quit(false, false))
      case Enter => s.(phase := if s.quit.asked then Stopped else Timers)
      case Poll => s.(phase := Polling)
      case Ready(wake) => s.(phase := Handlers(wake))
      case Drain => s.(phase := Handlers(false), signal := s.signal.(count := 0))
      case Call => s.(phase := Swapping, calling := true)
      case Swap => s.(phase := Running, queue := Queue([], s.queue.pending))
      case Run =>
        s.(queue := s.queue.(batch := s.queue.batch[1..]),
           log := s.log.(done := s.log.done + [s.queue.batch[0]]))
      case Finish => s.(phase := Top, calling := false)
  }

  function Exec(s: State, acts: seq<Action>): State
    decreases |acts|
  {
    if acts == [] then s else Exec(Next(s, acts[0]), acts[1..])
  }

  // -------------------------------------------------------- invariant

  /** Queued by the loop thread where QueueInLoop decides that no wakeup is needed. */
  predicate Quiet(t: Task) {
    t.origin.BeforeLoop? || t.origin.InTimers?
  }

  /** Somebody will make the multiplexer return: now, or with their next step. */
  predicate Signalled(g: Signal) {
    g.count > 0 || g.waking > 0 || g.selfWaking
  }

  /** From a swap until the handlers of the next round, what is pending must be announced. */
  predicate MustSignal(p: Phase) {
    !p.Handlers? && !p.Swapping?
  }

  predicate Announced(s: State) {
    MustSignal(s.phase) ==>
      forall t | t in s.queue.pending :: !t.origin.InHandlers? && (Quiet(t) || Signalled(s.signal))
  }

  predicate InOrder(q: Queue, log: History) {
    log.done + q.batch + q.pending == log.queued
  }

  predicate Inv(s: State) {
    && (s.calling <==> s.phase.Swapping? || s.phase.Running?)
    && (s.signal.selfWaking ==> s.phase.Running?)
    && (s.queue.batch != [] ==> s.phase.Running?)
    && (s.phase.Timers? || s.phase.Polling? ==> s.quit.asked ==> s.quit.quiet || Signalled(s.signal))
    && Announced(s)
    && InOrder(s.queue, s.log)
  }

  lemma EnqueueInOrder(q: Queue, log: History, t: Task)
    requires InOrder(q, log)
    ensures InOrder(q.(pending := q.pending + [t]), log.(queued := log.queued + [t]))
  {
  }

  lemma SwapInOrder(q: Queue, log: History)
    requires InOrder(q, log) && q.batch == []
    ensures InOrder(Queue([], q.pending), log)
  {
  }

  lemma RunInOrder(q: Queue, log: History)
    requires InOrder(q, log) && q.batch != []
    ensures InOrder(q.(batch := q.batch[1..]), log.(done := log.done + [q.batch[0]]))
  {
    assert q.batch == [q.batch[0]] + q.batch[1..];
    assert log.done + [q.batch[0]] + q.batch[1..] + q.pending == log.done + q.batch + q.pending;
  }

  lemma NextKeepsInv(s: State, a: Action)
    requires Inv(s)
    ensures Inv(Next(s, a))
  {
    if Enabled(s, a) {
      match a {
        case RemoteQueue(f) => EnqueueInOrder(s.queue, s.log, Task(f, Remote));
        case LocalQueue(f) => EnqueueInOrder(s.queue, s.log, Task(f, OriginIn(s.phase)));
        case Swap => SwapInOrder(s.queue, s.log);
        case Run => RunInOrder(s.queue, s.log);
        case _ =>
      }
    }
  }

  lemma {:induction false} ExecKeepsInv(s: State, acts: seq<Action>)
    requires Inv(s)
    ensures Inv(Exec(s, acts))
    decreases |acts|
  {
    if acts != [] {
      NextKeepsInv(s, acts[0]);
      ExecKeepsInv(Next(s, acts[0]), acts[1..]);
    }
  }

  lemma Reachable(acts: seq<Action>)
    ensures Inv(Exec(Init(), acts))
  {
    ExecKeepsInv(Init(), acts);
  }

  lemma {:induction false} ExecConcat(s: State, a: seq<Action>, b: seq<Action>)
    ensures Exec(s, a + b) == Exec(Exec(s, a), b)
    decreases |a|
  {
    if a == [] {
      assert a + b == b;
    } else {
      assert (a + b)[1..] == a[1..] + b;
      ExecConcat(Next(s, a[0]), a[1..], b);
    }
  }

  // --------------------------------------------------------- theorems

  /**
   * No lost wakeup, over every interleaving: when the loop is inside the
   * multiplexer, a pending functor that was not queued quietly means the
   * eventfd is readable or a thread is about to make it so; and so does a
   * request to quit from another thread.
   */
  lemma NoLostWakeup(acts: seq<Action>)
    ensures var s := Exec(Init(), acts);
      s.phase.Polling? ==>
        && (forall t | t in s.queue.pending && !Quiet(t) :: s.signal.count > 0 || s.signal.waking > 0)
        && (s.quit.asked && !s.quit.quiet ==> s.signal.count > 0 || s.signal.waking > 0)
  {
    Reachable(acts);
  }

  /** Functors wait in the queue and nothing is going to end the poll for them. */
  predicate Stalled(s: State) {
    s.phase.Polling? && s.queue.pending != [] && s.signal.count == 0 && s.signal.waking == 0
  }

  /**
   * Exactly when entering the multiplexer strands work: something was queued
   * quietly since the last swap, and no signal happens to be outstanding.
   */
  lemma StallsExactly(acts: seq<Action>)
    ensures var s := Exec(Init(), acts);
      s.phase.Timers? ==>
        (Stalled(Next(s, Poll)) <==>
         (exists t :: t in s.queue.pending && Quiet(t)) && s.signal.count == 0 && s.signal.waking == 0)
  {
    Reachable(acts);
    var s := Exec(Init(), acts);
    if s.phase.Timers? && s.queue.pending != [] {
      assert s.queue.pending[0] in s.queue.pending;
    }
  }

  /** quit_ is set and nothing is going to end the poll for it. */
  predicate SleepsThroughQuit(s: State) {
    s.phase.Polling? && s.quit.asked && s.signal.count == 0 && s.signal.waking == 0
  }

  /**
   * A request to quit is slept through exactly when the loop thread itself made
   * it, in a timer callback, and no signal happens to be outstanding.
   */
  lemma QuitSleptThroughExactly(acts: seq<Action>)
    ensures var s := Exec(Init(), acts);
      s.phase.Timers? ==>
        (SleepsThroughQuit(Next(s, Poll)) <==>
         s.quit.asked && s.quit.quiet && s.signal.count == 0 && s.signal.waking == 0)
  {
    Reachable(acts);
  }

  /** A timer callback that queues a functor strands it whenever no signal is outstanding. */
  lemma TimerCallbackStalls(acts: seq<Action>, f: Functor)
    ensures var s := Exec(Init(), acts);
      s.phase.Timers? && s.signal.count == 0 && s.signal.waking == 0 ==>
        Stalled(Exec(Init(), acts + [LocalQueue(f), Poll]))
  {
    Reachable(acts);
    var s := Exec(Init(), acts);
    ExecConcat(Init(), acts, [LocalQueue(f), Poll]);
    var t := Next(s, LocalQueue(f));
    assert Exec(s, [LocalQueue(f), Poll]) == Exec(t, [Poll]) == Next(t, Poll) by {
      assert [LocalQueue(f), Poll][1..] == [Poll];
      assert Exec(Next(t, Poll), []) == Next(t, Poll);
    }
  }

  /** First in, first out: what has run, is about to run and is pending is what was queued, in order. */
  lemma TasksInOrder(acts: seq<Action>)
    ensures var s := Exec(Init(), acts);
      s.log.done + s.queue.batch + s.queue.pending == s.log.queued
  {
    Reachable(acts);
  }

  /** How many functors return during a run. */
  function Runs(s: State, acts: seq<Action>): nat
    decreases |acts|
  {
    if acts == [] then 0
    else (if acts[0].Run? && Enabled(s, acts[0]) then 1 else 0) + Runs(Next(s, acts[0]), acts[1..])
  }

  lemma RunningStep(s: State, a: Action)
    requires s.phase.Running? && !a.Finish?
    ensures var t := Next(s, a);
      && t.phase.Running?
      && t.log.done + t.queue.batch == s.log.done + s.queue.batch
      && |t.queue.batch| + Runs(s, [a]) == |s.queue.batch|
      && s.queue.pending <= t.queue.pending
  {
    assert Runs(Next(s, a), []) == 0;
    if a.Run? && Enabled(s, a) {
      assert s.queue.batch == [s.queue.batch[0]] + s.queue.batch[1..];
    }
  }

  /**
   * A batch is what was pending at the swap. Whatever is queued while it runs,
   * by its own functors or by others, leaves it alone, so it takes exactly as
   * many functors as were pending to reach its end.
   */
  lemma {:induction false} BatchIsSnapshot(s: State, acts: seq<Action>)
    requires s.phase.Swapping? && s.queue.batch == [] && forall a | a in acts :: !a.Finish?
    ensures var t := Exec(Next(s, Swap), acts);
      && t.phase.Running?
      && t.log.done + t.queue.batch == s.log.done + s.queue.pending
      && |t.queue.batch| + Runs(Next(s, Swap), acts) == |s.queue.pending|
  {
    RunningRun(Next(s, Swap), acts);
  }

  lemma {:induction false} RunningRun(s: State, acts: seq<Action>)
    requires s.phase.Running? && forall a | a in acts :: !a.Finish?
    ensures var t := Exec(s, acts);
      && t.phase.Running?
      && t.log.done + t.queue.batch == s.log.done + s.queue.batch
      && |t.queue.batch| + Runs(s, acts) == |s.queue.batch|
    decreases |acts|
  {
    if acts != [] {
      assert acts[0] in acts;
      RunningStep(s, acts[0]);
      RunningRun(Next(s, acts[0]), acts[1..]);
    }
  }
}
