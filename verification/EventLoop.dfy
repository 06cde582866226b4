/** EventLoop: the pending vector, the flags and the eventfd, with the operations that change them. */
module EventLoop {
  import opened TaskQueueSpec

  function Functors(ts: seq<Task>): seq<Functor> {
    seq(|ts|, i requires 0 <= i < |ts| => ts[i].f)
  }

  function Tagged(fs: seq<Functor>, origin: Origin): seq<Task> {
    seq(|fs|, i requires 0 <= i < |fs| => Task(fs[i], origin))
  }

  /** The steps of one QueueInLoop. */
  function QueueSteps(f: Functor, inLoopThread: bool, calling: bool): seq<Action> {
    if !inLoopThread then [RemoteQueue(f), RemoteWake]
    else if calling then [LocalQueue(f), LocalWake]
    else [LocalQueue(f)]
  }

  function First(others: seq<seq<Functor>>): seq<Functor> {
    if others == [] then [] else others[0]
  }

  function Later(others: seq<seq<Functor>>): seq<seq<Functor>> {
    if others == [] then [] else others[1..]
  }

  /** What the queue holds after a batch: what each functor and, meanwhile, other threads queued. */
  function Followups(batch: seq<Task>, others: seq<seq<Functor>>): seq<Task> {
    if batch == [] then []
    else Tagged(batch[0].f.queues, InFunctors) + Tagged(First(others), Remote) + Followups(batch[1..], Later(others))
  }

  /** What one round brings: what its handlers queue, whether one calls Quit, and what other threads queue. */
  datatype Round = Round(queues: seq<Functor>, quits: bool, others: seq<seq<Functor>>)

  lemma FollowupsFrom(batch: seq<Task>, i: nat, others: seq<seq<Functor>>, before: seq<Task>)
    requires i < |batch|
    ensures batch[..i + 1] == batch[..i] + [batch[i]] && batch[i..][0] == batch[i] && batch[i..][1..] == batch[i + 1..]
    ensures before + Followups(batch[i..], others) ==
            before + (Tagged(batch[i].f.queues, InFunctors) + Tagged(First(others), Remote))
            + Followups(batch[i + 1..], Later(others))
  {
    assert batch[i..][1..] == batch[i + 1..];
  }

  class EventLoop {
    var pendingFunctors: seq<Functor>
    var callingPendingFunctors: bool
    var quit: bool
    var wakeCount: nat
    ghost var s: State

    ghost predicate Linked()
      reads this
    {
      && pendingFunctors == Functors(s.queue.pending)
      && callingPendingFunctors == s.calling
      && quit == s.quit.asked
      && wakeCount == s.signal.count
    }

    constructor ()
      ensures Linked() && s == Init()
    {
      pendingFunctors, callingPendingFunctors, quit, wakeCount := [], false, false, 0;
      s := Init();
    }

    method Publish(cb: Functor, ghost a: Action)
      requires Linked() && (a == RemoteQueue(cb) || a == LocalQueue(cb)) && Enabled(s, a)
      modifies this
      ensures Linked() && s == Next(old(s), a)
    {
      pendingFunctors := pendingFunctors + [cb];
      s := Next(s, a);
    }

    method Wakeup(ghost a: Action)
      requires Linked() && (a.RemoteWake? || a.LocalWake?) && Enabled(s, a)
      modifies this
      ensures Linked() && s == Next(old(s), a)
    {
      wakeCount := wakeCount + 1;
      s := Next(s, a);
    }

    method HandleRead()
      requires Linked() && s.phase == Handlers(true)
      modifies this
      ensures Linked() && s == Next(old(s), Drain)
    {
      wakeCount := 0;
      s := Next(s, Drain);
    }

    method QueueInLoop(cb: Functor, inLoopThread: bool)
      requires Linked() && (inLoopThread ==> Enabled(s, LocalQueue(cb)))
      modifies this
      ensures Linked() && s == Exec(old(s), QueueSteps(cb, inLoopThread, old(s.calling)))
    {
      ghost var t := s;
      Publish(cb, if inLoopThread then LocalQueue(cb) else RemoteQueue(cb));
      TwoSteps(t, LocalQueue(cb), LocalWake);
      TwoSteps(t, RemoteQueue(cb), RemoteWake);
      if !inLoopThread || callingPendingFunctors {
        Wakeup(if inLoopThread then LocalWake else RemoteWake);
      }
    }

    /** functor(): what it queues goes through QueueInLoop on the loop thread. */
    method Invoke(f: Functor)
      requires Linked() && Inv(s) && s.phase.Running? && s.calling && !s.signal.selfWaking
      modifies this
      ensures Linked() && Inv(s) && Queued(old(s), s, Tagged(f.queues, InFunctors))
    {
      for i := 0 to |f.queues|
        invariant Linked() && Inv(s) && Queued(old(s), s, Tagged(f.queues[..i], InFunctors))
      {
        ghost var t := s;
        QueueInLoop(f.queues[i], true);
        QueueEffect(t, f.queues[i], true);
        ExecKeepsInv(t, QueueSteps(f.queues[i], true, true));
        assert Tagged(f.queues[..i + 1], InFunctors) == Tagged(f.queues[..i], InFunctors) + [Task(f.queues[i], InFunctors)];
      }
      assert f.queues[..|f.queues|] == f.queues;
    }

    /** Other threads that queue functors while one runs. */
    method Interfere(fs: seq<Functor>)
      requires Linked() && Inv(s) && s.phase.Running? && s.calling && !s.signal.selfWaking
      modifies this
      ensures Linked() && Inv(s) && Queued(old(s), s, Tagged(fs, Remote))
    {
      for i := 0 to |fs|
        invariant Linked() && Inv(s) && Queued(old(s), s, Tagged(fs[..i], Remote))
      {
        ghost var t := s;
        QueueInLoop(fs[i], false);
        QueueEffect(t, fs[i], false);
        ExecKeepsInv(t, QueueSteps(fs[i], false, true));
        assert Tagged(fs[..i + 1], Remote) == Tagged(fs[..i], Remote) + [Task(fs[i], Remote)];
      }
      assert fs[..|fs|] == fs;
    }

    /** functor() for the first of the batch, while other threads queue `meanwhile`. */
    method RunNext(f: Functor, meanwhile: seq<Functor>)
      requires Linked() && Inv(s) && s.phase.Running? && s.calling && !s.signal.selfWaking
      requires s.queue.batch != [] && s.queue.batch[0].f == f
      modifies this
      ensures Linked() && Inv(s) && s.phase.Running? && s.calling && !s.signal.selfWaking
      ensures s.quit == old(s.quit)
      ensures s.log.done == old(s.log.done) + [old(s.queue.batch[0])]
      ensures s.queue.batch == old(s.queue.batch)[1..]
      ensures s.queue.pending ==
              old(s.queue.pending) + (Tagged(f.queues, InFunctors) + Tagged(meanwhile, Remote))
      ensures wakeCount == old(wakeCount) + |f.queues| + |meanwhile|
    {
      Invoke(f);
      Interfere(meanwhile);
      NextKeepsInv(s, Run);
      s := Next(s, Run);
    }

    /** Everything between setting and clearing calling_pending_functors_, after the swap. */
    method RunBatch(functors: seq<Functor>, others: seq<seq<Functor>>)
      requires Linked() && Inv(s) && s.phase.Running? && s.calling && !s.signal.selfWaking
      requires functors == Functors(s.queue.batch) && s.queue.pending == []
      modifies this
      ensures Linked() && Inv(s) && s.phase.Running? && s.calling && !s.signal.selfWaking
      ensures s.quit == old(s.quit)
      ensures s.log.done == old(s.log.done) + old(s.queue.batch)
      ensures s.queue == Queue(Followups(old(s.queue.batch), others), [])
      ensures wakeCount == old(wakeCount) + |s.queue.pending|
    {
      ghost var batch := s.queue.batch;
      var rest := others;
      for i := 0 to |functors|
        invariant Linked() && Inv(s) && s.phase.Running? && s.calling && !s.signal.selfWaking
        invariant s.quit == old(s.quit)
        invariant s.queue.batch == batch[i..] && s.log.done == old(s.log.done) + batch[..i]
        invariant Followups(batch, others) == s.queue.pending + Followups(batch[i..], rest)
        invariant wakeCount == old(wakeCount) + |s.queue.pending|
      {
        FollowupsFrom(batch, i, rest, s.queue.pending);
        RunNext(functors[i], First(rest));
        rest := Later(rest);
      }
      assert batch[|functors|..] == [] && batch[..|functors|] == batch;
    }

    /** calling_pending_functors_ is set, then the vectors are swapped under the lock. */
    method SwapPending() returns (functors: seq<Functor>)
      requires Linked() && Inv(s) && s.phase == Handlers(false)
      modifies this
      ensures Linked() && Inv(s) && s == Next(Next(old(s), Call), Swap)
      ensures functors == Functors(s.queue.batch)
    {
      callingPendingFunctors := true;
      NextKeepsInv(s, Call);
      s := Next(s, Call);
      functors := pendingFunctors;
      pendingFunctors := [];
      NextKeepsInv(s, Swap);
      s := Next(s, Swap);
    }

    /**
     * Swap under the lock, then run the batch without it. others[i] is what
     * other threads queue while the i-th functor runs.
     */
    method DoPendingFunctors(others: seq<seq<Functor>>)
      requires Linked() && Inv(s) && s.phase == Handlers(false)
      modifies this
      ensures Linked() && Inv(s) && s.phase.Top? && !callingPendingFunctors
      ensures s.quit == old(s.quit)
      ensures s.log.done == old(s.log.done) + old(s.queue.pending)
      ensures s.queue == Queue(Followups(old(s.queue.pending), others), [])
      ensures wakeCount == old(wakeCount) + |s.queue.pending|
    {
      var functors := SwapPending();
      RunBatch(functors, others);
      callingPendingFunctors := false;
      NextKeepsInv(s, Finish);
      s := Next(s, Finish);
    }

    /** quit_ = true, and from another thread a wakeup as well. */
    method Quit(inLoopThread: bool)
      requires Linked() && (inLoopThread ==> Enabled(s, LocalQuit))
      modifies this
      ensures Linked() && quit
      ensures s == Exec(old(s), if inLoopThread then [LocalQuit] else [RemoteQuit, RemoteWake])
    {
      TwoSteps(s, LocalQuit, LocalQuit);
      TwoSteps(s, RemoteQuit, RemoteWake);
      quit := true;
      s := Next(s, if inLoopThread then LocalQuit else RemoteQuit);
      if !inLoopThread {
        Wakeup(RemoteWake);
      }
    }

    /** The test at the top of the loop: go round again exactly while quit_ is not set. */
    method TestQuit() returns (again: bool)
      requires Linked() && s.phase.Top?
      modifies this`s
      ensures Linked() && s == Next(old(s), Enter)
      ensures (again <==> s.phase.Timers?) && (again <==> !quit)
    {
      again := !quit;
      s := Next(s, Enter);
    }

    /** One round after the test: timers, the multiplexer, the handlers, the functors. */
    method GoRound(round: Round)
      requires Linked() && Inv(s) && s.phase.Timers? && !quit
      modifies this
      ensures Linked() && Inv(s) && s.phase.Top? && (quit <==> round.quits)
      ensures s.log.done == old(s.log.done) + old(s.queue.pending) + Tagged(round.queues, InHandlers)
    {
      NextKeepsInv(s, Poll);
      s := Next(s, Poll);
      NextKeepsInv(s, Ready(false));
      s := Next(s, Ready(false));
      Handle(round.queues);
      if round.quits {
        ExecKeepsInv(s, [LocalQuit]);
        TwoSteps(s, LocalQuit, LocalQuit);
        Quit(true);
      }
      DoPendingFunctors(round.others);
    }

    /** The active channels' handlers queue functors from the loop thread. */
    method Handle(queues: seq<Functor>)
      requires Linked() && Inv(s) && s.phase == Handlers(false) && !s.calling
      modifies this
      ensures Linked() && Inv(s)
      ensures s == old(s).(queue := old(s).queue.(pending := old(s).queue.pending + Tagged(queues, InHandlers)),
                           log := old(s).log.(queued := old(s).log.queued + Tagged(queues, InHandlers)))
    {
      for i := 0 to |queues|
        invariant Linked() && Inv(s)
        invariant s == old(s).(queue := old(s).queue.(pending := old(s).queue.pending + Tagged(queues[..i], InHandlers)),
                               log := old(s).log.(queued := old(s).log.queued + Tagged(queues[..i], InHandlers)))
      {
        TwoSteps(s, LocalQueue(queues[i]), LocalWake);
        NextKeepsInv(s, LocalQueue(queues[i]));
        QueueInLoop(queues[i], true);
        assert Tagged(queues[..i + 1], InHandlers) == Tagged(queues[..i], InHandlers) + [Task(queues[i], InHandlers)];
      }
      assert queues[..|queues|] == queues;
    }

    /**
     * Loop, until a handler calls Quit: it runs the rounds up to and including
     * the first that does, and no further one.
     */
    method Loop(rounds: seq<Round>) returns (n: nat)
      requires Linked() && Inv(s) && s.phase.Idle? && exists k :: 0 <= k < |rounds| && rounds[k].quits
      modifies this
      ensures Linked() && s.phase.Stopped?
      ensures 0 < n <= |rounds| && rounds[n - 1].quits && forall k | 0 <= k < n - 1 :: !rounds[k].quits
    {
      quit := false;
      NextKeepsInv(s, Start);
      s := Next(s, Start);
      n := 0;
      NextKeepsInv(s, Enter);
      var again := TestQuit();
      while again
        invariant Linked() && n <= |rounds|
        invariant again ==> Inv(s) && s.phase.Timers? && !quit && forall k | 0 <= k < n :: !rounds[k].quits
        invariant !again ==>
          s.phase.Stopped? && n > 0 && rounds[n - 1].quits && forall k | 0 <= k < n - 1 :: !rounds[k].quits
        decreases |rounds| - n, again
      {
        GoRound(rounds[n]);
        n := n + 1;
        NextKeepsInv(s, Enter);
        again := TestQuit();
      }
    }
  }

  /** From `s` to `t`, only `ts` were queued, each with its own wakeup. */
  predicate Queued(s: State, t: State, ts: seq<Task>) {
    t == s.(queue := s.queue.(pending := s.queue.pending + ts),
            log := s.log.(queued := s.log.queued + ts),
            signal := s.signal.(count := s.signal.count + |ts|))
  }

  lemma TwoSteps(s: State, a: Action, b: Action)
    ensures Exec(s, [a]) == Next(s, a) && Exec(s, [a, b]) == Next(Next(s, a), b)
  {
    assert [a, b][1..] == [b] && [a][1..] == [] && [b][1..] == [];
    assert Exec(Next(s, a), []) == Next(s, a);
    assert Exec(Next(Next(s, a), b), []) == Next(Next(s, a), b);
  }

  lemma LocalEffect(s: State, f: Functor)
    requires s.phase.Running? && s.calling && !s.signal.selfWaking
    ensures Queued(s, Next(Next(s, LocalQueue(f)), LocalWake), [Task(f, InFunctors)])
  {
    var t := Next(s, LocalQueue(f));
    assert t.signal == s.signal.(selfWaking := true);
    assert Next(t, LocalWake) == t.(signal := s.signal.(count := s.signal.count + 1));
  }

  lemma RemoteEffect(s: State, f: Functor)
    ensures Queued(s, Next(Next(s, RemoteQueue(f)), RemoteWake), [Task(f, Remote)])
  {
    var t := Next(s, RemoteQueue(f));
    assert t.signal == s.signal.(waking := s.signal.waking + 1);
    assert Next(t, RemoteWake) == t.(signal := s.signal.(count := s.signal.count + 1));
  }

  /** QueueInLoop while functors run: one more task, one more wakeup. */
  lemma QueueEffect(s: State, f: Functor, inLoopThread: bool)
    requires s.phase.Running? && s.calling && !s.signal.selfWaking
    ensures Queued(s, Exec(s, QueueSteps(f, inLoopThread, true)),
                   [Task(f, if inLoopThread then InFunctors else Remote)])
  {
    if inLoopThread {
      LocalEffect(s, f);
      TwoSteps(s, LocalQueue(f), LocalWake);
    } else {
      RemoteEffect(s, f);
      TwoSteps(s, RemoteQueue(f), RemoteWake);
    }
  }
}
