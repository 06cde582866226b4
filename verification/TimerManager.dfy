/** TimerManager over Timer objects whose keys change in place while the queue points to them. */
module TimerManager {
  import opened TimerHeap
  import Spec = TimerSpec

  class Timer {
    const id: nat
    var expiredTime: int
    var repeatedTimes: int
    const interval: int

    ghost function View(): Entry
      reads this
    {
      Entry(id, expiredTime, repeatedTimes, interval)
    }

    constructor (id: nat, expiredTime: int, repeatedTimes: int, interval: int)
      ensures View() == Entry(id, expiredTime, repeatedTimes, interval)
    {
      this.id, this.expiredTime, this.repeatedTimes, this.interval := id, expiredTime, repeatedTimes, interval;
    }

    method SetExpiredTime(t: int)
      modifies this
      ensures View() == old(View()).(expiry := t)
    {
      expiredTime := t;
    }

    method DecRepeatTimes()
      modifies this
      ensures View() == old(View()).(repeats := old(View()).repeats - 1)
    {
      repeatedTimes := repeatedTimes - 1;
    }
  }

  /** The pointers in `que` show the entries `h`. */
  ghost predicate Shows(que: seq<Timer>, h: seq<Entry>)
    reads que
  {
    |que| == |h| && forall i | 0 <= i < |que| :: que[i].View() == h[i]
  }

  ghost function Pointees(que: seq<Timer>): set<Timer> {
    set t | t in que
  }

  class TimerManager {
    var timersQue: seq<Timer>
    var nextId: nat
    ghost var q: Spec.Timers

    ghost predicate Linked()
      reads this, timersQue
    {
      Shows(timersQue, q.heap) && q.nextId == nextId
    }

    ghost predicate Valid()
      reads this, timersQue
    {
      Linked() && Spec.Valid(q)
    }

    constructor ()
      ensures Valid() && q == Spec.Timers([], 0)
    {
      timersQue, nextId := [], 0;
      q := Spec.Timers([], 0);
    }

    // ------------------------------------ std::priority_queue's push and pop

    method Push(t: Timer)
      requires Linked()
      modifies this
      ensures Linked() && q == old(q).(heap := TimerHeap.Push(old(q.heap), t.View()))
      ensures Pointees(timersQue) == Pointees(old(timersQue)) + {t}
    {
      timersQue := PushPointers(timersQue, t, q.heap);
      q := q.(heap := TimerHeap.Push(q.heap, t.View()));
    }

    method Pop()
      requires Linked() && timersQue != []
      modifies this
      ensures Linked() && q == old(q).(heap := TimerHeap.Pop(old(q.heap)))
      ensures Pointees(timersQue) <= Pointees(old(timersQue))
    {
      timersQue := PopPointers(timersQue, q.heap);
      q := q.(heap := TimerHeap.Pop(q.heap));
    }

    // -------------------------------------------------------- the manager

    method AddTimer(r: Spec.Request) returns (t: Timer?)
      requires Valid()
      modifies this
      ensures Valid() && q == Spec.Add(old(q), r)
      ensures t == null <==> r.interval <= 0
      ensures t != null ==> fresh(t) && Pointees(timersQue) == Pointees(old(timersQue)) + {t}
      ensures t == null ==> timersQue == old(timersQue)
    {
      Spec.AddKeeps(q, r);
      t := Schedule(r);
    }

    method Schedule(r: Spec.Request) returns (t: Timer?)
      requires Linked()
      modifies this
      ensures Linked() && q == Spec.Add(old(q), r)
      ensures t == null <==> r.interval <= 0
      ensures t != null ==> fresh(t) && Pointees(timersQue) == Pointees(old(timersQue)) + {t}
      ensures t == null ==> timersQue == old(timersQue)
    {
      if r.interval <= 0 {
        return null;
      }
      t := new Timer(nextId, r.at + r.interval, r.repeats, r.interval);
      Push(t);
      nextId := nextId + 1;
      q := q.(nextId := nextId);
    }

    /** timer->Run(): whatever the callback does to this manager is a series of AddTimer calls. */
    method RunCallback(adds: seq<Spec.Request>)
      requires Valid()
      modifies this
      ensures Valid() && q == Spec.AddAll(old(q), adds)
      ensures Pointees(old(timersQue)) <= Pointees(timersQue)
      ensures fresh(Pointees(timersQue) - Pointees(old(timersQue)))
    {
      var i := 0;
      while i < |adds|
        invariant i <= |adds| && Valid()
        invariant Spec.AddAll(q, adds[i..]) == Spec.AddAll(old(q), adds)
        invariant Pointees(old(timersQue)) <= Pointees(timersQue)
        invariant fresh(Pointees(timersQue) - Pointees(old(timersQue)))
      {
        var t := AddTimer(adds[i]);
        assert adds[i..][1..] == adds[i + 1..];
        i := i + 1;
      }
    }

    /** SetExpiredTime and DecRepeatTimes on the queued object itself. */
    method RekeyRoot(now: int)
      requires Linked() && timersQue != [] && forall t :: multiset(q.heap)[t] <= 1
      modifies this`q, timersQue[0]
      ensures Linked()
      ensures q == old(q).(heap := Spec.Rekey(old(q.heap), old(q.heap[0]), Spec.Again(old(q.heap[0]), now)))
    {
      ghost var root := q.heap[0];
      OthersDiffer(timersQue, q.heap);
      var timer := timersQue[0];
      timer.SetExpiredTime(now + timer.interval);
      timer.DecRepeatTimes();
      q := q.(heap := Spec.Rekey(q.heap, root, Spec.Again(root, now)));
    }

    method RequeueRoot(now: int)
      requires Linked() && timersQue != [] && forall t :: multiset(q.heap)[t] <= 1
      modifies this, timersQue[0]
      ensures Linked() && q == Spec.Requeue(old(q), old(q.heap[0]), now)
      ensures Pointees(timersQue) <= Pointees(old(timersQue))
    {
      var timer := timersQue[0];
      if timer.repeatedTimes == 0 {
        Pop();
      } else {
        RekeyRoot(now);
        Pop();
        Push(timer);
      }
    }

    /** One round of the pass, with the key of the root changed in place before it is popped. */
    method FireRoot(now: int, adds: seq<Spec.Request>)
      requires Valid() && Spec.Due(q, now) && Spec.Monotone(adds, now)
      modifies this, timersQue[0]
      ensures Valid() && q == Spec.Fire(old(q), now, adds)
      ensures fresh(Pointees(timersQue) - Pointees(old(timersQue)))
    {
      ghost var timer := timersQue[0];
      FireFacts(q, now, adds);
      assert timer in Pointees(timersQue);
      RunCallback(adds);
      RootPointer(timersQue, q.heap, timer);
      RequeueRoot(now);
    }

    method FireNext(now: int, rest: seq<seq<Spec.Request>>, ghost log: seq<Entry>, ghost goal: Spec.Fired)
      returns (ghost log': seq<Entry>)
      requires Linked() && Remaining(q, now, rest, log, goal) && Spec.Due(q, now)
      modifies this, timersQue[0]
      ensures Linked() && Remaining(q, now, Spec.Rest(rest), log', goal)
      ensures Spec.DueSet(q, now) < old(Spec.DueSet(q, now))
      ensures fresh(Pointees(timersQue) - Pointees(old(timersQue)))
    {
      RemainingStep(q, now, rest, log, goal);
      log' := log + [q.heap[0]];
      FireRoot(now, Spec.Callback(rest));
    }

    /**
     * The pass: it fires every due timer as the specification says, and it
     * ends although callbacks keep adding timers.
     */
    method CheckAndHandle(now: int, script: seq<seq<Spec.Request>>) returns (ghost log: seq<Entry>)
      requires Valid() && Spec.MonotoneScript(script, now)
      modifies this, timersQue
      ensures Valid() && fresh(Pointees(timersQue) - Pointees(old(timersQue)))
      ensures q == Spec.CheckAndHandle(old(q), now, script).q
      ensures log == Spec.CheckAndHandle(old(q), now, script).log
    {
      log := [];
      var rest := script;
      ghost var goal := Spec.CheckAndHandle(q, now, script);
      ghost var before := Pointees(timersQue);
      while timersQue != [] && timersQue[0].expiredTime <= now
        invariant Linked() && Remaining(q, now, rest, log, goal)
        invariant fresh(Pointees(timersQue) - before)
        decreases Spec.DueSet(q, now)
      {
        ghost var had := Pointees(timersQue);
        assert timersQue[0] in had;
        log := FireNext(now, rest, log, goal);
        assert Pointees(timersQue) - before <= (Pointees(timersQue) - had) + (had - before);
        rest := Spec.Rest(rest);
      }
      RemainingDone(q, now, rest, log, goal);
    }

    /** Pop every timer and push all but the removed one onto a new queue. */
    method RemoveTimer(timer: Timer)
      requires Valid()
      modifies this
      ensures Valid() && q == Spec.Remove(old(q), timer.id)
    {
      RemoveKeepsValid(q, timer.id);
      RebuildWithout(timer.id);
    }

    method RebuildWithout(id: nat)
      requires Linked() && IsHeap(q.heap)
      modifies this
      ensures Linked() && q == Spec.Remove(old(q), id)
    {
      timersQue := RemovePointer(timersQue, id, q.heap);
      q := Spec.Remove(q, id);
    }
  }

  /** After `log`, the rest of the pass leads to `goal`. */
  ghost predicate Remaining(q: Spec.Timers, now: int, rest: seq<seq<Spec.Request>>, log: seq<Entry>, goal: Spec.Fired) {
    && Spec.Valid(q) && Spec.MonotoneScript(rest, now)
    && goal.q == Spec.CheckAndHandle(q, now, rest).q
    && goal.log == log + Spec.CheckAndHandle(q, now, rest).log
  }

  lemma RemainingStep(q: Spec.Timers, now: int, rest: seq<seq<Spec.Request>>, log: seq<Entry>, goal: Spec.Fired)
    requires Remaining(q, now, rest, log, goal) && Spec.Due(q, now)
    ensures var q' := Spec.Fire(q, now, Spec.Callback(rest));
      && Remaining(q', now, Spec.Rest(rest), log + [q.heap[0]], goal)
      && Spec.DueSet(q', now) < Spec.DueSet(q, now)
  {
    Spec.PassUnfolds(q, now, rest);
    Spec.FireShrinksDue(q, now, Spec.Callback(rest));
  }

  lemma RemainingDone(q: Spec.Timers, now: int, rest: seq<seq<Spec.Request>>, log: seq<Entry>, goal: Spec.Fired)
    requires Remaining(q, now, rest, log, goal) && !Spec.Due(q, now)
    ensures Spec.Valid(q) && goal.q == q && goal.log == log
  {
  }

  lemma FireFacts(q: Spec.Timers, now: int, adds: seq<Spec.Request>)
    requires Spec.Valid(q) && Spec.Due(q, now) && Spec.Monotone(adds, now)
    ensures var q1 := Spec.AddAll(q, adds);
      && q1.heap != [] && q1.heap[0] == q.heap[0] && (forall t :: multiset(q1.heap)[t] <= 1)
      && Spec.Fire(q, now, adds) == Spec.Requeue(q1, q1.heap[0], now)
    ensures Spec.Valid(Spec.Fire(q, now, adds))
  {
    Spec.FireKeeps(q, now, adds);
    Spec.RootStays(q, adds, now);
    Spec.AddAllKeeps(q, adds);
  }

  /** cmp(b, a): the comparison reads the timers' current keys. */
  predicate Comes(a: Timer, b: Timer)
    reads a, b
    ensures Comes(a, b) <==> Before(a.View(), b.View())
  {
    if a.expiredTime == b.expiredTime then a.repeatedTimes < b.repeatedTimes else a.expiredTime < b.expiredTime
  }

  /** std::push_heap: move the last element up. */
  method SiftUpPointers(que: seq<Timer>, ghost h0: seq<Entry>) returns (r: seq<Timer>)
    requires Shows(que, h0) && que != []
    ensures Shows(r, SiftUp(h0, |h0| - 1)) && multiset(r) == multiset(que)
  {
    r := que;
    ghost var h := h0;
    var i: nat := |r| - 1;
    while i > 0 && Comes(r[i], r[Parent(i)])
      invariant i < |r| && Shows(r, h) && SiftUp(h, i) == SiftUp(h0, |h0| - 1)
      invariant multiset(r) == multiset(que)
    {
      ExchangeShows(r, h, i, Parent(i));
      h, r, i := Exchange(h, i, Parent(i)), ExchangePointers(r, i, Parent(i)), Parent(i);
    }
  }

  method PushPointers(que: seq<Timer>, t: Timer, ghost h: seq<Entry>) returns (r: seq<Timer>)
    requires Shows(que, h)
    ensures Shows(r, TimerHeap.Push(h, t.View())) && Pointees(r) == Pointees(que) + {t}
    ensures |r| == |que| + 1
  {
    r := SiftUpPointers(que + [t], h + [t.View()]);
    SameBag(que + [t], r);
  }

  lemma SameBag(a: seq<Timer>, b: seq<Timer>)
    requires multiset(a) >= multiset(b)
    ensures Pointees(b) <= Pointees(a)
    ensures multiset(a) == multiset(b) ==> Pointees(a) == Pointees(b) && |a| == |b|
  {
    assert forall t | t in b :: t in multiset(b) && t in multiset(a);
    assert multiset(a) == multiset(b) ==> forall t | t in a :: t in multiset(a);
    assert |multiset(a)| == |a| && |multiset(b)| == |b|;
  }

  function ExchangePointers(que: seq<Timer>, i: nat, j: nat): seq<Timer>
    requires i < |que| && j < |que|
  {
    que[i := que[j]][j := que[i]]
  }

  lemma ExchangeShows(que: seq<Timer>, h: seq<Entry>, i: nat, j: nat)
    requires Shows(que, h) && i < |que| && j < |que|
    ensures Shows(ExchangePointers(que, i, j), Exchange(h, i, j))
    ensures multiset(ExchangePointers(que, i, j)) == multiset(que)
  {
  }

  method FirstPointer(que: seq<Timer>, i: nat, ghost h: seq<Entry>) returns (c: nat)
    requires Shows(que, h) && 2 * i + 1 < |que|
    ensures c == FirstChild(h, i)
  {
    c := 2 * i + 1;
    if 2 * i + 2 < |que| && Comes(que[2 * i + 2], que[2 * i + 1]) {
      c := 2 * i + 2;
    }
  }

  /** std::pop_heap: move the element put at the root down. */
  method SiftDownPointers(que: seq<Timer>, ghost h0: seq<Entry>) returns (r: seq<Timer>)
    requires Shows(que, h0) && que != []
    ensures Shows(r, SiftDown(h0, 0)) && multiset(r) == multiset(que)
  {
    r := que;
    ghost var h := h0;
    var i: nat := 0;
    while 2 * i + 1 < |r|
      invariant i < |r| && Shows(r, h) && SiftDown(h, i) == SiftDown(h0, 0)
      invariant multiset(r) == multiset(que)
      decreases |r| - i
    {
      var c := FirstPointer(r, i, h);
      if !Comes(r[c], r[i]) {
        return;
      }
      ExchangeShows(r, h, i, c);
      h, r, i := Exchange(h, i, c), ExchangePointers(r, i, c), c;
    }
  }

  method PopPointers(que: seq<Timer>, ghost h: seq<Entry>) returns (r: seq<Timer>)
    requires Shows(que, h) && que != []
    ensures Shows(r, TimerHeap.Pop(h)) && Pointees(r) <= Pointees(que) && |r| == |que| - 1
  {
    var last := |que| - 1;
    if last == 0 {
      r := [];
    } else {
      var moved := [que[last]] + que[1..last];
      r := SiftDownPointers(moved, [h[last]] + h[1..last]);
      SameBag(moved, r);
    }
  }

  lemma RemoveKeepsValid(q: Spec.Timers, id: nat)
    requires Spec.Valid(q)
    ensures Spec.Valid(Spec.Remove(q, id))
  {
    Spec.RemoveExactly(q, id);
  }

  method RemovePointer(que: seq<Timer>, id: nat, ghost h0: seq<Entry>) returns (kept: seq<Timer>)
    requires Shows(que, h0) && IsHeap(h0)
    ensures Shows(kept, Spec.Rebuild(h0, id, []))
  {
    var rest := que;
    ghost var h, g: seq<Entry> := h0, [];
    kept := [];
    while rest != []
      invariant Shows(rest, h) && IsHeap(h) && Shows(kept, g)
      invariant Spec.Rebuild(h, id, g) == Spec.Rebuild(h0, id, [])
      decreases |rest|
    {
      PopHeap(h);
      if rest[0].id != id {
        kept := PushPointers(kept, rest[0], g);
        g := TimerHeap.Push(g, h[0]);
      }
      rest := PopPointers(rest, h);
      h := TimerHeap.Pop(h);
    }
  }

  /** The timer that shows the root's entry is the root. */
  lemma OthersDiffer(que: seq<Timer>, h: seq<Entry>)
    requires Shows(que, h) && h != [] && (forall t :: multiset(h)[t] <= 1)
    ensures forall i | 0 < i < |que| :: que[i] != que[0] && h[i] != h[0]
  {
    assert h == [h[0]] + h[1..];
    assert multiset(h)[h[0]] == 1 + multiset(h[1..])[h[0]];
    forall i | 0 < i < |h| ensures h[i] != h[0] {
      assert h[i] == h[1..][i - 1];
      assert h[i] in multiset(h[1..]);
    }
  }

  lemma RootPointer(que: seq<Timer>, h: seq<Entry>, timer: Timer)
    requires Shows(que, h) && h != [] && (forall t :: multiset(h)[t] <= 1)
    requires timer in Pointees(que) && timer.View() == h[0]
    ensures que[0] == timer
  {
    OthersDiffer(que, h);
    var k :| 0 <= k < |que| && que[k] == timer;
  }
}
