/** Whole runs of a timer manager: how often each timer fires before it leaves. */
module TimerRuns {
  import opened TimerHeap
  import opened TimerSpec

  /** The queue, every timer ever created (its id is its index), every fire, and what was removed. */
  datatype World = World(q: Timers, born: seq<Entry>, log: seq<Entry>, removed: set<nat>)

  datatype Op = AddTimer(r: Request) | RemoveTimer(id: nat) | Check(now: int, script: seq<seq<Request>>)

  function Empty(): World {
    World(Timers([], 0), [], [], {})
  }

  /** The clock never runs backwards while a pass runs its callbacks. */
  predicate Allowed(op: Op) {
    op.Check? ==> MonotoneScript(op.script, op.now)
  }

  function Apply(w: World, op: Op): World
    requires Valid(w.q) && Allowed(op)
  {
    match op
    case AddTimer(r) => w.(q := Add(w.q, r), born := w.born + Created(w.q.nextId, [r]))
    case RemoveTimer(id) => w.(q := Remove(w.q, id), removed := w.removed + {id})
    case Check(now, script) =>
      var p := CheckAndHandle(w.q, now, script);
      World(p.q, w.born + p.created, w.log + p.log, w.removed)
  }

  // ------------------------------------------------------- accounting

  function Fires(log: seq<Entry>, id: nat): nat {
    if log == [] then 0
    else Fires(log[..|log| - 1], id) + if log[|log| - 1].id == id then 1 else 0
  }

  ghost predicate Queued(bag: multiset<Entry>, id: nat) {
    exists t :: t in bag && t.id == id
  }

  /** A queued timer: fires so far plus fires left is what it was created with. */
  predicate Balanced(t: Entry, born: seq<Entry>, log: seq<Entry>) {
    && t.id < |born|
    && Fires(log, t.id) + t.repeats == born[t.id].repeats
    && (born[t.id].repeats >= 0 ==> t.repeats >= 0)
  }

  /** A timer that left by itself fired once more than it was to repeat. */
  predicate Spent(id: nat, born: seq<Entry>, log: seq<Entry>)
    requires id < |born|
  {
    born[id].repeats >= 0 && Fires(log, id) == born[id].repeats + 1
  }

  ghost predicate Account(bag: multiset<Entry>, born: seq<Entry>, log: seq<Entry>, removed: set<nat>) {
    && (forall t | t in log :: t.id < |born|)
    && (forall id | 0 <= id < |born| :: born[id].id == id)
    && (forall t | t in bag :: Balanced(t, born, log))
    && (forall id | 0 <= id < |born| && id !in removed :: Queued(bag, id) || Spent(id, born, log))
  }

  ghost predicate Inv(w: World) {
    Valid(w.q) && w.q.nextId == |w.born| && Account(multiset(w.q.heap), w.born, w.log, w.removed)
  }

  lemma FiresSnoc(log: seq<Entry>, t: Entry, id: nat)
    ensures Fires(log + [t], id) == Fires(log, id) + if t.id == id then 1 else 0
  {
    assert (log + [t])[..|log|] == log;
  }

  lemma {:induction false} NeverFired(log: seq<Entry>, id: nat)
    requires forall t | t in log :: t.id != id
    ensures Fires(log, id) == 0
  {
    if log != [] {
      assert log[|log| - 1] in log;
      NeverFired(log[..|log| - 1], id);
    }
  }

  lemma {:induction false} CreatedIds(nextId: nat, rs: seq<Request>, k: nat)
    requires k < |Created(nextId, rs)|
    ensures Created(nextId, rs)[k].id == nextId + k
    decreases |rs|
  {
    if rs[0].interval <= 0 {
      CreatedIds(nextId, rs[1..], k);
    } else if k > 0 {
      CreatedIds(nextId + 1, rs[1..], k - 1);
    }
  }

  lemma StaysQueued(bag: multiset<Entry>, bag': multiset<Entry>, id: nat)
    requires forall t | t in bag && t.id == id :: t in bag'
    ensures Queued(bag, id) ==> Queued(bag', id)
  {
  }

  lemma CreateBalances(born: seq<Entry>, log: seq<Entry>, rs: seq<Request>, t: Entry)
    requires forall t | t in log :: t.id < |born|
    requires t in Created(|born|, rs)
    ensures |born| <= t.id < |born| + |Created(|born|, rs)|
    ensures Balanced(t, born + Created(|born|, rs), log)
  {
    var c := Created(|born|, rs);
    var k :| 0 <= k < |c| && c[k] == t;
    CreatedIds(|born|, rs, k);
    NeverFired(log, |born| + k);
    assert (born + c)[|born| + k] == t;
  }

  lemma CreateQueues(born: seq<Entry>, bag: multiset<Entry>, rs: seq<Request>, id: nat)
    requires |born| <= id < |born| + |Created(|born|, rs)|
    ensures Queued(bag + multiset(Created(|born|, rs)), id)
    ensures (born + Created(|born|, rs))[id].id == id
  {
    CreatedIds(|born|, rs, id - |born|);
    assert Created(|born|, rs)[id - |born|] in bag + multiset(Created(|born|, rs));
  }

  /** New timers enter the account with no fires. */
  lemma CreateAccounts(bag: multiset<Entry>, born: seq<Entry>, log: seq<Entry>, removed: set<nat>,
                       rs: seq<Request>)
    requires Account(bag, born, log, removed)
    ensures var c := Created(|born|, rs);
      Account(bag + multiset(c), born + c, log, removed)
  {
    var c := Created(|born|, rs);
    var bag', born' := bag + multiset(c), born + c;
    forall t | t in bag'
      ensures Balanced(t, born', log)
    {
      if t in bag {
        assert Balanced(t, born, log);
      } else {
        CreateBalances(born, log, rs, t);
      }
    }
    forall id | 0 <= id < |born'|
      ensures born'[id].id == id
      ensures id !in removed ==> Queued(bag', id) || Spent(id, born', log)
    {
      if id < |born| {
        StaysQueued(bag, bag', id);
      } else {
        CreateQueues(born, bag, rs, id);
      }
    }
  }

  lemma RequeueBalances(bag: multiset<Entry>, born: seq<Entry>, log: seq<Entry>, removed: set<nat>,
                        t: Entry, now: int)
    requires Distinct(bag, |born|) && t in bag && Account(bag, born, log, removed)
    ensures Balanced(t, born, log)
    ensures forall u | u in bag - multiset{t} + multiset(Leftover(t, now)) :: Balanced(u, born, log + [t])
  {
    assert Balanced(t, born, log);
    forall u | u in bag - multiset{t} + multiset(Leftover(t, now))
      ensures Balanced(u, born, log + [t])
    {
      FiresSnoc(log, t, u.id);
      if u !in Leftover(t, now) {
        assert bag[t] == 1;
        assert Balanced(u, born, log);
      }
    }
  }

  /** Firing moves one unit of the account, and the last fire closes it. */
  lemma RequeueAccounts(bag: multiset<Entry>, born: seq<Entry>, log: seq<Entry>, removed: set<nat>,
                        t: Entry, now: int)
    requires Distinct(bag, |born|) && t in bag && Account(bag, born, log, removed)
    ensures Account(bag - multiset{t} + multiset(Leftover(t, now)), born, log + [t], removed)
  {
    var bag' := bag - multiset{t} + multiset(Leftover(t, now));
    RequeueBalances(bag, born, log, removed, t, now);
    forall id | 0 <= id < |born| && id !in removed
      ensures Queued(bag', id) || Spent(id, born, log + [t])
    {
      FiresSnoc(log, t, id);
      if id != t.id {
        StaysQueued(bag, bag', id);
      } else if t.repeats != 0 {
        assert Again(t, now) in bag';
      }
    }
  }

  lemma FireAccounts(q: Timers, born: seq<Entry>, log: seq<Entry>, removed: set<nat>, now: int, adds: seq<Request>)
    requires Valid(q) && Due(q, now) && Monotone(adds, now) && q.nextId == |born|
    requires Account(multiset(q.heap), born, log, removed)
    ensures Account(multiset(Fire(q, now, adds).heap), born + Created(q.nextId, adds), log + [q.heap[0]], removed)
  {
    CreateAccounts(multiset(q.heap), born, log, removed, adds);
    AddAllKeeps(q, adds);
    var q1 := AddAll(q, adds);
    RootStays(q, adds, now);
    RequeueKeeps(q1, now);
    assert q1.heap[0] in multiset(q1.heap);
    RequeueAccounts(multiset(q1.heap), born + Created(q.nextId, adds), log, removed, q.heap[0], now);
  }

  lemma {:induction false} PassAccounts(q: Timers, born: seq<Entry>, log: seq<Entry>, removed: set<nat>,
                                        now: int, script: seq<seq<Request>>)
    requires Valid(q) && MonotoneScript(script, now) && q.nextId == |born|
    requires Account(multiset(q.heap), born, log, removed)
    ensures var p := CheckAndHandle(q, now, script);
      Account(multiset(p.q.heap), born + p.created, log + p.log, removed)
    decreases DueSet(q, now)
  {
    if Due(q, now) {
      var adds := Callback(script);
      FireShrinksDue(q, now, adds);
      PassUnfolds(q, now, script);
      FireAccounts(q, born, log, removed, now, adds);
      var c, q' := Created(q.nextId, adds), Fire(q, now, adds);
      PassAccounts(q', born + c, log + [q.heap[0]], removed, now, Rest(script));
      var r := CheckAndHandle(q', now, Rest(script));
      Regroup(born, c, r.created);
      Regroup(log, [q.heap[0]], r.log);
    } else {
      assert born + [] == born && log + [] == log;
    }
  }

  lemma Regroup<T>(a: seq<T>, b: seq<T>, c: seq<T>)
    ensures a + (b + c) == a + b + c
  {
  }

  lemma RemoveAccounts(bag: multiset<Entry>, rest: multiset<Entry>, id: nat,
                       born: seq<Entry>, log: seq<Entry>, removed: set<nat>)
    requires Account(bag, born, log, removed) && Without(bag, id, rest)
    ensures Account(rest, born, log, removed + {id})
  {
    forall t | t in rest
      ensures Balanced(t, born, log)
    {
      assert t in bag;
    }
    forall k | 0 <= k < |born| && k !in removed + {id}
      ensures Queued(rest, k) || Spent(k, born, log)
    {
      StaysQueued(bag, rest, k);
    }
  }

  lemma ApplyKeepsInv(w: World, op: Op)
    requires Inv(w) && Allowed(op)
    ensures Inv(Apply(w, op))
  {
    match op {
      case AddTimer(r) =>
        AddAllKeeps(w.q, [r]);
        assert AddAll(w.q, [r]) == AddAll(Add(w.q, r), []) == Add(w.q, r);
        CreateAccounts(multiset(w.q.heap), w.born, w.log, w.removed, [r]);
      case RemoveTimer(id) =>
        RemoveExactly(w.q, id);
        RemoveAccounts(multiset(w.q.heap), multiset(Remove(w.q, id).heap), id, w.born, w.log, w.removed);
      case Check(now, script) =>
        PassValid(w.q, now, script);
        PassCreates(w.q, now, script);
        PassAccounts(w.q, w.born, w.log, w.removed, now, script);
    }
  }

  /** The state after a run, together with the proof that every prefix was valid. */
  function Exec(ops: seq<Op>): (w: World)
    requires forall op | op in ops :: Allowed(op)
    ensures Inv(w)
  {
    if ops == [] then Empty()
    else
      var w := Exec(ops[..|ops| - 1]);
      assert ops[|ops| - 1] in ops;
      ApplyKeepsInv(w, ops[|ops| - 1]);
      Apply(w, ops[|ops| - 1])
  }

  /** What the account says of one timer. */
  ghost predicate Reckoned(w: World, id: nat)
    requires id < |w.born|
  {
    && (forall t | t in w.q.heap && t.id == id :: Fires(w.log, id) + t.repeats == w.born[id].repeats)
    && (id !in w.removed && w.born[id].repeats >= 0 ==>
        (!Queued(multiset(w.q.heap), id) <==> Fires(w.log, id) == w.born[id].repeats + 1))
    && (id !in w.removed && w.born[id].repeats < 0 ==> Queued(multiset(w.q.heap), id))
  }

  lemma AccountReckons(w: World, id: nat)
    requires Inv(w) && id < |w.born|
    ensures Reckoned(w, id)
  {
    var bag := multiset(w.q.heap);
    assert forall t | t in w.q.heap :: t in bag && Balanced(t, w.born, w.log);
  }

  /**
   * Timer conservation over whole runs. While a timer is queued, its fires so
   * far plus its repeats left are what it was created with. A timer created
   * with r >= 0 and never removed is gone exactly when it has fired r + 1 times.
   */
  lemma FiresExactly(ops: seq<Op>, id: nat)
    requires forall op | op in ops :: Allowed(op)
    ensures id < |Exec(ops).born| ==> Reckoned(Exec(ops), id)
  {
    if id < |Exec(ops).born| {
      AccountReckons(Exec(ops), id);
    }
  }
}
