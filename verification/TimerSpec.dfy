/** TimerManager as a value machine: adding, removing, and the pass that fires every due timer. */
module TimerSpec {
  import opened TimerHeap

  /** What a callback asked for, and the clock when it asked. */
  datatype Request = Request(repeats: int, interval: int, at: int)

  datatype Timers = Timers(heap: seq<Entry>, nextId: nat)

  /** AddTimer ignores non-positive intervals. */
  function Add(q: Timers, r: Request): Timers {
    if r.interval <= 0 then q
    else Timers(Push(q.heap, Entry(q.nextId, r.at + r.interval, r.repeats, r.interval)), q.nextId + 1)
  }

  function AddAll(q: Timers, rs: seq<Request>): Timers
    decreases |rs|
  {
    if rs == [] then q else AddAll(Add(q, rs[0]), rs[1..])
  }

  /** The key a repeating timer is queued under again. */
  function Again(t: Entry, now: int): Entry {
    t.(expiry := now + t.interval, repeats := t.repeats - 1)
  }

  /** Changing a timer in place changes it wherever the queue points to it. */
  function Rekey(h: seq<Entry>, timer: Entry, again: Entry): seq<Entry> {
    seq(|h|, i requires 0 <= i < |h| => if h[i] == timer then again else h[i])
  }

  /** After `timer` ran: delete it or change its key, pop the root, and push a repeating one again. */
  function Requeue(q: Timers, timer: Entry, now: int): Timers
    requires q.heap != []
  {
    if timer.repeats == 0 then q.(heap := Pop(q.heap))
    else q.(heap := Push(Pop(Rekey(q.heap, timer, Again(timer, now))), Again(timer, now)))
  }

  /** One round of the pass: the root's callback, which may add timers, then the bookkeeping. */
  function Fire(q: Timers, now: int, adds: seq<Request>): Timers
    requires q.heap != []
  {
    var q1 := AddAll(q, adds);
    if q1.heap == [] then q1 else Requeue(q1, q.heap[0], now)
  }

  predicate Due(q: Timers, now: int) {
    q.heap != [] && q.heap[0].expiry <= now
  }

  // -------------------------------------------------------- invariants

  /** No two timers of a bag are the same timer, every interval is positive. */
  ghost predicate Distinct(bag: multiset<Entry>, nextId: nat) {
    && (forall t :: bag[t] <= 1)
    && (forall t | t in bag :: t.id < nextId && t.interval > 0)
    && (forall t, u | t in bag && u in bag && t.id == u.id :: t == u)
  }

  ghost predicate Valid(q: Timers) {
    IsHeap(q.heap) && Distinct(multiset(q.heap), q.nextId)
  }

  /** Nobody reads a clock older than `now`. */
  predicate Monotone(rs: seq<Request>, now: int) {
    forall r | r in rs :: r.at >= now
  }

  /** The timers that AddAll creates. */
  function Created(nextId: nat, rs: seq<Request>): seq<Entry>
    decreases |rs|
  {
    if rs == [] then []
    else if rs[0].interval <= 0 then Created(nextId, rs[1..])
    else [Entry(nextId, rs[0].at + rs[0].interval, rs[0].repeats, rs[0].interval)] + Created(nextId + 1, rs[1..])
  }

  ghost predicate Later(ts: seq<Entry>, now: int, lo: nat) {
    forall t | t in ts :: t.expiry > now && t.id >= lo
  }

  ghost function DueSet(q: Timers, now: int): set<Entry> {
    set t | t in multiset(q.heap) && t.expiry <= now
  }

  /** What firing `t` leaves in the queue. */
  function Leftover(t: Entry, now: int): seq<Entry> {
    if t.repeats == 0 then [] else [Again(t, now)]
  }

  // ----------------------------------------------------------- adding

  lemma DistinctAdd(bag: multiset<Entry>, nextId: nat, t: Entry)
    requires Distinct(bag, nextId) && t.id == nextId && t.interval > 0
    ensures Distinct(bag + multiset{t}, nextId + 1)
  {
    assert t !in bag;
  }

  lemma DistinctReplace(bag: multiset<Entry>, nextId: nat, t: Entry, u: Entry)
    requires Distinct(bag, nextId) && t in bag && u.id == t.id && u.interval > 0
    ensures Distinct(bag - multiset{t}, nextId) && Distinct(bag - multiset{t} + multiset{u}, nextId)
  {
    assert t !in bag - multiset{t};
    assert u !in bag - multiset{t};
  }

  lemma AddKeeps(q: Timers, r: Request)
    requires Valid(q)
    ensures Valid(Add(q, r))
  {
    if r.interval > 0 {
      var t := Entry(q.nextId, r.at + r.interval, r.repeats, r.interval);
      PushHeap(q.heap, t);
      DistinctAdd(multiset(q.heap), q.nextId, t);
    }
  }

  lemma {:induction false} AddAllValid(q: Timers, rs: seq<Request>)
    requires Valid(q)
    ensures Valid(AddAll(q, rs))
    decreases |rs|
  {
    if rs != [] {
      AddKeeps(q, rs[0]);
      AddAllValid(Add(q, rs[0]), rs[1..]);
    }
  }

  lemma {:induction false} AddAllBag(q: Timers, rs: seq<Request>)
    requires IsHeap(q.heap)
    ensures AddAll(q, rs).nextId == q.nextId + |Created(q.nextId, rs)|
    ensures multiset(AddAll(q, rs).heap) == multiset(q.heap) + multiset(Created(q.nextId, rs))
    decreases |rs|
  {
    if rs != [] {
      if rs[0].interval > 0 {
        var t := Entry(q.nextId, rs[0].at + rs[0].interval, rs[0].repeats, rs[0].interval);
        PushHeap(q.heap, t);
        var rest := Created(q.nextId + 1, rs[1..]);
        assert multiset([t] + rest) == multiset{t} + multiset(rest);
      }
      AddAllBag(Add(q, rs[0]), rs[1..]);
    }
  }

  lemma AddAllKeeps(q: Timers, rs: seq<Request>)
    requires Valid(q)
    ensures Valid(AddAll(q, rs)) && AddAll(q, rs).nextId == q.nextId + |Created(q.nextId, rs)|
    ensures multiset(AddAll(q, rs).heap) == multiset(q.heap) + multiset(Created(q.nextId, rs))
  {
    AddAllValid(q, rs);
    AddAllBag(q, rs);
  }

  /** Timers added by a callback are not due, so the timer being fired stays the root. */
  lemma {:induction false} RootStays(q: Timers, rs: seq<Request>, now: int)
    requires Due(q, now) && Monotone(rs, now)
    ensures AddAll(q, rs).heap != [] && AddAll(q, rs).heap[0] == q.heap[0]
    ensures Later(Created(q.nextId, rs), now, q.nextId)
    decreases |rs|
  {
    if rs != [] {
      var q' := Add(q, rs[0]);
      assert rs[0] in rs;
      if rs[0].interval > 0 {
        var t := Entry(q.nextId, rs[0].at + rs[0].interval, rs[0].repeats, rs[0].interval);
        SiftUpKeepsRoot(q.heap + [t], |q.heap|);
      }
      RootStays(q', rs[1..], now);
    }
  }

  // ----------------------------------------------------------- firing

  lemma RekeyRoot(h: seq<Entry>, again: Entry)
    requires h != [] && (forall t :: multiset(h)[t] <= 1)
    ensures Rekey(h, h[0], again) == h[0 := again]
  {
    assert h == [h[0]] + h[1..];
    assert multiset(h)[h[0]] == 1 + multiset(h[1..])[h[0]];
    forall i | 0 < i < |h| ensures h[i] != h[0] {
      assert h[i] == h[1..][i - 1];
      assert h[i] in multiset(h[1..]);
    }
  }

  lemma RequeueKeeps(q: Timers, now: int)
    requires Valid(q) && q.heap != []
    ensures var q' := Requeue(q, q.heap[0], now);
      && Valid(q') && q'.nextId == q.nextId
      && multiset(q'.heap) == multiset(q.heap) - multiset{q.heap[0]} + multiset(Leftover(q.heap[0], now))
  {
    var timer := q.heap[0];
    RekeyRoot(q.heap, Again(timer, now));
    PopRaisedRoot(q.heap, Again(timer, now));
    DistinctReplace(multiset(q.heap), q.nextId, timer, Again(timer, now));
    PushHeap(Pop(q.heap), Again(timer, now));
  }

  /** One round of the pass: exactly the root is used up, and nothing due is added. */
  lemma FireKeeps(q: Timers, now: int, adds: seq<Request>)
    requires Valid(q) && Due(q, now) && Monotone(adds, now)
    ensures var q' := Fire(q, now, adds);
      && Valid(q') && q'.nextId == q.nextId + |Created(q.nextId, adds)|
      && multiset(q'.heap) == multiset(q.heap) + multiset(Created(q.nextId, adds)) - multiset{q.heap[0]} +
           multiset(Leftover(q.heap[0], now))
  {
    AddAllKeeps(q, adds);
    RootStays(q, adds, now);
    RequeueKeeps(AddAll(q, adds), now);
  }

  lemma {:induction false} CreatedLater(nextId: nat, rs: seq<Request>, now: int)
    requires Monotone(rs, now)
    ensures Later(Created(nextId, rs), now, nextId)
    decreases |rs|
  {
    if rs != [] {
      assert rs[0] in rs;
      CreatedLater(nextId, rs[1..], now);
      CreatedLater(nextId + 1, rs[1..], now);
    }
  }

  /** The pass makes progress: the set of due timers loses exactly the one that fired. */
  lemma FireShrinksDue(q: Timers, now: int, adds: seq<Request>)
    requires Valid(q) && Due(q, now) && Monotone(adds, now)
    ensures q.heap[0] in DueSet(q, now)
    ensures DueSet(Fire(q, now, adds), now) == DueSet(q, now) - {q.heap[0]}
  {
    FireKeeps(q, now, adds);
    CreatedLater(q.nextId, adds, now);
    var t := q.heap[0];
    assert t in multiset(q.heap);
    DueAfter(multiset(q.heap), multiset(Created(q.nextId, adds)), t, multiset(Leftover(t, now)), now);
  }

  lemma DueAfter(bag: multiset<Entry>, added: multiset<Entry>, t: Entry, left: multiset<Entry>, now: int)
    requires bag[t] <= 1
    requires forall u | u in added || u in left :: u.expiry > now
    ensures (set u | u in bag + added - multiset{t} + left && u.expiry <= now)
         == (set u | u in bag && u.expiry <= now) - {t}
  {
  }

  // ------------------------------------------------------------- pass

  /** The queue after a pass, the timers fired, the requests their callbacks made and the timers created. */
  datatype Fired = Fired(q: Timers, log: seq<Entry>, asked: seq<Request>, created: seq<Entry>)

  function Callback(script: seq<seq<Request>>): seq<Request> {
    if script == [] then [] else script[0]
  }

  function Rest(script: seq<seq<Request>>): seq<seq<Request>> {
    if script == [] then [] else script[1..]
  }

  predicate MonotoneScript(script: seq<seq<Request>>, now: int) {
    forall rs | rs in script :: Monotone(rs, now)
  }

  /**
   * CheckAndHandle. The clock is read once; the k-th callback makes the
   * requests script[k], none once the script is used up.
   */
  function CheckAndHandle(q: Timers, now: int, script: seq<seq<Request>>): Fired
    requires Valid(q) && MonotoneScript(script, now)
    decreases DueSet(q, now)
  {
    if !Due(q, now) then Fired(q, [], [], [])
    else
      FireKeeps(q, now, Callback(script));
      FireShrinksDue(q, now, Callback(script));
      var r := CheckAndHandle(Fire(q, now, Callback(script)), now, Rest(script));
      Fired(r.q, [q.heap[0]] + r.log, Callback(script) + r.asked, Created(q.nextId, Callback(script)) + r.created)
  }

  /** The requests of the first `n` callbacks. */
  function Asked(script: seq<seq<Request>>, n: nat): seq<Request> {
    if n == 0 then [] else Callback(script) + Asked(Rest(script), n - 1)
  }

  function Leftovers(log: seq<Entry>, now: int): seq<Entry> {
    if log == [] then [] else Leftover(log[0], now) + Leftovers(log[1..], now)
  }

  ghost predicate Sorted(log: seq<Entry>) {
    forall i, j | 0 <= i < j < |log| :: Leq(log[i], log[j])
  }

  lemma {:induction false} CreatedConcat(nextId: nat, a: seq<Request>, b: seq<Request>)
    ensures Created(nextId, a + b) == Created(nextId, a) + Created(nextId + |Created(nextId, a)|, b)
    decreases |a|
  {
    if a == [] {
      assert a + b == b;
    } else {
      assert (a + b)[1..] == a[1..] + b;
      CreatedConcat(nextId, a[1..], b);
      CreatedConcat(nextId + 1, a[1..], b);
    }
  }

  lemma {:induction false} PassValid(q: Timers, now: int, script: seq<seq<Request>>)
    requires Valid(q) && MonotoneScript(script, now)
    ensures Valid(CheckAndHandle(q, now, script).q) && !Due(CheckAndHandle(q, now, script).q, now)
    decreases DueSet(q, now)
  {
    if Due(q, now) {
      FireKeeps(q, now, Callback(script));
      FireShrinksDue(q, now, Callback(script));
      PassValid(Fire(q, now, Callback(script)), now, Rest(script));
    }
  }

  lemma {:induction false} PassCreatesAsked(q: Timers, now: int, script: seq<seq<Request>>)
    requires Valid(q) && MonotoneScript(script, now)
    ensures var r := CheckAndHandle(q, now, script);
      && r.created == Created(q.nextId, r.asked)
      && r.q.nextId == q.nextId + |r.created|
    decreases DueSet(q, now)
  {
    if Due(q, now) {
      var adds, q' := Callback(script), Fire(q, now, Callback(script));
      PassUnfolds(q, now, script);
      PassCreatesAsked(q', now, Rest(script));
      var r, r' := CheckAndHandle(q, now, script), CheckAndHandle(q', now, Rest(script));
      CreatesStep(q.nextId, q'.nextId, adds, r', r);
    }
  }

  lemma CreatesStep(nextId: nat, later: nat, adds: seq<Request>, rest: Fired, all: Fired)
    requires later == nextId + |Created(nextId, adds)|
    requires rest.created == Created(later, rest.asked) && rest.q.nextId == later + |rest.created|
    requires all.q == rest.q && all.asked == adds + rest.asked && all.created == Created(nextId, adds) + rest.created
    ensures all.created == Created(nextId, all.asked) && all.q.nextId == nextId + |all.created|
  {
    CreatedConcat(nextId, adds, rest.asked);
  }

  /** The k-th timer fired makes the k-th callback's requests. */
  lemma {:induction false} PassAsks(q: Timers, now: int, script: seq<seq<Request>>)
    requires Valid(q) && MonotoneScript(script, now)
    ensures var r := CheckAndHandle(q, now, script); r.asked == Asked(script, |r.log|)
    decreases DueSet(q, now)
  {
    if Due(q, now) {
      PassUnfolds(q, now, script);
      PassAsks(Fire(q, now, Callback(script)), now, Rest(script));
    }
  }

  /**
   * A pass creates what the callbacks of the timers it fired asked for: the
   * k-th timer fired makes the k-th callback's requests.
   */
  lemma PassCreates(q: Timers, now: int, script: seq<seq<Request>>)
    requires Valid(q) && MonotoneScript(script, now)
    ensures var r := CheckAndHandle(q, now, script);
      && r.created == Created(q.nextId, Asked(script, |r.log|))
      && r.q.nextId == q.nextId + |r.created|
  {
    PassCreatesAsked(q, now, script);
    PassAsks(q, now, script);
  }

  lemma PassUnfolds(q: Timers, now: int, script: seq<seq<Request>>)
    requires Valid(q) && Due(q, now) && MonotoneScript(script, now)
    ensures Valid(Fire(q, now, Callback(script))) && MonotoneScript(Rest(script), now)
    ensures DueSet(Fire(q, now, Callback(script)), now) < DueSet(q, now)
    ensures Fire(q, now, Callback(script)).nextId == q.nextId + |Created(q.nextId, Callback(script))|
    ensures var r := CheckAndHandle(Fire(q, now, Callback(script)), now, Rest(script));
      CheckAndHandle(q, now, script) ==
        Fired(r.q, [q.heap[0]] + r.log, Callback(script) + r.asked, Created(q.nextId, Callback(script)) + r.created)
  {
    FireKeeps(q, now, Callback(script));
    FireShrinksDue(q, now, Callback(script));
  }

  /** Each due timer fires once in one pass, in the queue's order, and no timer is due afterwards. */
  lemma {:induction false} PassFiresDueInOrder(q: Timers, now: int, script: seq<seq<Request>>)
    requires Valid(q) && MonotoneScript(script, now)
    ensures var r := CheckAndHandle(q, now, script);
      && multiset(r.log) == multiset(DueSet(q, now))
      && Sorted(r.log)
      && forall t | t in r.q.heap :: t.expiry > now
    decreases DueSet(q, now)
  {
    if Due(q, now) {
      var adds := Callback(script);
      var q' := Fire(q, now, adds);
      FireKeeps(q, now, adds);
      FireShrinksDue(q, now, adds);
      PassFiresDueInOrder(q', now, Rest(script));
      var rest := CheckAndHandle(q', now, Rest(script)).log;
      RootBeforeDue(q, now, rest);
    } else {
      NothingDue(q, now);
    }
  }

  lemma RootBeforeDue(q: Timers, now: int, rest: seq<Entry>)
    requires IsHeap(q.heap) && q.heap != []
    requires multiset(rest) == multiset(DueSet(q, now) - {q.heap[0]}) && Sorted(rest)
    requires q.heap[0] in DueSet(q, now)
    ensures Sorted([q.heap[0]] + rest) && multiset([q.heap[0]] + rest) == multiset(DueSet(q, now))
  {
    var root := q.heap[0];
    forall i | 0 <= i < |rest|
      ensures Leq(root, rest[i])
    {
      assert rest[i] in multiset(rest);
      assert rest[i] in q.heap;
      var k :| 0 <= k < |q.heap| && q.heap[k] == rest[i];
      RootIsLeast(q.heap, k);
    }
    assert multiset([root] + rest) == multiset{root} + multiset(rest);
  }

  lemma NothingDue(q: Timers, now: int)
    requires IsHeap(q.heap) && !Due(q, now)
    ensures DueSet(q, now) == {} && forall t | t in q.heap :: t.expiry > now
  {
    forall t | t in q.heap
      ensures t.expiry > now
    {
      var k :| 0 <= k < |q.heap| && q.heap[k] == t;
      RootIsLeast(q.heap, k);
    }
  }

  /** Conservation over a pass: what was there, re-queued or created is there or has fired. */
  lemma {:induction false} PassConserves(q: Timers, now: int, script: seq<seq<Request>>)
    requires Valid(q) && MonotoneScript(script, now)
    ensures var r := CheckAndHandle(q, now, script);
      multiset(r.q.heap) + multiset(r.log) ==
      multiset(q.heap) + multiset(Leftovers(r.log, now)) + multiset(r.created)
    decreases DueSet(q, now)
  {
    if Due(q, now) {
      var adds := Callback(script);
      var t, q' := q.heap[0], Fire(q, now, adds);
      FireKeeps(q, now, adds);
      FireShrinksDue(q, now, adds);
      PassConserves(q', now, Rest(script));
      var r := CheckAndHandle(q', now, Rest(script));
      var c := Created(q.nextId, adds);
      PassUnfolds(q, now, script);
      LogCons(t, r.log, now);
      assert multiset(c + r.created) == multiset(c) + multiset(r.created);
      assert t in multiset(q.heap);
      ConservedTwice(multiset(q.heap), multiset(q'.heap), multiset(r.q.heap), multiset{t}, multiset(r.log),
                     multiset(Leftover(t, now)), multiset(Leftovers(r.log, now)), multiset(c), multiset(r.created));
    }
  }

  lemma LogCons(t: Entry, log: seq<Entry>, now: int)
    ensures multiset([t] + log) == multiset{t} + multiset(log)
    ensures multiset(Leftovers([t] + log, now)) == multiset(Leftover(t, now)) + multiset(Leftovers(log, now))
  {
    assert ([t] + log)[1..] == log;
  }

  lemma ConservedTwice<T>(a: multiset<T>, b: multiset<T>, c: multiset<T>, t: multiset<T>, log: multiset<T>,
                          left: multiset<T>, lefts: multiset<T>, new1: multiset<T>, new2: multiset<T>)
    requires t <= a && b == a + new1 - t + left
    requires c + log == b + lefts + new2
    ensures c + (t + log) == a + (left + lefts) + (new1 + new2)
  {
    assert a == (a - t) + t;
    assert b + t == a + new1 + left;
    assert c + (t + log) == (c + log) + t;
  }

  // ----------------------------------------------------------- remove

  /** RemoveTimer pops everything and pushes all but the removed timer onto a new queue. */
  function Rebuild(h: seq<Entry>, id: nat, kept: seq<Entry>): seq<Entry>
    requires IsHeap(h)
    decreases |h|
  {
    if h == [] then kept
    else
      PopHeap(h);
      assert |multiset(Pop(h))| == |multiset(h)| - 1;
      Rebuild(Pop(h), id, if h[0].id == id then kept else Push(kept, h[0]))
  }

  function Remove(q: Timers, id: nat): Timers
    requires IsHeap(q.heap)
  {
    q.(heap := Rebuild(q.heap, id, []))
  }

  ghost predicate Without(bag: multiset<Entry>, id: nat, rest: multiset<Entry>) {
    forall t: Entry :: rest[t] == if t.id == id then 0 else bag[t]
  }

  lemma {:induction false} RebuildKeeps(h: seq<Entry>, id: nat, kept: seq<Entry>)
    requires IsHeap(h) && IsHeap(kept) && forall t: Entry :: t.id == id ==> multiset(kept)[t] == 0
    ensures IsHeap(Rebuild(h, id, kept))
    ensures Without(multiset(h) + multiset(kept), id, multiset(Rebuild(h, id, kept)))
    decreases |h|
  {
    if h != [] {
      PopHeap(h);
      assert |multiset(Pop(h))| == |multiset(h)| - 1;
      PushHeap(kept, h[0]);
      var kept' := if h[0].id == id then kept else Push(kept, h[0]);
      RebuildKeeps(Pop(h), id, kept');
      assert h[0] in multiset(h);
    }
  }

  /** Exactly the given timer leaves the queue, which stays a heap. */
  lemma RemoveExactly(q: Timers, id: nat)
    requires Valid(q)
    ensures Valid(Remove(q, id))
    ensures Without(multiset(q.heap), id, multiset(Remove(q, id).heap))
  {
    RebuildKeeps(q.heap, id, []);
    assert multiset(q.heap) + multiset([]) == multiset(q.heap);
    var bag, rest := multiset(q.heap), multiset(Remove(q, id).heap);
    assert forall t | t in rest :: t in bag;
  }
}
