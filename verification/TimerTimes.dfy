/** When timers fire: what a pass leaves queued, written out, and how far apart the fires of one timer are. */
module TimerTimes {
  import opened TimerHeap
  import opened TimerSpec
  import opened TimerRuns

  // ------------------------------------------------------------------ adding

  /** AddTimer queues exactly one timer, due one interval after the clock it read, or nothing. */
  lemma AddExactly(q: Timers, r: Request)
    requires Valid(q)
    ensures Valid(Add(q, r))
    ensures multiset(Add(q, r).heap) == multiset(q.heap) +
      if r.interval > 0 then multiset{Entry(q.nextId, r.at + r.interval, r.repeats, r.interval)} else multiset{}
  {
    AddKeeps(q, r);
    if r.interval > 0 {
      PushHeap(q.heap, Entry(q.nextId, r.at + r.interval, r.repeats, r.interval));
    }
  }

  // -------------------------------------------------------------- one pass

  /** The next occurrence of a timer fired at `now`. */
  predicate Follows(u: Entry, t: Entry, now: int) {
    u.id == t.id && u.expiry == now + t.interval && u.interval == t.interval && u.repeats == t.repeats - 1
  }

  lemma {:induction false} LeftoverSource(log: seq<Entry>, now: int, u: Entry) returns (t: Entry)
    requires u in Leftovers(log, now)
    ensures t in log && t.repeats != 0 && Follows(u, t, now)
    decreases |log|
  {
    t := log[0];
    if u !in Leftover(log[0], now) {
      t := LeftoverSource(log[1..], now, u);
    }
  }

  lemma {:induction false} LeftoverOf(log: seq<Entry>, now: int, t: Entry)
    requires t in log && t.repeats != 0
    ensures Entry(t.id, now + t.interval, t.repeats - 1, t.interval) in Leftovers(log, now)
    decreases |log|
  {
    if t != log[0] {
      LeftoverOf(log[1..], now, t);
    } else {
      assert Again(t, now) in Leftover(t, now);
    }
  }

  /** Two ways to count one timer in a pass. */
  lemma CountIn(queued: seq<Entry>, fired: seq<Entry>, before: seq<Entry>, again: seq<Entry>, made: seq<Entry>, u: Entry)
    requires multiset(queued) + multiset(fired) == multiset(before) + multiset(again) + multiset(made)
    requires u !in fired
    ensures u in queued <==> u in before || u in again || u in made
  {
    assert (multiset(queued) + multiset(fired))[u] == (multiset(before) + multiset(again) + multiset(made))[u];
    assert multiset(fired)[u] == 0;
  }

  lemma CreatedMember(nextId: nat, rs: seq<Request>, u: Entry)
    requires u in Created(nextId, rs)
    ensures nextId <= u.id < nextId + |Created(nextId, rs)| && Created(nextId, rs)[u.id - nextId] == u
  {
    var made := Created(nextId, rs);
    var k :| 0 <= k < |made| && made[k] == u;
    CreatedIds(nextId, rs, k);
  }

  /** What a pass is, timer by timer: what fired, and where what is queued comes from. */
  ghost predicate PassOf(q: Timers, now: int, r: Fired) {
    && (forall t: Entry :: t in r.log <==> t in q.heap && t.expiry <= now)
    && (forall i, j | 0 <= i < j < |r.log| :: r.log[i] != r.log[j])
    && (forall u | u in r.q.heap :: u.expiry > now)
    && (forall u: Entry | u.expiry > now ::
          u in r.q.heap <==> u in q.heap || u in Leftovers(r.log, now) || u in r.created)
    && (forall u | u in r.created :: q.nextId <= u.id < q.nextId + |r.created| && r.created[u.id - q.nextId] == u)
  }

  lemma PassIs(q: Timers, now: int, script: seq<seq<Request>>)
    requires Valid(q) && MonotoneScript(script, now)
    ensures PassOf(q, now, CheckAndHandle(q, now, script))
  {
    var r := CheckAndHandle(q, now, script);
    PassFiresDueInOrder(q, now, script);
    PassConserves(q, now, script);
    PassCreates(q, now, script);
    PassFromBags(q, now, r, Asked(script, |r.log|));
  }

  lemma PassFromBags(q: Timers, now: int, r: Fired, rs: seq<Request>)
    requires multiset(r.log) == multiset(DueSet(q, now)) && r.created == Created(q.nextId, rs)
    requires forall u | u in r.q.heap :: u.expiry > now
    requires multiset(r.q.heap) + multiset(r.log) ==
             multiset(q.heap) + multiset(Leftovers(r.log, now)) + multiset(r.created)
    ensures PassOf(q, now, r)
  {
    forall t: Entry ensures t in r.log <==> t in q.heap && t.expiry <= now {
      assert t in r.log <==> t in multiset(r.log);
      assert t in multiset(DueSet(q, now)) <==> t in DueSet(q, now);
      assert t in multiset(q.heap) <==> t in q.heap;
    }
    forall u: Entry | u.expiry > now
      ensures u in r.q.heap <==> u in q.heap || u in Leftovers(r.log, now) || u in r.created
    {
      CountIn(r.q.heap, r.log, q.heap, Leftovers(r.log, now), r.created, u);
    }
    forall u | u in r.created
      ensures q.nextId <= u.id < q.nextId + |r.created| && r.created[u.id - q.nextId] == u
    {
      CreatedMember(q.nextId, rs, u);
    }
    OnceEach(r.log, DueSet(q, now));
  }

  lemma OnceEach(log: seq<Entry>, due: set<Entry>)
    requires multiset(log) == multiset(due)
    ensures forall i, j | 0 <= i < j < |log| :: log[i] != log[j]
  {
    forall i, j | 0 <= i < j < |log|
      ensures log[i] != log[j]
    {
      assert multiset(log)[log[i]] <= 1;
      if log[i] == log[j] {
        TwiceIn(log, i, j);
      }
    }
  }

  lemma TwiceIn(log: seq<Entry>, i: nat, j: nat)
    requires i < j < |log| && log[i] == log[j]
    ensures multiset(log)[log[i]] >= 2
  {
    assert log == log[..j] + [log[j]] + log[j + 1..];
    assert log[i] in log[..j];
  }

  lemma OneOfEach(q: Timers, t: Entry, u: Entry)
    requires Valid(q) && t in q.heap && u in q.heap && t.id == u.id
    ensures t == u && t.id < q.nextId && t.interval > 0
  {
    assert t in multiset(q.heap) && u in multiset(q.heap);
  }

  /** A queued timer of a fired one's identity is its next occurrence. */
  lemma OwnOccurrence(q: Timers, now: int, r: Fired, t: Entry, u: Entry)
    requires Valid(q) && PassOf(q, now, r) && t in r.log && u in r.q.heap && u.id == t.id
    ensures t.repeats != 0 && Follows(u, t, now)
  {
    OneOfEach(q, t, t);
    if u in Leftovers(r.log, now) {
      var v := LeftoverSource(r.log, now, u);
      OneOfEach(q, t, v);
    } else {
      assert u in q.heap;
      OneOfEach(q, t, u);
    }
  }

  lemma NextOccurrence(q: Timers, now: int, r: Fired, t: Entry)
    requires Valid(q) && PassOf(q, now, r) && t in r.log && t.repeats != 0
    ensures Entry(t.id, now + t.interval, t.repeats - 1, t.interval) in r.q.heap
  {
    OneOfEach(q, t, t);
    LeftoverOf(r.log, now, t);
  }

  /**
   * What a pass does to each timer. One that was not due stays as it is. One
   * that fired with repeats left is queued exactly once, for one interval after
   * the clock of the pass, with one repeat less; one without is gone.
   */
  lemma PassReschedules(q: Timers, now: int, script: seq<seq<Request>>, t: Entry)
    requires Valid(q) && MonotoneScript(script, now) && t in q.heap
    ensures var queued := CheckAndHandle(q, now, script).q.heap;
      && (t.expiry > now ==> t in queued)
      && (t.expiry <= now && t.repeats != 0 ==>
          multiset(queued)[Entry(t.id, now + t.interval, t.repeats - 1, t.interval)] == 1)
      && (t.expiry <= now ==> forall u | u in queued && u.id == t.id ::
            t.repeats != 0 && u == Entry(t.id, now + t.interval, t.repeats - 1, t.interval))
  {
    var r := CheckAndHandle(q, now, script);
    PassIs(q, now, script);
    PassValid(q, now, script);
    if t.expiry <= now {
      if t.repeats != 0 {
        NextOccurrence(q, now, r, t);
        var next := Entry(t.id, now + t.interval, t.repeats - 1, t.interval);
        assert next in multiset(r.q.heap) && multiset(r.q.heap)[next] <= 1;
      }
      forall u | u in r.q.heap && u.id == t.id
        ensures t.repeats != 0 && Follows(u, t, now)
      {
        OwnOccurrence(q, now, r, t, u);
      }
    }
  }

  // ------------------------------------------------------------ whole runs

  /** The clock of every fire, in the order of the fires. */
  function Clocks(ops: seq<Op>): seq<int>
    requires forall op | op in ops :: Allowed(op)
  {
    if ops == [] then []
    else
      var w, op := Exec(ops[..|ops| - 1]), ops[|ops| - 1];
      assert op in ops && Allowed(op);
      Clocks(ops[..|ops| - 1]) +
      if op.Check? then
        var n := |CheckAndHandle(w.q, op.now, op.script).log|;
        seq(n, _ => op.now)
      else []
  }

  /** A queued timer is one of those added, not due before its time nor within an interval of its last fire. */
  predicate EntrySpaced(u: Entry, born: seq<Entry>, log: seq<Entry>, clocks: seq<int>)
    requires |clocks| == |log|
  {
    && u.id < |born| && u.interval == born[u.id].interval && u.expiry >= born[u.id].expiry
    && forall i | 0 <= i < |log| && log[i].id == u.id :: u.expiry >= clocks[i] + u.interval
  }

  /** Fires of one timer are an interval apart, and none is early. */
  predicate LogSpaced(born: seq<Entry>, log: seq<Entry>, clocks: seq<int>)
    requires |clocks| == |log|
  {
    && (forall i | 0 <= i < |log| ::
          log[i].id < |born| && log[i].interval == born[log[i].id].interval && clocks[i] >= born[log[i].id].expiry)
    && (forall i, j | 0 <= i < j < |log| && log[i].id == log[j].id :: clocks[j] >= clocks[i] + log[i].interval)
  }

  predicate Spaced(w: World, clocks: seq<int>) {
    && |clocks| == |w.log| && LogSpaced(w.born, w.log, clocks)
    && forall u | u in w.q.heap :: EntrySpaced(u, w.born, w.log, clocks)
  }

  lemma CreatedOne(nextId: nat, r: Request)
    ensures Created(nextId, [r]) ==
      if r.interval > 0 then [Entry(nextId, r.at + r.interval, r.repeats, r.interval)] else []
  {
    assert [r][1..] == [];
    assert Created(nextId, []) == [] && Created(nextId + 1, []) == [];
  }

  lemma AddMember(q: Timers, r: Request, u: Entry)
    requires Valid(q) && u in Add(q, r).heap
    ensures u in q.heap || (r.interval > 0 && u == Entry(q.nextId, r.at + r.interval, r.repeats, r.interval))
  {
    AddExactly(q, r);
    assert u in multiset(Add(q, r).heap);
  }

  lemma AddSpaced(w: World, clocks: seq<int>, r: Request)
    requires Inv(w) && Spaced(w, clocks)
    ensures Spaced(Apply(w, AddTimer(r)), clocks)
  {
    var made := if r.interval > 0 then [Entry(w.q.nextId, r.at + r.interval, r.repeats, r.interval)] else [];
    CreatedOne(w.q.nextId, r);
    forall u | u in Add(w.q, r).heap
      ensures EntrySpaced(u, w.born + made, w.log, clocks)
    {
      AddMember(w.q, r, u);
      if u in w.q.heap {
        KeptSpaced(w, clocks, made, u);
      } else {
        MadeSpaced(w, clocks, made, u);
      }
    }
  }

  lemma RemoveSpaced(w: World, clocks: seq<int>, id: nat)
    requires Inv(w) && Spaced(w, clocks)
    ensures Spaced(Apply(w, RemoveTimer(id)), clocks)
  {
    RemoveExactly(w.q, id);
    forall t | t in Remove(w.q, id).heap
      ensures t in w.q.heap
    {
      assert t in multiset(Remove(w.q, id).heap);
      assert t in multiset(w.q.heap);
    }
  }

  lemma KeptSpaced(w: World, clocks: seq<int>, made: seq<Entry>, u: Entry)
    requires Inv(w) && Spaced(w, clocks) && u in w.q.heap
    ensures EntrySpaced(u, w.born + made, w.log, clocks)
  {
    assert EntrySpaced(u, w.born, w.log, clocks);
  }

  lemma AgainSpaced(w: World, clocks: seq<int>, made: seq<Entry>, now: int, t: Entry, u: Entry)
    requires Inv(w) && Spaced(w, clocks) && t in w.q.heap && t.expiry <= now && Follows(u, t, now)
    ensures EntrySpaced(u, w.born + made, w.log, clocks)
  {
    assert EntrySpaced(t, w.born, w.log, clocks);
    OneOfEach(w.q, t, t);
  }

  lemma MadeSpaced(w: World, clocks: seq<int>, made: seq<Entry>, u: Entry)
    requires Spaced(w, clocks) && |w.born| <= u.id < |w.born| + |made| && made[u.id - |w.born|] == u
    ensures EntrySpaced(u, w.born + made, w.log, clocks)
  {
  }

  /** A timer queued after a pass. */
  lemma PassEntrySpaced(w: World, clocks: seq<int>, now: int, r: Fired, u: Entry)
    requires Inv(w) && Spaced(w, clocks) && PassOf(w.q, now, r) && u in r.q.heap
    ensures EntrySpaced(u, w.born + r.created, w.log, clocks)
  {
    if u in r.created {
      MadeSpaced(w, clocks, r.created, u);
    } else if u in w.q.heap {
      KeptSpaced(w, clocks, r.created, u);
    } else {
      var t := LeftoverSource(r.log, now, u);
      AgainSpaced(w, clocks, r.created, now, t, u);
    }
  }

  /** A fire of a pass. */
  lemma PassFireSpaced(w: World, clocks: seq<int>, now: int, t: Entry)
    requires Inv(w) && Spaced(w, clocks)
    requires t in w.q.heap && t.expiry <= now
    ensures t.id < |w.born| && t.interval == w.born[t.id].interval && now >= w.born[t.id].expiry
    ensures forall i | 0 <= i < |w.log| && w.log[i].id == t.id :: now >= clocks[i] + w.log[i].interval
  {
    assert EntrySpaced(t, w.born, w.log, clocks);
  }

  lemma PassSpaced(w: World, clocks: seq<int>, now: int, r: Fired)
    requires Inv(w) && Spaced(w, clocks) && PassOf(w.q, now, r)
    ensures Spaced(World(r.q, w.born + r.created, w.log + r.log, w.removed), clocks + seq(|r.log|, _ => now))
  {
    forall t | t in r.log
      ensures t.id < |w.born| && t.interval == w.born[t.id].interval && now >= w.born[t.id].expiry
      ensures forall i | 0 <= i < |w.log| && w.log[i].id == t.id :: now >= clocks[i] + w.log[i].interval
    {
      PassFireSpaced(w, clocks, now, t);
    }
    forall i, j | 0 <= i < j < |r.log|
      ensures r.log[i].id != r.log[j].id
    {
      assert r.log[i] in r.log && r.log[j] in r.log;
      if r.log[i].id == r.log[j].id {
        OneOfEach(w.q, r.log[i], r.log[j]);
      }
    }
    LogGrows(w.born, r.created, w.log, clocks, r.log, now);
    forall u | u in r.q.heap
      ensures EntrySpaced(u, w.born + r.created, w.log + r.log, clocks + seq(|r.log|, _ => now))
    {
      PassEntrySpaced(w, clocks, now, r, u);
      forall k | 0 <= k < |r.log| && r.log[k].id == u.id
        ensures u.expiry >= now + u.interval
      {
        OwnOccurrence(w.q, now, r, r.log[k], u);
      }
      EntryGrows(u, w.born + r.created, w.log, clocks, r.log, now);
    }
  }

  lemma EntryGrows(u: Entry, born: seq<Entry>, log: seq<Entry>, clocks: seq<int>, fired: seq<Entry>, now: int)
    requires |clocks| == |log| && EntrySpaced(u, born, log, clocks)
    requires forall k | 0 <= k < |fired| && fired[k].id == u.id :: u.expiry >= now + u.interval
    ensures EntrySpaced(u, born, log + fired, clocks + seq(|fired|, _ => now))
  {
  }

  lemma LogGrows(born: seq<Entry>, made: seq<Entry>, log: seq<Entry>, clocks: seq<int>, fired: seq<Entry>, now: int)
    requires |clocks| == |log| && LogSpaced(born, log, clocks)
    requires forall t | t in fired ::
               t.id < |born| && t.interval == born[t.id].interval && now >= born[t.id].expiry &&
               forall i | 0 <= i < |log| && log[i].id == t.id :: now >= clocks[i] + log[i].interval
    requires forall i, j | 0 <= i < j < |fired| :: fired[i].id != fired[j].id
    ensures LogSpaced(born + made, log + fired, clocks + seq(|fired|, _ => now))
  {
    var log', clocks' := log + fired, clocks + seq(|fired|, _ => now);
    forall i, j | |log| <= i < j < |log'|
      ensures log'[i].id != log'[j].id
    {
      assert log'[i] == fired[i - |log|] && log'[j] == fired[j - |log|];
    }
    forall i, j | 0 <= i < j < |log'| && log'[i].id == log'[j].id
      ensures clocks'[j] >= clocks'[i] + log'[i].interval
    {
      if j >= |log| {
        assert log'[j] == fired[j - |log|] && fired[j - |log|] in fired;
      }
    }
    forall i | 0 <= i < |log'|
      ensures log'[i].id < |born + made| && log'[i].interval == (born + made)[log'[i].id].interval
      ensures clocks'[i] >= (born + made)[log'[i].id].expiry
    {
      if i >= |log| {
        assert log'[i] == fired[i - |log|] && fired[i - |log|] in fired;
      }
    }
  }

  lemma {:induction false} RunSpaced(ops: seq<Op>)
    requires forall op | op in ops :: Allowed(op)
    ensures Spaced(Exec(ops), Clocks(ops))
  {
    if ops != [] {
      var front, op := ops[..|ops| - 1], ops[|ops| - 1];
      assert op in ops;
      RunSpaced(front);
      match op {
        case AddTimer(r) =>
          AddSpaced(Exec(front), Clocks(front), r);
          assert Clocks(ops) == Clocks(front);
        case RemoveTimer(id) =>
          RemoveSpaced(Exec(front), Clocks(front), id);
          assert Clocks(ops) == Clocks(front);
        case Check(now, script) =>
          PassIs(Exec(front).q, now, script);
          PassSpaced(Exec(front), Clocks(front), now, CheckAndHandle(Exec(front).q, now, script));
      }
    }
  }

  /**
   * Over every run of additions, removals and passes, with any clocks: no timer
   * fires before one interval after it was added, and two fires of one timer are
   * at least its interval apart.
   */
  lemma FiresApart(ops: seq<Op>)
    requires forall op | op in ops :: Allowed(op)
    ensures var w, clocks := Exec(ops), Clocks(ops);
      && |clocks| == |w.log|
      && (forall i | 0 <= i < |w.log| :: w.log[i].id < |w.born| && clocks[i] >= w.born[w.log[i].id].expiry)
      && (forall i, j | 0 <= i < j < |w.log| && w.log[i].id == w.log[j].id ::
            w.log[i].id < |w.born| && clocks[j] >= clocks[i] + w.born[w.log[i].id].interval)
  {
    RunSpaced(ops);
  }

  /** The order of a pass, written out: earlier expiry first, and of two equal ones the one with fewer repeats. */
  lemma PassOrder(q: Timers, now: int, script: seq<seq<Request>>)
    requires Valid(q) && MonotoneScript(script, now)
    ensures var log := CheckAndHandle(q, now, script).log;
      forall i, j | 0 <= i < j < |log| ::
        log[i].expiry < log[j].expiry || (log[i].expiry == log[j].expiry && log[i].repeats <= log[j].repeats)
  {
    PassFiresDueInOrder(q, now, script);
    var log := CheckAndHandle(q, now, script).log;
    forall i, j | 0 <= i < j < |log|
      ensures log[i].expiry < log[j].expiry || (log[i].expiry == log[j].expiry && log[i].repeats <= log[j].repeats)
    {
      assert Leq(log[i], log[j]);
    }
  }
}
