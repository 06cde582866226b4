/** TcpServer: the connection map and the functors it puts on the loops. */
module TcpServer {
  import opened LifecycleSpec

  class TcpServer {
    var nextConnId: nat
    var connectionMaps: map<nat, nat>     // connection to its home loop
    var pending: map<nat, seq<Task>>      // each loop's pending_functors_
    ghost var s: State

    ghost predicate Linked()
      reads this
    {
      && nextConnId == s.core.next
      && connectionMaps.Keys == s.core.connections
      && (forall c | c in connectionMaps :: c in s.core.home && connectionMaps[c] == s.core.home[c])
      && pending.Keys == s.loops.Keys
      && (forall l | l in pending :: pending[l] == s.loops[l].pending)
    }

    constructor (others: set<nat>)
      ensures Linked() && s == Init(others)
    {
      nextConnId, connectionMaps := 0, map[];
      pending := map l | l in others + {BASE} :: [];
      s := Init(others);
    }

    method QueueInLoop(l: nat, t: Task)
      requires Linked() && l in s.loops
      modifies this
      ensures Linked() && s == old(s).(loops := Queue(old(s.loops), l, t))
    {
      pending := pending[l := pending[l] + [t]];
      s := s.(loops := Queue(s.loops, l, t));
    }

    /** A fresh name, the map entry, and ConnectionEstablished on the home loop. */
    method NewConnection(io: nat) returns (conn: nat)
      requires Linked() && CoreOk(s.core) && Enabled(s, Accept(io))
      modifies this
      ensures Linked() && s == LifecycleSpec.NewConnection(old(s), io)
      ensures conn !in old(s.core.home) && conn in connectionMaps
    {
      conn := nextConnId;
      ghost var t := LifecycleSpec.NewConnection(s, io);
      nextConnId := nextConnId + 1;
      connectionMaps := connectionMaps[conn := io];
      if io != BASE {
        pending := pending[io := pending[io] + [Establish(conn)]];
      }
      s := t;
    }

    /** close_callback_: RunInLoop on the base loop, which is a call when this is the base loop. */
    method RemoveConnection(conn: nat, l: nat)
      requires Linked() && Enabled(s, Continue(l)) && s.loops[l].todo == Report(conn)
      modifies this
      ensures Linked() && s == Step(old(s), l)
    {
      ghost var t := Step(s, l);
      if l != BASE {
        pending := pending[BASE := pending[BASE] + [Remove(conn)]];
      }
      s := t;
    }

    /** Erase the map entry, then queue ConnectionDestroyed on the home loop. */
    method RemoveconnectionInLoop(conn: nat, ioLoop: nat)
      requires Linked() && Enabled(s, Continue(BASE)) && s.loops[BASE].todo == Erase(conn)
      requires ioLoop == s.core.home[conn]
      modifies this
      ensures Linked() && s == Step(Next(old(s), Continue(BASE)), BASE)
      ensures conn !in connectionMaps && Destroy(conn) in pending[ioLoop]
    {
      ghost var t := Step(s, BASE);
      ghost var u := Step(t, BASE);
      connectionMaps := connectionMaps - {conn};
      pending := pending[ioLoop := pending[ioLoop] + [Destroy(conn)]];
      s := u;
    }
  }
}
