/**
 * Whole runs of a connection: loop-thread runs are safe, and with calls from
 * other threads exactly the steps named here break half-close, the close and
 * the write event.
 */
module ConnectionRuns {
  import opened Streams
  import opened ConnectionSpec
  import opened ConnectionProofs

  // ------------------------------------------------------ on the loop thread

  lemma LocalKeepsInv(usePoll: bool, w: World, op: Op)
    requires Inv(w.c) && Local(op) && Enabled(usePoll, w, op) && (!w.c.place.Absent? ==> w.c.log.ups > 0)
    ensures Inv(Apply(w.c, op)) && Rank(w.c.phase) <= Rank(Apply(w.c, op).phase)
    ensures !Apply(w.c, op).place.Absent? ==> Apply(w.c, op).log.ups > 0
  {
    match op {
      case OnEstablished(ops) => EstablishedKeeps(w.c, ops);
      case OnUser(o) => OpsKeepInv(w.c, [o]);
      case OnEvent(e) => EventKeeps(w.c, e);
      case OnDestroyed(ops) => DestroyedKeeps(w.c, ops);
    }
  }

  ghost predicate AllLocal(ops: seq<Op>) {
    forall op | op in ops :: Local(op)
  }

  lemma {:induction false} LocalRun(usePoll: bool, w: World, ops: seq<Op>)
    requires Inv(w.c) && AllLocal(ops) && (!w.c.place.Absent? ==> w.c.log.ups > 0)
    ensures var v := Exec(usePoll, w, ops);
      Inv(v.c) && Rank(w.c.phase) <= Rank(v.c.phase) && (!v.c.place.Absent? ==> v.c.log.ups > 0)
    decreases |ops|
  {
    if ops != [] {
      assert ops[0] in ops;
      if Enabled(usePoll, w, ops[0]) {
        LocalKeepsInv(usePoll, w, ops[0]);
      }
      LocalRun(usePoll, Next(usePoll, w, ops[0]), ops[1..]);
    }
  }

  lemma StartInv()
    ensures Inv(Start().c)
  {
    assert Flatten<Byte>([]) == [];
  }

  /** Half-close safety for callers on the loop thread, over every run. */
  lemma HalfCloseSafe(usePoll: bool, ops: seq<Op>)
    requires AllLocal(ops)
    ensures var c := Exec(usePoll, Start(), ops).c;
      && c.io.shuts <= 1 && !c.io.late
      && (c.io.shuts == 1 ==> c.io.sent == Flatten(c.log.accepted))
      && (c.phase.Disconnecting? && c.io.shuts == 0 ==> c.io.writing)
  {
    StartInv();
    LocalRun(usePoll, Start(), ops);
  }

  /** If ShutDown found data pending, the write event that drains the buffer issues the SHUT_WR. */
  lemma DrainShutsDown(usePoll: bool, ops: seq<Op>, w: WriteResult)
    requires AllLocal(ops)
    ensures var c := Exec(usePoll, Start(), ops).c;
      c.phase.Disconnecting? && c.io.shuts == 0 ==>
        (HandleWrite(c, w).io.shuts == 1 <==> w.Took? && w.n >= |c.io.output|)
  {
    StartInv();
    LocalRun(usePoll, Start(), ops);
  }

  predicate Ordinary(op: Op) {
    Local(op) && (op.OnEvent? ==> !DoubleClose(op.e))
  }

  lemma {:induction false} OrdinaryRun(w: World, ops: seq<Op>)
    requires Inv(w.c) && (!w.c.place.Absent? ==> w.c.log.ups > 0) && w.c.log.downs <= 1
    requires w.c.phase.Disconnected? ==> !w.c.place.Watched?
    requires forall op | op in ops :: Ordinary(op)
    ensures Exec(false, w, ops).c.log.downs <= 1 && Inv(Exec(false, w, ops).c)
    decreases |ops|
  {
    if ops != [] {
      assert ops[0] in ops;
      if Enabled(false, w, ops[0]) {
        LocalKeepsInv(false, w, ops[0]);
        OrdinaryStep(w, ops[0]);
      }
      OrdinaryRun(Next(false, w, ops[0]), ops[1..]);
    }
  }

  lemma OrdinaryStep(w: World, op: Op)
    requires Inv(w.c) && (!w.c.place.Absent? ==> w.c.log.ups > 0) && w.c.log.downs <= 1
    requires w.c.phase.Disconnected? ==> !w.c.place.Watched?
    requires Ordinary(op) && Enabled(false, w, op)
    ensures Apply(w.c, op).log.downs <= 1
    ensures Apply(w.c, op).phase.Disconnected? ==> !Apply(w.c, op).place.Watched?
  {
    match op {
      case OnEstablished(ops) => EstablishedKeeps(w.c, ops);
      case OnUser(o) =>
        OpsKeepInv(w.c, [o]);
        if w.c.phase.Disconnected? {
          ClosedIgnoresOps(w.c, [o]);
        }
      case OnEvent(e) =>
        EventKeeps(w.c, e);
        EventParks(w.c, e);
      case OnDestroyed(ops) => DestroyedKeeps(w.c, ops);
    }
  }

  /** An event that closes once leaves the descriptor unwatched. */
  lemma EventParks(c: Conn, e: Event)
    requires Inv(c) && !c.phase.Connecting? && !c.phase.Disconnected? && c.place.Watched? && !DoubleClose(e)
    ensures HandleEvent(c, e).phase.Disconnected? ==> HandleEvent(c, e).place.Parked?
  {
    CloseEffect(c, e.closeOps);
    if e.read.Data? {
      ClosedIgnoresOps(Closed(c), e.read.ops);
      OpsKeep(c, e.read.ops);
    }
  }

  /**
   * State and callbacks with the epoll backend, over every run of calls on the
   * loop thread: at most one up and one down callback, down only after up, and
   * the connection is disconnected exactly from the down callback on.
   */
  lemma CallbacksOnce(ops: seq<Op>)
    requires forall op | op in ops :: Ordinary(op)
    ensures var c := Exec(false, Start(), ops).c;
      && c.log.ups <= 1 && c.log.downs <= 1
      && (c.log.downs > 0 <==> c.phase.Disconnected?)
      && (c.log.ups == 0 <==> c.phase.Connecting?)
  {
    StartInv();
    OrdinaryRun(Start(), ops);
  }

  /** The state only moves forward. */
  lemma StateMovesForward(usePoll: bool, ops: seq<Op>, more: seq<Op>)
    requires AllLocal(ops) && AllLocal(more)
    ensures Rank(Exec(usePoll, Start(), ops).c.phase) <= Rank(Exec(usePoll, Start(), ops + more).c.phase)
  {
    StartInv();
    LocalRun(usePoll, Start(), ops);
    ExecConcat(usePoll, Start(), ops, more);
    LocalRun(usePoll, Exec(usePoll, Start(), ops), more);
  }

  lemma {:induction false} ExecConcat(usePoll: bool, w: World, a: seq<Op>, b: seq<Op>)
    ensures Exec(usePoll, w, a + b) == Exec(usePoll, Exec(usePoll, w, a), b)
    decreases |a|
  {
    if a == [] {
      assert a + b == b;
    } else {
      assert (a + b)[1..] == a[1..] + b;
      ExecConcat(usePoll, Next(usePoll, w, a[0]), a[1..], b);
    }
  }

  // ------------------------------------------------------ with any threads

  predicate Early(p: Phase) {
    p.Connecting? || p.Connected?
  }

  /** What is left once ShutDown may have been called anywhere. */
  predicate LooseInv(c: Conn) {
    && Conserved(c.io, c.log.accepted)
    && (c.io.writing ==> c.io.output != [] && !c.phase.Disconnected?)
    && (!c.place.Absent? ==> c.log.ups > 0)
    && c.log.ups <= 1 && (c.phase.Connecting? <==> c.log.ups == 0)
  }

  /** Until the first ShutDown or close, a connection is as good as with callers on the loop thread. */
  predicate RunInv(w: World) {
    && LooseInv(w.c)
    && (Early(w.c.phase) ==> Inv(w.c) && w.r.shutdowns == 0)
    && (w.c.phase.Connecting? ==> w.r == Remote(0, 0, 0))
  }

  /** An event after ShutDown or close: the close comes first and leaves nothing for the write. */
  lemma LateEvent(c: Conn, e: Event)
    requires LooseInv(c) && !Early(c.phase)
    ensures HandleEvent(c, e) ==
      if Closings(e) == 2 then Closed(Closed(c))
      else if Closings(e) == 1 then Closed(c)
      else if e.r.out then HandleWrite(c, e.write)
      else c
  {
    var c1 := if e.r.hup && !e.r.input then HandleClose(c, e.closeOps) else c;
    NotConnectedIgnoresOps(Closed(c), e.closeOps);
    NotConnectedIgnoresOps(Closed(c1), e.closeOps);
    if e.read.Data? {
      NotConnectedIgnoresOps(c1, e.read.ops);
    }
  }

  lemma LateWriteKeeps(c: Conn, w: WriteResult)
    requires LooseInv(c) && !Early(c.phase)
    ensures LooseInv(HandleWrite(c, w)) && HandleWrite(c, w).phase == c.phase
  {
    var k := Written(w, |c.io.output|);
    assert c.io.output == c.io.output[..k] + c.io.output[k..];
    assert c.io.sent + c.io.output[..k] + c.io.output[k..] == c.io.sent + c.io.output;
  }

  /** A queued send after ShutDown or close: the callbacks' own calls are ignored. */
  lemma LateSend(c: Conn, data: Bytes, w: WriteResult, after: seq<UserOp>)
    requires !Early(c.phase)
    ensures SendInLoop(c, data, w, after) == if c.phase.Disconnected? then c else Taken(c, data, w)
    ensures LooseInv(c) ==> LooseInv(SendInLoop(c, data, w, after))
  {
    NotConnectedIgnoresOps(Taken(c, data, w), after);
    if LooseInv(c) {
      OutputConserves(c.io, c.log.accepted, data, w);
    }
  }

  lemma LateKeeps(usePoll: bool, w: World, op: Op)
    requires RunInv(w) && Enabled(usePoll, w, op) && !Early(w.c.phase)
    ensures RunInv(Next(usePoll, w, op)) && !Early(Apply(w.c, op).phase)
  {
    match op {
      case OnUser(o) => NotConnectedIgnoresOps(w.c, [o]);
      case OnEvent(e) =>
        LateEvent(w.c, e);
        LateWriteKeeps(w.c, e.write);
      case QueuedSend(data, wr, after) => LateSend(w.c, data, wr, after);
      case _ =>
    }
  }

  lemma EarlySendKeeps(c: Conn, data: Bytes, w: WriteResult, after: seq<UserOp>)
    requires Inv(c) && c.phase.Connected?
    ensures Inv(SendInLoop(c, data, w, after)) && SameLife(c, SendInLoop(c, data, w, after))
  {
    SendKeeps(c, data, w, after);
    SendHalfCloses(c, data, w, after);
  }

  /** What an operation leaves of a connection nobody has shut down yet. */
  lemma EarlyKeeps(usePoll: bool, w: World, op: Op)
    requires RunInv(w) && Enabled(usePoll, w, op) && Early(w.c.phase)
    ensures RunInv(Next(usePoll, w, op))
    ensures op.RemoteStore? || Inv(Apply(w.c, op))
  {
    match op {
      case QueuedSend(data, wr, after) => EarlySendKeeps(w.c, data, wr, after);
      case OverwrittenStore(ops) => DestroyedKeeps(w.c, ops);
      case RemoteSend =>
      case RemoteTest =>
      case RemoteStore =>
      case _ => LocalKeepsInv(usePoll, w, op);
    }
  }

  lemma NextKeeps(usePoll: bool, w: World, op: Op)
    requires RunInv(w)
    ensures RunInv(Next(usePoll, w, op))
  {
    if Enabled(usePoll, w, op) {
      if Early(w.c.phase) {
        EarlyKeeps(usePoll, w, op);
      } else {
        LateKeeps(usePoll, w, op);
      }
    }
  }

  lemma {:induction false} ExecKeeps(usePoll: bool, w: World, ops: seq<Op>)
    requires RunInv(w)
    ensures RunInv(Exec(usePoll, w, ops))
    decreases |ops|
  {
    if ops != [] {
      NextKeeps(usePoll, w, ops[0]);
      ExecKeeps(usePoll, Next(usePoll, w, ops[0]), ops[1..]);
    }
  }

  lemma Reachable(usePoll: bool, ops: seq<Op>)
    ensures RunInv(Start()) && RunInv(Exec(usePoll, Start(), ops))
  {
    StartInv();
    ExecKeeps(usePoll, Start(), ops);
  }

  // ----------------------------------------------- what other threads break

  datatype Mishap =
    | LateWrite       // a write is issued after SHUT_WR
    | SecondShutdown  // SHUT_WR is issued again
    | Strand          // pending data is left with the write event off

  /** The steps that break something, by what can be seen before them. */
  predicate Happens(m: Mishap, usePoll: bool, w: World, op: Op) {
    var io := w.c.io;
    && Enabled(usePoll, w, op)
    && match m
       case LateWrite =>
         && io.shuts > 0
         && ((op.QueuedSend? && !w.c.phase.Disconnected? && Direct(io)) ||
             (op.OnEvent? && op.e.r.out && Closings(op.e) == 0 && io.writing))
       case SecondShutdown =>
         && io.shuts > 0
         && ((op.QueuedShutdown? && !io.writing) ||
             (op.OnEvent? && op.e.r.out && Closings(op.e) == 0 && io.writing &&
              w.c.phase.Disconnecting? && Written(op.e.write, |io.output|) == |io.output|))
       case Strand => op.RemoteStore? && w.c.phase.Disconnected? && io.output != []
  }

  predicate Ever(m: Mishap, usePoll: bool, w: World, ops: seq<Op>)
    decreases |ops|
  {
    ops != [] && (Happens(m, usePoll, w, ops[0]) || Ever(m, usePoll, Next(usePoll, w, ops[0]), ops[1..]))
  }

  /** Data waits, the connection is open, and no write event will come for it. */
  predicate Stranded(c: Conn) {
    !c.phase.Disconnected? && c.io.output != [] && !c.io.writing
  }

  predicate Accounted(usePoll: bool, w: World, op: Op, d: Conn) {
    && (d.io.late <==> w.c.io.late || Happens(LateWrite, usePoll, w, op))
    && (d.io.shuts > 1 <==> w.c.io.shuts > 1 || Happens(SecondShutdown, usePoll, w, op))
    && (Stranded(d) ==> Stranded(w.c) || Happens(Strand, usePoll, w, op))
    && (Happens(Strand, usePoll, w, op) ==> Stranded(d))
  }

  lemma LateEventMishaps(usePoll: bool, w: World, op: Op)
    requires RunInv(w) && Enabled(usePoll, w, op) && !Early(w.c.phase) && op.OnEvent?
    ensures Accounted(usePoll, w, op, Apply(w.c, op))
  {
    LateEvent(w.c, op.e);
    LateWriteKeeps(w.c, op.e.write);
  }

  lemma LateMishaps(usePoll: bool, w: World, op: Op)
    requires RunInv(w) && Enabled(usePoll, w, op) && !Early(w.c.phase)
    ensures Accounted(usePoll, w, op, Apply(w.c, op))
  {
    match op {
      case OnUser(o) => NotConnectedIgnoresOps(w.c, [o]);
      case OnEvent(_) => LateEventMishaps(usePoll, w, op);
      case QueuedSend(data, wr, after) => LateSend(w.c, data, wr, after);
      case _ =>
    }
  }

  /** One step breaks something if and only if it is one of those named. */
  lemma MishapStep(usePoll: bool, w: World, op: Op)
    requires RunInv(w)
    ensures Accounted(usePoll, w, op, Next(usePoll, w, op).c)
  {
    if Enabled(usePoll, w, op) {
      if Early(w.c.phase) {
        EarlyKeeps(usePoll, w, op);
      } else {
        LateMishaps(usePoll, w, op);
      }
    }
  }

  lemma {:induction false} MishapRun(usePoll: bool, w: World, ops: seq<Op>)
    requires RunInv(w)
    ensures var d := Exec(usePoll, w, ops).c;
      && (d.io.late <==> w.c.io.late || Ever(LateWrite, usePoll, w, ops))
      && (d.io.shuts > 1 <==> w.c.io.shuts > 1 || Ever(SecondShutdown, usePoll, w, ops))
      && (Stranded(d) ==> Stranded(w.c) || Ever(Strand, usePoll, w, ops))
    decreases |ops|
  {
    if ops != [] {
      MishapStep(usePoll, w, ops[0]);
      NextKeeps(usePoll, w, ops[0]);
      MishapRun(usePoll, Next(usePoll, w, ops[0]), ops[1..]);
    }
  }

  /**
   * Outgoing stream conservation, over every run, with either backend, partial
   * and failing writes, re-entrant callbacks and calls from other threads: the
   * kernel's bytes and the buffer spell the accepted messages in order. The
   * write event is on only while the buffer holds something, and on an open
   * connection always then, unless a late store of another thread's ShutDown
   * reopened a connection that was closed with data pending.
   */
  lemma OutgoingStreamConserved(usePoll: bool, ops: seq<Op>)
    ensures var c := Exec(usePoll, Start(), ops).c;
      && c.io.sent + c.io.output == Flatten(c.log.accepted)
      && (c.io.writing ==> c.io.output != [] && !c.phase.Disconnected?)
      && (!Ever(Strand, usePoll, Start(), ops) && !c.phase.Disconnected? ==> (c.io.writing <==> c.io.output != []))
  {
    Reachable(usePoll, ops);
    MishapRun(usePoll, Start(), ops);
  }

  /** The next step strands data if and only if it is such a store. */
  lemma StrandsIff(usePoll: bool, ops: seq<Op>, op: Op)
    ensures var w := Exec(usePoll, Start(), ops);
      !Stranded(w.c) ==> (Stranded(Next(usePoll, w, op).c) <==> Happens(Strand, usePoll, w, op))
  {
    Reachable(usePoll, ops);
    MishapStep(usePoll, Exec(usePoll, Start(), ops), op);
  }

  /** With callers on any thread, SHUT_WR is issued twice if and only if some step of the run is a second one. */
  lemma ShutTwiceIff(usePoll: bool, ops: seq<Op>)
    ensures Exec(usePoll, Start(), ops).c.io.shuts > 1 <==> Ever(SecondShutdown, usePoll, Start(), ops)
  {
    Reachable(usePoll, ops);
    MishapRun(usePoll, Start(), ops);
  }

  /** A write follows SHUT_WR if and only if some step of the run is a late one. */
  lemma WriteAfterShutIff(usePoll: bool, ops: seq<Op>)
    ensures Exec(usePoll, Start(), ops).c.io.late <==> Ever(LateWrite, usePoll, Start(), ops)
  {
    Reachable(usePoll, ops);
    MishapRun(usePoll, Start(), ops);
  }

  /**
   * In any reachable state, a SendInLoop functor writes after SHUT_WR exactly
   * when SHUT_WR was issued, the connection is not closed, and nothing is ahead
   * of the message.
   */
  lemma LateSendIff(usePoll: bool, ops: seq<Op>, data: Bytes, wr: WriteResult, after: seq<UserOp>)
    ensures var c := Exec(usePoll, Start(), ops).c;
      c.log.ups > 0 && !c.io.late ==>
        (SendInLoop(c, data, wr, after).io.late <==> !c.phase.Disconnected? && Direct(c.io) && c.io.shuts > 0)
  {
    Reachable(usePoll, ops);
    var c := Exec(usePoll, Start(), ops).c;
    if Early(c.phase) && c.log.ups > 0 {
      EarlySendKeeps(c, data, wr, after);
    } else if c.log.ups > 0 {
      LateSend(c, data, wr, after);
    }
  }

  // -------------------------------------------------------- after the close

  /** Nothing can be written any more: no functor left to send, or nobody left to reopen. */
  predicate Silent(w: World) {
    && !Early(w.c.phase) && !w.c.io.writing
    && (w.r.sends == 0 || (w.c.phase.Disconnected? && w.r.testing == 0))
  }

  lemma SilentStep(usePoll: bool, w: World, op: Op)
    requires RunInv(w) && Silent(w)
    ensures var v := Next(usePoll, w, op);
      && Silent(v) && v.c.io.sent == w.c.io.sent && (w.c.place.Absent? ==> v.c.place.Absent?)
      && (w.c.phase.Disconnected? && w.r.testing == 0 ==> v.c.phase.Disconnected? && v.r.testing == 0)
  {
    if Enabled(usePoll, w, op) {
      match op {
        case OnUser(o) => NotConnectedIgnoresOps(w.c, [o]);
        case OnEvent(e) => LateEvent(w.c, e);
        case QueuedSend(data, wr, after) => LateSend(w.c, data, wr, after);
        case _ =>
      }
    }
  }

  lemma {:induction false} SilentRun(usePoll: bool, w: World, more: seq<Op>)
    requires RunInv(w) && Silent(w)
    ensures var v := Exec(usePoll, w, more);
      && v.c.io.sent == w.c.io.sent && (w.c.place.Absent? ==> v.c.place.Absent?)
      && (w.c.phase.Disconnected? && w.r.testing == 0 ==> v.c.phase.Disconnected?)
    decreases |more|
  {
    if more != [] {
      SilentStep(usePoll, w, more[0]);
      NextKeeps(usePoll, w, more[0]);
      SilentRun(usePoll, Next(usePoll, w, more[0]), more[1..]);
    }
  }

  lemma ExecCons(usePoll: bool, w: World, op: Op, more: seq<Op>)
    ensures Exec(usePoll, w, [op] + more) == Exec(usePoll, Next(usePoll, w, op), more)
  {
    assert ([op] + more)[1..] == more;
  }

  lemma ExecTwo(usePoll: bool, w: World, a: Op, b: Op)
    ensures Exec(usePoll, w, [a, b]) == Next(usePoll, Next(usePoll, w, a), b)
  {
    ExecCons(usePoll, w, a, [b]);
    ExecCons(usePoll, Next(usePoll, w, a), b, []);
    assert [a] + [b] == [a, b] && [b] + [] == [b];
  }

  ghost predicate CanReopen(usePoll: bool, w: World) {
    exists more :: !Exec(usePoll, w, more).c.phase.Disconnected?
  }

  ghost predicate CanWrite(usePoll: bool, w: World) {
    exists more :: Exec(usePoll, w, more).c.io.sent != w.c.io.sent
  }

  ghost predicate CanRegister(usePoll: bool, w: World) {
    exists more :: !Exec(usePoll, w, more).c.place.Absent?
  }

  /** A closed connection can leave its state exactly while another thread is between ShutDown's test and store. */
  lemma ReopensIff(usePoll: bool, ops: seq<Op>)
    ensures var w := Exec(usePoll, Start(), ops);
      w.c.phase.Disconnected? ==> (CanReopen(usePoll, w) <==> w.r.testing > 0)
  {
    Reachable(usePoll, ops);
    var w := Exec(usePoll, Start(), ops);
    if w.c.phase.Disconnected? {
      if w.r.testing > 0 {
        ExecCons(usePoll, w, RemoteStore, []);
        assert !Exec(usePoll, w, [RemoteStore] + []).c.phase.Disconnected?;
      } else {
        forall more ensures Exec(usePoll, w, more).c.phase.Disconnected? {
          SilentRun(usePoll, w, more);
        }
      }
    }
  }

  /** The functor that sends on a reopened connection registers the channel again, and the write event sends. */
  lemma LateSendWrites(usePoll: bool, w: World)
    requires RunInv(w) && w.c.phase.Disconnected? && w.r.testing > 0 && w.r.sends > 0
    ensures CanWrite(usePoll, w) && CanRegister(usePoll, w)
  {
    var send := QueuedSend([0], WouldBlock, []);
    var out := OnEvent(Event(Revents(false, false, false, false, true), ReadError, Took(1), []));
    var v := Next(usePoll, w, RemoteStore);
    var blocked := Next(usePoll, v, send);
    BlockedSend(v.c);
    ExecTwo(usePoll, w, RemoteStore, send);
    assert !Exec(usePoll, w, [RemoteStore, send]).c.place.Absent?;
    ExecCons(usePoll, w, RemoteStore, [send, out]);
    ExecTwo(usePoll, v, send, out);
    OneByteOut(blocked.c);
    assert Exec(usePoll, w, [RemoteStore] + [send, out]).c.io.sent != w.c.io.sent;
  }

  lemma BlockedSend(c: Conn)
    requires c.phase.Disconnecting? && !c.io.writing
    ensures var d := SendInLoop(c, [0], WouldBlock, []);
      d.place.Watched? && d.io.writing && d.io.output == c.io.output + [0] && d.io.sent == c.io.sent
  {
    LateSend(c, [0], WouldBlock, []);
    assert c.io.sent + [] == c.io.sent;
  }

  lemma OneByteOut(c: Conn)
    requires c.io.writing && c.io.output != []
    ensures |HandleWrite(c, Took(1)).io.sent| == |c.io.sent| + 1
  {
  }

  /**
   * After the close, a byte can still reach the kernel exactly when such a
   * store and a SendInLoop functor are both outstanding.
   */
  lemma WritesAfterCloseIff(usePoll: bool, ops: seq<Op>)
    ensures var w := Exec(usePoll, Start(), ops);
      w.c.phase.Disconnected? ==> (CanWrite(usePoll, w) <==> w.r.testing > 0 && w.r.sends > 0)
  {
    Reachable(usePoll, ops);
    var w := Exec(usePoll, Start(), ops);
    if w.c.phase.Disconnected? {
      if w.r.testing > 0 && w.r.sends > 0 {
        LateSendWrites(usePoll, w);
      } else {
        forall more ensures Exec(usePoll, w, more).c.io.sent == w.c.io.sent {
          SilentRun(usePoll, w, more);
        }
      }
    }
  }

  /** Nor does a channel that was removed come back into the poller, but for the same two. */
  lemma RegistersAgainIff(usePoll: bool, ops: seq<Op>)
    ensures var w := Exec(usePoll, Start(), ops);
      w.c.phase.Disconnected? && w.c.place.Absent? ==>
        (CanRegister(usePoll, w) <==> w.r.testing > 0 && w.r.sends > 0)
  {
    Reachable(usePoll, ops);
    var w := Exec(usePoll, Start(), ops);
    if w.c.phase.Disconnected? && w.c.place.Absent? {
      if w.r.testing > 0 && w.r.sends > 0 {
        LateSendWrites(usePoll, w);
      } else {
        forall more ensures Exec(usePoll, w, more).c.place.Absent? {
          SilentRun(usePoll, w, more);
        }
      }
    }
  }

  // ----------------------------------------------------------- callbacks

  /** The down callbacks of one step: one per HandleClose, and one for destroying a connected connection. */
  function Downs(usePoll: bool, w: World, op: Op): nat {
    if !Enabled(usePoll, w, op) then 0
    else
      match op
      case OnEvent(e) => Closings(e)
      case OnDestroyed(_) | OverwrittenStore(_) => if w.c.phase.Connected? then 1 else 0
      case _ => 0
  }

  function DownsOf(usePoll: bool, w: World, ops: seq<Op>): seq<nat>
    decreases |ops|
  {
    if ops == [] then [] else [Downs(usePoll, w, ops[0])] + DownsOf(usePoll, Next(usePoll, w, ops[0]), ops[1..])
  }

  function Sum(xs: seq<nat>): nat {
    if xs == [] then 0 else xs[0] + Sum(xs[1..])
  }

  lemma DownStep(usePoll: bool, w: World, op: Op)
    requires RunInv(w)
    ensures Next(usePoll, w, op).c.log.downs == w.c.log.downs + Downs(usePoll, w, op)
  {
    if Enabled(usePoll, w, op) {
      match op {
        case OnEstablished(ops) => EstablishedKeeps(w.c, ops);
        case OnUser(o) => if Early(w.c.phase) { OpsKeepInv(w.c, [o]); } else { NotConnectedIgnoresOps(w.c, [o]); }
        case OnEvent(e) => if Early(w.c.phase) { EventKeeps(w.c, e); } else { LateEvent(w.c, e); }
        case OnDestroyed(ops) => if Early(w.c.phase) { DestroyedKeeps(w.c, ops); }
        case OverwrittenStore(ops) => DestroyedKeeps(w.c, ops);
        case QueuedSend(data, wr, after) =>
          if Early(w.c.phase) { EarlySendKeeps(w.c, data, wr, after); } else { LateSend(w.c, data, wr, after); }
        case _ =>
      }
    }
  }

  lemma {:induction false} DownRun(usePoll: bool, w: World, ops: seq<Op>)
    requires RunInv(w)
    ensures Exec(usePoll, w, ops).c.log.downs == w.c.log.downs + Sum(DownsOf(usePoll, w, ops))
    decreases |ops|
  {
    if ops != [] {
      DownStep(usePoll, w, ops[0]);
      NextKeeps(usePoll, w, ops[0]);
      DownRun(usePoll, Next(usePoll, w, ops[0]), ops[1..]);
    }
  }

  /** At most one entry is not zero, and that one is one. */
  predicate OnceAtMost(xs: seq<nat>) {
    && (forall i | 0 <= i < |xs| :: xs[i] <= 1)
    && (forall i, j | 0 <= i < j < |xs| :: xs[i] == 0 || xs[j] == 0)
  }

  lemma {:induction false} ZeroSum(xs: seq<nat>)
    ensures Sum(xs) == 0 <==> forall i | 0 <= i < |xs| :: xs[i] == 0
  {
    if xs != [] {
      ZeroSum(xs[1..]);
      assert forall i | 0 < i < |xs| :: xs[i] == xs[1..][i - 1];
    }
  }

  lemma {:induction false} SumAtMostOne(xs: seq<nat>)
    ensures Sum(xs) <= 1 <==> OnceAtMost(xs)
  {
    if xs != [] {
      var rest := xs[1..];
      SumAtMostOne(rest);
      ZeroSum(rest);
      assert forall i | 0 < i < |xs| :: xs[i] == rest[i - 1];
      assert forall i | 0 <= i < |rest| :: rest[i] == xs[i + 1];
    }
  }

  /**
   * With either backend and callers on any thread, the down callback runs once
   * for every close an event contains and for every destruction of a connected
   * connection; so it runs at most once exactly when at most one step closes,
   * and that one only once.
   */
  lemma DownCallbacksExactly(usePoll: bool, ops: seq<Op>)
    ensures Exec(usePoll, Start(), ops).c.log.downs == Sum(DownsOf(usePoll, Start(), ops))
    ensures Exec(usePoll, Start(), ops).c.log.downs <= 1 <==> OnceAtMost(DownsOf(usePoll, Start(), ops))
  {
    Reachable(usePoll, ops);
    DownRun(usePoll, Start(), ops);
    SumAtMostOne(DownsOf(usePoll, Start(), ops));
  }

  // ------------------------------------------------------------ examples

  function HangUp(): Op {
    OnEvent(Event(Revents(true, false, false, false, false), ReadError, WouldBlock, []))
  }

  function WriteReady(n: nat): Op {
    OnEvent(Event(Revents(false, false, false, false, true), ReadError, Took(n), []))
  }

  /** With the poll backend a hang-up is reported again after the close, until the channel is removed. */
  lemma PollRepeatsDown()
    ensures Ordinary(HangUp()) && Exec(true, Start(), [OnEstablished([]), HangUp(), HangUp()]).c.log.downs == 2
  {
    var a := Next(true, Start(), OnEstablished([]));
    ExecCons(true, Start(), OnEstablished([]), [HangUp(), HangUp()]);
    ExecTwo(true, a, HangUp(), HangUp());
    assert [OnEstablished([])] + [HangUp(), HangUp()] == [OnEstablished([]), HangUp(), HangUp()];
  }

  /** With epoll too, once an event has closed twice: the second DisableAll watches the descriptor again. */
  lemma EpollRepeatsDown()
    ensures var twice := OnEvent(Event(Revents(true, false, false, true, false), Eof, WouldBlock, []));
      Exec(false, Start(), [OnEstablished([]), twice] + [HangUp()]).c.log.downs == 3
  {
    var twice := OnEvent(Event(Revents(true, false, false, true, false), Eof, WouldBlock, []));
    ExecTwo(false, Start(), OnEstablished([]), twice);
    ExecConcat(false, Start(), [OnEstablished([]), twice], [HangUp()]);
    var w := Next(false, Next(false, Start(), OnEstablished([])), twice);
    assert w.c.place.Watched? && w.c.log.downs == 2;
    ExecCons(false, w, HangUp(), []);
    assert [HangUp()] + [] == [HangUp()];
  }

  /** Established, and a send on the loop thread that would block. */
  lemma Pending(data: Bytes) returns (w: World)
    requires data != []
    ensures w == Exec(false, Start(), [OnEstablished([]), OnUser(Send(data, WouldBlock, []))])
    ensures w == World(Conn(Connected, Io([], data, true, true, 0, false), Log([data], [], 1, 0), Watched), Remote(0, 0, 0))
  {
    var send := Send(data, WouldBlock, []);
    ExecTwo(false, Start(), OnEstablished([]), OnUser(send));
    var a := Next(false, Start(), OnEstablished([]));
    assert [send][1..] == [];
    assert RunOps(a.c, [send]) == RunOps(SendInLoop(a.c, data, WouldBlock, []), []);
    w := Next(false, a, OnUser(send));
  }

  /** ShutDown called on another thread issues SHUT_WR twice: once from the drain, once from its functor. */
  lemma RemoteShutDownTwice(data: Bytes)
    requires data != []
    ensures Exec(false, Start(), [OnEstablished([]), OnUser(Send(data, WouldBlock, []))] +
                 ([RemoteTest, RemoteStore] + [WriteReady(|data|), QueuedShutdown])).c.io.shuts == 2
  {
    var w := Pending(data);
    ExecConcat(false, Start(), [OnEstablished([]), OnUser(Send(data, WouldBlock, []))],
               [RemoteTest, RemoteStore] + [WriteReady(|data|), QueuedShutdown]);
    ExecConcat(false, w, [RemoteTest, RemoteStore], [WriteReady(|data|), QueuedShutdown]);
    ExecTwo(false, w, RemoteTest, RemoteStore);
    var v := Next(false, Next(false, w, RemoteTest), RemoteStore);
    ExecTwo(false, v, WriteReady(|data|), QueuedShutdown);
  }

  /**
   * ShutDown's test passes on another thread, the peer hangs up and the
   * connection is closed with data pending, then the store lands: the state has
   * left disconnected and the data waits with the write event off.
   */
  lemma StoreAfterClose(data: Bytes)
    requires data != []
    ensures var w := Exec(false, Start(), [OnEstablished([]), OnUser(Send(data, WouldBlock, []))] +
                          ([RemoteTest, HangUp()] + [RemoteStore]));
      w.c.log.downs == 1 && w.c.phase.Disconnecting? && Stranded(w.c)
  {
    var w := Pending(data);
    ExecConcat(false, Start(), [OnEstablished([]), OnUser(Send(data, WouldBlock, []))],
               [RemoteTest, HangUp()] + [RemoteStore]);
    ExecConcat(false, w, [RemoteTest, HangUp()], [RemoteStore]);
    ExecTwo(false, w, RemoteTest, HangUp());
    var v := Next(false, Next(false, w, RemoteTest), HangUp());
    ExecCons(false, v, RemoteStore, []);
    assert [RemoteStore] + [] == [RemoteStore];
  }

  /** In the same race, a SendInLoop functor hands its message to the kernel after the down callback. */
  lemma SendAfterClose(data: Bytes)
    ensures var w := Exec(false, Start(), [OnEstablished([]), RemoteSend] +
                          ([RemoteTest, HangUp()] + [RemoteStore, QueuedSend(data, Took(|data|), [])]));
      w.c.log.downs == 1 && w.c.io.sent == data
  {
    var send := QueuedSend(data, Took(|data|), []);
    ExecTwo(false, Start(), OnEstablished([]), RemoteSend);
    var w := Next(false, Next(false, Start(), OnEstablished([])), RemoteSend);
    ExecConcat(false, Start(), [OnEstablished([]), RemoteSend], [RemoteTest, HangUp()] + [RemoteStore, send]);
    ExecConcat(false, w, [RemoteTest, HangUp()], [RemoteStore, send]);
    ExecTwo(false, w, RemoteTest, HangUp());
    var v := Next(false, Next(false, w, RemoteTest), HangUp());
    ExecTwo(false, v, RemoteStore, send);
    assert [] + data[..|data|] == data;
  }

  /**
   * A removed channel comes back: the connection is closed and destroyed between
   * test and store, and the queued send, which would block, enables writing.
   */
  lemma RegisteredAfterRemoval(data: Bytes)
    requires data != []
    ensures var w := Exec(false, Start(), [OnEstablished([]), RemoteSend] + ([RemoteTest, HangUp()] + [OnDestroyed([])]));
      && w.c.place.Absent?
      && Exec(false, w, [RemoteStore, QueuedSend(data, WouldBlock, [])]).c.place.Watched?
  {
    ExecTwo(false, Start(), OnEstablished([]), RemoteSend);
    var w := Next(false, Next(false, Start(), OnEstablished([])), RemoteSend);
    ExecConcat(false, Start(), [OnEstablished([]), RemoteSend], [RemoteTest, HangUp()] + [OnDestroyed([])]);
    ExecConcat(false, w, [RemoteTest, HangUp()], [OnDestroyed([])]);
    ExecTwo(false, w, RemoteTest, HangUp());
    var v := Next(false, Next(false, w, RemoteTest), HangUp());
    ExecCons(false, v, OnDestroyed([]), []);
    assert [OnDestroyed([])] + [] == [OnDestroyed([])];
    var u := Next(false, v, OnDestroyed([]));
    ExecTwo(false, u, RemoteStore, QueuedSend(data, WouldBlock, []));
    LateSend(Next(false, u, RemoteStore).c, data, WouldBlock, []);
  }

  /** ShutDown on the loop thread issues SHUT_WR, and a send that another thread had queued writes after it. */
  lemma WriteAfterShut(data: Bytes)
    ensures Exec(false, Start(), [OnEstablished([]), RemoteSend] +
                 [OnUser(ShutDown), QueuedSend(data, Took(|data|), [])]).c.io.late
  {
    ExecTwo(false, Start(), OnEstablished([]), RemoteSend);
    var w := Next(false, Next(false, Start(), OnEstablished([])), RemoteSend);
    ExecConcat(false, Start(), [OnEstablished([]), RemoteSend], [OnUser(ShutDown), QueuedSend(data, Took(|data|), [])]);
    ExecTwo(false, w, OnUser(ShutDown), QueuedSend(data, Took(|data|), []));
    assert [ShutDown][1..] == [];
    assert RunOps(w.c, [ShutDown]) == RunOps(HalfClose(w.c), []) == HalfClose(w.c);
  }
}
