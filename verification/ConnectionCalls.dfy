/** What the calls of user code bring about: sends, shut-downs and callbacks, over every run. */
module ConnectionCalls {
  import opened Streams
  import opened ConnectionSpec
  import opened ConnectionProofs
  import opened ConnectionRuns

  // -------------------------------------------------------------- ShutDown

  /** A connected connection is watched for reading. */
  predicate Listening(c: Conn) {
    c.phase.Connected? ==> c.place.Watched? && c.io.reading
  }

  lemma ReadListens(c: Conn, e: Event)
    requires Inv(c) && !c.phase.Connecting? && Listening(c)
    ensures Listening(HandleRead(c, e.read, e.closeOps))
  {
    match e.read {
      case Data(ops) => OpsKeepInv(c, ops);
      case Eof => CloseEffect(c, e.closeOps);
      case ReadError =>
    }
  }

  lemma EventListens(c: Conn, e: Event)
    requires Inv(c) && !c.phase.Connecting? && Listening(c)
    ensures Listening(HandleEvent(c, e))
  {
    CloseEffect(c, e.closeOps);
    var c1 := if e.r.hup && !e.r.input then HandleClose(c, e.closeOps) else c;
    ReadKeeps(c1, e);
    ReadListens(c1, e);
  }

  lemma EarlyListens(usePoll: bool, w: World, op: Op)
    requires RunInv(w) && Enabled(usePoll, w, op) && Early(w.c.phase) && Listening(w.c)
    ensures Listening(Apply(w.c, op))
  {
    match op {
      case OnEstablished(ops) => OpsKeepInv(Opened(w.c), ops);
      case OnUser(o) => OpsKeepInv(w.c, [o]);
      case OnEvent(e) => EventListens(w.c, e);
      case OnDestroyed(ops) => if w.c.phase.Connected? { CloseEffect(w.c, ops); }
      case OverwrittenStore(ops) => CloseEffect(w.c, ops);
      case QueuedSend(data, wr, after) => EarlySendKeeps(w.c, data, wr, after);
      case _ =>
    }
  }

  lemma {:induction false} RunListens(usePoll: bool, w: World, ops: seq<Op>)
    requires RunInv(w) && Listening(w.c)
    ensures Listening(Exec(usePoll, w, ops).c)
    decreases |ops|
  {
    if ops != [] {
      if Enabled(usePoll, w, ops[0]) {
        if Early(w.c.phase) {
          EarlyListens(usePoll, w, ops[0]);
        } else {
          LateKeeps(usePoll, w, ops[0]);
        }
      }
      NextKeeps(usePoll, w, ops[0]);
      RunListens(usePoll, Next(usePoll, w, ops[0]), ops[1..]);
    }
  }

  /** The write event, and the socket takes n bytes. */
  function Writable(n: nat): Op {
    OnEvent(Event(Revents(false, false, false, false, true), ReadError, Took(n), []))
  }

  /**
   * ShutDown takes effect, over every run with callers on any thread. Called on
   * the loop thread while connected, it leaves that state. With nothing pending
   * it issues SHUT_WR at once; with data pending it issues none, and the write
   * event in which the socket takes all of the data issues it.
   */
  lemma ShutDownTakesEffect(usePoll: bool, ops: seq<Op>, n: nat)
    ensures var c := Exec(usePoll, Start(), ops).c;
      var d := Exec(usePoll, Start(), ops + [OnUser(ShutDown)]);
      c.phase.Connected? ==>
        && d.c.phase.Disconnecting?
        && (c.io.output == [] ==> d.c.io.shuts == 1)
        && (c.io.output != [] ==> d.c.io.shuts == 0)
        && (c.io.output != [] && n >= |c.io.output| ==>
            var e := Exec(usePoll, Start(), ops + [OnUser(ShutDown)] + [Writable(n)]).c;
            e.io.shuts == 1 && e.io.output == [] && e.io.sent == c.io.sent + c.io.output)
  {
    Reachable(usePoll, ops);
    RunListens(usePoll, Start(), ops);
    var w := Exec(usePoll, Start(), ops);
    ExecConcat(usePoll, Start(), ops, [OnUser(ShutDown)]);
    ExecCons(usePoll, w, OnUser(ShutDown), []);
    assert [OnUser(ShutDown)] + [] == [OnUser(ShutDown)];
    if w.c.phase.Connected? {
      assert [ShutDown][1..] == [];
      assert RunOps(w.c, [ShutDown]) == RunOps(HalfClose(w.c), []) == HalfClose(w.c);
      var v := Next(usePoll, w, OnUser(ShutDown));
      ExecConcat(usePoll, Start(), ops + [OnUser(ShutDown)], [Writable(n)]);
      ExecCons(usePoll, v, Writable(n), []);
      assert [Writable(n)] + [] == [Writable(n)];
      if w.c.io.output != [] && n >= |w.c.io.output| {
        assert Enabled(usePoll, v, Writable(n));
        assert w.c.io.output[..|w.c.io.output|] == w.c.io.output;
      }
    }
  }

  /** From another thread: the store leaves the connected state, and the functor issues SHUT_WR if nothing is pending. */
  lemma RemoteShutDownTakesEffect(usePoll: bool, ops: seq<Op>)
    ensures var w := Exec(usePoll, Start(), ops);
      && (Enabled(usePoll, w, RemoteStore) ==> Next(usePoll, w, RemoteStore).c.phase.Disconnecting?)
      && (Enabled(usePoll, w, QueuedShutdown) ==>
          Next(usePoll, w, QueuedShutdown).c.io.shuts == w.c.io.shuts + if w.c.io.writing then 0 else 1)
  {
  }

  // ------------------------------------------------------------------ Send

  /** The bytes a write result takes of `len`. */
  function Taking(w: WriteResult, len: nat): nat {
    match w
    case Took(n) => if n < len then n else len
    case _ => 0
  }

  /**
   * One send on an open connection. Only if nothing is ahead of it, by the write
   * flag and by the buffer, is the socket written to, and it takes a front part;
   * what it does not take is buffered, unless the write failed with EPIPE or
   * ECONNRESET. The write event is on exactly if it was or something was buffered.
   */
  lemma SendHandsOver(c: Conn, data: Bytes, wr: WriteResult)
    requires !c.phase.Disconnected?
    ensures var d := SendInLoop(c, data, wr, []);
      var k := Taking(wr, |data|);
      && (!c.io.writing && c.io.output == [] && !wr.Fault? ==>
          d.io.sent == c.io.sent + data[..k] && d.io.output == data[k..] && (d.io.writing <==> k < |data|))
      && (!c.io.writing && c.io.output == [] && wr.Fault? ==>
          d.io.sent == c.io.sent && d.io.output == [] && !d.io.writing)
      && (c.io.writing || c.io.output != [] ==>
          d.io.sent == c.io.sent && d.io.output == c.io.output + data &&
          (d.io.writing <==> c.io.writing || data != []))
  {
    if data == [] {
      assert c.io.output + data == c.io.output;
    }
  }

  /** A write event hands over a front part of what is pending, and is turned off exactly when nothing is left. */
  lemma WriteEventHandsOver(c: Conn, wr: WriteResult)
    requires c.io.writing && c.io.output != []
    ensures var d := HandleWrite(c, wr);
      var k := Taking(wr, |c.io.output|);
      && d.io.sent == c.io.sent + c.io.output[..k] && d.io.output == c.io.output[k..]
      && (d.io.writing <==> k < |c.io.output|)
  {
  }

  /**
   * The write-complete callback runs on the loop thread within the send if and
   * only if the first write took the whole message: then its calls take effect
   * one after the other after the send, and otherwise not at all.
   */
  lemma CallbackRunsIff(c: Conn, data: Bytes, wr: WriteResult, after: seq<UserOp>)
    requires !c.phase.Disconnected?
    ensures var sent := SendInLoop(c, data, wr, []);
      SendInLoop(c, data, wr, after) ==
        if !c.io.writing && c.io.output == [] && wr.Took? && wr.n >= |data| then RunOps(sent, after) else sent
    ensures c.phase.Connected? ==>
      (SendInLoop(c, data, wr, [ShutDown]).phase.Disconnecting? <==>
       !c.io.writing && c.io.output == [] && wr.Took? && wr.n >= |data|)
  {
    var sent := SendInLoop(c, data, wr, []);
    assert RunOps(Taken(c, data, wr), []) == Taken(c, data, wr);
    assert [ShutDown][1..] == [];
    assert RunOps(sent, [ShutDown]) == RunOps(HalfClose(sent), []) == HalfClose(sent);
  }

  // ------------------------------------------------------------- callbacks

  function UserCalls(ops: seq<UserOp>): seq<Op> {
    if ops == [] then [] else [OnUser(ops[0])] + UserCalls(ops[1..])
  }

  lemma {:induction false} OneByOne(usePoll: bool, w: World, ops: seq<UserOp>)
    ensures Exec(usePoll, w, UserCalls(ops)) == World(RunOps(w.c, ops), w.r)
    decreases |ops|
  {
    if ops != [] {
      var v := Next(usePoll, w, OnUser(ops[0]));
      ExecCons(usePoll, w, OnUser(ops[0]), UserCalls(ops[1..]));
      OneByOne(usePoll, v, ops[1..]);
      FirstOp(w.c, ops);
    }
  }

  lemma FirstOp(c: Conn, ops: seq<UserOp>)
    requires ops != []
    ensures RunOps(c, ops) == RunOps(RunOps(c, [ops[0]]), ops[1..])
  {
    assert [ops[0]][1..] == [];
    match ops[0] {
      case Send(data, wr, after) =>
        var d := if c.phase.Connected? then SendInLoop(c, data, wr, after) else c;
        assert RunOps(c, [ops[0]]) == RunOps(d, []) == d;
      case ShutDown =>
        assert RunOps(c, [ops[0]]) == RunOps(HalfClose(c), []) == HalfClose(c);
    }
  }

  /** The message callback of a read event, and the up callback, act as the same calls made one by one. */
  lemma CallbacksAreCalls(usePoll: bool, w: World, ops: seq<UserOp>, wr: WriteResult)
    ensures var e := Event(Revents(false, false, true, false, false), Data(ops), wr, []);
      Enabled(usePoll, w, OnEvent(e)) ==>
        Next(usePoll, w, OnEvent(e)) == Exec(usePoll, w, UserCalls(ops))
    ensures Enabled(usePoll, w, OnEstablished(ops)) ==>
      Next(usePoll, w, OnEstablished(ops)) == Exec(usePoll, Next(usePoll, w, OnEstablished([])), UserCalls(ops))
  {
    OneByOne(usePoll, w, ops);
    OneByOne(usePoll, Next(usePoll, w, OnEstablished([])), ops);
    assert RunOps(Opened(w.c), []) == Opened(w.c);
  }

  /** A hang-up is handled before the read: what the message callback then calls is ignored. */
  lemma CloseBeforeRead(c: Conn, e: Event)
    requires Inv(c) && e.r.hup && !e.r.input && e.read.Data?
    ensures var d := HandleEvent(c, e);
      d.log.accepted == c.log.accepted && d.io.sent == c.io.sent && d.phase.Disconnected?
  {
    CloseEffect(c, e.closeOps);
    ClosedIgnoresOps(Closed(c), e.read.ops);
  }

  /** A read is handled before the write: what the message callback could not write goes out in the same event. */
  lemma ReadBeforeWrite(c: Conn, data: Bytes, n: nat)
    requires c.phase.Connected? && !c.io.writing && c.io.output == [] && n >= |data| > 0
    ensures var reply := Event(Revents(false, false, true, false, true), Data([Send(data, WouldBlock, [])]), Took(n), []);
      var d := HandleEvent(c, reply);
      d.io.sent == c.io.sent + data && d.io.output == [] && !d.io.writing
  {
    SendHandsOver(c, data, WouldBlock);
    var s := SendInLoop(c, data, WouldBlock, []);
    assert data[0..] == data && c.io.sent + data[..0] == c.io.sent;
    assert [Send(data, WouldBlock, [])][1..] == [];
    assert RunOps(c, [Send(data, WouldBlock, [])]) == RunOps(s, []) == s;
    WriteEventHandsOver(s, Took(n));
    assert data[..|data|] == data;
  }
}
