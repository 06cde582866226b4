/**
 * One TcpConnection as a value machine: its state, the output path from Send
 * to the kernel, half-close, and the callbacks, with every user callback
 * re-entering through Send and ShutDown.
 */
module ConnectionSpec {
  import opened Streams

  datatype Phase = Connecting | Connected | Disconnecting | Disconnected

  /** What one write to the socket gives. Fault is EPIPE or ECONNRESET. */
  datatype WriteResult = Took(n: nat) | WouldBlock | OtherError | Fault

  /**
   * What user code does on the loop thread. `write` is what the kernel says
   * should Send write at once; `after` is what the write-complete callback does
   * if that write completes the message.
   */
  datatype UserOp = Send(data: Bytes, write: WriteResult, after: seq<UserOp>) | ShutDown

  /**
   * Bytes the kernel accepted, the output buffer, the channel's mask, how many
   * SHUT_WR were issued, and whether a write was issued after one.
   */
  datatype Io = Io(sent: Bytes, output: Bytes, writing: bool, reading: bool, shuts: nat, late: bool)

  /** Messages taken over by SendInLoop, messages lost to a fault, and the callbacks made. */
  datatype Log = Log(accepted: seq<Bytes>, dropped: seq<Bytes>, ups: nat, downs: nat)

  /**
   * The channel's place in the poller: not there, watched, or kept without being
   * watched. The poll backend makes no difference between the last two.
   */
  datatype Place = Absent | Watched | Parked

  datatype Conn = Conn(phase: Phase, io: Io, log: Log, place: Place)

  function New(): Conn {
    Conn(Connecting, Io([], [], false, false, 0, false), Log([], [], 0, 0), Absent)
  }

  /** Channel::Update: an empty mask parks a watched channel, and any other update watches it, even with an empty mask. */
  function Updated(place: Place, empty: bool): Place {
    if place.Watched? && empty then Parked else Watched
  }

  // -------------------------------------------------------- output path

  function Min(a: nat, b: nat): nat {
    if a < b then a else b
  }

  /** Is there nothing ahead of a new message? */
  predicate Direct(io: Io) {
    !io.writing && io.output == []
  }

  /** output_buffer_.Append of what is left, and EnableWrite. */
  function Buffered(io: Io, rest: Bytes): Io {
    if rest == [] then io else io.(output := io.output + rest, writing := true)
  }

  /** The bytes the kernel takes from a first write. */
  function Written(w: WriteResult, len: nat): nat
    ensures Written(w, len) <= len
  {
    if w.Took? then Min(w.n, len) else 0
  }

  /** SendInLoop on a connection that is not disconnected, up to the write-complete callback. */
  function Output(io: Io, data: Bytes, w: WriteResult): Io {
    if Direct(io) then
      var io' := io.(late := io.late || io.shuts > 0);
      if w.Fault? then io'
      else
        var k := Written(w, |data|);
        Buffered(io'.(sent := io.sent + data[..k]), data[k..])
    else Buffered(io, data)
  }

  /** Does the first write complete the message, so that the callback runs at once? */
  predicate Completes(io: Io, data: Bytes, w: WriteResult) {
    Direct(io) && w.Took? && w.n >= |data|
  }

  predicate Drops(io: Io, w: WriteResult) {
    Direct(io) && w.Fault?
  }

  function Record(log: Log, data: Bytes, dropped: bool): Log {
    if dropped then log.(dropped := log.dropped + [data]) else log.(accepted := log.accepted + [data])
  }

  /** EnableWrite updates the channel, which puts it back into the poller if it was removed. */
  function Taken(c: Conn, data: Bytes, w: WriteResult): Conn {
    var io := Output(c.io, data, w);
    c.(io := io, log := Record(c.log, data, Drops(c.io, w)),
       place := if io.writing && !c.io.writing then Updated(c.place, false) else c.place)
  }

  function SendInLoop(c: Conn, data: Bytes, w: WriteResult, after: seq<UserOp>): Conn
    decreases after, 1
  {
    if c.phase.Disconnected? then c
    else if Completes(c.io, data, w) then RunOps(Taken(c, data, w), after)
    else Taken(c, data, w)
  }

  function ShutdownInLoop(io: Io): Io {
    if io.writing then io else io.(shuts := io.shuts + 1)
  }

  /** ShutDown, called on the loop thread. */
  function HalfClose(c: Conn): Conn {
    if c.phase.Connected? then c.(phase := Disconnecting, io := ShutdownInLoop(c.io)) else c
  }

  /** User code on the loop thread. */
  function RunOps(c: Conn, ops: seq<UserOp>): Conn
    decreases ops, 0
  {
    if ops == [] then c
    else
      match ops[0]
      case Send(data, w, after) =>
        RunOps(if c.phase.Connected? then SendInLoop(c, data, w, after) else c, ops[1..])
      case ShutDown => RunOps(HalfClose(c), ops[1..])
  }

  /** The write event: hand over a prefix, and half-close once drained if asked to. */
  function HandleWrite(c: Conn, w: WriteResult): Conn {
    if !c.io.writing then c
    else
      var k := Written(w, |c.io.output|);
      var io := c.io.(late := c.io.late || c.io.shuts > 0, sent := c.io.sent + c.io.output[..k],
                      output := c.io.output[k..]);
      if k > 0 && io.output == [] then
        var idle := io.(writing := false);
        c.(io := if c.phase.Disconnecting? then ShutdownInLoop(idle) else idle,
           place := Updated(c.place, !idle.reading))
      else c.(io := io)
  }

  // ---------------------------------------------------------- lifecycle

  function Masked(io: Io): Io {
    io.(writing := false, reading := false)
  }

  /** SetState(kDisconnected), DisableAll and the down callback. */
  function Closed(c: Conn): Conn {
    c.(phase := Disconnected, io := Masked(c.io), log := c.log.(downs := c.log.downs + 1),
       place := Updated(c.place, true))
  }

  /** HandleClose, with what the down callback and the close callback do. */
  function HandleClose(c: Conn, ops: seq<UserOp>): Conn {
    RunOps(Closed(c), ops)
  }

  datatype ReadResult = Data(ops: seq<UserOp>) | Eof | ReadError

  function HandleRead(c: Conn, r: ReadResult, closeOps: seq<UserOp>): Conn {
    match r
    case Data(ops) => RunOps(c, ops)
    case Eof => HandleClose(c, closeOps)
    case ReadError => c
  }

  /** The bits of revents_ that the dispatcher looks at. */
  datatype Revents = Revents(hup: bool, err: bool, input: bool, pri: bool, out: bool)

  /** An event, and what read, write and the user's callbacks do while it is handled. */
  datatype Event = Event(r: Revents, read: ReadResult, write: WriteResult, closeOps: seq<UserOp>)

  /** HandleEventWithGuard: close, error, read, write, in this order. */
  function HandleEvent(c: Conn, e: Event): Conn {
    var c1 := if e.r.hup && !e.r.input then HandleClose(c, e.closeOps) else c;
    var c2 := if e.r.input || e.r.pri then HandleRead(c1, e.read, e.closeOps) else c1;
    if e.r.out then HandleWrite(c2, e.write) else c2
  }

  /** Connected and reading, and the up callback. */
  function Opened(c: Conn): Conn {
    c.(phase := Connected, place := Updated(c.place, false), io := c.io.(reading := true),
       log := c.log.(ups := c.log.ups + 1))
  }

  function Established(c: Conn, ops: seq<UserOp>): Conn {
    RunOps(Opened(c), ops)
  }

  function Destroyed(c: Conn, ops: seq<UserOp>): Conn {
    var d := if c.phase.Connected? then RunOps(Closed(c), ops) else c;
    d.(place := Absent)
  }

  // --------------------------------------------------------------- runs

  /**
   * Which events a backend can deliver. Hang-ups and errors need no interest:
   * poll reports them for any channel in its list, epoll for any watched one,
   * and a second DisableAll watches a parked channel again.
   */
  predicate Deliverable(usePoll: bool, c: Conn, r: Revents) {
    && (if usePoll then !c.place.Absent? else c.place.Watched?)
    && (c.io.reading || c.io.writing || (!r.input && !r.pri && !r.out))
  }

  /**
   * What other threads are in the middle of: past the test in ShutDown and
   * before its store, and the functors they have queued.
   */
  datatype Remote = Remote(testing: nat, shutdowns: nat, sends: nat)

  datatype World = World(c: Conn, r: Remote)

  function Start(): World {
    World(New(), Remote(0, 0, 0))
  }

  datatype Op =
    | OnEstablished(ops: seq<UserOp>)
    | OnUser(op: UserOp)
    | OnEvent(e: Event)
    | OnDestroyed(ops: seq<UserOp>)
    // other threads, and the functors they queue
    | RemoteSend                                                      // Send's test passes, the functor is queued
    | QueuedSend(data: Bytes, write: WriteResult, after: seq<UserOp>)  // the SendInLoop functor runs
    | RemoteTest                                                      // ShutDown's test of the state passes
    | RemoteStore                                                     // it stores kDisconnecting and queues its functor
    | QueuedShutdown                                                  // the ShutdownInLoop functor runs
    | OverwrittenStore(ops: seq<UserOp>)  // RemoteStore between ConnectionDestroyed's test and its own store

  predicate Local(op: Op) {
    op.OnEstablished? || op.OnUser? || op.OnEvent? || op.OnDestroyed?
  }

  predicate Enabled(usePoll: bool, w: World, op: Op) {
    match op
    case OnEstablished(_) => w.c.phase.Connecting?
    case OnUser(_) => true
    case OnEvent(e) => Deliverable(usePoll, w.c, e.r)
    case OnDestroyed(_) => w.c.log.ups > 0
    case RemoteSend | RemoteTest => w.c.phase.Connected?
    case QueuedSend(_, _, _) => w.r.sends > 0
    case RemoteStore => w.r.testing > 0
    case QueuedShutdown => w.r.shutdowns > 0
    case OverwrittenStore(_) => w.c.phase.Connected? && w.r.testing > 0
  }

  function Apply(c: Conn, op: Op): Conn {
    match op
    case OnEstablished(ops) => Established(c, ops)
    case OnUser(o) => RunOps(c, [o])
    case OnEvent(e) => HandleEvent(c, e)
    case OnDestroyed(ops) => Destroyed(c, ops)
    case RemoteSend | RemoteTest => c
    case QueuedSend(data, w, after) => SendInLoop(c, data, w, after)
    case RemoteStore => c.(phase := Disconnecting)
    case QueuedShutdown => c.(io := ShutdownInLoop(c.io))
    case OverwrittenStore(ops) => Destroyed(c, ops)
  }

  function Note(usePoll: bool, w: World, op: Op): Remote
    requires Enabled(usePoll, w, op)
  {
    match op
    case RemoteSend => w.r.(sends := w.r.sends + 1)
    case QueuedSend(_, _, _) => w.r.(sends := w.r.sends - 1)
    case RemoteTest => w.r.(testing := w.r.testing + 1)
    case RemoteStore | OverwrittenStore(_) => w.r.(testing := w.r.testing - 1, shutdowns := w.r.shutdowns + 1)
    case QueuedShutdown => w.r.(shutdowns := w.r.shutdowns - 1)
    case _ => w.r
  }

  function Next(usePoll: bool, w: World, op: Op): World {
    if Enabled(usePoll, w, op) then World(Apply(w.c, op), Note(usePoll, w, op)) else w
  }

  function Exec(usePoll: bool, w: World, ops: seq<Op>): World
    decreases |ops|
  {
    if ops == [] then w else Exec(usePoll, Next(usePoll, w, ops[0]), ops[1..])
  }
}
