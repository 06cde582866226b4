/** What sends, user code and events keep on one connection, step by step. */
module ConnectionProofs {
  import opened Streams
  import opened ConnectionSpec

  /** The byte stream: accepted messages are in the kernel or in the buffer, in order. */
  predicate Conserved(io: Io, accepted: seq<Bytes>) {
    io.sent + io.output == Flatten(accepted)
  }

  /** The write event is enabled exactly while there is something to write. */
  predicate WritesIffPending(phase: Phase, io: Io) {
    if phase.Disconnected? then !io.writing && !io.reading
    else io.writing <==> io.output != []
  }

  predicate StreamInv(c: Conn) {
    Conserved(c.io, c.log.accepted) && WritesIffPending(c.phase, c.io)
  }

  /** One SHUT_WR at most, after the last byte, with no write behind it. */
  predicate HalfCloseInv(phase: Phase, io: Io) {
    && !io.late && io.shuts <= 1
    && (io.shuts == 1 ==> io.output == [] && (phase.Disconnecting? || phase.Disconnected?))
    && (phase.Disconnecting? && io.shuts == 0 ==> io.output != [])
  }

  predicate CallbackInv(c: Conn) {
    && c.log.ups <= 1
    && (c.phase.Connecting? <==> c.log.ups == 0)
    && (c.phase.Disconnected? <==> c.log.downs > 0)
  }

  predicate Inv(c: Conn) {
    StreamInv(c) && HalfCloseInv(c.phase, c.io) && CallbackInv(c)
  }

  function Rank(p: Phase): nat {
    match p
    case Connecting => 0
    case Connected => 1
    case Disconnecting => 2
    case Disconnected => 3
  }

  // ------------------------------------------------------------ one send

  lemma OutputConserves(io: Io, accepted: seq<Bytes>, data: Bytes, w: WriteResult)
    requires Conserved(io, accepted)
    ensures Conserved(Output(io, data, w), if Drops(io, w) then accepted else accepted + [data])
  {
    FlattenSnoc(accepted, data);
    Regroup(io.sent, io.output, data, Written(w, |data|));
    assert Output(io, data, w).output ==
      if !Direct(io) then io.output + data else if w.Fault? then [] else data[Written(w, |data|)..];
  }

  lemma Regroup(a: Bytes, b: Bytes, c: Bytes, k: nat)
    requires k <= |c|
    ensures a + (b + c) == a + b + c && a + c[..k] + c[k..] == a + c && a + [] == a
  {
  }

  lemma TakenKeeps(c: Conn, data: Bytes, w: WriteResult)
    requires StreamInv(c) && !c.phase.Disconnected?
    ensures StreamInv(Taken(c, data, w))
  {
    OutputConserves(c.io, c.log.accepted, data, w);
  }

  lemma TakenHalfClose(c: Conn, data: Bytes, w: WriteResult)
    requires StreamInv(c) && HalfCloseInv(c.phase, c.io) && !c.phase.Disconnected? && c.io.shuts == 0
    ensures HalfCloseInv(c.phase, Taken(c, data, w).io) && Taken(c, data, w).io.shuts == 0
  {
  }

  /** User code never touches the callbacks' counts or the read interest, and unregisters nothing. */
  predicate SameLife(c: Conn, d: Conn) {
    && (d.phase == c.phase || (c.phase.Connected? && d.phase.Disconnecting?))
    && d.log.ups == c.log.ups && d.log.downs == c.log.downs
    && d.io.reading == c.io.reading
    && (c.place.Watched? && c.io.reading ==> d.place.Watched?)
    && (d.place.Absent? ==> c.place.Absent?) && (c.place.Absent? && c.phase.Connecting? ==> d.place.Absent?)
  }

  lemma {:induction false} SendKeeps(c: Conn, data: Bytes, w: WriteResult, after: seq<UserOp>)
    requires StreamInv(c) && !c.phase.Connecting?
    ensures StreamInv(SendInLoop(c, data, w, after)) && SameLife(c, SendInLoop(c, data, w, after))
    decreases after, 1
  {
    if !c.phase.Disconnected? {
      TakenKeeps(c, data, w);
      OpsKeep(Taken(c, data, w), after);
    }
  }

  /** Conservation survives re-entry: a write-complete callback may send and shut down again. */
  lemma {:induction false} OpsKeep(c: Conn, ops: seq<UserOp>)
    requires StreamInv(c)
    ensures StreamInv(RunOps(c, ops)) && SameLife(c, RunOps(c, ops))
    decreases ops, 0
  {
    if ops != [] {
      match ops[0] {
        case Send(data, w, after) =>
          if c.phase.Connected? {
            SendKeeps(c, data, w, after);
            OpsKeep(SendInLoop(c, data, w, after), ops[1..]);
          } else {
            OpsKeep(c, ops[1..]);
          }
        case ShutDown => OpsKeep(HalfClose(c), ops[1..]);
      }
    }
  }

  lemma {:induction false} SendHalfCloses(c: Conn, data: Bytes, w: WriteResult, after: seq<UserOp>)
    requires StreamInv(c) && HalfCloseInv(c.phase, c.io) && c.io.shuts == 0
    ensures var d := SendInLoop(c, data, w, after); HalfCloseInv(d.phase, d.io)
    decreases after, 1
  {
    if !c.phase.Disconnected? {
      TakenKeeps(c, data, w);
      TakenHalfClose(c, data, w);
      OpsHalfClose(Taken(c, data, w), after);
    }
  }

  lemma {:induction false} OpsHalfClose(c: Conn, ops: seq<UserOp>)
    requires StreamInv(c) && HalfCloseInv(c.phase, c.io)
    ensures var d := RunOps(c, ops); HalfCloseInv(d.phase, d.io)
    decreases ops, 0
  {
    if ops != [] {
      match ops[0] {
        case Send(data, w, after) =>
          if c.phase.Connected? {
            SendHalfCloses(c, data, w, after);
            SendKeeps(c, data, w, after);
            OpsHalfClose(SendInLoop(c, data, w, after), ops[1..]);
          } else {
            OpsHalfClose(c, ops[1..]);
          }
        case ShutDown => OpsHalfClose(HalfClose(c), ops[1..]);
      }
    }
  }

  /** A disconnected connection ignores user code. */
  lemma {:induction false} ClosedIgnoresOps(c: Conn, ops: seq<UserOp>)
    requires c.phase.Disconnected?
    ensures RunOps(c, ops) == c
    decreases |ops|
  {
    if ops != [] {
      ClosedIgnoresOps(c, ops[1..]);
    }
  }

  lemma OpsKeepInv(c: Conn, ops: seq<UserOp>)
    requires Inv(c)
    ensures Inv(RunOps(c, ops)) && SameLife(c, RunOps(c, ops))
  {
    OpsKeep(c, ops);
    OpsHalfClose(c, ops);
  }

  // ------------------------------------------------------------- events

  lemma HandleWriteKeeps(c: Conn, w: WriteResult)
    requires StreamInv(c) && !c.phase.Connecting?
    ensures StreamInv(HandleWrite(c, w)) && SameLife(c, HandleWrite(c, w))
    ensures HandleWrite(c, w).log == c.log && HandleWrite(c, w).phase == c.phase
  {
    var k := Written(w, |c.io.output|);
    assert c.io.output == c.io.output[..k] + c.io.output[k..];
    assert c.io.sent + c.io.output[..k] + c.io.output[k..] == c.io.sent + c.io.output;
  }

  lemma HandleWriteHalfCloses(c: Conn, w: WriteResult)
    requires StreamInv(c) && HalfCloseInv(c.phase, c.io)
    ensures HalfCloseInv(c.phase, HandleWrite(c, w).io)
  {
  }

  lemma CloseEffect(c: Conn, ops: seq<UserOp>)
    requires StreamInv(c)
    ensures var d := HandleClose(c, ops);
      d == Closed(c) && StreamInv(d)
  {
    ClosedIgnoresOps(Closed(c), ops);
  }

  /** How many times handling an event runs HandleClose. */
  function Closings(e: Event): nat {
    (if e.r.hup && !e.r.input then 1 else 0) +
    (if (e.r.input || e.r.pri) && e.read.Eof? then 1 else 0)
  }

  lemma ReadKeeps(c: Conn, e: Event)
    requires Inv(c) && !c.phase.Connecting?
    ensures var d := HandleRead(c, e.read, e.closeOps);
      && Inv(d) && d.log.ups == c.log.ups && Rank(c.phase) <= Rank(d.phase)
      && d.log.downs == c.log.downs + if e.read.Eof? then 1 else 0
  {
    match e.read {
      case Data(ops) => OpsKeepInv(c, ops);
      case Eof => CloseEffect(c, e.closeOps);
      case ReadError =>
    }
  }

  /** One event keeps everything, and makes one down callback for each HandleClose. */
  lemma EventKeeps(c: Conn, e: Event)
    requires Inv(c) && !c.phase.Connecting?
    ensures var d := HandleEvent(c, e);
      && Inv(d) && d.log.ups == c.log.ups && Rank(c.phase) <= Rank(d.phase)
      && d.log.downs == c.log.downs + Closings(e)
  {
    CloseEffect(c, e.closeOps);
    var c1 := if e.r.hup && !e.r.input then HandleClose(c, e.closeOps) else c;
    ReadKeeps(c1, e);
    var c2 := if e.r.input || e.r.pri then HandleRead(c1, e.read, e.closeOps) else c1;
    HandleWriteKeeps(c2, e.write);
    HandleWriteHalfCloses(c2, e.write);
  }

  // ---------------------------------------------------------- lifecycle

  lemma EstablishedKeeps(c: Conn, ops: seq<UserOp>)
    requires Inv(c) && c.phase.Connecting?
    ensures Inv(Established(c, ops)) && Established(c, ops).log.ups == 1 && Established(c, ops).log.downs == 0
    ensures Rank(Established(c, ops).phase) >= 1
  {
    OpsKeepInv(Opened(c), ops);
  }

  lemma DestroyedKeeps(c: Conn, ops: seq<UserOp>)
    requires Inv(c)
    ensures var d := Destroyed(c, ops);
      && Inv(d) && d.log.ups == c.log.ups && Rank(c.phase) <= Rank(d.phase)
      && d.log.downs == c.log.downs + if c.phase.Connected? then 1 else 0
  {
    if c.phase.Connected? {
      CloseEffect(c, ops);
    }
  }

  lemma {:induction false} NotConnectedIgnoresOps(c: Conn, ops: seq<UserOp>)
    requires !c.phase.Connected?
    ensures RunOps(c, ops) == c
    decreases |ops|
  {
    if ops != [] {
      NotConnectedIgnoresOps(c, ops[1..]);
    }
  }

  // ----------------------------------------------------- accepted or not

  lemma {:induction false} OpsExtend(c: Conn, ops: seq<UserOp>)
    ensures c.log.accepted <= RunOps(c, ops).log.accepted
    decreases ops, 0
  {
    if ops != [] {
      match ops[0] {
        case Send(data, w, after) =>
          if c.phase.Connected? {
            SendExtends(c, data, w, after);
            OpsExtend(SendInLoop(c, data, w, after), ops[1..]);
          } else {
            OpsExtend(c, ops[1..]);
          }
        case ShutDown => OpsExtend(HalfClose(c), ops[1..]);
      }
    }
  }

  lemma {:induction false} SendExtends(c: Conn, data: Bytes, w: WriteResult, after: seq<UserOp>)
    ensures c.log.accepted <= SendInLoop(c, data, w, after).log.accepted
    ensures !c.phase.Disconnected? && !Drops(c.io, w) ==>
            c.log.accepted + [data] <= SendInLoop(c, data, w, after).log.accepted
    decreases after, 1
  {
    if !c.phase.Disconnected? {
      OpsExtend(Taken(c, data, w), after);
    }
  }

  /** A message joins the stream, ahead of all its callbacks send, unless the first write faults. */
  lemma AcceptedIff(c: Conn, data: Bytes, w: WriteResult, after: seq<UserOp>)
    requires !c.phase.Disconnected?
    ensures c.log.accepted + [data] <= SendInLoop(c, data, w, after).log.accepted <==> !Drops(c.io, w)
  {
    SendExtends(c, data, w, after);
  }

  /** An event that runs HandleClose twice: a hang-up with urgent data, no POLLIN, and end of file on read. */
  predicate DoubleClose(e: Event) {
    e.r.hup && !e.r.input && e.r.pri && e.read.Eof?
  }

  /** The down callback runs once per event on an open connection, except for exactly one kind of event. */
  lemma DownTwiceIff(c: Conn, e: Event)
    requires Inv(c) && (c.phase.Connected? || c.phase.Disconnecting?)
    ensures HandleEvent(c, e).log.downs > 1 <==> DoubleClose(e)
  {
    EventKeeps(c, e);
  }
}
