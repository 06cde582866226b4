/** TcpConnection over its output Buffer: each handler does what the value machine says. */
module TcpConnection {
  import opened Streams
  import opened ConnectionSpec
  import B = Buffer

  class TcpConnection {
    const outputBuffer: B.Buffer
    var state: Phase
    var writing: bool     // channel_->IsWriting()
    var reading: bool     // channel_->IsReading()
    var place: Place      // the channel's place in the poller
    ghost var c: Conn

    ghost predicate Linked()
      reads this, outputBuffer, outputBuffer.buffer
    {
      && outputBuffer.Valid() && outputBuffer.Contents() == c.io.output
      && state == c.phase && writing == c.io.writing && reading == c.io.reading && place == c.place
    }

    constructor ()
      ensures Linked() && fresh(outputBuffer) && fresh(outputBuffer.buffer) && c == New()
    {
      var b := new B.Buffer();
      outputBuffer := b;
      state, writing, reading, place := Connecting, false, false, Absent;
      c := New();
    }

    /** Send on the loop thread. */
    method Send(data: Bytes, w: WriteResult, after: seq<UserOp>)
      requires Linked()
      modifies this, outputBuffer, outputBuffer.buffer
      ensures Linked() && (outputBuffer.buffer == old(outputBuffer.buffer) || fresh(outputBuffer.buffer))
      ensures c == if old(c).phase.Connected? then ConnectionSpec.SendInLoop(old(c), data, w, after) else old(c)
      decreases after, 2
    {
      if state == Connected {
        SendInLoop(data, w, after);
      }
    }

    method SendInLoop(data: Bytes, w: WriteResult, after: seq<UserOp>)
      requires Linked()
      modifies this, outputBuffer, outputBuffer.buffer
      ensures Linked() && (outputBuffer.buffer == old(outputBuffer.buffer) || fresh(outputBuffer.buffer))
      ensures c == ConnectionSpec.SendInLoop(old(c), data, w, after)
      decreases after, 1
    {
      if state == Disconnected {
        return;
      }
      var done := Take(data, w);
      if done {
        Invoke(after);
      }
    }

    /** Write at once if nothing is ahead, and buffer what the kernel does not take. */
    method Take(data: Bytes, w: WriteResult) returns (done: bool)
      requires Linked()
      modifies this, outputBuffer, outputBuffer.buffer
      ensures Linked() && (outputBuffer.buffer == old(outputBuffer.buffer) || fresh(outputBuffer.buffer))
      ensures c == Taken(old(c), data, w) && done == Completes(old(c.io), data, w)
    {
      var queued := outputBuffer.ReadableBytes();
      var remaining, fault := data, false;
      done := false;
      if !writing && queued == 0 {
        var wrote := Written(w, |data|);
        remaining := data[wrote..];
        fault := w.Fault?;
        done := w.Took? && remaining == [];
      }
      if !fault && remaining != [] {
        outputBuffer.Append(remaining);
        if !writing {
          writing, place := true, Updated(place, false);
        }
      }
      c := Taken(c, data, w);
    }

    /** A user callback on the loop thread. */
    method Invoke(ops: seq<UserOp>)
      requires Linked()
      modifies this, outputBuffer, outputBuffer.buffer
      ensures Linked() && (outputBuffer.buffer == old(outputBuffer.buffer) || fresh(outputBuffer.buffer))
      ensures c == RunOps(old(c), ops)
      decreases ops, 0
    {
      if ops == [] {
        return;
      }
      match ops[0] {
        case Send(data, w, after) => Send(data, w, after);
        case ShutDown => ShutDown();
      }
      Invoke(ops[1..]);
    }

    /** ShutDown on the loop thread. */
    method ShutDown()
      requires Linked()
      modifies this
      ensures Linked() && c == HalfClose(old(c))
    {
      var connected := TestConnected();
      if connected {
        state := Disconnecting;
        c := c.(phase := Disconnecting);
        ShutdownInLoop();
      }
    }

    /** The test of the state, which on another thread is a step of its own. */
    method TestConnected() returns (passed: bool)
      requires Linked()
      ensures passed <==> c.phase.Connected?
    {
      passed := state == Connected;
    }

    /** Its store, which may land after the loop thread has changed the state. */
    method StoreDisconnecting()
      requires Linked()
      modifies this`state, this`c
      ensures Linked() && c == Apply(old(c), RemoteStore)
    {
      state := Disconnecting;
      c := c.(phase := Disconnecting);
    }

    method ShutdownInLoop()
      requires Linked()
      modifies this`c
      ensures Linked() && c == old(c).(io := ConnectionSpec.ShutdownInLoop(old(c.io)))
    {
      if !writing {
        c := c.(io := c.io.(shuts := c.io.shuts + 1));
      }
    }

    /** WriteFd and Retrive. */
    method WriteOut(w: WriteResult) returns (n: nat, left: nat)
      requires Linked()
      modifies this`c, outputBuffer`readIndex, outputBuffer`writeIndex
      ensures Linked() && n == Written(w, |old(c).io.output|) && left == |c.io.output|
      ensures c == old(c).(io := old(c.io).(late := old(c).io.late || old(c).io.shuts > 0,
                                            sent := old(c).io.sent + old(c).io.output[..n],
                                            output := old(c).io.output[n..]))
    {
      var queued := outputBuffer.ReadableBytes();
      n := Written(w, queued);
      var sent := outputBuffer.WriteFd(n);
      if n > 0 {
        outputBuffer.Retrive(n);
      }
      left := queued - n;
      c := c.(io := c.io.(late := c.io.late || c.io.shuts > 0, sent := c.io.sent + sent, output := c.io.output[n..]));
    }

    method HandleWrite(w: WriteResult)
      requires Linked()
      modifies this, outputBuffer`readIndex, outputBuffer`writeIndex
      ensures Linked() && c == ConnectionSpec.HandleWrite(old(c), w)
    {
      if !writing {
        return;
      }
      var n, left := WriteOut(w);
      if n > 0 && left == 0 {
        writing, place := false, Updated(place, !reading);
        c := c.(io := c.io.(writing := false), place := place);
        if state == Disconnecting {
          ShutdownInLoop();
        }
      }
    }

    /** SetState(kDisconnected), DisableAll and the down callback, which both HandleClose and ConnectionDestroyed do. */
    method Close(ops: seq<UserOp>)
      requires Linked()
      modifies this, outputBuffer, outputBuffer.buffer
      ensures Linked() && (outputBuffer.buffer == old(outputBuffer.buffer) || fresh(outputBuffer.buffer))
      ensures c == ConnectionSpec.HandleClose(old(c), ops)
    {
      state, writing, reading, place := Disconnected, false, false, Updated(place, true);
      c := Closed(c);
      Invoke(ops);
    }

    method HandleRead(r: ReadResult, closeOps: seq<UserOp>)
      requires Linked()
      modifies this, outputBuffer, outputBuffer.buffer
      ensures Linked() && (outputBuffer.buffer == old(outputBuffer.buffer) || fresh(outputBuffer.buffer))
      ensures c == ConnectionSpec.HandleRead(old(c), r, closeOps)
    {
      match r {
        case Data(ops) => Invoke(ops);
        case Eof => Close(closeOps);
        case ReadError =>
      }
    }

    /** Close, error, read, write: in this order, each tested on the same revents_. */
    method HandleEventWithGuard(e: Event)
      requires Linked()
      modifies this, outputBuffer, outputBuffer.buffer
      ensures Linked() && (outputBuffer.buffer == old(outputBuffer.buffer) || fresh(outputBuffer.buffer))
      ensures c == HandleEvent(old(c), e)
    {
      if e.r.hup && !e.r.input {
        Close(e.closeOps);
      }
      if e.r.input || e.r.pri {
        HandleRead(e.read, e.closeOps);
      }
      if e.r.out {
        HandleWrite(e.write);
      }
    }

    method ConnectionEstablished(ops: seq<UserOp>)
      requires Linked()
      modifies this, outputBuffer, outputBuffer.buffer
      ensures Linked() && (outputBuffer.buffer == old(outputBuffer.buffer) || fresh(outputBuffer.buffer))
      ensures c == Established(old(c), ops)
    {
      state, place, reading := Connected, Updated(place, false), true;
      c := Opened(c);
      Invoke(ops);
    }

    method ConnectionDestroyed(ops: seq<UserOp>)
      requires Linked()
      modifies this, outputBuffer, outputBuffer.buffer
      ensures Linked() && (outputBuffer.buffer == old(outputBuffer.buffer) || fresh(outputBuffer.buffer))
      ensures c == Destroyed(old(c), ops)
    {
      if state == Connected {
        Close(ops);
      }
      place := Absent;
      c := c.(place := Absent);
    }
  }
}
