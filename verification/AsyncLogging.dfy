/** The logger's objects: fixed buffers, the pointers that own them, and the operations that move them. */
module AsyncLogging {
  import opened Streams
  import opened AsyncLogSpec
  import Proofs = AsyncLogProofs

  /** A buffer of BUFFER_SIZE bytes, filled from the front. */
  class FixedBuffer {
    const data: array<Byte>
    var cur: nat
    ghost const id: nat
    ghost var msgs: seq<Bytes>

    ghost predicate Valid()
      reads this, data
    {
      && data.Length == BUFFER_SIZE
      && cur <= data.Length
      && data[..cur] == Flatten(msgs)
    }

    ghost function View(): Buf
      reads this
    {
      Buf(id, msgs)
    }

    constructor (ghost id: nat)
      ensures Valid() && View() == Buf(id, []) && fresh(data)
    {
      this.id := id;
      data := new Byte[BUFFER_SIZE](_ => 0);
      cur := 0;
      msgs := [];
    }

    method Avail() returns (n: int)
      requires Valid()
      ensures n == BUFFER_SIZE - |Content(View())|
    {
      n := data.Length - cur;
    }

    method GetData() returns (bytes: Bytes)
      requires Valid()
      ensures bytes == Content(View())
    {
      bytes := data[..cur];
    }

    method Reset()
      requires Valid()
      modifies this
      ensures Valid() && View() == old(View()).(msgs := [])
    {
      cur := 0;
      msgs := [];
    }

    method Append(msg: Bytes)
      requires Valid()
      modifies this, data
      ensures Valid() && View() == Put(old(View()), msg)
    {
      if data.Length - cur > |msg| {
        forall i | 0 <= i < |msg| {
          data[cur + i] := msg[i];
        }
        assert data[..cur + |msg|] == old(data[..cur]) + msg;
        FlattenSnoc(msgs, msg);
        cur := cur + |msg|;
        msgs := msgs + [msg];
      }
    }
  }

  /** Two pointers share nothing. */
  ghost predicate Separate(a: FixedBuffer?, b: FixedBuffer?) {
    a != null && b != null ==> a != b && a.data != b.data
  }

  /** `b` is a valid buffer of `repr` that looks like `v`. */
  ghost predicate Holds(b: FixedBuffer, v: Buf, repr: set<object>)
    reads repr
  {
    b in repr && b.data in repr && b.Valid() && b.View() == v
  }

  ghost predicate PtrHolds(b: FixedBuffer?, v: Ptr, repr: set<object>)
    reads repr
  {
    if b == null then v == None else v.Some? && Holds(b, v.value, repr)
  }

  /** The producers' side: what the mutex protects. */
  class AsyncLog {
    var curBuffer: FixedBuffer
    var nextBuffer: FixedBuffer?
    var bufferToWrite: seq<FixedBuffer>
    ghost var front: Front
    ghost var Repr: set<object>

    ghost predicate Valid()
      reads this, Repr
    {
      && Holds(curBuffer, front.cur, Repr)
      && PtrHolds(nextBuffer, front.next, Repr)
      && Separate(nextBuffer, curBuffer)
      && |bufferToWrite| == |front.toWrite|
      && (forall i | 0 <= i < |bufferToWrite| ::
            && Holds(bufferToWrite[i], front.toWrite[i], Repr)
            && Separate(bufferToWrite[i], curBuffer)
            && Separate(bufferToWrite[i], nextBuffer))
      && forall i, j | 0 <= i < j < |bufferToWrite| :: Separate(bufferToWrite[i], bufferToWrite[j])
    }

    constructor ()
      ensures Valid() && fresh(Repr) && front == Init().front
    {
      var cur := new FixedBuffer(0);
      var next := new FixedBuffer(1);
      curBuffer, nextBuffer, bufferToWrite := cur, next, [];
      front := Init().front;
      Repr := {cur, cur.data, next, next.data};
    }

    /** Queue the full buffer and put `spare` in its place. */
    method Retire(spare: FixedBuffer, ghost v: Buf, ghost created: nat)
      requires Valid() && Holds(spare, v, Repr) && Separate(spare, curBuffer)
      requires forall i | 0 <= i < |bufferToWrite| :: Separate(bufferToWrite[i], spare)
      modifies this`bufferToWrite, this`curBuffer, this`nextBuffer, this`front
      ensures Valid() && front == Front(v, None, old(front).toWrite + [old(front).cur], created)
    {
      bufferToWrite := bufferToWrite + [curBuffer];
      curBuffer, nextBuffer := spare, null;
      front := Front(v, None, front.toWrite + [front.cur], created);
    }

    /** Go on in the spare, or in a new buffer when there is none. */
    method Rotate()
      requires Valid()
      modifies this
      ensures Valid() && fresh(Repr - old(Repr))
      ensures front == Front(if old(front).next.Some? then old(front).next.value else Buf(old(front).created, []),
                             None, old(front).toWrite + [old(front).cur],
                             if old(front).next.Some? then old(front).created else old(front).created + 1)
    {
      if nextBuffer != null {
        Retire(nextBuffer, front.next.value, front.created);
      } else {
        var made := new FixedBuffer(front.created);
        Repr := Repr + {made, made.data};
        Retire(made, Buf(front.created, []), front.created + 1);
      }
    }

    method Append(msg: Bytes)
      requires Valid()
      modifies this, Repr
      ensures Valid() && fresh(Repr - old(Repr))
      ensures front == AppendFront(old(front), msg)
    {
      var avail := curBuffer.Avail();
      if avail <= |msg| {
        Rotate();
      }
      Store(msg);
    }

    method Store(msg: Bytes)
      requires Valid()
      modifies this`front, curBuffer, curBuffer.data
      ensures Valid() && front == old(front).(cur := Put(old(front).cur, msg))
    {
      curBuffer.Append(msg);
      front := front.(cur := Put(front.cur, msg));
    }

    /** The consumer's turn under the lock: take every buffer, leave empty ones. */
    method Exchange(new1: FixedBuffer, new2: FixedBuffer?)
      returns (batch: seq<FixedBuffer>, spare: FixedBuffer?, ghost taken: set<object>)
      requires Valid() && new1.Valid() && (new2 != null ==> new2.Valid())
      requires {new1, new1.data} !! Repr
      requires Separate(new2, new1) && (new2 != null ==> {new2, new2.data} !! Repr)
      modifies this
      ensures Valid() && taken == old(Repr) - Repr
      ensures Repr <= old(Repr) + {new1, new1.data} + if new2 == null then {} else {new2, new2.data}
      ensures new1.data in Repr && new1 in Repr
      ensures new2 != null && spare == null ==> new2 in Repr && new2.data in Repr
      ensures spare == if old(nextBuffer) == null then null else new2
      ensures spare != null ==> {spare, spare.data} !! Repr
      ensures front == SwapFront(old(front), new1.View(), if new2 == null then None else Some(new2.View()))
      ensures |batch| == |old(front).toWrite| + 1
      ensures forall i | 0 <= i < |batch| :: batch[i] in taken && batch[i].data in taken
      ensures forall i | 0 <= i < |batch| ::
                batch[i].Valid() && batch[i].View() == (old(front).toWrite + [old(front).cur])[i]
      ensures forall i, j | 0 <= i < j < |batch| :: Separate(batch[i], batch[j])
    {
      batch := bufferToWrite + [curBuffer];
      taken := Repr;
      spare := Install(new1, new2);
      taken := taken - Repr;
    }

    /** Empty buffers for the producers: the current one, and a spare if they have none. */
    method Install(new1: FixedBuffer, new2: FixedBuffer?) returns (spare: FixedBuffer?)
      requires Valid() && new1.Valid() && (new2 != null ==> new2.Valid())
      requires Separate(new2, new1)
      requires Separate(new1, nextBuffer)
      modifies this
      ensures Valid()
      ensures Repr == {new1, new1.data} + if nextBuffer == null then {} else {nextBuffer, nextBuffer.data}
      ensures nextBuffer == if old(nextBuffer) == null then new2 else old(nextBuffer)
      ensures spare == if old(nextBuffer) == null then null else new2
      ensures front == SwapFront(old(front), new1.View(), if new2 == null then None else Some(new2.View()))
    {
      front := SwapFront(front, new1.View(), if new2 == null then None else Some(new2.View()));
      curBuffer, bufferToWrite, spare := new1, [], new2;
      if nextBuffer == null {
        nextBuffer, spare := new2, null;
      }
      Repr := {curBuffer, curBuffer.data} + if nextBuffer == null then {} else {nextBuffer, nextBuffer.data};
    }
  }

  lemma WrittenSnoc(batch: seq<Buf>, k: nat)
    requires k < |batch|
    ensures Flatten(Messages(batch[..k + 1])) == Flatten(Messages(batch[..k])) + Content(batch[k])
  {
    assert batch[..k + 1] == batch[..k] + [batch[k]];
    Proofs.MessagesSnoc(batch[..k], batch[k]);
    FlattenConcat(Messages(batch[..k]), batch[k].msgs);
  }

  /** The consumer's side: the locals of ThreadFunc. */
  class LoggingThread {
    var newBuffer1: FixedBuffer?
    var newBuffer2: FixedBuffer?
    var tempBufferVec: seq<FixedBuffer?>
    ghost var back: Back
    ghost var Repr: set<object>

    ghost predicate Valid()
      reads this, Repr
    {
      && PtrHolds(newBuffer1, back.new1, Repr)
      && PtrHolds(newBuffer2, back.new2, Repr)
      && Separate(newBuffer1, newBuffer2)
      && |tempBufferVec| == |back.temp|
      && (forall i | 0 <= i < |tempBufferVec| ::
            && PtrHolds(tempBufferVec[i], back.temp[i], Repr)
            && Separate(tempBufferVec[i], newBuffer1)
            && Separate(tempBufferVec[i], newBuffer2))
      && (forall i, j | 0 <= i < j < |tempBufferVec| :: Separate(tempBufferVec[i], tempBufferVec[j]))
    }

    constructor ()
      ensures Valid() && fresh(Repr) && back == Init().back
    {
      var one := new FixedBuffer(2);
      var two := new FixedBuffer(3);
      newBuffer1, newBuffer2, tempBufferVec := one, two, [];
      back := Init().back;
      Repr := {one, one.data, two, two.data};
    }

    /** The swap under the lock, seen from the consumer: both sides change as one step. */
    method Swap(log: AsyncLog)
      requires Valid() && log.Valid() && Repr !! log.Repr
      requires newBuffer1 != null && tempBufferVec == []
      modifies this, log
      ensures Valid() && log.Valid() && Repr !! log.Repr
      ensures log.front == SwapFront(old(log.front), old(back).new1.value, old(back).new2)
      ensures back == SwapBack(old(log.front), old(back).new2)
    {
      ghost var was := log.front;
      var batch, spare, taken := log.Exchange(newBuffer1, newBuffer2);
      Receive(was, batch, spare, taken);
    }

    method Receive(ghost f: Front, batch: seq<FixedBuffer>, spare: FixedBuffer?, ghost taken: set<object>)
      requires Valid() && |batch| == |f.toWrite| + 1 && taken !! Repr
      requires spare == null || spare == newBuffer2
      requires spare == null <==> newBuffer2 == null || f.next.None?
      requires forall i | 0 <= i < |batch| :: batch[i] in taken && batch[i].data in taken
      requires forall i | 0 <= i < |batch| ::
                 batch[i].Valid() && batch[i].View() == (f.toWrite + [f.cur])[i]
      requires forall i, j | 0 <= i < j < |batch| :: Separate(batch[i], batch[j])
      modifies this
      ensures Valid() && back == SwapBack(f, old(back).new2)
      ensures Repr == taken + if spare == null then {} else {spare, spare.data}
    {
      back := SwapBack(f, back.new2);
      newBuffer1, newBuffer2, tempBufferVec := null, spare, batch;
      Repr := taken + if spare == null then {} else {spare, spare.data};
    }

    /** for (const auto& t : temp_buffer_vec): the bytes given to the log file, in order. */
    method WriteBatch() returns (written: Bytes)
      requires Valid() && AllSet(back.temp)
      ensures written == Flatten(Messages(Deref(back.temp)))
    {
      ghost var batch := Deref(back.temp);
      written := [];
      for k := 0 to |tempBufferVec|
        invariant written == Flatten(Messages(batch[..k]))
      {
        assert back.temp[k] in back.temp;
        var bytes := tempBufferVec[k].GetData();
        WrittenSnoc(batch, k);
        written := written + bytes;
      }
      assert batch[..|batch|] == batch;
    }

    /** buffer_to_write_.size() > 2 decides whether this thread's vector is cut, or padded, to two. */
    method Trim(waiting: nat)
      requires Valid()
      modifies this`tempBufferVec, this`back
      ensures Valid()
      ensures back == old(back).(temp := if waiting > 2 then Resize(old(back).temp, 2) else old(back).temp)
    {
      if waiting > 2 {
        tempBufferVec := if |tempBufferVec| >= 2 then tempBufferVec[..2]
                         else tempBufferVec + seq(2 - |tempBufferVec|, _ => null);
        back := back.(temp := Resize(back.temp, 2));
      }
    }

    method RefillFirst() returns (ok: bool)
      requires Valid()
      modifies this, Repr
      ensures Repr == old(Repr)
      ensures ok <==> Refill(old(back).new1, old(back).temp).Good?
      ensures ok ==>
        var r := Refill(old(back).new1, old(back).temp);
        Valid() && back == Back(r.spare, old(back).new2, r.pool)
    {
      if newBuffer1 == null {
        if |tempBufferVec| == 0 || tempBufferVec[|tempBufferVec| - 1] == null { return false; }
        newBuffer1 := tempBufferVec[|tempBufferVec| - 1];
        tempBufferVec := tempBufferVec[..|tempBufferVec| - 1];
        newBuffer1.Reset();
        var r := Refill(back.new1, back.temp);
        back := Back(r.spare, back.new2, r.pool);
      }
      return true;
    }

    method RefillSecond() returns (ok: bool)
      requires Valid()
      modifies this, Repr
      ensures Repr == old(Repr)
      ensures ok <==> Refill(old(back).new2, old(back).temp).Good?
      ensures ok ==>
        var r := Refill(old(back).new2, old(back).temp);
        Valid() && back == Back(old(back).new1, r.spare, r.pool)
    {
      if newBuffer2 == null {
        if |tempBufferVec| == 0 || tempBufferVec[|tempBufferVec| - 1] == null { return false; }
        newBuffer2 := tempBufferVec[|tempBufferVec| - 1];
        tempBufferVec := tempBufferVec[..|tempBufferVec| - 1];
        newBuffer2.Reset();
        var r := Refill(back.new2, back.temp);
        back := Back(back.new1, r.spare, r.pool);
      }
      return true;
    }

    /** The end of a round; `ok` is false when the code would use a null pointer or an empty vector. */
    method Recycle(waiting: nat) returns (ok: bool)
      requires Valid()
      modifies this, Repr
      ensures ok <==> RecycleBack(old(back), waiting).Ready?
      ensures ok ==> Valid() && back == RecycleBack(old(back), waiting).back
    {
      Trim(waiting);
      ok := RefillFirst();
      if ok {
        ok := RefillSecond();
      }
      if ok {
        Clear();
      }
    }

    method Clear()
      requires Valid()
      modifies this`tempBufferVec, this`back
      ensures Valid() && back == old(back).(temp := [])
    {
      tempBufferVec := [];
      back := back.(temp := []);
    }
  }
}
