/** What every interleaving of the logger keeps, and exactly when it goes wrong. */
module AsyncLogProofs {
  import opened Streams
  import opened AsyncLogSpec

  // ------------------------------------------------------ list algebra

  lemma MessagesSnoc(a: seq<Buf>, b: Buf)
    ensures Messages(a + [b]) == Messages(a) + b.msgs
  {
    assert MessageLists(a + [b]) == MessageLists(a) + [b.msgs];
    FlattenSnoc(MessageLists(a), b.msgs);
  }

  lemma MessagesCons(b: Buf, a: seq<Buf>)
    ensures Messages([b] + a) == b.msgs + Messages(a)
  {
    assert MessageLists([b] + a)[1..] == MessageLists(a);
  }

  lemma AcceptedSnoc(msgs: seq<Bytes>, m: Bytes)
    ensures Accepted(msgs + [m]) == Accepted(msgs) + Kept(m)
  {
    assert (msgs + [m])[..|msgs|] == msgs;
  }

  function Kept(m: Bytes): seq<Bytes> {
    if |m| < BUFFER_SIZE then [m] else []
  }

  lemma IdsSnoc(bufs: seq<Buf>, b: Buf)
    ensures multiset(Ids(bufs + [b])) == multiset(Ids(bufs)) + multiset{b.id}
  {
    assert Ids(bufs + [b]) == Ids(bufs) + [b.id];
  }

  lemma DerefPointers(bufs: seq<Buf>)
    ensures AllSet(Pointers(bufs)) && Deref(Pointers(bufs)) == bufs
  {
  }

  lemma GrowTail<T>(acc: seq<T>, tail: seq<T>, lo: nat, hi: nat)
    requires lo <= hi <= |acc|
    ensures (acc + tail)[..lo] == acc[..lo]
    ensures (acc + tail)[lo..hi] == acc[lo..hi]
    ensures (acc + tail)[hi..] == acc[hi..] + tail
  {
  }

  lemma FlattenThree<T>(a: seq<seq<T>>, b: seq<seq<T>>, c: seq<seq<T>>)
    ensures Flatten(a) + Flatten(b) + Flatten(c) == Flatten(a + b + c)
  {
    FlattenConcat(a, b);
    FlattenConcat(a + b, c);
  }

  // -------------------------------------------------------- ownership

  /** Moving pointers around, dropping some or creating one keeps ownership unique. */
  lemma OwnershipMoves(f: Front, b: Back, f': Front, b': Back)
    requires AllSet(b.temp) && AllSet(b'.temp) && Ownership(f, b)
    requires f.created <= f'.created
    requires Owned(f', b') <= Owned(f, b) ||
             (Owned(f', b') == Owned(f, b) + multiset{f.created} && f.created < f'.created)
    ensures Ownership(f', b')
  {
    assert f.created !in Owned(f, b);
  }

  lemma RotateMoves(f: Front, f': Front, b: Back)
    requires AllSet(b.temp) && f'.toWrite == f.toWrite + [f.cur] && f'.next.None?
    ensures f.next.Some? && f'.cur.id == f.next.value.id ==> Owned(f', b) == Owned(f, b)
    ensures f.next.None? && f'.cur.id == f.created ==> Owned(f', b) == Owned(f, b) + multiset{f.created}
  {
    IdsSnoc(f.toWrite, f.cur);
  }

  lemma AppendMoves(f: Front, b: Back, msg: Bytes)
    requires AllSet(b.temp) && Ownership(f, b)
    ensures Ownership(AppendFront(f, msg), b)
  {
    var f' := AppendFront(f, msg);
    if Fits(f.cur, |msg|) {
      assert Owned(f', b) == Owned(f, b);
    } else {
      RotateMoves(f, f', b);
    }
    OwnershipMoves(f, b, f', b);
  }

  lemma SwapMoves(f: Front, b: Back)
    requires b.temp == [] && b.new1.Some? && (b.new2.Some? || f.next.Some?) && Ownership(f, b)
    ensures var f', b' := SwapFront(f, b.new1.value, b.new2), SwapBack(f, b.new2);
      AllSet(b'.temp) && Deref(b'.temp) == f.toWrite + [f.cur] && Ownership(f', b')
  {
    var f', b' := SwapFront(f, b.new1.value, b.new2), SwapBack(f, b.new2);
    DerefPointers(f.toWrite + [f.cur]);
    IdsSnoc(f.toWrite, f.cur);
    assert Ids([]) == [];
    assert Owned(f', b') == Owned(f, b);
    OwnershipMoves(f, b, f', b');
  }

  // ------------------------------------------------------ stream order

  /** The front end, read in order, grows by the message at its end. */
  lemma FrontAppends(f: Front, msg: Bytes)
    requires EmptyIfSet(f.next)
    ensures FrontMessages(AppendFront(f, msg)) == FrontMessages(f) + Kept(msg)
  {
    var f' := AppendFront(f, msg);
    if Fits(f.cur, |msg|) {
      assert Messages(f.toWrite) + (f.cur.msgs + [msg]) == FrontMessages(f) + [msg];
    } else {
      MessagesSnoc(f.toWrite, f.cur);
      assert Flatten<Byte>([]) == [];
      assert f'.cur.msgs == Kept(msg);
    }
  }

  lemma AppendSplits(log: Log, unwritten: seq<Bytes>, front: seq<Bytes>, msg: Bytes)
    requires Split(log, unwritten, front)
    ensures Split(log.(appended := log.appended + [msg]), unwritten, front + Kept(msg))
  {
    AcceptedSnoc(log.appended, msg);
    GrowTail(Accepted(log.appended), Kept(msg), log.written, log.swapped);
  }

  lemma SwapSplits(log: Log, front: seq<Bytes>)
    requires Split(log, [], front)
    ensures Split(log.(swapped := |Accepted(log.appended)|), front, [])
  {
    var acc := Accepted(log.appended);
    assert |acc[log.written..log.swapped]| == 0;
    assert acc[log.written..|acc|] == acc[log.swapped..];
    assert acc[|acc|..] == [];
  }

  lemma Cut<T>(a: seq<T>, b: seq<T>)
    ensures (a + b)[..|a|] == a && (a + b)[|a|..] == b
  {
  }

  lemma WriteSplits(log: Log, b: Buf, rest: seq<Bytes>, front: seq<Bytes>)
    requires Split(log, b.msgs + rest, front)
    ensures Split(log.(file := log.file + Content(b), written := log.written + |b.msgs|), rest, front)
  {
    var acc := Accepted(log.appended);
    var due := acc[log.written..log.swapped];
    var w := log.written + |b.msgs|;
    assert due == b.msgs + rest;
    Cut(b.msgs, rest);
    assert acc[..w] == acc[..log.written] + due[..|b.msgs|];
    FlattenConcat(acc[..log.written], b.msgs);
    assert acc[w..log.swapped] == due[|b.msgs|..];
  }

  // -------------------------------------------------------- invariant

  lemma InitInv()
    ensures Inv(Init())
  {
    var s := Init();
    assert Ids([]) == [] && Deref([]) == [];
    assert Owned(s.front, s.back) == multiset{0, 1, 2, 3};
    assert Accepted([]) == [] && Messages([]) == [];
  }

  lemma AppendKeepsInv(s: State, msg: Bytes)
    requires Inv(s)
    ensures Inv(Append(s, msg))
  {
    AppendMoves(s.front, s.back, msg);
    FrontAppends(s.front, msg);
    AppendSplits(s.log, Messages(Unwritten(s.back, s.pc)), FrontMessages(s.front), msg);
  }

  lemma SwapReadsBatch(f: Front, new2: Ptr)
    ensures var b' := SwapBack(f, new2);
      AllSet(b'.temp) && Messages(Unwritten(b', Swapped)) == FrontMessages(f)
  {
    DerefPointers(f.toWrite + [f.cur]);
    MessagesSnoc(f.toWrite, f.cur);
    var batch := Deref(SwapBack(f, new2).temp);
    assert batch[0..] == batch;
  }

  lemma SwapReadsFront(f: Front, new1: Buf, new2: Ptr)
    requires new1.msgs == []
    ensures FrontMessages(SwapFront(f, new1, new2)) == []
  {
    assert Messages([]) == [];
  }

  lemma SwapKeepsInv(s: State)
    requires Inv(s) && (s.pc.AtHead? || s.pc.Waiting?)
    ensures Inv(Swap(s))
  {
    SwapMoves(s.front, s.back);
    SwapReadsBatch(s.front, s.back.new2);
    SwapReadsFront(s.front, s.back.new1.value, s.back.new2);
    assert Messages(Unwritten(s.back, s.pc)) == [];
    SwapSplits(s.log, FrontMessages(s.front));
  }

  lemma WriteReads(b: Back, k: nat)
    requires AllSet(b.temp) && k < |b.temp|
    ensures Messages(Unwritten(b, Writing(k))) == b.temp[k].value.msgs + Messages(Unwritten(b, Writing(k + 1)))
  {
    var rest := Deref(b.temp)[k + 1..];
    assert Unwritten(b, Writing(k)) == [b.temp[k].value] + rest;
    MessagesCons(b.temp[k].value, rest);
  }

  lemma WriteEffect(s: State, k: nat)
    requires BackSupply(s.back, s.pc) && s.pc == Writing(k) && k < |s.back.temp|
    ensures var t, b := WriteOne(s, k), s.back.temp[k].value;
      && t.front == s.front && t.back == s.back && t.pc == Writing(k + 1)
      && t.log == s.log.(file := s.log.file + Content(b), written := s.log.written + |b.msgs|)
      && BackSupply(t.back, t.pc)
  {
  }

  lemma WriteKeepsInv(s: State, k: nat)
    requires Inv(s) && s.pc == Writing(k) && k < |s.back.temp|
    ensures Inv(WriteOne(s, k))
  {
    WriteEffect(s, k);
    WriteReads(s.back, k);
    WriteSplits(s.log, s.back.temp[k].value, Messages(Unwritten(s.back, Writing(k + 1))), FrontMessages(s.front));
  }

  /** The one way the recycling step can fail. */
  predicate TrimsIntoNull(b: Back, waiting: nat) {
    waiting > 2 && |b.temp| == 1
  }

  lemma RecycleBags(pool: seq<Ptr>)
    requires pool != [] && AllSet(pool)
    ensures AllSet(pool[..|pool| - 1])
    ensures multiset(Ids(Deref(pool))) ==
            multiset(Ids(Deref(pool[..|pool| - 1]))) + multiset{pool[|pool| - 1].value.id}
  {
    var front := pool[..|pool| - 1];
    assert Deref(pool) == Deref(front) + [pool[|pool| - 1].value];
    IdsSnoc(Deref(front), pool[|pool| - 1].value);
  }

  lemma PrefixBag(pool: seq<Ptr>, n: nat)
    requires n <= |pool| && AllSet(pool)
    ensures AllSet(pool[..n])
    ensures multiset(Ids(Deref(pool[..n]))) <= multiset(Ids(Deref(pool)))
  {
    var ids := Ids(Deref(pool));
    assert Ids(Deref(pool[..n])) == ids[..n];
    assert ids == ids[..n] + ids[n..];
  }

  lemma RefillMoves(spare: Ptr, pool: seq<Ptr>)
    requires AllSet(pool) && (spare.None? ==> pool != [])
    ensures var r := Refill(spare, pool);
      && r.Good? && AllSet(r.pool) && r.spare.Some?
      && (EmptyIfSet(spare) ==> EmptyIfSet(r.spare))
      && |r.pool| == |pool| - (if spare.None? then 1 else 0)
      && PtrBag(r.spare) + multiset(Ids(Deref(r.pool))) == PtrBag(spare) + multiset(Ids(Deref(pool)))
  {
    if spare.None? {
      RecycleBags(pool);
    }
  }

  lemma TakenTwice<T(!new)>(one: multiset<T>, two: multiset<T>, had: multiset<T>,
                            pool: multiset<T>, rest: multiset<T>, last: multiset<T>)
    requires one + rest == pool && two + last == had + rest
    ensures one + two <= had + pool
  {
    forall x ensures (one + two)[x] <= (had + pool)[x] {
      assert (one + rest)[x] == pool[x] && (two + last)[x] == (had + rest)[x];
    }
  }

  lemma TrimFaults(b: Back, waiting: nat)
    requires AllSet(b.temp) && b.new1.None? && TrimsIntoNull(b, waiting)
    ensures RecycleBack(b, waiting) == Fault(NullBuffer)
  {
    assert Resize(b.temp, 2)[1] == None;
  }

  /** Unless the trim pads the batch, both spares are refilled from it. */
  lemma RecycleMoves(f: Front, b: Back, waiting: nat)
    requires AllSet(b.temp) && b.temp != [] && b.new1.None? && !TrimsIntoNull(b, waiting)
    requires (b.new2.None? ==> |b.temp| >= 2) && EmptyIfSet(b.new2)
    ensures var r := RecycleBack(b, waiting);
      && r.Ready? && r.back.temp == []
      && r.back.new1.Some? && EmptyIfSet(r.back.new1)
      && r.back.new2.Some? && EmptyIfSet(r.back.new2)
      && Owned(f, r.back) <= Owned(f, b)
  {
    var kept := if waiting > 2 then Resize(b.temp, 2) else b.temp;
    assert kept == b.temp[..|kept|];
    PrefixBag(b.temp, |kept|);
    RefillMoves(b.new1, kept);
    var first := Refill(b.new1, kept);
    RefillMoves(b.new2, first.pool);
    var second := Refill(b.new2, first.pool);
    assert RecycleBack(b, waiting) == Ready(Back(first.spare, second.spare, []));
    assert Ids(Deref([])) == [];
    TakenTwice(PtrBag(first.spare), PtrBag(second.spare), PtrBag(b.new2), multiset(Ids(Deref(kept))),
               multiset(Ids(Deref(first.pool))), multiset(Ids(Deref(second.pool))));
    assert PtrBag(b.new1) == multiset{};
  }

  lemma NoneUnwritten(b: Back, pc: Pc)
    requires AllSet(b.temp) && Done(pc, |b.temp|) == |b.temp|
    ensures Unwritten(b, pc) == []
  {
  }

  lemma RecycleKeepsInv(s: State)
    requires Inv(s) && s.pc.Writing? && s.pc.k == |s.back.temp|
    requires !TrimsIntoNull(s.back, |s.front.toWrite|)
    ensures Inv(Recycle(s))
  {
    RecycleMoves(s.front, s.back, |s.front.toWrite|);
    var t := Recycle(s);
    OwnershipMoves(s.front, s.back, t.front, t.back);
    NoneUnwritten(s.back, s.pc);
    NoneUnwritten(t.back, t.pc);
  }

  predicate CrashesOn(s: State, a: Action) {
    && a.Step?
    && ((s.pc.Swapped? && |s.back.temp| > MAX_BATCH) ||
        (s.pc.Writing? && s.pc.k >= |s.back.temp| && TrimsIntoNull(s.back, |s.front.toWrite|)))
  }

  /** A step that only moves the consumer on changes neither owners nor stream. */
  lemma MoveKeepsInv(s: State, t: State)
    requires Inv(s) && BackSupply(t.back, t.pc)
    requires t == s.(pc := t.pc, running := t.running)
    requires Done(t.pc, |t.back.temp|) == Done(s.pc, |s.back.temp|)
    ensures Inv(t)
  {
  }

  lemma HeadKeepsInv(s: State)
    requires Inv(s) && s.pc.AtHead?
    ensures Inv(Head(s))
  {
    if s.running && s.front.toWrite != [] {
      SwapKeepsInv(s);
    } else {
      MoveKeepsInv(s, Head(s));
    }
  }

  lemma CheckKeepsInv(s: State)
    requires Inv(s) && s.pc.Swapped? && |s.back.temp| <= MAX_BATCH
    ensures Inv(CheckBatch(s))
  {
    MoveKeepsInv(s, CheckBatch(s));
  }

  lemma ConsumeKeepsInv(s: State)
    requires Inv(s) && !CrashesOn(s, Step)
    ensures Inv(Consume(s))
  {
    match s.pc {
      case AtHead => HeadKeepsInv(s);
      case Waiting => SwapKeepsInv(s);
      case Swapped => CheckKeepsInv(s);
      case Writing(k) =>
        if k < |s.back.temp| {
          WriteKeepsInv(s, k);
        } else {
          RecycleKeepsInv(s);
        }
      case Exited =>
    }
  }

  lemma ConsumeFaults(s: State)
    requires BackSupply(s.back, s.pc) && CrashesOn(s, Step)
    ensures Consume(s) == s.(pc := Crashed(if s.pc.Swapped? then ForeignIterator else NullBuffer))
  {
    if s.pc.Writing? {
      TrimFaults(s.back, |s.front.toWrite|);
    }
  }

  lemma NextIs(s: State, a: Action)
    requires BackSupply(s.back, s.pc)
    ensures a.Produce? ==> Next(s, a) == Append(s, a.msg)
    ensures a.Stop? ==> Next(s, a) == s.(running := false)
    ensures a.Step? ==> Next(s, a) == Consume(s)
  {
  }

  /** One step of any thread keeps the invariant, unless it is one of the two faults. */
  lemma NextKeepsInv(s: State, a: Action)
    requires Inv(s) && !CrashesOn(s, a)
    ensures Inv(Next(s, a))
  {
    NextIs(s, a);
    match a {
      case Produce(msg) => AppendKeepsInv(s, msg);
      case Stop => MoveKeepsInv(s, s.(running := false));
      case Step => ConsumeKeepsInv(s);
    }
  }

  /** The faults are exactly these two, told apart by the step that hits them. */
  lemma FaultsExactly(s: State, a: Action)
    requires Inv(s)
    ensures Next(s, a).pc.Crashed? <==> CrashesOn(s, a)
    ensures CrashesOn(s, a) ==>
            Next(s, a) == s.(pc := Crashed(if s.pc.Swapped? then ForeignIterator else NullBuffer))
  {
    NextIs(s, a);
    if CrashesOn(s, a) {
      ConsumeFaults(s);
    } else {
      NextKeepsInv(s, a);
      NotCrashed(Next(s, a));
    }
  }

  lemma NotCrashed(s: State)
    requires BackSupply(s.back, s.pc)
    ensures !s.pc.Crashed?
  {
  }

  // ------------------------------------------------------------- runs

  lemma {:induction false} ExecKeepsInv(s: State, acts: seq<Action>)
    requires s.pc.Crashed? || Inv(s)
    ensures Exec(s, acts).pc.Crashed? || Inv(Exec(s, acts))
    decreases |acts|
  {
    if acts != [] {
      if !s.pc.Crashed? {
        FaultsExactly(s, acts[0]);
        if !CrashesOn(s, acts[0]) {
          NextKeepsInv(s, acts[0]);
        }
      }
      ExecKeepsInv(Next(s, acts[0]), acts[1..]);
    }
  }

  lemma {:induction false} ExecSnoc(s: State, acts: seq<Action>, a: Action)
    ensures Exec(s, acts + [a]) == Next(Exec(s, acts), a)
    decreases |acts|
  {
    if acts == [] {
      assert acts + [a] == [a];
      assert Exec(Next(s, a), []) == Next(s, a);
    } else {
      assert (acts + [a])[1..] == acts[1..] + [a];
      ExecSnoc(Next(s, acts[0]), acts[1..], a);
    }
  }

  /** Reachable states are faults or satisfy the invariant. */
  lemma Reachable(acts: seq<Action>)
    ensures Exec(Init(), acts).pc.Crashed? || Inv(Exec(Init(), acts))
  {
    InitInv();
    ExecKeepsInv(Init(), acts);
  }

  /** The bytes held by a list of buffers, in order. */
  function BytesOf(bufs: seq<Buf>): Bytes {
    Flatten(Messages(bufs))
  }

  /** Everything the logger holds and has written, oldest first. */
  function Stream(s: State): Bytes
    requires AllSet(s.back.temp)
  {
    s.log.file + BytesOf(Unwritten(s.back, s.pc)) + (BytesOf(s.front.toWrite) + Content(s.front.cur))
  }

  lemma SplitSpells(s: State)
    requires AllSet(s.back.temp)
    requires Split(s.log, Messages(Unwritten(s.back, s.pc)), FrontMessages(s.front))
    ensures Stream(s) == Flatten(Accepted(s.log.appended))
  {
    var acc := Accepted(s.log.appended);
    FlattenThree(acc[..s.log.written], acc[s.log.written..s.log.swapped], acc[s.log.swapped..]);
    assert acc[..s.log.written] + acc[s.log.written..s.log.swapped] + acc[s.log.swapped..] == acc;
    FlattenConcat(Messages(s.front.toWrite), s.front.cur.msgs);
  }

  /**
   * Log stream conservation, over every interleaving: the file, the unwritten
   * part of the batch, the queue of full buffers and the current buffer
   * spell out every message that fits a buffer, in lock order, and no message
   * is split: the file ends after a whole one, and each buffer holds whole ones.
   */
  lemma StreamConservation(acts: seq<Action>)
    ensures var s := Exec(Init(), acts);
      s.pc.Crashed? ||
      (AllSet(s.back.temp) && Stream(s) == Flatten(Accepted(s.log.appended)) &&
       exists inFile :: WholeMessages(s, inFile))
  {
    Reachable(acts);
    var s := Exec(Init(), acts);
    if !s.pc.Crashed? {
      SplitSpells(s);
      var acc := Accepted(s.log.appended);
      assert acc == acc[..s.log.written] + acc[s.log.written..s.log.swapped] + acc[s.log.swapped..];
      assert WholeMessages(s, acc[..s.log.written]);
    }
  }

  /** The accepted messages are those in the file, in the batch, in the full buffers and in the current one. */
  predicate WholeMessages(s: State, inFile: seq<Bytes>)
    requires AllSet(s.back.temp)
  {
    && s.log.file == Flatten(inFile)
    && inFile + Messages(Unwritten(s.back, s.pc)) + (Messages(s.front.toWrite) + s.front.cur.msgs)
       == Accepted(s.log.appended)
  }

  lemma {:induction false} AcceptedLength(msgs: seq<Bytes>)
    ensures |Flatten(Accepted(msgs))| <= |Flatten(msgs)|
    ensures (forall m | m in msgs :: |m| < BUFFER_SIZE) ==> Accepted(msgs) == msgs
    ensures (exists m :: m in msgs && |m| >= BUFFER_SIZE) ==> |Flatten(Accepted(msgs))| < |Flatten(msgs)|
  {
    if msgs != [] {
      var front, last := msgs[..|msgs| - 1], msgs[|msgs| - 1];
      assert msgs == front + [last];
      AcceptedLength(front);
      FlattenSnoc(front, last);
      if |last| < BUFFER_SIZE {
        FlattenSnoc(Accepted(front), last);
        if (forall m | m in msgs :: |m| < BUFFER_SIZE) {
          assert forall m | m in front :: m in msgs;
        }
      } else {
        assert Accepted(msgs) == Accepted(front);
      }
    }
  }

  /** Nothing handed to Append is lost exactly when every message is smaller than a buffer. */
  lemma NothingLostIff(acts: seq<Action>)
    ensures var s := Exec(Init(), acts);
      s.pc.Crashed? ||
      (AllSet(s.back.temp) &&
       (Stream(s) == Flatten(s.log.appended) <==> forall m | m in s.log.appended :: |m| < BUFFER_SIZE))
  {
    StreamConservation(acts);
    AcceptedLength(Exec(Init(), acts).log.appended);
  }

  /** On exit the file holds everything up to the last swap; the rest was appended after it. */
  lemma ExitTail(acts: seq<Action>)
    ensures var s := Exec(Init(), acts);
      var acc := Accepted(s.log.appended);
      s.pc.Exited? ==>
        && s.log.swapped <= |acc|
        && s.log.file == Flatten(acc[..s.log.swapped])
        && FrontMessages(s.front) == acc[s.log.swapped..]
  {
    Reachable(acts);
    var s := Exec(Init(), acts);
    if s.pc.Exited? {
      assert Unwritten(s.back, s.pc) == [];
      assert |Accepted(s.log.appended)[s.log.written..s.log.swapped]| == 0;
    }
  }

  /** At every loop head the consumer owns two empty spares, and no buffer has two owners. */
  lemma {:induction false} SparesNeverRunDry(acts: seq<Action>)
    ensures var s := Exec(Init(), acts);
      && (s.pc.AtHead? ==> SpareReady(s.back.new1) && SpareReady(s.back.new2) && s.back.temp == [])
      && (!s.pc.Crashed? ==>
          (s.front.next.None? ==> s.front.toWrite != []) &&
          AllSet(s.back.temp) && Ownership(s.front, s.back))
      && s.pc != Crashed(AssertFailed) && s.pc != Crashed(EmptyPool)
    decreases |acts|
  {
    Reachable(acts);
    var s := Exec(Init(), acts);
    if s.pc.Crashed? {
      assert acts != [];
      var front, a := acts[..|acts| - 1], acts[|acts| - 1];
      assert acts == front + [a];
      ExecSnoc(Init(), front, a);
      SparesNeverRunDry(front);
      Reachable(front);
      if !Exec(Init(), front).pc.Crashed? {
        FaultsExactly(Exec(Init(), front), a);
      }
    }
  }

  predicate CrashesAt(acts: seq<Action>, k: nat)
    requires k < |acts|
  {
    CrashesOn(Exec(Init(), acts[..k]), acts[k])
  }

  /** A run ends in a fault exactly when some step of it was one of the two. */
  lemma {:induction false} CrashedIff(acts: seq<Action>)
    ensures Exec(Init(), acts).pc.Crashed? <==> exists k :: 0 <= k < |acts| && CrashesAt(acts, k)
    decreases |acts|
  {
    if acts == [] {
    } else {
      var front, a := acts[..|acts| - 1], acts[|acts| - 1];
      assert acts == front + [a];
      CrashedIff(front);
      Reachable(front);
      ExecSnoc(Init(), front, a);
      var p := Exec(Init(), front);
      assert forall k | 0 <= k < |front| :: acts[..k] == front[..k] && acts[k] == front[k];
      assert forall k | 0 <= k < |front| :: CrashesAt(acts, k) <==> CrashesAt(front, k);
      assert CrashesAt(acts, |front|) <==> CrashesOn(p, a);
      if !p.pc.Crashed? {
        FaultsExactly(p, a);
      }
    }
  }

  // ------------------------------------------- the discard branch's fault

  /** n producers' calls with the same message. */
  function Flood(m: Bytes, n: nat): seq<Action> {
    if n == 0 then [] else [Produce(m)] + Flood(m, n - 1)
  }

  /** Each message that fills a buffer retires the one before. */
  lemma {:induction false} FloodFills(s: State, m: Bytes, n: nat)
    requires |m| == BUFFER_SIZE - 1 && !s.pc.Crashed? && s.front.cur.msgs == [m] && EmptyIfSet(s.front.next)
    ensures var t := Exec(s, Flood(m, n));
      t.pc == s.pc && t.back == s.back && |t.front.toWrite| == |s.front.toWrite| + n
    decreases n
  {
    if n > 0 {
      FlattenSnoc([], m);
      assert [] + [m] == [m];
      var t := Next(s, Produce(m));
      assert !Fits(s.front.cur, |m|) && t.front.cur.msgs == [m];
      assert ([Produce(m)] + Flood(m, n - 1))[1..] == Flood(m, n - 1);
      FloodFills(t, m, n - 1);
    }
  }

  /** More than 25 full buffers at the first swap, and the consumer erases with the other vector's iterator. */
  lemma DiscardCounterexample(m: Bytes, n: nat)
    requires |m| == BUFFER_SIZE - 1 && n >= MAX_BATCH
    ensures Exec(Init(), [Step, Produce(m)] + (Flood(m, n) + [Step, Step])).pc == Crashed(ForeignIterator)
  {
    var s := Next(Next(Init(), Step), Produce(m));
    FlattenSnoc([], m);
    assert [] + [m] == [m] && s.front.cur.msgs == [m] && s.pc == Waiting;
    ExecConcat(Init(), [Step, Produce(m)], Flood(m, n) + [Step, Step]);
    ExecTwice(Init(), Step, Produce(m));
    FloodFills(s, m, n);
    var t := Exec(s, Flood(m, n));
    ExecConcat(s, Flood(m, n), [Step, Step]);
    ExecTwice(t, Step, Step);
    assert |Next(t, Step).back.temp| == n + 1;
  }

  lemma ExecTwice(s: State, a: Action, b: Action)
    ensures Exec(s, [a, b]) == Next(Next(s, a), b)
  {
    ExecSnoc(s, [a], b);
    ExecSnoc(s, [], a);
    assert [a] + [b] == [a, b] && [] + [a] == [a];
  }

  // --------------------------------------------- the trim guard's fault

  lemma {:induction false} ExecConcat(s: State, a: seq<Action>, b: seq<Action>)
    ensures Exec(s, a + b) == Exec(Exec(s, a), b)
    decreases |b|
  {
    if b == [] {
      assert a + b == a;
    } else {
      assert a + b == (a + [b[0]]) + b[1..];
      ExecConcat(s, a + [b[0]], b[1..]);
      ExecSnoc(s, a, b[0]);
    }
  }

  lemma Unroll4(s: State, a: Action, b: Action, c: Action, d: Action, rest: seq<Action>)
    ensures Exec(s, [a, b, c, d] + rest) == Exec(Next(Next(Next(Next(s, a), b), c), d), rest)
  {
    ExecConcat(s, [a, b, c, d], rest);
    ExecSnoc(s, [a, b, c], d);
    ExecSnoc(s, [a, b], c);
    ExecSnoc(s, [a], b);
    ExecSnoc(s, [], a);
    assert [a, b, c] + [d] == [a, b, c, d] && [a, b] + [c] == [a, b, c] && [a] + [b] == [a, b] && [] + [a] == [a];
  }

  /** The consumer's first batch after a timeout: one buffer, already written. */
  lemma OneBufferBatch() returns (s: State)
    ensures s == Next(Next(Next(Next(Init(), Step), Step), Step), Step)
    ensures s.pc == Writing(1) && s.back == Back(None, Some(Buf(3, [])), [Some(Buf(0, []))])
    ensures s.front == Front(Buf(2, []), Some(Buf(1, [])), [], 4)
  {
    var b := Next(Next(Init(), Step), Step);
    assert Pointers([Buf(0, [])]) == [Some(Buf(0, []))];
    assert b.back.temp == [Some(Buf(0, []))];
    s := Next(Next(b, Step), Step);
  }

  /** Four messages that each fill a buffer leave three buffers queued. */
  lemma FourAppends(f: Front, m: Bytes)
    requires f.toWrite == [] && f.cur.msgs == [] && f.next.Some? && f.next.value.msgs == []
    requires |m| == BUFFER_SIZE - 1
    ensures |AppendFront(AppendFront(AppendFront(AppendFront(f, m), m), m), m).toWrite| == 3
  {
    FlattenSnoc([], m);
    var a := AppendFront(f, m);
    assert [] + [m] == [m];
    var b := AppendFront(a, m);
    var c := AppendFront(b, m);
    assert a.cur.msgs == b.cur.msgs == c.cur.msgs == [m];
  }

  /**
   * The trim guard looks at the producers' vector while it trims the
   * consumer's. A one-buffer batch followed by three full buffers makes
   * resize() pad the batch with a null pointer, which is then reset.
   */
  lemma TrimGuardCounterexample(m: Bytes)
    requires |m| == BUFFER_SIZE - 1
    ensures Exec(Init(), [Step, Step, Step, Step] + ([Produce(m), Produce(m), Produce(m), Produce(m)] + [Step])).pc
            == Crashed(NullBuffer)
  {
    var s := OneBufferBatch();
    FourAppends(s.front, m);
    var t := Append(Append(Append(Append(s, m), m), m), m);
    TrimFaults(t.back, |t.front.toWrite|);
    Unroll4(Init(), Step, Step, Step, Step, [Produce(m), Produce(m), Produce(m), Produce(m)] + [Step]);
    Unroll4(s, Produce(m), Produce(m), Produce(m), Produce(m), [Step]);
    ExecSnoc(t, [], Step);
    assert [] + [Step] == [Step];
  }
}
