/**
 * When the logger stops and when it moves its buffers: the consumer leaves its
 * loop exactly because of Stop and soon after it, and a producer retires a
 * buffer exactly when a message does not fit.
 */
module AsyncLogStop {
  import opened Streams
  import opened AsyncLogSpec
  import opened AsyncLogProofs

  // ------------------------------------------------------------------ stop

  lemma {:induction false} RunningUntilStop(s: State, acts: seq<Action>)
    requires s.running && !s.pc.Exited? && Stop !in acts
    ensures Exec(s, acts).running && !Exec(s, acts).pc.Exited?
    decreases |acts|
  {
    if acts != [] {
      assert acts[0] in acts && forall a | a in acts[1..] :: a in acts;
      RunningUntilStop(Next(s, acts[0]), acts[1..]);
    }
  }

  /** The consumer exits only because of Stop. */
  lemma ExitsOnlyAfterStop(acts: seq<Action>)
    ensures Exec(Init(), acts).pc.Exited? ==> Stop in acts
  {
    if Stop !in acts {
      RunningUntilStop(Init(), acts);
    }
  }

  /** At most this many more consumer steps, if no producer interferes. */
  function Left(s: State): nat {
    match s.pc
    case AtHead => 1
    case Waiting => |s.front.toWrite| + 5
    case Swapped => |s.back.temp| + 3
    case Writing(k) => (if k <= |s.back.temp| then |s.back.temp| - k else 0) + 2
    case Exited => 0
    case Crashed(_) => 0
  }

  function Count(acts: seq<Action>, step: bool): nat {
    if acts == [] then 0
    else (if acts[0].Step? == step then 1 else 0) + Count(acts[1..], step)
  }

  /** A swap: the batch is filled from the front end. */
  predicate Swaps(s: State, a: Action) {
    a.Step? && !s.pc.Swapped? && Next(s, a).pc.Swapped?
  }

  function SwapCount(s: State, acts: seq<Action>): nat
    decreases |acts|
  {
    if acts == [] then 0
    else (if Swaps(s, acts[0]) then 1 else 0) + SwapCount(Next(s, acts[0]), acts[1..])
  }

  /** Only a consumer waiting under the lock has a swap ahead of it. */
  function SwapsLeft(s: State): nat {
    if s.pc.Waiting? then 1 else 0
  }

  lemma StoppedStep(s: State, a: Action)
    requires !s.running
    ensures var t := Next(s, a);
      && !t.running
      && Left(t) + (if a.Step? && Left(s) > 0 then 1 else 0) <= Left(s) + (if a.Step? then 0 else 1)
      && SwapsLeft(t) + (if Swaps(s, a) then 1 else 0) <= SwapsLeft(s)
  {
    if a.Produce? && !s.pc.Crashed? {
      assert |AppendFront(s.front, a.msg).toWrite| <= |s.front.toWrite| + 1;
    }
  }

  lemma {:induction false} StoppedRun(s: State, more: seq<Action>)
    requires !s.running
    ensures var t := Exec(s, more);
      && (Left(t) == 0 || Left(t) + Count(more, true) <= Left(s) + Count(more, false))
      && SwapsLeft(t) + SwapCount(s, more) <= SwapsLeft(s)
    decreases |more|
  {
    if more != [] {
      StoppedStep(s, more[0]);
      StoppedRun(Next(s, more[0]), more[1..]);
      if Left(s) == 0 {
        EndedStays(s, more);
      }
    }
  }

  lemma {:induction false} EndedStays(s: State, more: seq<Action>)
    requires s.pc.Exited? || s.pc.Crashed?
    ensures Exec(s, more).pc == s.pc
    decreases |more|
  {
    if more != [] {
      EndedStays(Next(s, more[0]), more[1..]);
    }
  }

  /**
   * Stop ends the consumer. After any run and Stop, whatever producers still
   * append, the consumer has exited or crashed once it took as many steps as
   * there are buffers queued, in the batch and appended meanwhile, and five
   * more; and it swaps at most once more, only if it was waiting.
   */
  lemma StopEnds(acts: seq<Action>, more: seq<Action>)
    ensures var s := Exec(Init(), acts + [Stop]);
      var t := Exec(s, more);
      && (Count(more, true) >= |s.front.toWrite| + |s.back.temp| + Count(more, false) + 5 ==>
          t.pc.Exited? || t.pc.Crashed?)
      && SwapCount(s, more) <= (if s.pc.Waiting? then 1 else 0)
  {
    ExecSnoc(Init(), acts, Stop);
    var p := Exec(Init(), acts);
    var s := Next(p, Stop);
    if p.pc.Crashed? {
      EndedStays(s, more);
      CrashedSwaps(s, more);
    } else {
      StoppedRun(s, more);
    }
  }

  lemma {:induction false} CrashedSwaps(s: State, more: seq<Action>)
    requires s.pc.Crashed?
    ensures SwapCount(s, more) == 0
    decreases |more|
  {
    if more != [] {
      CrashedSwaps(Next(s, more[0]), more[1..]);
    }
  }

  /** At the loop head the consumer tests running_ first: it exits exactly when a Stop was taken. */
  lemma HeadExitsIff(acts: seq<Action>)
    ensures var s := Exec(Init(), acts);
      s.pc.AtHead? ==> (Next(s, Step).pc.Exited? <==> Stop in acts)
  {
    ReadsStop(Init(), acts);
  }

  lemma {:induction false} ReadsStop(s: State, acts: seq<Action>)
    requires !s.pc.Crashed?
    ensures var t := Exec(s, acts); t.pc.Crashed? || (t.running <==> s.running && Stop !in acts)
    decreases |acts|
  {
    if acts != [] {
      assert acts == [acts[0]] + acts[1..];
      if Next(s, acts[0]).pc.Crashed? {
        EndedStays(Next(s, acts[0]), acts[1..]);
      } else {
        ReadsStop(Next(s, acts[0]), acts[1..]);
      }
    }
  }

  // --------------------------------------------------------------- buffers

  /** The consumer waits only when no full buffer is queued, and otherwise takes the whole front end at once. */
  lemma WaitsIff(acts: seq<Action>)
    ensures var s := Exec(Init(), acts);
      var t := Next(s, Step);
      s.pc.AtHead? && Stop !in acts ==>
        && (t.pc.Waiting? <==> s.front.toWrite == [])
        && (s.front.toWrite != [] ==>
            t.pc.Swapped? && AllSet(t.back.temp) && Messages(Deref(t.back.temp)) == FrontMessages(s.front))
  {
    ReadsStop(Init(), acts);
    Reachable(acts);
    var s := Exec(Init(), acts);
    if s.pc.AtHead? && s.running && s.front.toWrite != [] {
      SwapMoves(s.front, s.back);
      MessagesSnoc(s.front.toWrite, s.front.cur);
    }
  }

  /**
   * A message retires the current buffer exactly when it is at least as long as
   * the room left in it, and a buffer is created exactly when there is no spare.
   */
  lemma RetiresIff(acts: seq<Action>, m: Bytes)
    ensures var s := Exec(Init(), acts);
      var t := Next(s, Produce(m));
      var full := |Content(s.front.cur)| + |m| >= BUFFER_SIZE;
      !s.pc.Crashed? ==>
        && t.front.toWrite == s.front.toWrite + (if full then [s.front.cur] else [])
        && t.front.created == s.front.created + (if full && s.front.next.None? then 1 else 0)
        && (full && s.front.next.Some? ==> t.front.cur.id == s.front.next.value.id)
        && (full <==> t.front.cur.id != s.front.cur.id)
  {
    Reachable(acts);
    var s := Exec(Init(), acts);
    if !s.pc.Crashed? {
      SpareDiffers(s.front, s.back);
    }
  }

  lemma SpareDiffers(f: Front, b: Back)
    requires AllSet(b.temp) && Ownership(f, b)
    ensures f.cur.id < f.created && (f.next.Some? ==> f.next.value.id != f.cur.id)
  {
    assert f.cur.id in Owned(f, b);
    if f.next.Some? {
      assert Owned(f, b)[f.cur.id] <= 1;
    }
  }
}
