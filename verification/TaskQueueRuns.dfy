/** When the loop stops, and what the eventfd's count is, read off the actions of a run. */
module TaskQueueRuns {
  import opened TaskQueueSpec

  // ------------------------------------------------------------------ quit

  /** Was quit_ set since Loop was called, or before it if it was not called yet? */
  predicate QuitTaken(s: State, acts: seq<Action>, before: bool)
    decreases |acts|
  {
    if acts == [] then before
    else
      var a := acts[0];
      QuitTaken(Next(s, a), acts[1..],
                if !Enabled(s, a) then before
                else if a.Start? then false
                else before || a.RemoteQuit? || a.LocalQuit?)
  }

  lemma {:induction false} QuitFollowsActions(s: State, acts: seq<Action>, before: bool)
    requires s.quit.asked <==> before
    ensures Exec(s, acts).quit.asked <==> QuitTaken(s, acts, before)
    decreases |acts|
  {
    if acts != [] {
      var a := acts[0];
      QuitFollowsActions(Next(s, a), acts[1..],
                         if !Enabled(s, a) then before
                         else if a.Start? then false
                         else before || a.RemoteQuit? || a.LocalQuit?);
    }
  }

  /**
   * The loop stops exactly on request: at the test of quit_, after any run, it
   * leaves if and only if some thread, the loop's own included, called Quit since
   * Loop was called; otherwise it goes round again.
   */
  lemma StopsIff(acts: seq<Action>)
    ensures var s := Exec(Init(), acts);
      s.phase.Top? ==>
        && (Next(s, Enter).phase.Stopped? <==> QuitTaken(Init(), acts, false))
        && (Next(s, Enter).phase.Timers? <==> !QuitTaken(Init(), acts, false))
  {
    QuitFollowsActions(Init(), acts, false);
  }

  /** How often the loop enters the multiplexer, and how often it starts a round. */
  function Polls(s: State, acts: seq<Action>): nat
    decreases |acts|
  {
    if acts == [] then 0
    else (if acts[0].Poll? && Enabled(s, acts[0]) then 1 else 0) + Polls(Next(s, acts[0]), acts[1..])
  }

  function Rounds(s: State, acts: seq<Action>): nat
    decreases |acts|
  {
    if acts == [] then 0
    else
      (if acts[0].Enter? && Enabled(s, acts[0]) && Next(s, acts[0]).phase.Timers? then 1 else 0)
      + Rounds(Next(s, acts[0]), acts[1..])
  }

  lemma {:induction false} NoRoundOnceAsked(s: State, more: seq<Action>)
    requires s.quit.asked && !s.phase.Idle?
    ensures Rounds(s, more) == 0 && Polls(s, more) <= if s.phase.Timers? then 1 else 0
    ensures Exec(s, more).quit.asked
    decreases |more|
  {
    if more != [] {
      NoRoundOnceAsked(Next(s, more[0]), more[1..]);
    }
  }

  /** After a Quit of any thread the loop starts no further round, and enters the multiplexer at most in the round it is in. */
  lemma NoRoundAfterQuit(acts: seq<Action>, more: seq<Action>)
    ensures var s := Exec(Init(), acts);
      QuitTaken(Init(), acts, false) && !s.phase.Idle? ==>
        Rounds(s, more) == 0 && Polls(s, more) <= if s.phase.Timers? then 1 else 0
  {
    QuitFollowsActions(Init(), acts, false);
    var s := Exec(Init(), acts);
    if s.quit.asked && !s.phase.Idle? {
      NoRoundOnceAsked(s, more);
    }
  }

  // --------------------------------------------------------------- eventfd

  /** Wakeups written since the wakeup channel was last read. */
  function Wakes(s: State, acts: seq<Action>, before: nat): nat
    decreases |acts|
  {
    if acts == [] then before
    else
      var a := acts[0];
      Wakes(Next(s, a), acts[1..],
            if !Enabled(s, a) then before
            else if a.Drain? then 0
            else before + if a.RemoteWake? || a.LocalWake? then 1 else 0)
  }

  lemma {:induction false} CountFollowsActions(s: State, acts: seq<Action>, before: nat)
    requires s.signal.count == before
    ensures Exec(s, acts).signal.count == Wakes(s, acts, before)
    decreases |acts|
  {
    if acts != [] {
      var a := acts[0];
      CountFollowsActions(Next(s, a), acts[1..],
                          if !Enabled(s, a) then before
                          else if a.Drain? then 0
                          else before + if a.RemoteWake? || a.LocalWake? then 1 else 0);
    }
  }

  /** Over every run, the count is the number of wakeups since the last read. */
  lemma CountsWakeups(acts: seq<Action>)
    ensures Exec(Init(), acts).signal.count == Wakes(Init(), acts, 0)
  {
    CountFollowsActions(Init(), acts, 0);
  }

  /** A round that the eventfd woke reads it before it runs functors. */
  lemma WokenRoundReads(s: State, more: seq<Action>)
    requires s.phase.Polling? && s.signal.count > 0 && forall a | a in more :: !a.Call?
    ensures var t := Exec(Next(s, Ready(true)), more); Enabled(t, Call) ==> Drain in more
  {
    if Drain !in more {
      KeepsWaiting(Next(s, Ready(true)), more);
    }
  }

  lemma {:induction false} KeepsWaiting(s: State, more: seq<Action>)
    requires s.phase == Handlers(true) && Drain !in more
    ensures Exec(s, more).phase == Handlers(true)
    decreases |more|
  {
    if more != [] {
      assert more[0] in more && forall a | a in more[1..] :: a in more;
      KeepsWaiting(Next(s, more[0]), more[1..]);
    }
  }
}
