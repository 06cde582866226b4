/** When a log file is opened and flushed, read off the lines of a run and the clock. */
module LogFileRolls {
  import opened Streams
  import opened LogFileSpec

  /** The day of a clock reading, in days of 86400 seconds, cut toward zero. */
  function Day(now: int): int {
    if now >= 0 then now / 86400 else -((-now) / 86400)
  }

  /** Two clocks have the same period if and only if they lie in the same day. */
  lemma SamePeriodIff(a: int, b: int)
    ensures Period(a) == Period(b) <==> Day(a) == Day(b)
  {
    assert Period(a) == Day(a) * 86400;
    assert Period(b) == Day(b) * 86400;
  }

  /** How many lines of the run left the open file within the limit. */
  function Within(cfg: Config, s: State, lines: seq<Line>): nat
    decreases |lines|
  {
    if lines == [] then 0
    else
      Within(cfg, Append(cfg, s, lines[0]), lines[1..]) +
      if Opened(s) && s.written + Write(lines[0].writes, |lines[0].text|).counted <= cfg.rollSize then 1 else 0
  }

  function Every(cfg: Config): nat {
    if cfg.checkEveryN < 1 then 1 else cfg.checkEveryN
  }

  /** The marks of the open file, and where the count of lines stands. */
  predicate Marked(cfg: Config, s: State, lines: nat) {
    && Inv(s) && Opened(s) && !s.crashed
    && s.marks.start == Period(Last(s)) && s.marks.count == lines % Every(cfg)
  }

  lemma NextCount(n: nat, every: nat)
    requires every > 0
    ensures (n + 1) % every == if n % every + 1 == every then 0 else n % every + 1
  {
    var q, r := n / every, n % every;
    var q', r' := (n + 1) / every, (n + 1) % every;
    assert n == q * every + r && n + 1 == q' * every + r';
    if r + 1 == every {
      assert (q + 1) * every == q * every + every;
      SameRest(q + 1, 0, q', r', every);
    } else {
      SameRest(q, r + 1, q', r', every);
    }
  }

  lemma SameRest(q: int, r: int, q': int, r': int, e: nat)
    requires q * e + r == q' * e + r' && 0 <= r < e && 0 <= r' < e
    ensures r == r'
  {
    assert (q - q') * e == r' - r && (q' - q) * e == r - r';
    if q - q' >= 1 {
      AtLeast(q - q', e);
    } else if q' - q >= 1 {
      AtLeast(q' - q, e);
    }
  }

  lemma AtLeast(d: int, e: nat)
    requires d >= 1
    ensures d * e >= e
  {
    assert d * e == (d - 1) * e + e;
  }

  lemma AppendMarked(cfg: Config, s: State, line: Line, lines: nat)
    requires Marked(cfg, s, lines)
    ensures var t := Append(cfg, s, line);
      Marked(cfg, t, lines + if s.written + Write(line.writes, |line.text|).counted <= cfg.rollSize then 1 else 0)
  {
    AppendKeepsInv(cfg, s, line);
    NextCount(lines, Every(cfg));
    assert Every(cfg) == 1 ==> lines % Every(cfg) == 0;
  }

  lemma {:induction false} RunMarked(cfg: Config, s: State, lines: seq<Line>, before: nat)
    requires Marked(cfg, s, before)
    ensures Marked(cfg, Exec(cfg, s, lines), before + Within(cfg, s, lines))
    decreases |lines|
  {
    if lines != [] {
      AppendMarked(cfg, s, lines[0], before);
      RunMarked(cfg, Append(cfg, s, lines[0]), lines[1..],
                before + if s.written + Write(lines[0].writes, |lines[0].text|).counted <= cfg.rollSize then 1 else 0);
    }
  }

  /** The line takes the open file past the limit. */
  predicate Passes(cfg: Config, s: State, line: Line) {
    s.written + Write(line.writes, |line.text|).counted > cfg.rollSize
  }

  /** A line within the limit is the one that is checked: every check_every_n-th of those. */
  predicate Checked(cfg: Config, now: int, lines: seq<Line>) {
    (Within(cfg, Start(now), lines) + 1) % Every(cfg) == 0
  }

  lemma StepOpens(cfg: Config, s: State, line: Line, lines: nat)
    requires Marked(cfg, s, lines)
    ensures var t := Append(cfg, s, line);
      && (t.names == s.names || t.names == s.names + [line.rollTime])
      && (t.names == s.names + [line.rollTime] <==>
          && line.rollTime > Last(s)
          && (Passes(cfg, s, line) ||
              (s.marks.count + 1 >= cfg.checkEveryN && Period(line.checkTime) != Period(Last(s)))))
  {
    assert s.names + [line.rollTime] != s.names;
  }

  lemma StepOpened(cfg: Config, s: State, line: Line)
    requires Inv(s) && Opened(s) && !s.crashed && Append(cfg, s, line).names == s.names + [line.rollTime]
    ensures var t := Append(cfg, s, line);
      && Opened(t) && Last(t) == line.rollTime && t.disk[line.rollTime] == [] && t.written == 0
      && t.marks.start == Period(line.rollTime) && t.marks.lastFlush == t.marks.lastRoll == line.rollTime
  {
    assert s.names + [line.rollTime] != s.names;
    var u := Store(s, line);
    assert Inv(u);
    RollKeepsInv(u, line.rollTime);
  }

  /**
   * In every reachable state, an append opens a file if and only if the clock is
   * past the open file's creation, and either the file passed the limit, or the
   * line is checked and its day is not the day of the file. The new file is then
   * empty, its name and all marks are the clock's.
   */
  lemma OpensIff(cfg: Config, now: int, lines: seq<Line>, line: Line)
    requires now > 0
    ensures var s := Exec(cfg, Start(now), lines);
      var t := Append(cfg, s, line);
      && Opened(s)
      && (t.names != s.names <==>
          && line.rollTime > Last(s)
          && (Passes(cfg, s, line) || (Checked(cfg, now, lines) && Day(line.checkTime) != Day(Last(s)))))
      && (t.names != s.names ==>
          && t.names == s.names + [line.rollTime] && line.rollTime in t.disk && t.disk[line.rollTime] == []
          && t.written == 0 && t.marks.start == Period(line.rollTime)
          && t.marks.lastFlush == t.marks.lastRoll == line.rollTime)
  {
    var s := Exec(cfg, Start(now), lines);
    RunMarked(cfg, Start(now), lines, 0);
    StepOpens(cfg, s, line, Within(cfg, Start(now), lines));
    SamePeriodIff(line.checkTime, Last(s));
    NextCount(Within(cfg, Start(now), lines), Every(cfg));
    if Append(cfg, s, line).names != s.names {
      StepOpened(cfg, s, line);
    }
    assert s.names + [line.rollTime] != s.names;
  }

  /**
   * Without a new file, the interval flushes exactly when the line is checked,
   * its day is another than the file's, and the last flush is long enough ago.
   */
  lemma FlushesIff(cfg: Config, now: int, lines: seq<Line>, line: Line)
    requires now > 0
    ensures var s := Exec(cfg, Start(now), lines);
      var t := Append(cfg, s, line);
      && Opened(s)
      && (t.names == s.names ==>
          (t.marks.lastFlush != s.marks.lastFlush <==>
           && !Passes(cfg, s, line) && Checked(cfg, now, lines) && Day(line.checkTime) != Day(Last(s))
           && line.checkTime - s.marks.lastFlush > cfg.flushInterval && line.checkTime != s.marks.lastFlush)
          && (t.marks.lastFlush == s.marks.lastFlush || t.marks.lastFlush == line.checkTime))
  {
    var s := Exec(cfg, Start(now), lines);
    RunMarked(cfg, Start(now), lines, 0);
    StepFlushes(cfg, s, line, Within(cfg, Start(now), lines));
    SamePeriodIff(line.checkTime, Last(s));
    NextCount(Within(cfg, Start(now), lines), Every(cfg));
  }

  lemma StepFlushes(cfg: Config, s: State, line: Line, lines: nat)
    requires Marked(cfg, s, lines)
    ensures var t := Append(cfg, s, line);
      t.names == s.names ==>
        && (t.marks.lastFlush != s.marks.lastFlush <==>
            && !Passes(cfg, s, line) && s.marks.count + 1 >= cfg.checkEveryN
            && Period(line.checkTime) != Period(Last(s))
            && line.checkTime - s.marks.lastFlush > cfg.flushInterval && line.checkTime != s.marks.lastFlush)
        && (t.marks.lastFlush == s.marks.lastFlush || t.marks.lastFlush == line.checkTime)
  {
    assert s.names + [line.rollTime] != s.names;
  }

  /** written_bytes_ is the length of the open file, as long as no write failed. */
  lemma {:induction false} WrittenIsLength(cfg: Config, s: State, lines: seq<Line>)
    requires Inv(s) && Opened(s) && !s.crashed && s.written == |s.disk[Last(s)]|
    requires forall line | line in lines :: !FailsShort(line.writes, |line.text|)
    ensures var t := Exec(cfg, s, lines);
      Opened(t) && t.written == |t.disk[Last(t)]|
    decreases |lines|
  {
    if lines != [] {
      assert lines[0] in lines;
      CutShortIff(lines[0].writes, |lines[0].text|);
      AppendKeepsInv(cfg, s, lines[0]);
      RollKeepsInv(Store(s, lines[0]), lines[0].rollTime);
      assert forall line | line in lines[1..] :: line in lines;
      WrittenIsLength(cfg, Append(cfg, s, lines[0]), lines[1..]);
    }
  }

  lemma WrittenIsFileLength(cfg: Config, now: int, lines: seq<Line>)
    requires now > 0 && forall line | line in lines :: !FailsShort(line.writes, |line.text|)
    ensures var t := Exec(cfg, Start(now), lines);
      Opened(t) && t.written == |t.disk[Last(t)]|
  {
    WrittenIsLength(cfg, Start(now), lines);
  }
}
