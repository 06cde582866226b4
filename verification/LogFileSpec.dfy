/**
 * Log rolling. Lines go to a sequence of files named after the second of
 * their creation; a file is opened for appending, so opening an old name
 * again would put new lines behind old ones.
 */
module LogFileSpec {
  import opened Streams

  const DAY := 60 * 60 * 24

  // ------------------------------------------------- one line, many writes

  /** One fwrite that may fall short: how much it could take, and the stream's error flag after it. */
  datatype Outcome = Outcome(n: nat, err: bool)

  /** The calls that may fall short, in order; later calls take all they are given. */
  type Writes = seq<Outcome>

  function Takes(writes: Writes, remain: nat): nat {
    if writes != [] && writes[0].n < remain then writes[0].n else remain
  }

  /** What reached the file, what written_bytes_ counts, and whether an error stopped the loop. */
  datatype Put = Put(bytes: nat, counted: nat, error: bool)

  /** The short-write loop. A failing write's bytes are not counted. */
  function Write(writes: Writes, remain: nat): (r: Put)
    ensures r.counted <= r.bytes <= remain
    ensures r.error <==> r.bytes < remain
    ensures !r.error ==> r.counted == remain
    decreases |writes|
  {
    var n := Takes(writes, remain);
    if n == remain then Put(n, n, false)
    else if writes[0].err then Put(n, 0, true)
    else
      var rest := Write(writes[1..], remain - n);
      Put(n + rest.bytes, n + rest.counted, rest.error)
  }

  /** What these calls could take together. */
  function Room(writes: Writes): nat {
    if writes == [] then 0 else writes[0].n + Room(writes[1..])
  }

  /** Some call sets the error flag while all calls up to it leave the line unfinished. */
  ghost predicate FailsShort(writes: Writes, remain: nat) {
    exists j :: FailsAt(writes, remain, j)
  }

  predicate FailsAt(writes: Writes, remain: nat, j: int) {
    0 <= j < |writes| && writes[j].err && Room(writes[..j + 1]) < remain
  }

  /** A line is cut short exactly when a call fails before the calls have taken it all. */
  lemma {:induction false} CutShortIff(writes: Writes, remain: nat)
    ensures Write(writes, remain).error <==> FailsShort(writes, remain)
    decreases |writes|
  {
    forall j | 0 <= j < |writes|
      ensures Room(writes[..j + 1]) == writes[0].n + Room(writes[1..][..j])
    {
      assert writes[..j + 1][1..] == writes[1..][..j];
    }
    if writes != [] && writes[0].n < remain {
      var rest := remain - writes[0].n;
      CutShortIff(writes[1..], rest);
      if writes[0].err {
        assert FailsAt(writes, remain, 0);
      } else {
        if j :| FailsAt(writes[1..], rest, j) {
          assert FailsAt(writes, remain, j + 1);
        }
        if j :| FailsAt(writes, remain, j) {
          assert FailsAt(writes[1..], rest, j - 1);
        }
      }
    }
  }

  /** The call that ends the loop: the first to set the error flag, with the line unfinished. */
  predicate StopsAt(writes: Writes, remain: nat, j: int) {
    FailsAt(writes, remain, j) && forall i | 0 <= i < j :: !writes[i].err
  }

  /**
   * written_bytes_ falls behind the file exactly when the call that ends the
   * loop took something, and by just that much.
   */
  lemma {:induction false} UncountedIff(writes: Writes, remain: nat)
    ensures var r := Write(writes, remain);
      && (r.counted < r.bytes <==> exists j :: StopsAt(writes, remain, j) && writes[j].n > 0)
      && (forall j | StopsAt(writes, remain, j) :: r.bytes - r.counted == writes[j].n)
    decreases |writes|
  {
    forall j | 0 <= j < |writes|
      ensures Room(writes[..j + 1]) == writes[0].n + Room(writes[1..][..j])
    {
      assert writes[..j + 1][1..] == writes[1..][..j];
    }
    if writes != [] && writes[0].n < remain {
      var rest := remain - writes[0].n;
      if writes[0].err {
        assert writes[..1][1..] == [];
        assert StopsAt(writes, remain, 0);
      } else {
        UncountedIff(writes[1..], rest);
        forall j | 0 < j
          ensures StopsAt(writes, remain, j) <==> StopsAt(writes[1..], rest, j - 1)
        {
          StopsShift(writes, remain, j);
        }
        if j :| StopsAt(writes[1..], rest, j) && writes[1..][j].n > 0 {
          StopsShift(writes, remain, j + 1);
          assert StopsAt(writes, remain, j + 1);
        }
      }
    }
  }

  lemma StopsShift(writes: Writes, remain: nat, j: int)
    requires writes != [] && writes[0].n < remain && !writes[0].err && j > 0
    ensures StopsAt(writes, remain, j) <==> StopsAt(writes[1..], remain - writes[0].n, j - 1)
  {
    if j < |writes| {
      assert writes[..j + 1][1..] == writes[1..][..j];
      assert forall i | 0 < i < j :: writes[i] == writes[1..][i - 1];
      assert forall i | 0 <= i < j - 1 :: writes[1..][i] == writes[i + 1];
    }
  }

  // ----------------------------------------------------------- rolling

  datatype Config = Config(rollSize: int, flushInterval: int, checkEveryN: int)

  /** count_, start_of_period_, last_flush_ and last_roll_. */
  datatype Marks = Marks(count: int, start: int, lastFlush: int, lastRoll: int)

  /** The files by name, the names in the order of opening, and the open file's written_bytes_. */
  datatype State = State(disk: map<int, Bytes>, names: seq<int>, written: int, marks: Marks, crashed: bool)

  /** A line, the writes it will meet, and the clock at the check and at the roll. */
  datatype Line = Line(text: Bytes, writes: Writes, checkTime: int, rollTime: int)

  /** Division by the day length, cutting toward zero. */
  function Period(now: int): int {
    if now >= 0 then now / DAY * DAY else -((-now) / DAY * DAY)
  }

  function Open(disk: map<int, Bytes>, name: int): map<int, Bytes> {
    if name in disk then disk else disk[name := []]
  }

  predicate Rolls(s: State, now: int) {
    now > s.marks.lastRoll
  }

  function Roll(s: State, now: int): State {
    if Rolls(s, now) then
      State(Open(s.disk, now), s.names + [now], 0, Marks(s.marks.count, Period(now), now, now), s.crashed)
    else s
  }

  /** The constructor; before the epoch there is no first file. */
  function Start(now: int): State {
    Roll(State(map[], [], 0, Marks(0, 0, 0, 0), false), now)
  }

  function Last(s: State): int
    requires s.names != []
  {
    s.names[|s.names| - 1]
  }

  /** The open file exists on disk. */
  predicate Opened(s: State) {
    s.names != [] && Last(s) in s.disk
  }

  function Accepted(line: Line): Bytes {
    line.text[..Write(line.writes, |line.text|).bytes]
  }

  function Store(s: State, line: Line): State
    requires Opened(s)
  {
    s.(disk := s.disk[Last(s) := s.disk[Last(s)] + Accepted(line)],
       written := s.written + Write(line.writes, |line.text|).counted)
  }

  /** The flush test hangs on a refused roll, not on the day being the same. */
  function Check(cfg: Config, s: State, line: Line): State {
    var t := s.(marks := s.marks.(count := 0));
    if Period(line.checkTime) == s.marks.start then t
    else if Rolls(t, line.rollTime) then Roll(t, line.rollTime)
    else if line.checkTime - s.marks.lastFlush > cfg.flushInterval then t.(marks := t.marks.(lastFlush := line.checkTime))
    else t
  }

  function Append(cfg: Config, s: State, line: Line): State {
    if s.crashed || !Opened(s) then s.(crashed := true)
    else
      var t := Store(s, line);
      if t.written > cfg.rollSize then Roll(t, line.rollTime)
      else
        var count := t.marks.count + 1;
        var u := t.(marks := t.marks.(count := count));
        if count >= cfg.checkEveryN then Check(cfg, u, line) else u
  }

  function Exec(cfg: Config, s: State, lines: seq<Line>): State
    decreases |lines|
  {
    if lines == [] then s else Exec(cfg, Append(cfg, s, lines[0]), lines[1..])
  }

  // -------------------------------------------------------- invariants

  predicate Increasing(names: seq<int>) {
    forall i, j | 0 <= i < j < |names| :: names[i] < names[j]
  }

  /** Names grow with every roll, the last one is last_roll_, and nothing else is on disk. */
  predicate Inv(s: State) {
    && Increasing(s.names)
    && (forall i | 0 <= i < |s.names| :: s.names[i] in s.disk)
    && (forall name | name in s.disk :: name <= s.marks.lastRoll)
    && (s.names != [] ==> Last(s) == s.marks.lastRoll)
  }

  lemma StartInv(now: int)
    ensures Inv(Start(now))
  {
  }

  lemma RollKeepsInv(s: State, now: int)
    requires Inv(s)
    ensures Inv(Roll(s, now))
    ensures Rolls(s, now) ==> now !in s.disk
  {
  }

  lemma AppendKeepsInv(cfg: Config, s: State, line: Line)
    requires Inv(s)
    ensures Inv(Append(cfg, s, line))
  {
    if !s.crashed && Opened(s) {
      var t := Store(s, line);
      assert Inv(t);
      RollKeepsInv(t, line.rollTime);
    }
  }

  // ------------------------------------------------ the stream over files

  /** How the accepted lines `texts` lie in the files: `cuts[i]` are the whole lines of the i-th. */
  predicate Laid(s: State, texts: seq<Bytes>, cuts: seq<seq<Bytes>>) {
    && |cuts| == |s.names|
    && Flatten(cuts) == texts
    && forall i | 0 <= i < |s.names| :: s.names[i] in s.disk && s.disk[s.names[i]] == Flatten(cuts[i])
  }

  function Texts(lines: seq<Line>): seq<Bytes> {
    if lines == [] then [] else [Accepted(lines[0])] + Texts(lines[1..])
  }

  lemma StoreLaid(s: State, line: Line, texts: seq<Bytes>, cuts: seq<seq<Bytes>>) returns (cuts': seq<seq<Bytes>>)
    requires Inv(s) && Opened(s) && Laid(s, texts, cuts)
    ensures Laid(Store(s, line), texts + [Accepted(line)], cuts')
  {
    var last := |cuts| - 1;
    cuts' := cuts[..last] + [cuts[last] + [Accepted(line)]];
    assert cuts == cuts[..last] + [cuts[last]];
    FlattenSnoc(cuts[..last], cuts[last]);
    FlattenSnoc(cuts[..last], cuts[last] + [Accepted(line)]);
    FlattenSnoc(cuts[last], Accepted(line));
    assert forall i | 0 <= i < last :: s.names[i] != Last(s);
  }

  lemma RollLaid(s: State, now: int, texts: seq<Bytes>, cuts: seq<seq<Bytes>>) returns (cuts': seq<seq<Bytes>>)
    requires Inv(s) && Laid(s, texts, cuts)
    ensures Laid(Roll(s, now), texts, cuts')
  {
    RollKeepsInv(s, now);
    cuts' := if Rolls(s, now) then cuts + [[]] else cuts;
    FlattenSnoc(cuts, []);
  }

  lemma AppendLaid(cfg: Config, s: State, line: Line, texts: seq<Bytes>, cuts: seq<seq<Bytes>>)
    returns (cuts': seq<seq<Bytes>>)
    requires Inv(s) && !s.crashed && Opened(s) && Laid(s, texts, cuts)
    ensures Laid(Append(cfg, s, line), texts + [Accepted(line)], cuts')
  {
    cuts' := StoreLaid(s, line, texts, cuts);
    var t := Store(s, line);
    assert Inv(t);
    if Append(cfg, s, line).names != t.names {
      var u := t.(marks := Append(cfg, s, line).marks.(start := t.marks.start, lastFlush := t.marks.lastFlush, lastRoll := t.marks.lastRoll));
      cuts' := RollLaid(u, line.rollTime, texts + [Accepted(line)], cuts');
    }
  }

  predicate Good(s: State, texts: seq<Bytes>, cuts: seq<seq<Bytes>>) {
    Inv(s) && !s.crashed && Opened(s) && Laid(s, texts, cuts)
  }

  lemma StepGood(cfg: Config, s: State, line: Line, texts: seq<Bytes>, cuts: seq<seq<Bytes>>)
    returns (cuts': seq<seq<Bytes>>)
    requires Good(s, texts, cuts)
    ensures Good(Append(cfg, s, line), texts + [Accepted(line)], cuts')
  {
    AppendKeepsInv(cfg, s, line);
    cuts' := AppendLaid(cfg, s, line, texts, cuts);
  }

  lemma {:induction false} ExecGood(cfg: Config, s: State, lines: seq<Line>, texts: seq<Bytes>, cuts: seq<seq<Bytes>>)
    returns (cuts': seq<seq<Bytes>>)
    requires Good(s, texts, cuts)
    ensures Good(Exec(cfg, s, lines), texts + Texts(lines), cuts')
    decreases |lines|
  {
    if lines == [] {
      cuts' := cuts;
      assert texts + Texts(lines) == texts;
    } else {
      var next := StepGood(cfg, s, lines[0], texts, cuts);
      cuts' := ExecGood(cfg, Append(cfg, s, lines[0]), lines[1..], texts + [Accepted(lines[0])], next);
      assert texts + [Accepted(lines[0])] + Texts(lines[1..]) == texts + Texts(lines);
    }
  }

  /**
   * Rolling keeps the stream: whatever the clock does, every file holds whole
   * accepted lines, the files in creation order hold them all, and no name is
   * used twice. There is a file at all exactly when the first clock reading
   * was after the epoch.
   */
  lemma RollingKeepsTheStream(cfg: Config, now: int, lines: seq<Line>) returns (cuts: seq<seq<Bytes>>)
    requires now > 0
    ensures var t := Exec(cfg, Start(now), lines);
      !t.crashed && Increasing(t.names) && Laid(t, Texts(lines), cuts)
  {
    StartInv(now);
    assert Flatten([[]]) == [] + Flatten<Bytes>([]);
    cuts := ExecGood(cfg, Start(now), lines, [], [[]]);
    assert [] + Texts(lines) == Texts(lines);
  }

  lemma Reached(cfg: Config, now: int, lines: seq<Line>)
    requires now > 0
    ensures var s := Exec(cfg, Start(now), lines); Inv(s) && Opened(s) && !s.crashed
  {
    assert Flatten([[]]) == [] + Flatten<Bytes>([]);
    var cuts := ExecGood(cfg, Start(now), lines, [], [[]]);
  }

  /** Only a clock at or before the epoch leaves the logger without a file. */
  lemma {:induction false} CrashesIff(cfg: Config, now: int, lines: seq<Line>)
    ensures Exec(cfg, Start(now), lines).crashed <==> now <= 0 && lines != []
  {
    if now > 0 {
      var cuts := RollingKeepsTheStream(cfg, now, lines);
    } else if lines != [] {
      StaysCrashed(cfg, Append(cfg, Start(now), lines[0]), lines[1..]);
    }
  }

  lemma {:induction false} StaysCrashed(cfg: Config, s: State, lines: seq<Line>)
    requires s.crashed
    ensures Exec(cfg, s, lines).crashed
    decreases |lines|
  {
    if lines != [] {
      StaysCrashed(cfg, Append(cfg, s, lines[0]), lines[1..]);
    }
  }

  /** What the caller handed over. */
  function Given(lines: seq<Line>): Bytes {
    if lines == [] then [] else lines[0].text + Given(lines[1..])
  }

  function Contents(s: State, names: seq<int>): Bytes
    requires forall i | 0 <= i < |names| :: names[i] in s.disk
  {
    if names == [] then [] else s.disk[names[0]] + Contents(s, names[1..])
  }

  lemma {:induction false} LaidContents(s: State, names: seq<int>, cuts: seq<seq<Bytes>>)
    requires |cuts| == |names|
    requires forall i | 0 <= i < |names| :: names[i] in s.disk && s.disk[names[i]] == Flatten(cuts[i])
    ensures Contents(s, names) == Flatten(Flatten(cuts))
  {
    if names != [] {
      forall i | 0 <= i < |names[1..]| ensures names[1..][i] in s.disk && s.disk[names[1..][i]] == Flatten(cuts[1..][i]) {
        assert names[1..][i] == names[i + 1] && cuts[1..][i] == cuts[i + 1];
      }
      LaidContents(s, names[1..], cuts[1..]);
      FlattenConcat(cuts[0], Flatten(cuts[1..]));
    }
  }

  /** The bytes that a failing write kept out of the files. */
  function Missing(lines: seq<Line>): nat {
    if lines == [] then 0
    else |lines[0].text| - Write(lines[0].writes, |lines[0].text|).bytes + Missing(lines[1..])
  }

  lemma {:induction false} TextsGiven(lines: seq<Line>)
    ensures |Flatten(Texts(lines))| == |Given(lines)| - Missing(lines)
    ensures Missing(lines) == 0 ==> Flatten(Texts(lines)) == Given(lines)
  {
    if lines != [] {
      TextsGiven(lines[1..]);
      var texts := Texts(lines);
      assert texts[0] == Accepted(lines[0]) && texts[1..] == Texts(lines[1..]);
    }
  }

  predicate Whole(line: Line) {
    !Write(line.writes, |line.text|).error
  }

  lemma {:induction false} NoneMissingIff(lines: seq<Line>)
    ensures Missing(lines) == 0 <==> forall i | 0 <= i < |lines| :: Whole(lines[i])
  {
    if lines != [] {
      NoneMissingIff(lines[1..]);
      assert forall i | 0 < i < |lines| :: lines[i] == lines[1..][i - 1];
    }
  }

  /** The files in creation order are exactly the stream if and only if no line met a failing write. */
  lemma NothingLostIff(cfg: Config, now: int, lines: seq<Line>)
    requires now > 0
    ensures var t := Exec(cfg, Start(now), lines);
      && (forall i | 0 <= i < |t.names| :: t.names[i] in t.disk)
      && (Contents(t, t.names) == Given(lines) <==>
          forall i | 0 <= i < |lines| :: !FailsShort(lines[i].writes, |lines[i].text|))
  {
    var cuts := RollingKeepsTheStream(cfg, now, lines);
    var t := Exec(cfg, Start(now), lines);
    LaidContents(t, t.names, cuts);
    TextsGiven(lines);
    NoneMissingIff(lines);
    forall i | 0 <= i < |lines| ensures Whole(lines[i]) <==> !FailsShort(lines[i].writes, |lines[i].text|) {
      CutShortIff(lines[i].writes, |lines[i].text|);
    }
  }

  // ------------------------------------------------------- roll policy

  /**
   * A line that takes the open file past the limit leaves it open if and only
   * if the clock has not moved past the file's creation.
   */
  lemma OverLimitStaysIff(cfg: Config, now: int, lines: seq<Line>, line: Line)
    requires now > 0
    ensures var s := Exec(cfg, Start(now), lines);
      && Opened(s)
      && (Store(s, line).written > cfg.rollSize ==>
          (Append(cfg, s, line).names == s.names <==> line.rollTime <= Last(s)))
  {
    Reached(cfg, now, lines);
    var s := Exec(cfg, Start(now), lines);
    assert s.names + [line.rollTime] != s.names;
  }

  /**
   * Within the second of its creation a file has no limit: every line of a run
   * goes to the first file, whatever the roll size.
   */
  lemma SameSecondPilesUp(cfg: Config, now: int, lines: seq<Line>)
    requires now > 0 && forall line | line in lines :: line.rollTime <= now
    ensures var t := Exec(cfg, Start(now), lines);
      t.names == [now] && now in t.disk && t.disk[now] == Flatten(Texts(lines))
  {
    var cuts := RollingKeepsTheStream(cfg, now, lines);
    var t := Exec(cfg, Start(now), lines);
    StaysOpen(cfg, Start(now), lines);
    assert cuts == [cuts[0]];
    assert cuts[0] + Flatten(cuts[1..]) == cuts[0];
    assert t.names[0] in t.disk;
  }

  lemma {:induction false} StaysOpen(cfg: Config, s: State, lines: seq<Line>)
    requires forall line | line in lines :: line.rollTime <= s.marks.lastRoll
    ensures Exec(cfg, s, lines).names == s.names
    decreases |lines|
  {
    if lines != [] {
      assert lines[0] in lines;
      StaysOpen(cfg, Append(cfg, s, lines[0]), lines[1..]);
    }
  }

  /** The periodic check is reached, and the last flush is longer ago than the interval. */
  predicate FlushDue(cfg: Config, s: State, line: Line)
    requires Opened(s)
  {
    && Store(s, line).written <= cfg.rollSize && s.marks.count + 1 >= cfg.checkEveryN
    && line.checkTime - s.marks.lastFlush > cfg.flushInterval >= 0
  }

  /** A due flush of the file that stays open is skipped if and only if the day is still the same. */
  lemma DueFlushSkippedIff(cfg: Config, now: int, lines: seq<Line>, line: Line)
    requires now > 0
    ensures var s := Exec(cfg, Start(now), lines);
      && Opened(s)
      && (FlushDue(cfg, s, line) && Append(cfg, s, line).names == s.names ==>
          (Append(cfg, s, line).marks.lastFlush == s.marks.lastFlush <==> Period(line.checkTime) == s.marks.start))
  {
    Reached(cfg, now, lines);
    var s := Exec(cfg, Start(now), lines);
    assert s.names + [line.rollTime] != s.names;
  }

  /**
   * So while all checks see the day the open file was started on, it is never
   * flushed by the interval, however long that takes.
   */
  lemma {:induction false} SameDayNeverFlushes(cfg: Config, s: State, lines: seq<Line>)
    requires forall line | line in lines :: Period(line.checkTime) == s.marks.start
    requires Exec(cfg, s, lines).names == s.names
    ensures Exec(cfg, s, lines).marks.lastFlush == s.marks.lastFlush
    decreases |lines|
  {
    if lines != [] {
      assert lines[0] in lines;
      var t := Append(cfg, s, lines[0]);
      NamesGrow(cfg, t, lines[1..]);
      SameDayNeverFlushes(cfg, t, lines[1..]);
    }
  }

  /** The next lines are all checked against another day than the open file's, by a clock past its creation. */
  predicate AnotherDay(marks: Marks, lines: seq<Line>) {
    forall i | 0 <= i < |lines| :: Period(lines[i].checkTime) != marks.start && lines[i].rollTime > marks.lastRoll
  }

  /** A new day is noticed after at most check_every_n lines: that many lines always open a new file. */
  lemma {:induction false} NewDayRolls(cfg: Config, s: State, lines: seq<Line>)
    requires Inv(s) && !s.crashed && Opened(s) && AnotherDay(s.marks, lines)
    requires lines != [] && s.marks.count + |lines| >= cfg.checkEveryN
    ensures |Exec(cfg, s, lines).names| > |s.names|
    decreases |lines|
  {
    AppendKeepsInv(cfg, s, lines[0]);
    var t := Append(cfg, s, lines[0]);
    if |t.names| > |s.names| {
      NamesGrow(cfg, t, lines[1..]);
    } else {
      assert t.marks.count == s.marks.count + 1 < cfg.checkEveryN;
      NewDayRolls(cfg, t, lines[1..]);
    }
  }

  lemma {:induction false} NamesGrow(cfg: Config, s: State, lines: seq<Line>)
    ensures |s.names| <= |Exec(cfg, s, lines).names|
    decreases |lines|
  {
    if lines != [] {
      NamesGrow(cfg, Append(cfg, s, lines[0]), lines[1..]);
    }
  }
}
