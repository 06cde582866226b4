/** AppendFile and LogFile over a disk of named files. */
module LogFile {
  import opened Streams
  import opened LogFileSpec

  class Disk {
    var files: map<int, Bytes>

    constructor ()
      ensures files == map[]
    {
      files := map[];
    }
  }

  /** A file open for appending. */
  class AppendFile {
    const disk: Disk
    const name: int
    var writtenBytes: nat

    constructor (disk: Disk, name: int)
      modifies disk
      ensures this.disk == disk && this.name == name && writtenBytes == 0
      ensures disk.files == Open(old(disk.files), name)
    {
      this.disk, this.name, writtenBytes := disk, name, 0;
      new;
      if name !in disk.files {
        disk.files := disk.files[name := []];
      }
    }

    /** fwrite: some front part of `bytes` reaches the file. */
    method Write(bytes: Bytes, n: nat)
      requires name in disk.files && n <= |bytes|
      modifies disk
      ensures disk.files == old(disk.files)[name := old(disk.files)[name] + bytes[..n]]
    {
      disk.files := disk.files[name := disk.files[name] + bytes[..n]];
    }

    /** One more fwrite of the same line. */
    method WriteOn(line: Bytes, written: nat, n: nat, ghost was: map<int, Bytes>)
      requires name in disk.files && name in was && written + n <= |line|
      requires disk.files == was[name := was[name] + line[..written]]
      modifies disk
      ensures disk.files == was[name := was[name] + line[..written + n]]
    {
      Write(line[written..], n);
      Filled(was, name, was[name] + line[..written], line[written..], n);
      assert line[..written] + line[written..][..n] == line[..written + n];
      assert was[name] + line[..written] + line[written..][..n] == was[name] + line[..written + n];
    }

    /** Write again until the line is out or an error stops it. */
    method Append(line: Bytes, writes: Writes)
      requires name in disk.files
      modifies this, disk
      ensures var put := LogFileSpec.Write(writes, |line|);
        && disk.files == old(disk.files)[name := old(disk.files)[name] + line[..put.bytes]]
        && writtenBytes == old(writtenBytes) + put.counted
    {
      ghost var was := disk.files;
      ghost var put := LogFileSpec.Write(writes, |line|);
      var written := 0;
      var calls := 0;
      assert writes[0..] == writes;
      Filled(was, name, was[name], line, 0);
      while written != |line|
        invariant 0 <= calls <= |writes| && 0 <= written <= |line|
        invariant disk.files == was[name := was[name] + line[..written]]
        invariant writtenBytes == old(writtenBytes)
        invariant var rest := LogFileSpec.Write(writes[calls..], |line| - written);
          put == Put(written + rest.bytes, written + rest.counted, rest.error)
        decreases |line| - written, |writes| - calls
      {
        var remain := |line| - written;
        var left := writes[calls..];
        var n := Takes(left, remain);
        WriteOn(line, written, n, was);
        if n != remain {
          assert left[1..] == writes[calls + 1..];
          calls := calls + 1;
          if left[0].err {
            break;
          }
        }
        written := written + n;
      }
      writtenBytes := writtenBytes + written;
    }
  }

  /** Adding to a file twice is adding to it once. */
  lemma Filled(files: map<int, Bytes>, name: int, content: Bytes, bytes: Bytes, n: nat)
    requires name in files && n <= |bytes|
    ensures files[name := content][name := content + bytes[..n]] == files[name := content + bytes[..n]]
    ensures n == 0 ==> content + bytes[..n] == content
    ensures files[name := files[name]] == files
  {
  }

  class LogFile {
    const cfg: Config
    const disk: Disk
    var count: int
    var startOfPeriod: int
    var lastFlush: int
    var lastRoll: int
    var file: AppendFile?
    ghost var s: State

    ghost predicate Linked()
      reads this, disk, file
    {
      && s.disk == disk.files && s.marks == Marks(count, startOfPeriod, lastFlush, lastRoll)
      && (file == null <==> s.names == [])
      && (file != null ==> file.disk == disk && Opened(s) && file.name == Last(s) && file.writtenBytes == s.written)
      && !s.crashed
    }

    constructor (cfg: Config, now: int)
      ensures Linked() && this.cfg == cfg && s == Start(now) && fresh(disk) && (file != null ==> fresh(file))
    {
      this.cfg := cfg;
      disk := new Disk();
      count, startOfPeriod, lastFlush, lastRoll := 0, 0, 0, 0;
      file := null;
      s := State(map[], [], 0, Marks(0, 0, 0, 0), false);
      new;
      var rolled := RollFile(now);
    }

    method RollFile(now: int) returns (rolled: bool)
      requires Linked()
      modifies this, disk
      ensures Linked() && s == Roll(old(s), now) && rolled == Rolls(old(s), now)
      ensures file == old(file) || fresh(file)
    {
      s := Roll(s, now);
      rolled := now > lastRoll;
      if rolled {
        lastRoll, lastFlush, startOfPeriod := now, now, Period(now);
        file := new AppendFile(disk, now);
      }
    }

    method AppendUnlocked(line: Line)
      requires Linked() && file != null
      modifies this, disk, file
      ensures Linked() && s == LogFileSpec.Append(cfg, old(s), line)
      ensures file == old(file) || fresh(file)
    {
      file.Append(line.text, line.writes);
      s := Store(s, line);
      var rolled;
      if file.writtenBytes > cfg.rollSize {
        rolled := RollFile(line.rollTime);
      } else {
        CountLine();
        if count >= cfg.checkEveryN {
          ResetCount();
          if Period(line.checkTime) != startOfPeriod {
            rolled := RollFile(line.rollTime);
            if rolled {
            } else if line.checkTime - lastFlush > cfg.flushInterval {
              lastFlush := line.checkTime;
              s := s.(marks := s.marks.(lastFlush := line.checkTime));
            }
          }
        }
      }
    }

    method CountLine()
      requires Linked()
      modifies this`count, this`s
      ensures Linked() && s == old(s).(marks := old(s).marks.(count := old(s).marks.count + 1))
    {
      count := count + 1;
      s := s.(marks := s.marks.(count := count));
    }

    method ResetCount()
      requires Linked()
      modifies this`count, this`s
      ensures Linked() && s == old(s).(marks := old(s).marks.(count := 0))
    {
      count := 0;
      s := s.(marks := s.marks.(count := count));
    }
  }
}
