/** The rolling writer: lines are buffered in one array and flushed on an
    interval into the live file `<logdir>/<prefix>.log`; at every rotation
    tick the selected worker renames the live file to yesterday's dated name,
    every other worker parks its output in memory and replays it into the new
    live file a few seconds later. */
module Rolling {
  import opened Common
  import Options
  import opened FileSystem
  import Retention

  /** The argument of `cut`: none (the rotation timer), `'start'` (the
      constructor) or `'flush'` (the delayed replay). */
  datatype Flag = Scheduled | Start | Replay

  /** `this.stream`: unset, a write stream on an inode, or the in-memory
      placeholder with the chunks written to it. */
  datatype Stream = Closed | File(inode: nat) | Placeholder(datas: seq<Bytes>)

  datatype CutOutcome =
    | Reopened  // the live path is open again
    | Parked    // a placeholder took the stream and a replay was scheduled
    | Faulted   // the replay wrote `null` into the new stream and threw

  const NEWLINE: byte := 10

  /** `strings.join('')` */
  function Concat(strings: seq<string>): string {
    if strings == [] then "" else Concat(strings[..|strings| - 1]) + strings[|strings| - 1]
  }

  /** Joining two runs of strings joins their concatenations. */
  lemma {:induction false} ConcatAppend(a: seq<string>, b: seq<string>)
    ensures Concat(a + b) == Concat(a) + Concat(b)
    decreases |b|
  {
    if b == [] {
      assert a + b == a;
    } else {
      var ab := a + b;
      var init := b[..|b| - 1];
      assert ab[..|ab| - 1] == a + init;
      assert ab[|ab| - 1] == b[|b| - 1];
      ConcatAppend(a, init);
      assert Concat(ab) == Concat(a + init) + b[|b| - 1];
      assert Concat(b) == Concat(init) + b[|b| - 1];
    }
  }

  /** `datas.join('\n')` on the placeholder's chunks, as bytes. */
  function JoinLines(datas: seq<Bytes>): Bytes {
    if datas == [] then []
    else if |datas| == 1 then datas[0]
    else JoinLines(datas[..|datas| - 1]) + [NEWLINE] + datas[|datas| - 1]
  }

  /** The sum of the chunk lengths. */
  function Length(datas: seq<Bytes>): nat {
    if datas == [] then 0 else Length(datas[..|datas| - 1]) + |datas[|datas| - 1]|
  }

  /** The replay adds one separator between every two flushed batches, bytes
      the original writes never contained. */
  lemma {:induction false} JoinLinesLength(datas: seq<Bytes>)
    requires datas != []
    ensures |JoinLines(datas)| == Length(datas) + |datas| - 1
  {
    if |datas| > 1 {
      JoinLinesLength(datas[..|datas| - 1]);
    } else {
      assert datas[..0] == [];
    }
  }

  /** The placeholder's chunks once `_flush` has written `buf` into it. */
  function Pushed(datas: seq<Bytes>, buf: seq<string>, encode: string -> Bytes): seq<Bytes> {
    datas + if buf == [] then [] else [encode(Concat(buf))]
  }

  /** The disk after `_flush` on `stream` with the queue `buf`: only a file
      stream and a non-empty queue change it. */
  function FlushedFs(fs: Fs, stream: Stream, buf: seq<string>, encode: string -> Bytes): (r: Fs)
    requires fs.Valid() && (stream.File? ==> stream.inode in fs.data)
    ensures r.Valid() && r.names == fs.names && r.data.Keys == fs.data.Keys
  {
    if stream.File? && buf != [] then Append(fs, stream.inode, encode(Concat(buf))) else fs
  }

  /** The disk after the rename gate of a selected worker's unflagged `cut`. */
  function GatedFs(fs: Fs, live: Path, dated: Path, level: string, renameFails: bool): (r: Fs)
    requires fs.Valid()
    ensures r.Valid() && r.data == fs.data
  {
    if live in fs.names && level == "info" && dated !in fs.names && !renameFails then Rename(fs, live, dated) else fs
  }

  /** The disk after `createWriteStream(live, {flags: 'a'})` and, for the
      replay, the write of the joined placeholder chunks. */
  function ReopenedFs(fs: Fs, live: Path, replay: Option<Bytes>): (r: Fs)
    requires fs.Valid()
    ensures r.Valid() && live in r.names
  {
    var (created, inode) := OpenAppend(fs, live);
    if replay.Some? then Append(created, inode, replay.value) else created
  }

  /** The stream `_flush` leaves behind: a placeholder takes the queue as one
      more chunk. */
  function Retired(stream: Stream, buf: seq<string>, encode: string -> Bytes): Stream {
    if stream.Placeholder? then Placeholder(Pushed(stream.datas, buf, encode)) else stream
  }

  /** What the `'flush'` run writes into the reopened file: the joined chunks
      of a placeholder, or nothing when the run faults or is not a replay. */
  function Replayed(flag: Flag, stream: Stream): Option<Bytes> {
    if flag == Replay && stream.Placeholder? then Some(JoinLines(stream.datas)) else None
  }

  /** The five conditions under which `cut` renames the live file. */
  predicate Rotates(fs: Fs, selected: bool, flag: Flag, live: Path, dated: Path, level: string, renameFails: bool) {
    selected && flag == Scheduled && live in fs.names && level == "info" && dated !in fs.names && !renameFails
  }

  /** The disk after `cut(flag)`, from the disk, stream and queue before it. */
  function CutFs(fs: Fs, stream: Stream, buf: seq<string>, encode: string -> Bytes,
                 selected: bool, flag: Flag, live: Path, dated: Path, level: string, renameFails: bool): (r: Fs)
    requires fs.Valid() && (stream.File? ==> stream.inode in fs.data)
    ensures r.Valid()
  {
    var flushed := FlushedFs(fs, stream, buf, encode);
    if !selected && flag == Scheduled then flushed
    else
      var gated := if selected && flag == Scheduled then GatedFs(flushed, live, dated, level, renameFails) else flushed;
      ReopenedFs(gated, live, Replayed(flag, Retired(stream, buf, encode)))
  }

  /** A rotating cut moves the live file, with the final flush of a stream
      still open on it, to the dated name, and starts an empty live file. */
  lemma CutRotates(fs: Fs, stream: Stream, buf: seq<string>, encode: string -> Bytes,
                   selected: bool, flag: Flag, live: Path, dated: Path, level: string, renameFails: bool)
    requires fs.Valid() && (stream.File? ==> stream.inode in fs.data)
    requires Rotates(fs, selected, flag, live, dated, level, renameFails)
    ensures var r := CutFs(fs, stream, buf, encode, selected, flag, live, dated, level, renameFails);
      && dated in r.names && r.names[dated] == fs.names[live]
      && r.Content(dated) == fs.Content(live) +
           (if stream == File(fs.names[live]) && buf != [] then encode(Concat(buf)) else [])
      && live in r.names && r.names[live] !in fs.data && r.Content(live) == []
  {
    var flushed := FlushedFs(fs, stream, buf, encode);
    var gated := GatedFs(flushed, live, dated, level, renameFails);
    assert gated == Rename(flushed, live, dated);
    assert live !in gated.names;
  }

  /** Every name other than the live one, and the dated one when the cut
      rotates, keeps the file it named. In particular a repeated tick whose
      dated file already exists changes no dated file. */
  lemma CutKeepsOthers(fs: Fs, stream: Stream, buf: seq<string>, encode: string -> Bytes,
                       selected: bool, flag: Flag, live: Path, dated: Path, level: string, renameFails: bool, p: Path)
    requires fs.Valid() && (stream.File? ==> stream.inode in fs.data)
    requires p != live && (p == dated ==> !Rotates(fs, selected, flag, live, dated, level, renameFails))
    ensures var r := CutFs(fs, stream, buf, encode, selected, flag, live, dated, level, renameFails);
      && (p in r.names <==> p in fs.names)
      && (p in fs.names ==> r.names[p] == fs.names[p])
  {
  }

  /** A cut that neither rotates nor replays leaves the live name on its
      file, which receives only the final flush; when the live file is
      missing, a cut that reopens creates it empty. This covers a selected
      worker whose rename gate does not pass, a parked worker, and
      `cut('start')`. */
  lemma CutKeepsLive(fs: Fs, stream: Stream, buf: seq<string>, encode: string -> Bytes,
                     selected: bool, flag: Flag, live: Path, dated: Path, level: string, renameFails: bool)
    requires fs.Valid() && (stream.File? ==> stream.inode in fs.data)
    requires flag != Replay && !Rotates(fs, selected, flag, live, dated, level, renameFails)
    ensures var r := CutFs(fs, stream, buf, encode, selected, flag, live, dated, level, renameFails);
      && (live in fs.names ==>
            && live in r.names && r.names[live] == fs.names[live]
            && r.Content(live) == fs.Content(live) +
                 (if stream == File(fs.names[live]) && buf != [] then encode(Concat(buf)) else []))
      && (live !in fs.names && (selected || flag != Scheduled) ==>
            live in r.names && r.names[live] !in fs.data && r.Content(live) == [])
      && (live !in fs.names && !selected && flag == Scheduled ==> live !in r.names)
  {
  }

  /** The `'flush'` run after a placeholder appends the joined chunks, the
      last queue included, to the live file (created when absent) and leaves
      every other file as it was. */
  lemma CutReplays(fs: Fs, stream: Stream, buf: seq<string>, encode: string -> Bytes,
                   selected: bool, live: Path, dated: Path, level: string, renameFails: bool)
    requires fs.Valid() && stream.Placeholder?
    ensures var r := CutFs(fs, stream, buf, encode, selected, Replay, live, dated, level, renameFails);
      && r.names.Keys == fs.names.Keys + {live}
      && r.Content(live) == (if live in fs.names then fs.Content(live) else []) + JoinLines(Pushed(stream.datas, buf, encode))
      && (forall q :: q in fs.names && fs.names[q] != r.names[live] ==> r.Content(q) == fs.Content(q))
  {
  }

  /** A parked cut renames nothing; it only gives the last queue to the
      file the worker had open. */
  lemma CutParks(fs: Fs, stream: Stream, buf: seq<string>, encode: string -> Bytes,
                 live: Path, dated: Path, level: string, renameFails: bool)
    requires fs.Valid() && (stream.File? ==> stream.inode in fs.data)
    ensures var r := CutFs(fs, stream, buf, encode, false, Scheduled, live, dated, level, renameFails);
      && r.names == fs.names && r.data.Keys == fs.data.Keys
      && (forall i :: i in fs.data ==>
            r.data[i] == fs.data[i] + if stream == File(i) && buf != [] then encode(Concat(buf)) else [])
  {
  }

  /** The cleaner's notes from the rename gate of a selected worker's tick. */
  function GateNotes(liveExists: bool, level: string, dated: Path, datedExists: bool, renameFails: bool): seq<Retention.InfoLine> {
    if !liveExists || level != "info" then []
    else if datedExists then [Retention.InfoLine(Retention.RecordLevel(None), Retention.AlreadyRotated(dated))]
    else if renameFails then [Retention.InfoLine(Retention.RecordLevel(None), Retention.Renaming(dated)),
          Retention.InfoLine(Retention.RecordLevel(Some("error")), Retention.RenameFailed)]
    else [Retention.InfoLine(Retention.RecordLevel(None), Retention.Renaming(dated))]
  }

  /** A live file name is never a dated log name, so the cleaner never selects
      it, whatever the date. */
  lemma LiveNotOld(format: string, prefix: string, now: Retention.Date)
    requires Options.LivePrefix(format) == Some(prefix)
    ensures !Retention.IsOldLog(prefix + ".log", now)
  {
    Options.LivePrefixSpec(format, prefix);
    assert forall i :: 0 <= i < |prefix| ==> prefix[i] != '-' by {
      assert Options.FreeOfBrackets(prefix);
    }
    Retention.LiveNeverMatched(prefix);
  }

  class RollingWriter {
    const level: string
    const logdir: string
    /** Group 1 of the `nameformat` match: the live file is `<prefix>.log`. */
    const prefix: string
    const duration: int
    const flushTimeout: int
    /** `isSelectedWorker` */
    const selected: bool
    /** `_encode` */
    const encode: string -> Bytes
    const disk: Disk
    const cleaner: Retention.Cleaner

    var buf: seq<string>
    var stream: Stream
    /** `cut('flush')` calls scheduled by a placeholder and not yet run. */
    var pendingReplays: nat
    /** The delay the rotation timer was last armed with; `None` once `end`
        cleared it. */
    var rotationTimer: Option<int>
    /** The `_flush` interval is armed. */
    var flushTimerArmed: bool

    function LivePath(): Path {
      Path(logdir, prefix + ".log")
    }

    ghost predicate Valid()
      reads this, disk, cleaner
    {
      && disk.fs.Valid() && cleaner.Valid()
      && (stream.File? ==> stream.inode in disk.fs.data)
      && (forall i :: 0 <= i < |prefix| ==> prefix[i] != '-')
    }

    /** The rolling branch of the constructor, before its first `cut`. */
    constructor (cfg: Options.Config, prefix: string, selected: bool, encode: string -> Bytes, disk: Disk, cleaner: Retention.Cleaner)
      requires cfg.rollingFile && cfg.flushTimeout.Some?
      requires Options.LivePrefix(cfg.nameformat) == Some(prefix)
      requires disk.fs.Valid() && cleaner.Valid()
      ensures Valid()
      ensures level == cfg.level && logdir == cfg.logdir && this.prefix == prefix && duration == cfg.duration
      ensures flushTimeout == cfg.flushTimeout.value && this.selected == selected && this.encode == encode
      ensures this.disk == disk && this.cleaner == cleaner
      ensures buf == [] && stream == Closed && pendingReplays == 0 && rotationTimer == None && flushTimerArmed
    {
      level, logdir, this.prefix, duration := cfg.level, cfg.logdir, prefix, cfg.duration;
      flushTimeout, this.selected, this.encode := cfg.flushTimeout.value, selected, encode;
      this.disk, this.cleaner := disk, cleaner;
      buf, stream, pendingReplays, rotationTimer, flushTimerArmed := [], Closed, 0, None, true;
      new;
      Options.LivePrefixSpec(cfg.nameformat, prefix);
      assert Options.FreeOfBrackets(prefix);
    }

    /** `write(string)` in rolling mode only queues the line. */
    method Write(s: string)
      modifies this`buf
      ensures buf == old(buf) + [s]
    {
      buf := buf + [s];
    }

    /** `_flush()` in rolling mode: one write of the whole queue, encoded,
        when it is non-empty. Writing to an unset stream throws. */
    method Flush() returns (faulted: bool)
      requires Valid()
      modifies this`buf, this`stream, disk
      ensures Valid()
      ensures faulted <==> old(buf) != [] && old(stream) == Closed
      ensures old(buf) == [] || faulted ==>
        buf == old(buf) && stream == old(stream) && disk.fs == old(disk.fs)
      ensures old(buf) != [] && !faulted ==> buf == []
      ensures old(buf) != [] && old(stream).File? ==>
        stream == old(stream) && disk.fs == Append(old(disk.fs), old(stream).inode, encode(Concat(old(buf))))
      ensures old(stream).Placeholder? ==>
        stream == Placeholder(Pushed(old(stream).datas, old(buf), encode)) && disk.fs == old(disk.fs)
    {
      if buf == [] {
        return false;
      }
      var b := encode(Concat(buf));
      match stream {
        case Closed =>
          return true;
        case File(inode) =>
          disk.Write(inode, b);
        case Placeholder(datas) =>
          stream := Placeholder(datas + [b]);
      }
      buf := [];
      return false;
    }

    /** The rename gate of a selected worker's unflagged `cut`: the live file
        is renamed to the dated name only when it exists, the level is
        'info' and the dated file does not exist yet; each branch leaves its
        note in the cleaner's audit log. */
    method Gate(yesterday: string, renameFails: bool) returns (renamed: bool)
      requires Valid()
      modifies disk, cleaner
      ensures Valid()
      ensures var dated := Path(logdir, yesterday);
        && (renamed <==>
              LivePath() in old(disk.fs.names) && level == "info" && dated !in old(disk.fs.names) && !renameFails)
        && disk.fs == GatedFs(old(disk.fs), LivePath(), dated, level, renameFails)
        && cleaner.infoLog == old(cleaner.infoLog) + GateNotes(LivePath() in old(disk.fs.names), level, dated, dated in old(disk.fs.names), renameFails)
      ensures cleaner.logDirs == old(cleaner.logDirs) && cleaner.deleteLog == old(cleaner.deleteLog)
    {
      var live := LivePath();
      var dated := Path(logdir, yesterday);
      renamed := false;
      var liveThere := disk.Exists(live);
      if liveThere && level == "info" {
        var there := disk.Exists(dated);
        if there {
          cleaner.Record(Retention.AlreadyRotated(dated), None);
        } else {
          cleaner.Record(Retention.Renaming(dated), None);
          if renameFails {
            cleaner.Record(Retention.RenameFailed, Some("error"));
          } else {
            disk.RenameSync(live, dated);
            renamed := true;
          }
        }
      }
    }

    /** The tail of `cut`: open the live path for appending (creating it
        when absent) and, for the replay, write the placeholder's chunks
        joined by newlines; without a placeholder that write throws. */
    method Reopen(flag: Flag) returns (o: CutOutcome)
      requires Valid()
      modifies this`stream, disk
      ensures Valid()
      ensures disk.fs == ReopenedFs(old(disk.fs), LivePath(), Replayed(flag, old(stream)))
      ensures stream == File(disk.fs.names[LivePath()])
      ensures o == if flag == Replay && !old(stream).Placeholder? then Faulted else Reopened
    {
      var previous := stream;
      var inode := disk.Open(LivePath());
      stream := File(inode);
      if flag == Replay {
        if !previous.Placeholder? {
          return Faulted;
        }
        disk.Write(inode, JoinLines(previous.datas));
      }
      return Reopened;
    }

    /** The head of `cut`: an open stream (file or placeholder) receives the
        final `_flush` and is ended. */
    method Retire()
      requires Valid()
      modifies this`buf, this`stream, disk
      ensures Valid()
      ensures stream == Retired(old(stream), old(buf), encode)
      ensures buf == if old(stream) == Closed then old(buf) else []
      ensures disk.fs == FlushedFs(old(disk.fs), old(stream), old(buf), encode)
    {
      if stream != Closed {
        var _ := Flush();
      }
    }

    /** The rest of `cut`, once the old stream is retired: park, or pass the
        rename gate when selected and unflagged, then reopen. */
    method Turn(flag: Flag, yesterday: string, renameFails: bool) returns (o: CutOutcome, renamed: bool)
      requires Valid()
      modifies this`stream, this`pendingReplays, disk, cleaner
      ensures Valid()
      ensures o == Parked <==> !selected && flag == Scheduled
      ensures o == Faulted <==> flag == Replay && !old(stream).Placeholder?
      ensures renamed <==>
        && selected && flag == Scheduled && LivePath() in old(disk.fs.names) && level == "info"
        && Path(logdir, yesterday) !in old(disk.fs.names) && !renameFails
      ensures disk.fs ==
        if o == Parked then old(disk.fs)
        else ReopenedFs(
          if selected && flag == Scheduled then GatedFs(old(disk.fs), LivePath(), Path(logdir, yesterday), level, renameFails) else old(disk.fs),
          LivePath(), Replayed(flag, old(stream)))
      ensures stream == if o == Parked then Placeholder([]) else File(disk.fs.names[LivePath()])
      ensures pendingReplays == old(pendingReplays) + if o == Parked then 1 else 0
      ensures cleaner.infoLog == old(cleaner.infoLog) +
        if selected && flag == Scheduled then
          GateNotes(LivePath() in old(disk.fs.names), level, Path(logdir, yesterday), Path(logdir, yesterday) in old(disk.fs.names), renameFails)
        else []
      ensures cleaner.logDirs == old(cleaner.logDirs) && cleaner.deleteLog == old(cleaner.deleteLog)
    {
      if !selected && flag == Scheduled {
        stream := Placeholder([]);
        pendingReplays := pendingReplays + 1;
        return Parked, false;
      }
      renamed := false;
      if selected && flag == Scheduled {
        renamed := Gate(yesterday, renameFails);
      }
      o := Reopen(flag);
    }

    /** `cut(flag)`: flush and end the current stream; on an unflagged tick a
        worker that is not selected parks its output in a placeholder and
        schedules the replay, the selected one passes the rename gate; then
        the live path is reopened, and replayed into on `'flush'`. The disk
        afterwards is `CutFs` of the disk before; the lemmas about `CutFs`
        state what that means. */
    method Cut(flag: Flag, yesterday: string, renameFails: bool) returns (o: CutOutcome, renamed: bool)
      requires Valid()
      modifies this, disk, cleaner
      ensures Valid()
      ensures o == Parked <==> !selected && flag == Scheduled
      ensures o == Faulted <==> flag == Replay && !old(stream).Placeholder?
      ensures renamed <==> Rotates(old(disk.fs), selected, flag, LivePath(), Path(logdir, yesterday), level, renameFails)
      ensures disk.fs == CutFs(old(disk.fs), old(stream), old(buf), encode, selected, flag, LivePath(), Path(logdir, yesterday), level, renameFails)
      ensures stream == if o == Parked then Placeholder([]) else File(disk.fs.names[LivePath()])
      ensures buf == if old(stream) == Closed then old(buf) else []
      ensures pendingReplays == old(pendingReplays) + if o == Parked then 1 else 0
      ensures rotationTimer == old(rotationTimer) && flushTimerArmed == old(flushTimerArmed)
      ensures cleaner.infoLog == old(cleaner.infoLog) +
        if selected && flag == Scheduled then
          GateNotes(LivePath() in old(disk.fs.names), level, Path(logdir, yesterday), Path(logdir, yesterday) in old(disk.fs.names), renameFails)
        else []
      ensures cleaner.logDirs == old(cleaner.logDirs) && cleaner.deleteLog == old(cleaner.deleteLog)
    {
      Retire();
      o, renamed := Turn(flag, yesterday, renameFails);
    }

    /** The rotation timer: `cut()`, then the cleaner's `run` over the disk
        the cut left, then the timer is armed again for one full period. The
        cleaner never takes the live file, so a worker that reopened it still
        writes to a named file. */
    method Tick(yesterday: string, renameFails: bool, today: Retention.Date, failing: set<Path>, unreadable: set<string>)
      returns (o: CutOutcome, renamed: bool, calls: seq<Retention.Callback>,
               ghost reports: seq<seq<Retention.Callback>>, ghost audits: seq<seq<Path>>)
      requires Valid() && rotationTimer.Some?
      modifies this, disk, cleaner
      ensures Valid()
      ensures rotationTimer == Some(duration) && flushTimerArmed == old(flushTimerArmed)
      ensures o == Parked <==> !selected
      ensures renamed <==> Rotates(old(disk.fs), selected, Scheduled, LivePath(), Path(logdir, yesterday), level, renameFails)
      ensures var cut := CutFs(old(disk.fs), old(stream), old(buf), encode, selected, Scheduled, LivePath(), Path(logdir, yesterday), level, renameFails);
        && disk.fs == cut.(names := cut.names - Retention.Sweep(cut.names.Keys, old(cleaner.logDirs), today, failing, unreadable))
        && Retention.Reported(reports, audits, old(cleaner.logDirs), cut.names.Keys, today, failing, unreadable)
      ensures calls == Retention.Joined(reports) && cleaner.deleteLog == old(cleaner.deleteLog) + Retention.Joined(audits)
      ensures o != Parked ==> LivePath() in disk.fs.names && stream == File(disk.fs.names[LivePath()])
      ensures o == Parked ==> stream == Placeholder([])
      ensures buf == if old(stream) == Closed then old(buf) else []
      ensures pendingReplays == old(pendingReplays) + if o == Parked then 1 else 0
      ensures cleaner.logDirs == old(cleaner.logDirs)
      ensures cleaner.infoLog == old(cleaner.infoLog) +
        if selected then
          GateNotes(LivePath() in old(disk.fs.names), level, Path(logdir, yesterday), Path(logdir, yesterday) in old(disk.fs.names), renameFails)
        else []
    {
      o, renamed := Cut(Scheduled, yesterday, renameFails);
      Retention.LiveNeverMatched(prefix);
      calls, reports, audits := cleaner.Run(disk, today, failing, unreadable);
      rotationTimer := Some(duration);
    }

    /** The `_flush` interval: `_flush()` as it is. */
    method FlushTimer() returns (faulted: bool)
      requires Valid() && flushTimerArmed
      modifies this`buf, this`stream, disk
      ensures Valid()
      ensures faulted <==> old(buf) != [] && old(stream) == Closed
      ensures old(buf) == [] || faulted ==>
        buf == old(buf) && stream == old(stream) && disk.fs == old(disk.fs)
      ensures old(buf) != [] && !faulted ==> buf == []
      ensures old(buf) != [] && old(stream).File? ==>
        stream == old(stream) && disk.fs == Append(old(disk.fs), old(stream).inode, encode(Concat(old(buf))))
      ensures old(stream).Placeholder? ==>
        stream == Placeholder(Pushed(old(stream).datas, old(buf), encode)) && disk.fs == old(disk.fs)
    {
      faulted := Flush();
    }

    /** The scheduled `cut('flush')` of a worker that parked its output. */
    method ReplayTimer() returns (o: CutOutcome)
      requires Valid() && pendingReplays > 0
      modifies this, disk, cleaner
      ensures Valid() && pendingReplays == old(pendingReplays) - 1
      ensures o == Faulted <==> !old(stream).Placeholder?
      ensures disk.fs == CutFs(old(disk.fs), old(stream), old(buf), encode, selected, Replay, LivePath(), Path(logdir, ""), level, false)
      ensures stream == File(disk.fs.names[LivePath()])
      ensures buf == if old(stream) == Closed then old(buf) else []
      ensures rotationTimer == old(rotationTimer) && flushTimerArmed == old(flushTimerArmed)
      ensures cleaner.logDirs == old(cleaner.logDirs) && cleaner.infoLog == old(cleaner.infoLog)
      ensures cleaner.deleteLog == old(cleaner.deleteLog)
    {
      var renamed;
      o, renamed := Cut(Replay, "", false);
      pendingReplays := pendingReplays - 1;
    }

    /** `end()`: clear both timers, flush what is queued and drop the stream.
        A scheduled replay is not cancelled. */
    method End()
      requires Valid()
      modifies this, disk
      ensures Valid()
      ensures rotationTimer == None && !flushTimerArmed && stream == Closed
      ensures pendingReplays == old(pendingReplays)
      ensures old(stream) != Closed ==> buf == []
      ensures old(stream) == Closed ==> buf == old(buf) && disk.fs == old(disk.fs)
      ensures old(stream).Placeholder? || old(buf) == [] ==> disk.fs == old(disk.fs)
      ensures old(stream).File? && old(buf) != [] ==>
        disk.fs == Append(old(disk.fs), old(stream).inode, encode(Concat(old(buf))))
    {
      rotationTimer, flushTimerArmed := None, false;
      if stream != Closed {
        var _ := Flush();
        stream := Closed;
      }
    }
  }

  /** The rolling branch of the constructor: register the log directory with
      the cleaner, arm the flush interval, run `cut('start')`, then arm the
      rotation timer for the first aligned boundary. A `nameformat` without a
      `[prefix-]` head makes that first `cut` throw, after the registration. */
  method OpenRolling(cfg: Options.Config, selected: bool, encode: string -> Bytes, disk: Disk, cleaner: Retention.Cleaner, now: int)
    returns (r: Result<RollingWriter, Options.CtorError>)
    requires cfg.rollingFile && cfg.flushTimeout.Some?
    requires disk.fs.Valid() && cleaner.Valid()
    modifies disk, cleaner
    ensures cleaner.logDirs == Retention.Register(old(cleaner.logDirs), cfg.logdir)
    ensures cleaner.infoLog == old(cleaner.infoLog) && cleaner.deleteLog == old(cleaner.deleteLog)
    ensures r.Failure? <==> Options.LivePrefix(cfg.nameformat).None?
    ensures r.Failure? ==> r.error == Options.NoLivePrefix && disk.fs == old(disk.fs)
    ensures r.Success? ==>
      var w := r.value;
      && w.disk == disk && w.cleaner == cleaner && w.Valid()
      && w.level == cfg.level && w.logdir == cfg.logdir && w.duration == cfg.duration
      && w.flushTimeout == cfg.flushTimeout.value && w.selected == selected && w.encode == encode
      && Some(w.prefix) == Options.LivePrefix(cfg.nameformat)
      && w.buf == [] && w.pendingReplays == 0 && w.flushTimerArmed
      && disk.fs == ReopenedFs(old(disk.fs), w.LivePath(), None)
      && w.stream == File(disk.fs.names[w.LivePath()])
      && w.rotationTimer == Some(Options.TimerDelay(Options.FirstDuration(cfg.duration, now), cfg.duration))
  {
    cleaner.Init(cfg.logdir);
    var prefix := Options.LivePrefix(cfg.nameformat);
    if prefix.None? {
      return Failure(Options.NoLivePrefix);
    }
    var w := new RollingWriter(cfg, prefix.value, selected, encode, disk, cleaner);
    var o, renamed := w.Cut(Start, "", false);
    w.rotationTimer := Some(Options.TimerDelay(Options.FirstDuration(cfg.duration, now), cfg.duration));
    return Success(w);
  }

  // ---------------------------------------------------------------------------
  // A worked run

  function ScenarioConfig(): (c: Options.Config)
    ensures c.rollingFile && c.flushTimeout.Some? && c.nameformat == Options.DEFAULT_NAMEFORMAT
  {
    Options.Config(
      level := "info", logdir := "logs", rollingFile := true, name := None,
      nameformat := Options.DEFAULT_NAMEFORMAT, duration := Options.ONE_DAY,
      encoding := "utf-8", streamMode := Options.DEFAULT_MODE,
      flushTimeout := Some(Options.DEFAULT_FLUSH_TIMEOUT), cacheSize := None)
  }

  const SCENARIO_LIVE: Path := Path("logs", "application.log")
  /** `logs/application-20240101.log`, yesterday's file on the scenario's tick. */
  const SCENARIO_DATED: Path := Path("logs", Retention.DatedFile(true, Retention.Date(2024, 0, 1)))

  /** The scenario's writer, disk and stream at one point of the run. */
  ghost predicate Poised(w: RollingWriter, disk: Disk, names: map<Path, nat>, data: map<nat, Bytes>, stream: Stream)
    reads w, disk, w.cleaner
  {
    && w.disk == disk && w.Valid() && !w.selected && w.encode == Latin1 && w.buf == []
    && w.LivePath() == SCENARIO_LIVE && w.stream == stream
    && disk.fs.names == names && disk.fs.data == data
  }

  method OpenStage() returns (w: RollingWriter, disk: Disk)
    ensures fresh(w) && fresh(disk) && fresh(w.cleaner) && w.pendingReplays == 0 && w.rotationTimer.Some?
    ensures Poised(w, disk, map[SCENARIO_LIVE := 0], map[0 := []], File(0))
  {
    disk := new Disk();
    var cleaner := new Retention.Cleaner();
    Options.DefaultFormatPrefix();
    var r := OpenRolling(ScenarioConfig(), false, Latin1, disk, cleaner, 0);
    w := r.value;
  }

  /** The scenario's tick falls on 2024-01-02. */
  const SCENARIO_TODAY: Retention.Date := Retention.Date(2024, 0, 2)

  /** Yesterday's file is within the seven days the cleaner keeps. */
  lemma ScenarioDatedKept()
    ensures !Retention.IsOldLog(SCENARIO_DATED.name, SCENARIO_TODAY)
  {
    Retention.DatedFileRule(true, Retention.Date(2024, 0, 1), SCENARIO_TODAY);
  }

  /** The disk after the scenario's tick: the parked cut appends "a" to the
      renamed file, and the sweep keeps it. */
  lemma ParkedDisk(stale: Fs, level: string, dirs: seq<string>)
    requires stale.Valid() && stale.names == map[SCENARIO_DATED := 0] && stale.data == map[0 := []]
    ensures var cut := CutFs(stale, File(0), ["a"], Latin1, false, Scheduled, SCENARIO_LIVE, SCENARIO_DATED, level, false);
      var after := cut.(names := cut.names - Retention.Sweep(cut.names.Keys, dirs, SCENARIO_TODAY, {}, {}));
      after.names == map[SCENARIO_DATED := 0] && after.data == map[0 := Latin1("a")]
  {
    var cut := CutFs(stale, File(0), ["a"], Latin1, false, Scheduled, SCENARIO_LIVE, SCENARIO_DATED, level, false);
    CutParks(stale, File(0), ["a"], Latin1, SCENARIO_LIVE, SCENARIO_DATED, level, false);
    ScenarioDatedKept();
    assert Concat(["a"]) == "a";
    assert cut.names.Keys == {SCENARIO_DATED};
    assert Retention.Sweep(cut.names.Keys, dirs, SCENARIO_TODAY, {}, {}) == {};
    assert cut.names - {} == cut.names;
    assert cut.data.Keys == {0} && 0 in stale.data;
    assert cut.data[0] == Latin1("a");
    assert cut.data == map[0 := Latin1("a")];
  }

  /** "a" is queued, the selected worker renames the live file, then the
      tick parks this worker's stream; the cleaner's sweep keeps yesterday's
      file. */
  method ParkStage(w: RollingWriter, disk: Disk)
    requires Poised(w, disk, map[SCENARIO_LIVE := 0], map[0 := []], File(0)) && w.rotationTimer.Some?
    modifies w, disk, w.cleaner
    ensures w.pendingReplays == old(w.pendingReplays) + 1
    ensures w.rotationTimer == Some(w.duration)
    ensures Poised(w, disk, map[SCENARIO_DATED := 0], map[0 := Latin1("a")], Placeholder([]))
  {
    w.Write("a");
    disk.RenameSync(SCENARIO_LIVE, SCENARIO_DATED);
    assert disk.fs.names == map[SCENARIO_DATED := 0];
    var stale := disk.fs;
    assert Path(w.logdir, SCENARIO_DATED.name) == SCENARIO_DATED;
    ghost var dirs := w.cleaner.logDirs;
    var o, renamed, calls, reports, audits := w.Tick(SCENARIO_DATED.name, false, SCENARIO_TODAY, {}, {});
    ParkedDisk(stale, w.level, dirs);
  }

  /** "b" is queued into the placeholder's window and the replay runs. */
  method ReplayStage(w: RollingWriter, disk: Disk)
    requires Poised(w, disk, map[SCENARIO_DATED := 0], map[0 := Latin1("a")], Placeholder([])) && w.pendingReplays > 0
    modifies w, disk, w.cleaner
    ensures disk.fs.Valid() && SCENARIO_DATED in disk.fs.names && SCENARIO_LIVE in disk.fs.names
    ensures disk.fs.Content(SCENARIO_DATED) == Latin1("a") && disk.fs.Content(SCENARIO_LIVE) == Latin1("b")
  {
    w.Write("b");
    var parked := disk.fs;
    var replayed := w.ReplayTimer();
    CutReplays(parked, Placeholder([]), ["b"], Latin1, false, w.LivePath(), Path(w.logdir, ""), w.level, false);
    assert Concat(["b"]) == "b";
  }

  /** A worker that is not selected, across a rotation: its line "a" is
      queued when the selected worker renames the live file, so the tick's
      final flush sends it after the rename, into the dated file; "b" is
      written while the placeholder holds the stream and reaches the new live
      file with the replay. */
  method ParkedWindowRun() returns (dated: Bytes, live: Bytes)
    ensures dated == Latin1("a") && live == Latin1("b")
  {
    var w, disk := OpenStage();
    ParkStage(w, disk);
    ReplayStage(w, disk);
    dated := disk.fs.Content(SCENARIO_DATED);
    live := disk.fs.Content(SCENARIO_LIVE);
  }
}
