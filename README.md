# midlog: the log writer and its retention cleaner, in Dafny

midlog is a logging middleware for Node.js. Its `StrategyManager` turns log
lines into file writes and works in one of two modes.

- **Double-buffer mode** (`rollingFile` off). Encoded chunks are appended to
  one of two linked lists, `_bufA` and `_bufB`. A list is flushed to the
  write stream when its byte counter reaches `cacheSize` or when
  `flushTimeout` has elapsed. When the stream answers `false`, the rest of
  that list waits for 'drain'. Meanwhile the other list accepts every write.
- **Rolling mode** (`rollingFile` on). Lines are queued in one array. An
  interval writes the whole queue to the live file `<logdir>/<prefix>.log`.
  At every rotation tick the writer runs `cut()`:
  - the selected worker renames the live file to yesterday's dated name;
  - every other worker parks its output in an in-memory placeholder and
    replays it into the reopened live file 4 seconds later.

  After the cut, the retention cleaner deletes old dated logs. The cleaner
  lives in `lib/del_log.js`.

The test script `testRotate/index.js` writes the cleaner's filter a second
time. It is proved to select exactly the same files.

## Modules

| file | module | what it holds |
|---|---|---|
| `common.dfy` | `Common` | Option and Result, bytes, decimal digits, ASCII case mapping, `Latin1` |
| `options.dfy` | `Options` | constructor normalisation, the `{pid}` substitution, the live-prefix pattern, `firstDuration` and `startTimer`'s delay |
| `filesystem.dfy` | `FileSystem` | a disk of names bound to inodes, and the `fs` calls the core makes |
| `retention.dfy` | `Retention` | `del_log.js`: dates, the file-name pattern, the deletion predicate, and the `Cleaner` class (`init`, `record`, `removeFiles`, `cleanOldLogs`, `run`) |
| `testrotate.dfy` | `TestRotate` | the script's filter and its equivalence with the cleaner's |
| `doublebuffer.dfy` | `DoubleBuffer` | the `Writer` class of double-buffer mode, over a `Sink` whose `write` answers are a parameter |
| `rolling.dfy` | `Rolling` | the `RollingWriter` class of rolling mode, `cut` specified by the function `CutFs`, and the rolling constructor |

### Double-buffer mode

`Writer` holds the two lists by role:
- `active` is the buffer `currentBuffer` names;
- `standby` is the other buffer;
- `leftover` is `continueBufferList`.

A ghost `history` records every accepted chunk. The invariant `Valid()`
states that, while no fault has escaped and no chunk was dropped (the ghost
`accounted`), these three hold:
- the stream's writes, followed by the chunks waiting for 'drain', followed
  by the active buffer, are exactly `history`;
- the standby buffer is empty;
- a pending 'drain' names the buffer that is not current.

The operations state how that accounting is kept or lost:
- `Write` and `Drain` keep it exactly when the source's linked lists keep
  every chunk.
- `FlushBuffer` loses it when `flush` is called from outside while a
  'drain' is pending.
- `End` always loses it, because flushing an empty list throws.

The flag `tailLinked` says whether `tailCursor` is the last node of the
chain left over by a stalled flush. Only a stall sets it. After a flush
that completes or throws, `tailCursor` is a node already written or a
discarded list head, and the next 'drain' links the other buffer after a
node outside the chain it flushes.

Three runs exhibit the behaviour of the 'drain' handler as written:
- `LostSiblingRun`: with `cacheSize` 0, a chunk queued behind a stalled
  single-chunk flush never reaches the stream.
- `StuckAfterDrainRun`: the handler compares `whichBufferFull` instead of
  clearing it, so after a completed drain every later write to the other
  buffer is deferred.
- `LostAfterEndRun`: `end()` throws on an empty buffer after a stall, which
  leaves `tailCursor` on a discarded list head; a chunk written afterwards
  is deferred, and the next 'drain' never writes it.

### Rolling mode

`cut(flag)` is specified by `CutFs`, a function from the disk, the stream
and the queue before the call to the disk after it. Lemmas about `CutFs`
state what a cut does:
- `CutRotates`: a rotating cut moves the live inode to the dated name and
  starts an empty live file.
- `CutKeepsOthers`: every other name keeps its file. In particular, a
  repeated tick whose dated file already exists changes no dated file.
- `CutKeepsLive`: a cut that neither rotates nor replays leaves the live
  name on its file, which receives only the final flush.
- `CutParks`: a parked cut renames nothing.
- `CutReplays`: the replay appends the newline-joined chunks to the live
  file.

`Tick` composes `cut()`, the cleaner's `run` over the disk the cut left
and re-arming the timer; its contract gives the whole new state, including
each directory's callbacks and audit lines.
`LiveNotOld` shows that the cleaner never deletes the live file.
`ParkedWindowRun` follows one non-selected worker through the whole sequence:
1. a tick parks its output, and its sweep keeps yesterday's file;
2. the selected worker renames the file in between;
3. the replay writes the parked line into the new live file;
4. the dated file keeps only what was written before the tick.

### Where the code and its documentation disagree

The model follows the code in each case.
- The doc comment of the constructor gives `[info.]YYYY-MM-DD[.log]` as the
  default name format. The code uses `[application-]YYYYMMDD[.log]`, and
  `cut` requires a `[prefix-]` head. `DocCommentFormatHasNoPrefix` shows that
  the documented format has none.
- The cleaner matches only `application-YYYYMMDD.log` and
  `info-YYYYMMDD.log`, not `<prefix>-YYYYMMDD.log` for any prefix.
- The "seven days" window compares `YYYYMMDD` numbers, not calendar days.
  Across a month or a year boundary it keeps fewer days: see
  `PreviousMonthDeleted` and `CrossYearJanuary`.
- In rolling mode, a write to an unset stream throws; it is not caught and
  reported. `Flush` returns `faulted` in that case.

## Model

| member | source | states |
|---|---|---|
| Common.DecimalRoundTrip | lib/del_log.js:118 | reading back the decimal spelling of a number gives the number (`parseInt` of `'' + n`) |
| Common.DecimalConcat | lib/del_log.js:70 | the value of a concatenation of digit strings is the first value shifted by the second's length plus the second value |
| Common.Lower | strategyManager.js:53 | `toLowerCase`: same length, lower-case, each capital becomes its own small letter, every other character kept |
| Common.Upper | lib/del_log.js:50 | `toUpperCase`: same length, upper-case, each small letter becomes its own capital, every other character kept |
| Options.NormalLevel | strategyManager.js:53 | the level is non-empty and lower-case: `info` when the option is absent or empty, otherwise the option lower-cased |
| Options.NormalDuration | strategyManager.js:75-79 | the period is at least one minute: one day when absent or zero, a shorter period raised to one minute, a longer one kept |
| Options.NormalEncoding | strategyManager.js:80-83 | the encoding is lower-case and never `utf8`: `utf-8` when absent or when the option is `utf8` in any case, otherwise the option lower-cased |
| Options.NormalFormat | strategyManager.js:71-72 | the default name format is used as it is, since it holds no `{pid}`; a given format has its first `{pid}` replaced by the process id |
| Options.Normalize | strategyManager.js:48-121 | the constructor fails with the missing-name error exactly when not rolling and no name is given; otherwise the configuration carries the normalised level, period and encoding (`utf8` in any case becomes `utf-8`), the default or `{pid}`-substituted name format, the name as given, file mode `0666` by default, a flush interval of 2000 ms by default in rolling mode, and the raw flush interval and cache size otherwise |
| Options.FindFrom | strategyManager.js:72 | the result is the first occurrence of the pattern at or after the start, and `None` means there is none |
| Options.ReplaceFirst | strategyManager.js:72 | a format without `{pid}` is returned unchanged |
| Options.ReplaceFirstAt | strategyManager.js:72 | only the first occurrence of `{pid}` is replaced; the text around it is kept |
| Options.RunEnd | strategyManager.js:73 | the end of the longest run of characters other than `[`, `]` and `-` |
| Options.LivePrefixSpec | strategyManager.js:73 | the pattern yields `p` exactly when `p` is non-empty, free of `[`, `]` and `-`, and the format starts with `[p-]` (both directions) |
| Options.DefaultFormatPrefix | strategyManager.js:71 | the default format yields the live file prefix `application` |
| Options.MiddlewareFormatPrefix | reqContainer.js:151 | the middleware's format yields the prefix `info` |
| Options.DocCommentFormatHasNoPrefix | strategyManager.js:32 | the documented default format has no live prefix, so `cut` would throw on it |
| Options.FirstDuration | strategyManager.js:125-138 | a period of at most one minute is used as is; a longer period yields a delay above the period minus one unit and at most the period, ending on a minute, hour or day boundary |
| Options.FirstTickAligned | strategyManager.js:140-150 | the first tick fires after a positive delay no longer than the period, aligned to its unit; every later tick waits exactly the period |
| Retention.Pad2 | lib/del_log.js:59-64 | the spelling is all digits with value `n`, two characters below 100 |
| Retention.YearString | lib/del_log.js:73-76 | the spelling is all digits with value `year`, four characters for a four-digit year |
| Retention.YYYYMMDD | lib/del_log.js:66-71 | the date is spelled in digits only |
| Retention.YearStringInjective | lib/del_log.js:124 | two years with the same spelling are the same year |
| Retention.TodayValue | lib/del_log.js:117-118 | for a valid date, `parseInt(getYYYYMMDD(now))` is year * 10000 + (month + 1) * 100 + day, with `month` counted from 0 as `moment` does |
| Retention.MatchDatedSpec | lib/del_log.js:107 | the pattern matches with group `d` exactly when the name is `application-d.log` or `info-d.log` with `d` eight digits (both directions) |
| Retention.LiveNeverMatched | lib/del_log.js:107 | a name without `-` before `.log` never matches |
| Retention.DatedFileRule | lib/del_log.js:119-144 | a dated log of a four-digit year is deleted exactly when its date number is below today's minus 7 in the same year, or below today's minus 8876 in another year |
| Retention.SameYearExample | lib/del_log.js:124-128 | on 2019-01-10, the log of 2019-01-02 is deleted and those of 2019-01-03 and 2019-01-04 are kept |
| Retention.CrossYearExample | lib/del_log.js:129-141 | on 2019-01-05 the threshold is 20181229: every 2018 log dated 2018-12-28 or earlier is deleted, and those of 2018-12-29 to 2018-12-31 are kept |
| Retention.CrossYearThreshold | lib/del_log.js:130-137 | on January 1 to 8, today minus 8876 is December 25 to 32 of the year before |
| Retention.CrossYearJanuary | lib/del_log.js:138-140 | in the first week of January, the December log of day `fd` is deleted exactly when `fd < 24 + d` |
| Retention.EarlierYearAfterJanuary | lib/del_log.js:129-141 | from February on, every log of an earlier year is deleted |
| Retention.PreviousMonthDeleted | lib/del_log.js:124-128 | in the first seven days of a month, every log of the previous month is deleted |
| Retention.OldLogs | lib/del_log.js:119-144 | the filtered listing holds exactly the listed names the predicate selects, without duplicates when the listing has none |
| Retention.Register | lib/del_log.js:152-156 | the directory is registered, earlier entries keep their order, nothing else is added, and the list stays free of duplicates |
| Retention.RegisterIdempotent | lib/del_log.js:153 | registering the same directory twice is registering it once |
| Retention.RecordLevel | lib/del_log.js:50 | the recorded level is non-empty and upper-case: `INFO` by default, otherwise the given level's letters |
| Retention.TargetsStep | lib/del_log.js:95-98 | the audit log of deletions grows by one path per file, in order |
| Retention.UnlinkErrorsSpec | lib/del_log.js:95-104 | a path is reported as failed exactly when it is one of the files, exists, and its unlink fails |
| Retention.UnlinkErrorsStep | lib/del_log.js:99-103 | one file adds its path to the failures exactly when it exists and its unlink fails |
| Retention.Completion | lib/del_log.js:78-93 | `callback(null)` is made once exactly when no unlink failed; otherwise the i-th callback reports the i-th failed unlink, one per failure, and there is no success |
| Retention.ErrorsStep | lib/del_log.js:84-87 | a failure adds one error callback |
| Retention.CounterStep | lib/del_log.js:84-93 | the countdown of `done` reaches zero with no error exactly when the last file completes |
| Retention.RemovedStep | lib/del_log.js:99-103 | one file removes its path exactly when it exists and its unlink succeeds |
| Retention.TargetsSpec | lib/del_log.js:97 | the targets are exactly the paths in the directory whose names are in the list |
| Retention.SelectedLogs | lib/del_log.js:119-146 | the files removed from a directory are the present old logs minus the failing ones |
| Retention.SweepStep | lib/del_log.js:110-148 | sweeping one more directory removes its selected logs |
| Retention.Cleaner.constructor | lib/del_log.js:151 | no directory is registered and both audit logs are empty |
| Retention.Cleaner.Init | lib/del_log.js:152-156 | `init` registers the directory and changes nothing else |
| Retention.Cleaner.Record | lib/del_log.js:49-52 | `record` appends one line with the normalised level |
| Retention.Cleaner.DeleteOne | lib/del_log.js:96-103 | the path is logged, and it is unlinked exactly when it exists and the unlink does not fail |
| Retention.Cleaner.RemoveFiles | lib/del_log.js:78-105 | every file is logged, exactly the present non-failing ones are unlinked, and the callbacks are those of `Completion` |
| Retention.Cleaner.ListDir | lib/del_log.js:111 | the listing holds each name of the directory once |
| Retention.Cleaner.CleanDir | lib/del_log.js:110-148 | an unreadable directory reports its error and changes nothing; otherwise the present old logs not failing are removed and the callbacks report success exactly when nothing failed; the audit log grows by one line per selected file, and the callbacks are the completion counter's over the failing selected files |
| Retention.CleanDirReportsDone | lib/del_log.js:78-93 | a readable directory none of whose selected files fails reports `callback(null)` exactly once |
| Retention.ReportedSnoc | lib/del_log.js:158-171 | one more directory's report and audit extend the run's report and audit |
| Retention.ReportedCalls | lib/del_log.js:158-171 | every directory reports at least once, and every error callback names an unreadable registered directory or a failing selected log |
| Retention.Cleaner.SweepNext | lib/del_log.js:158-171 | the next registered directory is cleaned, and its report and audit lines are appended |
| Retention.Cleaner.Run | lib/del_log.js:158-171 | every registered directory is swept in order, and no file other than a selected old log is removed; the callbacks are the directories' reports one after another, and the audit log grows by their audit lines; every error callback names an unreadable registered directory or a failing old log |
| TestRotate.MatchersAgree | testRotate/index.js:7 | the pattern read from the end accepts the same names and captures the same digits as the cleaner's |
| TestRotate.KeepAgrees | testRotate/index.js:32-58 | the script's filter and the cleaner's agree on every name and date |
| TestRotate.Logs | testRotate/index.js:32 | the filtered listing is no longer than the listing |
| TestRotate.LogsAgree | testRotate/index.js:32-58 | the script selects exactly the list the cleaner selects, in the same order |
| TestRotate.OldLogsSnoc | lib/del_log.js:119-144 | filtering a listing with one more name adds that name exactly when it is old |
| TestRotate.LiveFilesNotListed | testRotate/index.js:32-58 | `application.log` and `info.log` are never selected |
| DoubleBuffer.Other | strategyManager.js:364 | flushing one buffer makes the other current |
| DoubleBuffer.TotalBytesSnoc | strategyManager.js:323 | a buffer's counter grows by the byte length of each appended chunk |
| DoubleBuffer.FirstRefusal | strategyManager.js:219 | every write before the returned index is accepted, and the write at the index is refused |
| DoubleBuffer.Delivered | strategyManager.js:213-224 | the chunks handed to the stream are a prefix of the list, and non-empty for a non-empty list |
| DoubleBuffer.DeliveredSplit | strategyManager.js:219-222 | the list is what was delivered followed by what the stall left on `continueBufferList` |
| DoubleBuffer.Outcome | strategyManager.js:210-225 | `doFlush` throws exactly on an empty list, and stalls only at a write the stream refused |
| DoubleBuffer.FlushKeepsAccount | strategyManager.js:210-225 | a flush loses no chunk: what was written followed by the list is what is now written followed by what waits for 'drain' |
| DoubleBuffer.Writer.constructor | strategyManager.js:108-120 | both buffers are empty, `A` is current, the limits are stored raw, and the accounting holds |
| DoubleBuffer.Writer.DoFlush | strategyManager.js:210-225 | the stream receives the delivered prefix; on a stall, `whichBufferFull` names the buffer and the rest of the list is left over; the tail cursor ends the leftover chain only after a stall |
| DoubleBuffer.Writer.Detach | strategyManager.js:361-368 | the flushed buffer is reset with a zero counter and the other becomes current |
| DoubleBuffer.Writer.Push | strategyManager.js:320-323 | the chunk is linked after the current buffer's tail and counted |
| DoubleBuffer.Writer.FlushList | strategyManager.js:361-381 | detach, then `doFlush`; the accounting survives exactly when nothing throws; the tail cursor ends the leftover chain exactly when the flush stalled on a list whose last node it is |
| DoubleBuffer.Writer.FlushBuffer | strategyManager.js:361-381 | flushing a buffer's own list; an explicit flush while a 'drain' is pending loses the accounting; the tail cursor ends the leftover chain exactly when the flush stalled |
| DoubleBuffer.Writer.Flush | strategyManager.js:358-398 | a name other than `A` or `B` changes nothing; otherwise the named buffer is flushed: the stream receives its delivered prefix, the other buffer becomes current, a stall records the buffer and the rest of its list, and the flush throws exactly when the buffer is empty or the stream is unset |
| DoubleBuffer.Writer.FlushIfDue | strategyManager.js:324-340 | writes wait while the other buffer's 'drain' is pending; otherwise the buffer is flushed exactly when its counter reached `cacheSize` or the interval elapsed, and the tail cursor then ends the leftover chain exactly when that flush stalled |
| DoubleBuffer.Writer.Write | strategyManager.js:314-344 | the chunk is accepted into the history; flushed exactly when due; the flush time is taken only when the flush did not throw; the tail cursor ends the leftover chain exactly when that flush stalled |
| DoubleBuffer.Writer.Drain | strategyManager.js:186-206 | the leftover chain is spliced in front of the other buffer and flushed; `whichBufferFull` is not cleared; the other buffer joins the chain only when the tail cursor ends it; the accounting survives exactly when the splice keeps every chunk |
| DoubleBuffer.Writer.End | strategyManager.js:408-432 | `end` flushes the current buffer, then the other, then ends the stream; it throws exactly when either buffer is empty, leaving the stream open; the stream receives the current buffer's delivered prefix unless that buffer is empty, then the other's unless that one is empty; the new buffers, stall record and tail cursor are stated for every case; with the stream unset nothing changes; the last flush time is never touched |
| DoubleBuffer.Writer.EndFilled | strategyManager.js:420-432 | with the current buffer non-empty, its flush cannot throw; the second flush throws exactly when the other buffer is empty |
| DoubleBuffer.EndStage | strategyManager.js:420-427 | after a stall, `end` writes the current buffer and throws on the empty one, leaving the 'drain' pending and the tail cursor outside the chain |
| DoubleBuffer.LossStage | strategyManager.js:194-199 | a chunk deferred after that `end` is not written by the next 'drain', and no buffer holds it |
| DoubleBuffer.LostAfterEndRun | strategyManager.js:186-206 | after a stall and a throwing `end`, a chunk written before the 'drain' is lost |
| DoubleBuffer.LostSiblingRun | strategyManager.js:186-206 | with every write due and the first write refused, the chunk queued behind it is never written, and the drain throws |
| DoubleBuffer.StallStage | strategyManager.js:324-340 | two one-byte writes fill `A`, whose flush stalls on its first chunk; the next write is deferred |
| DoubleBuffer.DrainStage | strategyManager.js:186-206 | 'drain' flushes the left-over chunk and `B`'s chunk, then `A` is flushed in full |
| DoubleBuffer.StuckStage | strategyManager.js:335-336 | with `whichBufferFull` still naming `A`, writes to `B` are deferred |
| DoubleBuffer.StuckAfterDrainRun | strategyManager.js:194-205 | after a completed drain, every later write to the other buffer is deferred, with no drain pending to release it |
| Rolling.ConcatAppend | strategyManager.js:350 | `join('')` of two lists is the concatenation of their joins |
| Rolling.JoinLinesLength | strategyManager.js:310 | `join('\n')` adds one byte per separator |
| Rolling.FlushedFs | strategyManager.js:348-355 | the final flush renames nothing and creates no file |
| Rolling.GatedFs | strategyManager.js:258-276 | the rename gate changes no file contents |
| Rolling.ReopenedFs | strategyManager.js:290-311 | after the reopen, the live path exists |
| Rolling.CutFs | strategyManager.js:229-312 | the disk after any `cut` is well formed |
| Rolling.CutRotates | strategyManager.js:229-312 | a rotating cut binds the dated name to the old live file with the final flush appended, and binds the live name to a new empty file |
| Rolling.CutKeepsOthers | strategyManager.js:258-276 | every name other than the live one, and other than the dated one when rotating, keeps its file |
| Rolling.CutKeepsLive | strategyManager.js:258-297 | a cut that neither rotates nor replays leaves the live name on its file, which receives only the final flush; a missing live file is created empty unless the cut parks |
| Rolling.CutReplays | strategyManager.js:309-311 | the replay adds the live name and appends the newline-joined chunks, the last queue included, to it; every other file keeps its contents |
| Rolling.CutParks | strategyManager.js:240-255 | a parked cut renames nothing and only appends the last queue to the file that was open |
| Rolling.LiveNotOld | strategyManager.js:232-234 | the live file name of any format with a prefix is never selected by the cleaner |
| Rolling.RollingWriter.constructor | strategyManager.js:88-106 | the writer takes the configuration's level, directory, period and flush interval, and the prefix the format yields |
| Rolling.RollingWriter.Write | strategyManager.js:315-316 | the line is appended to the queue |
| Rolling.RollingWriter.Flush | strategyManager.js:348-355 | a non-empty queue is written as one encoded chunk and cleared; it throws exactly when the queue is non-empty and the stream unset; a placeholder keeps the chunk in memory |
| Rolling.RollingWriter.Gate | strategyManager.js:258-276 | the live file is renamed exactly when it exists, the level is `info`, the dated file is absent and the rename does not fail; each branch leaves its note in the cleaner's log |
| Rolling.RollingWriter.Reopen | strategyManager.js:290-311 | the live path is opened for append; the replay writes the joined chunks, and throws exactly when there is no placeholder |
| Rolling.RollingWriter.Retire | strategyManager.js:235-238 | an open stream receives the final flush |
| Rolling.RollingWriter.Turn | strategyManager.js:240-311 | parks exactly when not selected and unflagged; renames exactly as `Gate` says; otherwise reopens |
| Rolling.RollingWriter.Cut | strategyManager.js:229-312 | the disk after the call is `CutFs` of the state before it; parks exactly when not selected and unflagged, with one more replay pending; throws exactly on a replay without a placeholder |
| Rolling.RollingWriter.Tick | strategyManager.js:140-150 | the tick is a `cut()`, then the cleaner's sweep of the registered directories on the disk the cut left, then the timer is re-armed for one period; a parked worker holds an empty placeholder and one more pending replay, a worker that reopened still has the live file; the queue, the flush interval, the registry, the gate notes and each directory's callbacks and audit lines are stated |
| Rolling.RollingWriter.FlushTimer | strategyManager.js:94 | the interval runs `_flush()`: a file stream receives the encoded queue, a placeholder collects it, and it throws exactly when the stream is unset and the queue non-empty |
| Rolling.RollingWriter.ReplayTimer | strategyManager.js:250-253 | the delayed `cut('flush')` consumes one pending replay and leaves the live file open; the queue is emptied unless the stream was unset, and the timers and the cleaner are unchanged |
| Rolling.RollingWriter.End | strategyManager.js:408-432 | both timers are cleared, the queue is flushed and the stream dropped; the disk changes only when a file stream receives a non-empty queue, and an unset stream keeps the queue; a pending replay stays scheduled |
| Rolling.OpenRolling | strategyManager.js:88-106 | the directory is registered first; the constructor fails exactly when the format has no prefix; otherwise the live file is open, the flush interval armed and the first rotation due at the aligned delay; the cleaner's logs are unchanged |
| Rolling.OpenStage | strategyManager.js:88-106 | a fresh writer on an empty disk holds an empty live file |
| Rolling.ScenarioDatedKept | lib/del_log.js:119-141 | on 2024-01-02 the cleaner keeps the application log dated 2024-01-01 |
| Rolling.ParkedDisk | strategyManager.js:240-255 | a parked cut appends the queue to the renamed file, and the sweep that follows keeps it |
| Rolling.ParkStage | strategyManager.js:240-255 | a non-selected worker's tick writes its queue to the renamed file, parks, keeps the file through the sweep and re-arms the timer |
| Rolling.ReplayStage | strategyManager.js:309-311 | the replay writes the later line into the new live file |
| Rolling.ParkedWindowRun | strategyManager.js:229-312 | across a rotation done by another worker, the dated file keeps the line written before the tick and the new live file receives the line written after it |

## Left out

- Real I/O is left out. The file system is the value `Fs`, a map from paths to inodes and from inodes to bytes; `Disk` holds it. Streams write synchronously and in order.
- Run: the date is one parameter for every directory, while `cleanOldLogs` reads the clock again in each directory's `readdir` callback; a run across midnight is not modelled.
- Timers are methods the caller invokes: `Tick`, `FlushTimer` and `ReplayTimer`. Their interleaving with writes is left to the caller.
- `moment` and time zones are left out. The current time is a parameter: milliseconds for `firstDuration`, a calendar `Date` for the cleaner. Yesterday's dated name is a parameter of `cut`.
- `firstDuration` is computed on local wall-clock milliseconds modulo the unit. Daylight-saving shifts and time-zone offsets of `startOf('day')` are not modelled.
- `_encode` is a parameter `string -> Bytes`. `iconv` and UTF-8 are not modelled; the runs use `Latin1`. The placeholder joins encoded chunks directly.
- Case mapping covers ASCII letters only.
- Which worker is selected is a parameter. Neither `NODE_APP_INSTANCE` nor cooperation between processes is modelled.
- Exceptions are modelled as returned outcomes taken before any later state change: `Faulted`, `faulted`. A write of `undefined` or `null` into a stream is modelled as a throw.
- The `EventEmitter` events and the `_reopening` flag are not modelled. The `'error'`, `'pipe'`, `'open'` and `'close'` forwarding has no effect on the state modelled here.
- `mkdir` and `mkdirp` are not modelled.
- `path.join` normalisation is not modelled. A path is a directory and a name.
- The asynchronous callbacks of `fs.unlink` and `fs.readdir` are modelled in loop order. `readdir` lists each name once, in no particular order.
- `record` takes its message as a `Note`. The message text, the timestamp format and the two audit-log streams of `del_log.js` are not modelled.
- The linked lists of double-buffer mode are sequences. The `tailCursor` aliasing is the flag `tailLinked`.
- In rolling mode, `end()` calls `_flush` twice; the second call finds an empty queue. `End` flushes once.
- The `!logDirs` guard of `run` can never fire, because `logDirs` is always an array. It is not modelled.
- A rolling constructor that throws leaves its flush interval running. `OpenRolling` does not model that interval.
- `reqContainer.js`, `index.js`, `index.ts` and `env.js` are not part of this model.
- Options.FirstDuration: stated on millisecond arithmetic, not on calendar units of a time zone.
- Rolling.CutFs: its own contract states only well-formedness. What a cut does is stated by `CutRotates`, `CutKeepsOthers`, `CutKeepsLive`, `CutReplays` and `CutParks`.
- TestRotate.Logs: its own contract bounds only the length. `LogsAgree` states what it selects.
