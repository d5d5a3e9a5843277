/** The retention cleaner: which dated log files are old enough to delete,
    the registry of directories it sweeps, the completion counter of
    `removeFiles`, and the audit lines it writes. */
module Retention {
  import opened Common
  import opened FileSystem

  /** Days a same-year log is kept. */
  const KEEP_DAYS: int := 7
  /** The literal subtracted from today's YYYYMMDD number for a file of
      another year. */
  const CROSS_YEAR_OFFSET: int := 8876

  // ---------------------------------------------------------------------------
  // Dates as moment reports them: month 0..11, day of month 1..31

  datatype Date = Date(year: nat, month: nat, day: nat)

  predicate ValidDate(d: Date) {
    d.month < 12 && 1 <= d.day <= 31
  }

  /** The YYYYMMDD number of a date. */
  function DateNumber(d: Date): int {
    d.year * 10000 + (d.month + 1) * 100 + d.day
  }

  /** `pad2`: a leading zero below ten. */
  function Pad2(n: nat): (s: string)
    ensures AllDigits(s) && DecimalValue(s) == n
    ensures n < 100 ==> |s| == 2
  {
    DecimalRoundTrip(n);
    if n < 10 then
      DecimalConcat("0", DecimalString(n));
      "0" + DecimalString(n)
    else
      DecimalString(n)
  }

  /** `getYY`: the year as a decimal string. */
  function YearString(year: nat): (s: string)
    ensures AllDigits(s) && DecimalValue(s) == year
    ensures 1000 <= year < 10000 ==> |s| == 4
  {
    DecimalRoundTrip(year);
    DecimalString(year)
  }

  /** `getYYYYMMDD`. */
  function YYYYMMDD(d: Date): (s: string)
    ensures AllDigits(s)
  {
    DecimalConcat(YearString(d.year), Pad2(d.month + 1));
    DecimalConcat(YearString(d.year) + Pad2(d.month + 1), Pad2(d.day));
    YearString(d.year) + Pad2(d.month + 1) + Pad2(d.day)
  }

  /** `parseInt(getYYYYMMDD(now), 10)`. */
  function Today(now: Date): nat {
    DecimalValue(YYYYMMDD(now))
  }

  lemma YearStringInjective(a: nat, b: nat)
    requires YearString(a) == YearString(b)
    ensures a == b
  {
  }

  /** For a valid date the string reads back as year·10000 + (month+1)·100 + day. */
  lemma {:induction false} TodayValue(d: Date)
    requires ValidDate(d)
    ensures Today(d) == DateNumber(d)
  {
    var y, m, dd := YearString(d.year), Pad2(d.month + 1), Pad2(d.day);
    DecimalConcat(y, m);
    DecimalConcat(y + m, dd);
    assert Pow10(2) == 100;
    calc {
      Today(d);
      DecimalValue(y + m + dd);
      DecimalValue(y + m) * 100 + DecimalValue(dd);
      (DecimalValue(y) * 100 + DecimalValue(m)) * 100 + DecimalValue(dd);
      DateNumber(d);
    }
  }

  // ---------------------------------------------------------------------------
  // The file name pattern /^(?:application|info)-(\d{8})\.log$/

  /** `name` is `application-<d>.log` or `info-<d>.log` with `d` eight digits. */
  predicate DatedName(name: string, d: string) {
    && |d| == 8 && AllDigits(d)
    && (name == "application-" + d + ".log" || name == "info-" + d + ".log")
  }

  /** Group 1 of the match, read from the front. */
  function MatchDated(name: string): Option<string> {
    var h := if HasPrefix(name, "application-") then 12 else if HasPrefix(name, "info-") then 5 else 0;
    if h != 0 && |name| == h + 12 && AllDigits(name[h..h + 8]) && name[h + 8..] == ".log"
    then Some(name[h..h + 8])
    else None
  }

  lemma MatchDatedSpec(name: string, d: string)
    ensures MatchDated(name) == Some(d) <==> DatedName(name, d)
  {
    if MatchDated(name) == Some(d) {
      var h := if HasPrefix(name, "application-") then 12 else 5;
      assert name == name[..h] + name[h..h + 8] + name[h + 8..];
    }
    if name == "info-" + d + ".log" && |d| == 8 {
      assert name[0] == 'i';
      assert !HasPrefix(name, "application-") by {
        assert "application-"[0] == 'a';
      }
      assert name[..5] == "info-";
      assert name[5..13] == d;
      assert name[13..] == ".log";
    }
    if name == "application-" + d + ".log" && |d| == 8 {
      assert name[..12] == "application-";
      assert name[12..20] == d;
      assert name[20..] == ".log";
    }
  }

  /** A name without `-` never matches: the undated live files
      `application.log` and `info.log` are never deleted. */
  lemma LiveNeverMatched(p: string)
    requires forall i :: 0 <= i < |p| ==> p[i] != '-'
    ensures MatchDated(p + ".log") == None
  {
    var name := p + ".log";
    assert forall i :: 0 <= i < |p| ==> name[i] == p[i];
    assert "application-"[11] == '-' && "info-"[4] == '-';
    assert |name| == 24 ==> name[11] != '-';
    assert |name| == 17 ==> name[4] != '-';
  }

  // ---------------------------------------------------------------------------
  // The deletion predicate of `cleanOldLogs`

  /** The `files.filter` callback: a dated log of the current year (its first
      four digits spelled like `getYY(now)`) is deleted when its number is
      below today's minus 7, a log of any other year when below today's
      minus 8876. */
  function IsOldLog(name: string, now: Date): bool {
    match MatchDated(name)
    case None => false
    case Some(digits) =>
      var date := DecimalValue(digits);
      var today := Today(now);
      if digits[..4] == YearString(now.year) then date < today - KEEP_DAYS
      else date < today - CROSS_YEAR_OFFSET
  }

  /** The file name a log of calendar day `file` carries. */
  function DatedFile(application: bool, file: Date): string {
    (if application then "application-" else "info-") + YYYYMMDD(file) + ".log"
  }

  /** For a dated file of a four-digit year the predicate is a comparison of
      YYYYMMDD numbers, not of calendar days. */
  lemma {:induction false} DatedFileRule(application: bool, file: Date, now: Date)
    requires ValidDate(file) && ValidDate(now) && 1000 <= file.year < 10000
    ensures IsOldLog(DatedFile(application, file), now) <==>
      if file.year == now.year then DateNumber(file) < DateNumber(now) - KEEP_DAYS
      else DateNumber(file) < DateNumber(now) - CROSS_YEAR_OFFSET
  {
    var digits := YYYYMMDD(file);
    assert |digits| == 8;
    MatchDatedSpec(DatedFile(application, file), digits);
    TodayValue(file);
    TodayValue(now);
    assert digits[..4] == YearString(file.year);
    if digits[..4] == YearString(now.year) {
      YearStringInjective(file.year, now.year);
    }
  }

  /** On 2019-01-10: 20190102 is deleted, 20190103 and 20190104 are kept. */
  lemma SameYearExample()
    ensures var now := Date(2019, 0, 10);
      && IsOldLog(DatedFile(true, Date(2019, 0, 2)), now)
      && !IsOldLog(DatedFile(true, Date(2019, 0, 3)), now)
      && !IsOldLog(DatedFile(true, Date(2019, 0, 4)), now)
  {
    var now := Date(2019, 0, 10);
    DatedFileRule(true, Date(2019, 0, 2), now);
    DatedFileRule(true, Date(2019, 0, 3), now);
    DatedFileRule(true, Date(2019, 0, 4), now);
  }

  /** On 2019-01-05 the threshold is 20181229: every 2018 log up to
      2018-12-28 is deleted, and those of 2018-12-29 to 2018-12-31 are kept. */
  lemma CrossYearExample()
    ensures var now := Date(2019, 0, 5);
      && Today(now) - CROSS_YEAR_OFFSET == 20181229
      && IsOldLog(DatedFile(true, Date(2018, 11, 28)), now)
      && !IsOldLog(DatedFile(true, Date(2018, 11, 29)), now)
      && !IsOldLog(DatedFile(true, Date(2018, 11, 31)), now)
      && forall file :: ValidDate(file) && file.year == 2018 ==>
           (IsOldLog(DatedFile(true, file), now) <==> DateNumber(file) <= 20181228)
  {
    var now := Date(2019, 0, 5);
    TodayValue(now);
    DatedFileRule(true, Date(2018, 11, 28), now);
    DatedFileRule(true, Date(2018, 11, 29), now);
    DatedFileRule(true, Date(2018, 11, 31), now);
    forall file | ValidDate(file) && file.year == 2018
      ensures IsOldLog(DatedFile(true, file), now) <==> DateNumber(file) <= 20181228
    {
      DatedFileRule(true, file, now);
    }
  }

  /** The comment table: on January d of year y (d in 1..8) the cross-year
      threshold is y-1, December 24+d. */
  lemma CrossYearThreshold(y: nat, d: nat)
    requires 1 <= y && 1 <= d <= 8
    ensures Today(Date(y, 0, d)) - CROSS_YEAR_OFFSET == (y - 1) * 10000 + 1224 + d
  {
    TodayValue(Date(y, 0, d));
  }

  /** In the first week of January the cross-year rule deletes exactly the
      December files more than seven calendar days old. */
  lemma CrossYearJanuary(application: bool, y: nat, d: nat, fd: nat)
    requires 1001 <= y < 10000 && 1 <= d <= 7 && 1 <= fd <= 31
    ensures IsOldLog(DatedFile(application, Date(y - 1, 11, fd)), Date(y, 0, d)) <==> fd < 24 + d
  {
    DatedFileRule(application, Date(y - 1, 11, fd), Date(y, 0, d));
  }

  /** From February on, every file of an earlier four-digit year is deleted. */
  lemma EarlierYearAfterJanuary(application: bool, file: Date, now: Date)
    requires ValidDate(file) && ValidDate(now) && 1000 <= file.year < now.year < 10000 && now.month >= 1
    ensures IsOldLog(DatedFile(application, file), now)
  {
    DatedFileRule(application, file, now);
  }

  /** Because the comparison is on YYYYMMDD numbers, in the first week of a
      month after January every file of the previous month of the same year
      is deleted, however recent. */
  lemma PreviousMonthDeleted(application: bool, file: Date, now: Date)
    requires ValidDate(file) && ValidDate(now) && 1000 <= now.year < 10000
    requires file.year == now.year && file.month + 1 == now.month && now.day <= 7
    ensures IsOldLog(DatedFile(application, file), now)
  {
    DatedFileRule(application, file, now);
  }

  /** `files.filter(...)`. */
  function OldLogs(files: seq<string>, now: Date): (r: seq<string>)
    ensures forall x :: x in r <==> x in files && IsOldLog(x, now)
    ensures NoDuplicates(files) ==> NoDuplicates(r)
  {
    if files == [] then []
    else (if IsOldLog(files[0], now) then [files[0]] else []) + OldLogs(files[1..], now)
  }

  // ---------------------------------------------------------------------------
  // The directory registry (`init`)

  /** Push `dir` unless it is already tracked. */
  function Register(dirs: seq<string>, dir: string): (r: seq<string>)
    ensures dir in r
    ensures |dirs| <= |r| <= |dirs| + 1 && r[..|dirs|] == dirs
    ensures forall x :: x in r ==> x in dirs || x == dir
    ensures NoDuplicates(dirs) ==> NoDuplicates(r)
  {
    if dir in dirs then dirs else dirs + [dir]
  }

  lemma RegisterIdempotent(dirs: seq<string>, dir: string)
    ensures Register(Register(dirs, dir), dir) == Register(dirs, dir)
  {
  }

  // ---------------------------------------------------------------------------
  // Audit lines and callbacks

  /** What `record` is asked to note about a rotation. */
  datatype Note =
    | Renaming(target: Path)
    | AlreadyRotated(target: Path)
    | RenameFailed

  /** A line of the cleaner's info log: its level tag and its message. */
  datatype InfoLine = InfoLine(level: string, note: Note)

  datatype Cause = ReadDirFailed(dir: string) | UnlinkFailed(path: Path)

  /** `callback(null)` or `callback(err)`. */
  datatype Callback = Done | Error(cause: Cause)

  /** `record`'s level tag: upper-cased, `INFO` when absent or empty. */
  function RecordLevel(level: Option<string>): (r: string)
    ensures r != "" && IsUpperCase(r)
    ensures level.None? || level.value == "" ==> r == "INFO"
    ensures level.Some? && level.value != "" ==> |r| == |level.value| && Lower(r) == Lower(level.value)
  {
    if level.Some? && level.value != "" then
      var u := Upper(level.value);
      assert forall i :: 0 <= i < |u| ==> LowerChar(u[i]) == LowerChar(level.value[i]);
      u
    else "INFO"
  }

  function Targets(dir: string, files: seq<string>): seq<Path> {
    seq(|files|, i requires 0 <= i < |files| => Path(dir, files[i]))
  }

  lemma TargetsStep(dir: string, files: seq<string>, i: nat)
    requires i < |files|
    ensures Targets(dir, files[..i + 1]) == Targets(dir, files[..i]) + [Path(dir, files[i])]
  {
  }

  /** The files of `files` whose unlink reports an error, in order. */
  function UnlinkErrors(dir: string, files: seq<string>, present: set<Path>, failing: set<Path>): seq<Path> {
    if files == [] then []
    else
      var p := Path(dir, files[|files| - 1]);
      UnlinkErrors(dir, files[..|files| - 1], present, failing) + (if p in present && p in failing then [p] else [])
  }

  /** The failed unlinks are exactly the present files of `files` in `failing`. */
  lemma {:induction false} UnlinkErrorsSpec(dir: string, files: seq<string>, present: set<Path>, failing: set<Path>)
    ensures forall p :: p in UnlinkErrors(dir, files, present, failing) <==>
      p in present && p in failing && p.dir == dir && p.name in files
  {
    if files != [] {
      var last := files[|files| - 1];
      assert files == files[..|files| - 1] + [last];
      UnlinkErrorsSpec(dir, files[..|files| - 1], present, failing);
    }
  }

  lemma UnlinkErrorsStep(dir: string, files: seq<string>, i: nat, present: set<Path>, failing: set<Path>)
    requires i < |files|
    ensures var p := Path(dir, files[i]);
      UnlinkErrors(dir, files[..i + 1], present, failing) ==
        UnlinkErrors(dir, files[..i], present, failing) + if p in present && p in failing then [p] else []
  {
    assert files[..i + 1][..i] == files[..i];
  }

  /** The callbacks `removeFiles` makes: one `Done` when every file is done,
      otherwise one error per failed unlink and no `Done`. */
  function Completion(errs: seq<Path>): (r: seq<Callback>)
    ensures r == [Done] <==> errs == []
    ensures errs != [] ==> Done !in r && |r| == |errs|
    ensures forall c :: c in r && c != Done ==> c.Error? && c.cause.UnlinkFailed? && c.cause.path in errs
    ensures errs != [] ==> forall i :: 0 <= i < |errs| ==> r[i] == Error(UnlinkFailed(errs[i]))
  {
    if errs == [] then [Done]
    else
      var r := Errors(errs);
      assert r[0] != Done;
      r
  }

  function Errors(errs: seq<Path>): seq<Callback> {
    seq(|errs|, i requires 0 <= i < |errs| => Error(UnlinkFailed(errs[i])))
  }

  lemma ErrorsStep(errs: seq<Path>, p: Path)
    ensures Errors(errs + [p]) == Errors(errs) + [Error(UnlinkFailed(p))]
  {
  }

  /** The shared counter of `removeFiles` across one more finished file. */
  lemma CounterStep(n: nat, i: nat, errs: seq<Path>, count: int, calls: seq<Callback>, failed: bool, p: Path)
    requires i < n && count == n - i + |errs|
    requires calls == Errors(errs) + if i == n && errs == [] then [Done] else []
    ensures var errs' := if failed then errs + [p] else errs;
      var count' := if failed then count else count - 1;
      var calls' := if failed then calls + [Error(UnlinkFailed(p))]
                    else if count' <= 0 then calls + [Done] else calls;
      && count' == n - (i + 1) + |errs'|
      && calls' == Errors(errs') + if i + 1 == n && errs' == [] then [Done] else []
  {
    if failed {
      ErrorsStep(errs, p);
    }
  }


  /** The directory entries `removeFiles` unlinks once it has handled
      `done`: every present file of `done` outside `failing`. */
  function Removed(present: set<Path>, dir: string, done: seq<string>, failing: set<Path>): set<Path> {
    set p | p in present && p.dir == dir && p.name in done && p !in failing
  }

  lemma RemovedStep(present: set<Path>, dir: string, files: seq<string>, i: nat, failing: set<Path>)
    requires NoDuplicates(files) && i < |files|
    ensures var p := Path(dir, files[i]);
      && p !in Removed(present, dir, files[..i], failing)
      && Removed(present, dir, files[..i + 1], failing) ==
           Removed(present, dir, files[..i], failing) + if p in present && p !in failing then {p} else {}
  {
    assert files[..i + 1] == files[..i] + [files[i]];
    assert files[i] !in files[..i];
  }

  /** The files of `dir` the filter of `cleanOldLogs` selects. */
  function Selected(present: set<Path>, dir: string, now: Date): set<Path> {
    set p | p in present && p.dir == dir && IsOldLog(p.name, now)
  }

  /** The files a whole `run` over `dirs` unlinks. */
  function Sweep(present: set<Path>, dirs: seq<string>, now: Date, failing: set<Path>, unreadable: set<string>): set<Path> {
    set p | p in present && p.dir in dirs && p.dir !in unreadable && IsOldLog(p.name, now) && p !in failing
  }

  lemma TargetsSpec(dir: string, files: seq<string>)
    ensures forall q: Path :: q in Targets(dir, files) <==> q.dir == dir && q.name in files
  {
    var t := Targets(dir, files);
    forall q: Path | q.dir == dir && q.name in files
      ensures q in t
    {
      var k :| 0 <= k < |files| && files[k] == q.name;
      assert t[k] == q;
    }
  }

  /** Handing the filtered listing of `dir` to `removeFiles` removes exactly
      the selected files outside `failing`. */
  lemma SelectedLogs(present: set<Path>, dir: string, files: seq<string>, now: Date, failing: set<Path>)
    requires forall n :: n in files <==> Path(dir, n) in present
    ensures Removed(present, dir, OldLogs(files, now), failing) == Selected(present, dir, now) - failing
    ensures forall p: Path :: p.dir == dir && p.name in OldLogs(files, now) <==> p in Selected(present, dir, now)
  {
    forall p: Path | p.dir == dir
      ensures p == Path(dir, p.name)
    {
    }
  }

  lemma SweepStep(names: map<Path, nat>, dirs: seq<string>, i: nat, now: Date, failing: set<Path>, unreadable: set<string>)
    requires NoDuplicates(dirs) && i < |dirs|
    ensures var before := names - Sweep(names.Keys, dirs[..i], now, failing, unreadable);
      var dir := dirs[i];
      && Selected(before.Keys, dir, now) == Selected(names.Keys, dir, now)
      && (dir in unreadable ==> Sweep(names.Keys, dirs[..i + 1], now, failing, unreadable) == Sweep(names.Keys, dirs[..i], now, failing, unreadable))
      && (dir !in unreadable ==>
            before - (Selected(before.Keys, dir, now) - failing) == names - Sweep(names.Keys, dirs[..i + 1], now, failing, unreadable))
  {
    assert dirs[..i + 1] == dirs[..i] + [dirs[i]];
    assert dirs[i] !in dirs[..i];
  }

  /** The pieces of `rs`, one after another. */
  function Joined<T>(rs: seq<seq<T>>): (r: seq<T>)
    ensures rs == [] ==> r == []
  {
    if rs == [] then [] else Joined(rs[..|rs| - 1]) + rs[|rs| - 1]
  }

  /** What one directory of `run` reports and audits: an unreadable one
      reports its read error and audits nothing; a readable one audits every
      selected file and reports through the completion counter, one error per
      selected file whose unlink fails, or `Done` when none fails. */
  ghost predicate DirReport(calls: seq<Callback>, audit: seq<Path>, dir: string, selected: set<Path>,
                            failing: set<Path>, unreadable: set<string>)
  {
    if dir in unreadable then calls == [Error(ReadDirFailed(dir))] && audit == []
    else
      && (forall q :: q in audit <==> q in selected)
      && exists errs: seq<Path> :: calls == Completion(errs) && (forall p :: p in errs <==> p in selected * failing)
  }

  /** `run` over `dirs`: one report and one audit per directory, in order. */
  ghost predicate Reported(reports: seq<seq<Callback>>, audits: seq<seq<Path>>, dirs: seq<string>, present: set<Path>,
                           now: Date, failing: set<Path>, unreadable: set<string>)
  {
    && |reports| == |audits| == |dirs|
    && forall k :: 0 <= k < |dirs| ==>
         DirReport(reports[k], audits[k], dirs[k], Selected(present, dirs[k], now), failing, unreadable)
  }

  lemma ReportedSnoc(reports: seq<seq<Callback>>, audits: seq<seq<Path>>, dirs: seq<string>, i: nat, present: set<Path>,
                     now: Date, failing: set<Path>, unreadable: set<string>, c: seq<Callback>, a: seq<Path>)
    requires i < |dirs| && Reported(reports, audits, dirs[..i], present, now, failing, unreadable)
    requires DirReport(c, a, dirs[i], Selected(present, dirs[i], now), failing, unreadable)
    ensures Reported(reports + [c], audits + [a], dirs[..i + 1], present, now, failing, unreadable)
    ensures Joined(reports + [c]) == Joined(reports) + c && Joined(audits + [a]) == Joined(audits) + a
  {
    assert (reports + [c])[..|reports|] == reports;
    assert (audits + [a])[..|audits|] == audits;
  }

  /** Every directory reports at least once, and every report other than
      `Done` is a registered directory that cannot be read or a selected file
      whose unlink fails. */
  lemma {:induction false} ReportedCalls(reports: seq<seq<Callback>>, audits: seq<seq<Path>>, dirs: seq<string>,
                                         present: set<Path>, now: Date, failing: set<Path>, unreadable: set<string>)
    requires Reported(reports, audits, dirs, present, now, failing, unreadable)
    ensures |Joined(reports)| >= |dirs|
    ensures forall c :: c in Joined(reports) && c != Done ==>
      || (c.Error? && c.cause.ReadDirFailed? && c.cause.dir in dirs && c.cause.dir in unreadable)
      || (c.Error? && c.cause.UnlinkFailed? && c.cause.path in failing && c.cause.path in present
          && c.cause.path.dir in dirs && IsOldLog(c.cause.path.name, now))
  {
    if dirs != [] {
      var n := |dirs| - 1;
      assert Reported(reports[..n], audits[..n], dirs[..n], present, now, failing, unreadable) by {
        forall k | 0 <= k < n
          ensures DirReport(reports[..n][k], audits[..n][k], dirs[..n][k], Selected(present, dirs[..n][k], now), failing, unreadable)
        {
          assert DirReport(reports[k], audits[k], dirs[k], Selected(present, dirs[k], now), failing, unreadable);
        }
      }
      ReportedCalls(reports[..n], audits[..n], dirs[..n], present, now, failing, unreadable);
      assert DirReport(reports[n], audits[n], dirs[n], Selected(present, dirs[n], now), failing, unreadable);
      if dirs[n] !in unreadable {
        var errs :| reports[n] == Completion(errs) && (forall p :: p in errs <==> p in Selected(present, dirs[n], now) * failing);
      }
      forall c | c in Joined(reports) && c != Done && c !in Joined(reports[..n])
        ensures c in reports[n]
      {
      }
    }
  }

  /** A readable directory none of whose selected files fails reports `Done`
      once. */
  lemma CleanDirReportsDone(calls: seq<Callback>, audit: seq<Path>, dir: string, selected: set<Path>,
                            failing: set<Path>, unreadable: set<string>)
    requires DirReport(calls, audit, dir, selected, failing, unreadable)
    requires dir !in unreadable && selected * failing == {}
    ensures calls == [Done]
  {
    var errs :| calls == Completion(errs) && (forall p :: p in errs <==> p in selected * failing);
    assert forall p :: p !in multiset(errs);
    assert multiset(errs) == multiset{};
  }

  // ---------------------------------------------------------------------------
  // The module state of del_log.js

  class Cleaner {
    /** Directories swept by `run`, in registration order. */
    var logDirs: seq<string>
    /** `log_cleaner.log`: one "delete log" line per file handed to `removeFiles`. */
    var deleteLog: seq<Path>
    /** `midlog/info.log`, written by `record`. */
    var infoLog: seq<InfoLine>

    ghost predicate Valid()
      reads this
    {
      NoDuplicates(logDirs)
    }

    constructor ()
      ensures Valid() && logDirs == [] && deleteLog == [] && infoLog == []
    {
      logDirs, deleteLog, infoLog := [], [], [];
    }

    /** `init(config)`. */
    method Init(dir: string)
      requires Valid()
      modifies this
      ensures Valid() && logDirs == Register(old(logDirs), dir)
      ensures deleteLog == old(deleteLog) && infoLog == old(infoLog)
    {
      if dir !in logDirs {
        logDirs := logDirs + [dir];
      }
    }

    /** `record(msg, level)`. */
    method Record(note: Note, level: Option<string>)
      modifies this
      ensures infoLog == old(infoLog) + [InfoLine(RecordLevel(level), note)]
      ensures logDirs == old(logDirs) && deleteLog == old(deleteLog)
    {
      infoLog := infoLog + [InfoLine(RecordLevel(level), note)];
    }

    /** One iteration of `removeFiles`: the audit line, then the unlink of
        a present file; `failed` is the error its callback receives. */
    method DeleteOne(disk: Disk, p: Path, failing: set<Path>) returns (failed: bool)
      requires disk.fs.Valid()
      modifies this, disk
      ensures failed <==> p in old(disk.fs.names) && p in failing
      ensures disk.fs.Valid() && disk.fs.data == old(disk.fs.data) && disk.fs.next == old(disk.fs.next)
      ensures disk.fs.names == if p in old(disk.fs.names) && p !in failing then old(disk.fs.names) - {p} else old(disk.fs.names)
      ensures deleteLog == old(deleteLog) + [p]
      ensures logDirs == old(logDirs) && infoLog == old(infoLog)
    {
      deleteLog := deleteLog + [p];
      var present := disk.Exists(p);
      failed := present && p in failing;
      if present && !failed {
        disk.Remove(p);
      }
    }

    /** `removeFiles(dir, files, callback)`: every file gets an audit line,
        present files are unlinked (those in `failing` report an error), and
        the shared counter calls back `Done` only once all files are done. */
    method RemoveFiles(disk: Disk, dir: string, files: seq<string>, failing: set<Path>) returns (calls: seq<Callback>)
      requires disk.fs.Valid() && NoDuplicates(files)
      modifies this, disk
      ensures disk.fs.Valid()
      ensures disk.fs == old(disk.fs).(names := old(disk.fs.names) - Removed(old(disk.fs.names).Keys, dir, files, failing))
      ensures deleteLog == old(deleteLog) + Targets(dir, files)
      ensures calls == Completion(UnlinkErrors(dir, files, old(disk.fs.names).Keys, failing))
      ensures logDirs == old(logDirs) && infoLog == old(infoLog)
    {
      ghost var fs0, log0 := disk.fs, deleteLog;
      ghost var keys0 := fs0.names.Keys;
      var count := |files|;
      if count == 0 {
        assert fs0.names - Removed(keys0, dir, files, failing) == fs0.names;
        return [Done];
      }
      calls := [];
      var i := 0;
      ghost var errs: seq<Path> := [];
      ghost var gone: set<Path> := {};
      while i < |files|
        invariant 0 <= i <= |files|
        invariant gone == Removed(keys0, dir, files[..i], failing)
        invariant disk.fs == fs0.(names := fs0.names - gone)
        invariant deleteLog == log0 + Targets(dir, files[..i])
        invariant errs == UnlinkErrors(dir, files[..i], keys0, failing)
        invariant count == |files| - i + |errs|
        invariant calls == Errors(errs) + if i == |files| && errs == [] then [Done] else []
        invariant logDirs == old(logDirs) && infoLog == old(infoLog)
      {
        var p := Path(dir, files[i]);
        RemovedStep(keys0, dir, files, i, failing);
        UnlinkErrorsStep(dir, files, i, keys0, failing);
        TargetsStep(dir, files, i);
        var failed := DeleteOne(disk, p, failing);
        CounterStep(|files|, i, errs, count, calls, failed, p);
        if failed {
          calls := calls + [Error(UnlinkFailed(p))];
          errs := errs + [p];
        } else {
          if p in keys0 {
            assert fs0.names - gone - {p} == fs0.names - (gone + {p});
            gone := gone + {p};
          }
          count := count - 1;
          if count <= 0 {
            calls := calls + [Done];
          }
        }
        i := i + 1;
      }
      assert files[..i] == files;
    }

    /** `fs.readdir`: the names in `dir`, in an order the file system picks. */
    method ListDir(disk: Disk, dir: string) returns (files: seq<string>)
      ensures NoDuplicates(files)
      ensures forall n :: n in files <==> Path(dir, n) in disk.fs.names
    {
      var rest := set p | p in disk.fs.names.Keys && p.dir == dir :: p.name;
      files := [];
      while rest != {}
        invariant NoDuplicates(files)
        invariant forall n :: n in files ==> n !in rest
        invariant forall n :: Path(dir, n) in disk.fs.names <==> n in files || n in rest
        decreases |rest|
      {
        var n :| n in rest;
        files := files + [n];
        rest := rest - {n};
      }
    }

    /** One directory of `cleanOldLogs`: a failed read reports the error,
        otherwise the old logs are handed to `removeFiles`. */
    method CleanDir(disk: Disk, dir: string, now: Date, failing: set<Path>, unreadable: set<string>)
      returns (calls: seq<Callback>)
      requires disk.fs.Valid()
      modifies this, disk
      ensures disk.fs.Valid()
      ensures dir in unreadable ==>
        && calls == [Error(ReadDirFailed(dir))]
        && disk.fs == old(disk.fs) && deleteLog == old(deleteLog)
      ensures dir !in unreadable ==>
        var selected := Selected(old(disk.fs.names).Keys, dir, now);
        && disk.fs == old(disk.fs).(names := old(disk.fs.names) - (selected - failing))
        && (calls == [Done] <==> selected * failing == {})
        && (forall c :: c in calls && c != Done ==>
              c.Error? && c.cause.UnlinkFailed? && c.cause.path in selected * failing)
        && |deleteLog| >= |old(deleteLog)|
        && (forall q :: q in deleteLog[|old(deleteLog)|..] <==> q in selected)
      ensures calls != []
      ensures |deleteLog| >= |old(deleteLog)| && deleteLog[..|old(deleteLog)|] == old(deleteLog) &&
        DirReport(calls, deleteLog[|old(deleteLog)|..], dir, Selected(old(disk.fs.names).Keys, dir, now), failing, unreadable)
      ensures logDirs == old(logDirs) && infoLog == old(infoLog)
    {
      if dir in unreadable {
        return [Error(ReadDirFailed(dir))];
      }
      var files := ListDir(disk, dir);
      var logs := OldLogs(files, now);
      ghost var present := disk.fs.names.Keys;
      ghost var log0 := deleteLog;
      calls := RemoveFiles(disk, dir, logs, failing);
      ghost var selected := Selected(present, dir, now);
      SelectedLogs(present, dir, files, now, failing);
      TargetsSpec(dir, logs);
      assert deleteLog[|log0|..] == Targets(dir, logs);
      ghost var errs := UnlinkErrors(dir, logs, present, failing);
      UnlinkErrorsSpec(dir, logs, present, failing);
      assert forall p :: p in errs <==> p in selected * failing;
      if errs != [] {
        assert errs[0] in selected * failing;
      }
      assert calls == Completion(errs);
    }

    /** `run` after its first `i` directories, from the disk `fs0` and the
        audit log `log0`. */
    ghost predicate Swept(disk: Disk, i: nat, now: Date, failing: set<Path>, unreadable: set<string>, fs0: Fs, log0: seq<Path>,
                          calls: seq<Callback>, reports: seq<seq<Callback>>, audits: seq<seq<Path>>)
      reads this, disk
    {
      && Valid() && i <= |logDirs|
      && disk.fs == fs0.(names := fs0.names - Sweep(fs0.names.Keys, logDirs[..i], now, failing, unreadable))
      && disk.fs.Valid() && Reported(reports, audits, logDirs[..i], fs0.names.Keys, now, failing, unreadable)
      && calls == Joined(reports) && deleteLog == log0 + Joined(audits)
    }

    /** One directory of `run`: the `i`-th registered directory is cleaned,
        its report and audit are appended, and the disk has lost the sweep of
        one more directory. */
    method SweepNext(disk: Disk, i: nat, now: Date, failing: set<Path>, unreadable: set<string>, ghost fs0: Fs, ghost log0: seq<Path>,
                     calls: seq<Callback>, ghost reports: seq<seq<Callback>>, ghost audits: seq<seq<Path>>)
      returns (calls': seq<Callback>, ghost reports': seq<seq<Callback>>, ghost audits': seq<seq<Path>>)
      requires Swept(disk, i, now, failing, unreadable, fs0, log0, calls, reports, audits) && i < |logDirs|
      modifies this, disk
      ensures logDirs == old(logDirs) && infoLog == old(infoLog)
      ensures Swept(disk, i + 1, now, failing, unreadable, fs0, log0, calls', reports', audits')
    {
      var dir := logDirs[i];
      SweepStep(fs0.names, logDirs, i, now, failing, unreadable);
      ghost var log1, keys1 := deleteLog, disk.fs.names.Keys;
      assert Selected(keys1, dir, now) == Selected(fs0.names.Keys, dir, now);
      var c := CleanDir(disk, dir, now, failing, unreadable);
      ghost var a := deleteLog[|log1|..];
      assert deleteLog == log1 + a;
      ReportedSnoc(reports, audits, logDirs, i, fs0.names.Keys, now, failing, unreadable, c, a);
      assert log0 + Joined(audits) + a == log0 + (Joined(audits) + a);
      calls', reports', audits' := calls + c, reports + [c], audits + [a];
    }

    /** `run(callback)`: sweep every registered directory; with none
        registered no callback is ever made. */
    method Run(disk: Disk, now: Date, failing: set<Path>, unreadable: set<string>)
      returns (calls: seq<Callback>, ghost reports: seq<seq<Callback>>, ghost audits: seq<seq<Path>>)
      requires Valid() && disk.fs.Valid()
      modifies this, disk
      ensures Valid() && logDirs == old(logDirs) && infoLog == old(infoLog)
      ensures Reported(reports, audits, logDirs, old(disk.fs.names).Keys, now, failing, unreadable)
      ensures calls == Joined(reports) && deleteLog == old(deleteLog) + Joined(audits)
      ensures disk.fs.Valid()
      ensures disk.fs == old(disk.fs).(names := old(disk.fs.names) - Sweep(old(disk.fs.names).Keys, logDirs, now, failing, unreadable))
      ensures logDirs == [] ==> calls == []
      ensures |calls| >= |logDirs|
      ensures forall c :: c in calls && c != Done ==>
        || (c.Error? && c.cause.ReadDirFailed? && c.cause.dir in logDirs && c.cause.dir in unreadable)
        || (c.Error? && c.cause.UnlinkFailed? && c.cause.path in failing && c.cause.path in old(disk.fs.names)
            && c.cause.path.dir in logDirs && IsOldLog(c.cause.path.name, now))
    {
      ghost var fs0, log0 := disk.fs, deleteLog;
      calls, reports, audits := [], [], [];
      var i := 0;
      assert Sweep(fs0.names.Keys, logDirs[..0], now, failing, unreadable) == {};
      assert fs0.names - {} == fs0.names;
      while i < |logDirs|
        invariant logDirs == old(logDirs) && infoLog == old(infoLog)
        invariant Swept(disk, i, now, failing, unreadable, fs0, log0, calls, reports, audits)
        decreases |logDirs| - i
      {
        calls, reports, audits := SweepNext(disk, i, now, failing, unreadable, fs0, log0, calls, reports, audits);
        i := i + 1;
      }
      assert logDirs[..i] == logDirs;
      ReportedCalls(reports, audits, logDirs, fs0.names.Keys, now, failing, unreadable);
    }
  }
}
