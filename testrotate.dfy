/** The rotation test script: the same retention filter written a second
    time over a directory listing. Its pattern is read here from the end of
    the name, and the filter is shown to select exactly what the cleaner
    selects. */
module TestRotate {
  import opened Common
  import Retention

  /** `patt` read from the end: `.log`, eight digits, then a head that must
      be exactly `application-` or `info-`. */
  function MatchFromEnd(name: string): Option<string> {
    if |name| < 12 || name[|name| - 4..] != ".log" then None
    else
      var digits := name[|name| - 12..|name| - 4];
      var head := name[..|name| - 12];
      if AllDigits(digits) && (head == "application-" || head == "info-") then Some(digits) else None
  }

  /** Both readings of the pattern accept the same names and capture the
      same digits. */
  lemma MatchersAgree(name: string)
    ensures MatchFromEnd(name) == Retention.MatchDated(name)
  {
    match MatchFromEnd(name) {
      case Some(d) =>
        assert name == name[..|name| - 12] + d + ".log";
        Retention.MatchDatedSpec(name, d);
      case None =>
        if Retention.MatchDated(name).Some? {
          var d := Retention.MatchDated(name).value;
          Retention.MatchDatedSpec(name, d);
          assert false;
        }
    }
  }

  /** The `files.filter` callback of the script, with `today` computed once
      from `now`. */
  function Keep(name: string, now: Retention.Date): bool {
    match MatchFromEnd(name)
    case None => false
    case Some(digits) =>
      var date := DecimalValue(digits);
      var today := Retention.Today(now);
      if digits[..4] == Retention.YearString(now.year) then date < today - 7
      else date < today - 8876
  }

  /** `logs`: the listing filtered by `Keep`, in listing order. */
  function Logs(files: seq<string>, now: Retention.Date): (r: seq<string>)
    ensures |r| <= |files|
  {
    if files == [] then []
    else Logs(files[..|files| - 1], now) + if Keep(files[|files| - 1], now) then [files[|files| - 1]] else []
  }

  /** The script's predicate and the cleaner's agree on every name and date. */
  lemma KeepAgrees(name: string, now: Retention.Date)
    ensures Keep(name, now) == Retention.IsOldLog(name, now)
  {
    MatchersAgree(name);
  }

  /** The script lists exactly the files the cleaner would delete, in the
      same order. */
  lemma {:induction false} LogsAgree(files: seq<string>, now: Retention.Date)
    ensures Logs(files, now) == Retention.OldLogs(files, now)
  {
    if files != [] {
      var init, last := files[..|files| - 1], files[|files| - 1];
      LogsAgree(init, now);
      KeepAgrees(last, now);
      OldLogsSnoc(init, last, now);
      assert files == init + [last];
    }
  }

  lemma {:induction false} OldLogsSnoc(files: seq<string>, x: string, now: Retention.Date)
    ensures Retention.OldLogs(files + [x], now) ==
      Retention.OldLogs(files, now) + if Retention.IsOldLog(x, now) then [x] else []
  {
    if files == [] {
      assert files + [x] == [x];
    } else {
      assert (files + [x])[1..] == files[1..] + [x];
      OldLogsSnoc(files[1..], x, now);
    }
  }

  /** The undated live files are never listed. */
  lemma LiveFilesNotListed(now: Retention.Date)
    ensures !Keep("application.log", now) && !Keep("info.log", now)
  {
    Retention.LiveNeverMatched("application");
    Retention.LiveNeverMatched("info");
    KeepAgrees("application.log", now);
    KeepAgrees("info.log", now);
  }
}
