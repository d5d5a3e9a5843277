/** The pure parts of the StrategyManager constructor and of its timers:
    option normalisation, the live-file prefix taken from `nameformat`, the
    boundary alignment of the first rotation and the rescheduling rule. */
module Options {
  import opened Common

  const ONE_MINUTE: int := 60000
  const ONE_HOUR: int := 60 * ONE_MINUTE
  const ONE_DAY: int := 24 * ONE_HOUR
  const DEFAULT_FLUSH_TIMEOUT: int := 2000
  /** Grace delay before a non-selected worker replays its placeholder. */
  const SHARDING_WAIT: int := 4000
  const DEFAULT_NAMEFORMAT: string := "[application-]YYYYMMDD[.log]"
  const DEFAULT_MODE: string := "0666"

  /** The options object as a caller passes it; `None` is an absent key.
      JavaScript truthiness applies: `""` and `0` count as absent wherever the
      constructor uses `||` or `&&`. */
  datatype RawOptions = RawOptions(
    level: Option<string>,
    logdir: string,
    rollingFile: bool,
    name: Option<string>,
    nameformat: Option<string>,
    duration: Option<int>,
    encoding: Option<string>,
    mode: Option<string>,
    flushTimeout: Option<int>,
    cacheSize: Option<int>)

  /** The fields the constructor stores. In double-buffer mode `flushTimeout`
      and `cacheSize` are stored raw (an absent one makes its comparison false);
      in rolling mode `flushTimeout` defaults to 2000 ms. */
  datatype Config = Config(
    level: string,
    logdir: string,
    rollingFile: bool,
    name: Option<string>,
    nameformat: string,
    duration: int,
    encoding: string,
    streamMode: string,
    flushTimeout: Option<int>,
    cacheSize: Option<int>)

  datatype CtorError =
    | MissingName   // TypeError thrown by a double-buffer writer without a name
    | NoLivePrefix  // `nameformat.match(...)` is null in the first cut of a rolling writer

  predicate TruthyString(o: Option<string>) {
    o.Some? && o.value != ""
  }

  predicate TruthyNumber(o: Option<int>) {
    o.Some? && o.value != 0
  }

  function StringOr(o: Option<string>, default: string): string {
    if TruthyString(o) then o.value else default
  }

  function NumberOr(o: Option<int>, default: int): int {
    if TruthyNumber(o) then o.value else default
  }

  // ---------------------------------------------------------------------------
  // String.prototype.replace with a string pattern: first occurrence only

  predicate OccursAt(s: string, pat: string, i: nat) {
    i + |pat| <= |s| && s[i..i + |pat|] == pat
  }

  /** Index of the first occurrence of `pat` in `s` at or after `from`. */
  function FindFrom(s: string, pat: string, from: nat): (r: Option<nat>)
    requires from <= |s|
    ensures r.Some? ==> from <= r.value && OccursAt(s, pat, r.value)
    ensures r.Some? ==> forall j :: from <= j < r.value ==> !OccursAt(s, pat, j)
    ensures r.None? ==> forall j :: from <= j <= |s| ==> !OccursAt(s, pat, j)
    decreases |s| - from
  {
    if OccursAt(s, pat, from) then Some(from)
    else if from == |s| then None
    else FindFrom(s, pat, from + 1)
  }

  function ReplaceFirst(s: string, pat: string, rep: string): (r: string)
    ensures (forall j :: 0 <= j <= |s| ==> !OccursAt(s, pat, j)) ==> r == s
  {
    match FindFrom(s, pat, 0)
    case None => s
    case Some(i) => s[..i] + rep + s[i + |pat|..]
  }

  /** Only the first occurrence is replaced; the text around it is kept. */
  lemma ReplaceFirstAt(s: string, pat: string, rep: string, i: nat)
    requires OccursAt(s, pat, i)
    requires forall j :: 0 <= j < i ==> !OccursAt(s, pat, j)
    ensures ReplaceFirst(s, pat, rep) == s[..i] + rep + s[i + |pat|..]
  {
    var r := FindFrom(s, pat, 0);
    assert r.Some?;
    assert r.value <= i;
  }

  // ---------------------------------------------------------------------------
  // Constructor normalisation

  /** `(level || 'info').toLowerCase()` */
  function NormalLevel(level: Option<string>): (r: string)
    ensures IsLowerCase(r) && r != ""
    ensures !TruthyString(level) ==> r == "info"
    ensures TruthyString(level) ==> r == Lower(level.value)
  {
    if TruthyString(level) then Lower(level.value) else "info"
  }

  /** The encoding, lower-cased, with `utf8` spelled `utf-8`. */
  function NormalEncoding(encoding: Option<string>): (r: string)
    ensures IsLowerCase(r) && r != "utf8"
    ensures !TruthyString(encoding) ==> r == "utf-8"
    ensures TruthyString(encoding) && Lower(encoding.value) == "utf8" ==> r == "utf-8"
    ensures TruthyString(encoding) && Lower(encoding.value) != "utf8" ==> r == Lower(encoding.value)
  {
    var enc := Lower(StringOr(encoding, "utf-8"));
    if enc == "utf8" then "utf-8" else enc
  }

  /** `(nameformat || DEFAULT_NAMEFORMAT).replace('{pid}', pid)`: the default
      has no `{pid}` and is kept as it is. */
  function NormalFormat(nameformat: Option<string>, pid: string): (r: string)
    ensures !TruthyString(nameformat) ==> r == DEFAULT_NAMEFORMAT
    ensures TruthyString(nameformat) ==> r == ReplaceFirst(nameformat.value, "{pid}", pid)
  {
    if !TruthyString(nameformat) then
      NoPidInDefault();
      ReplaceFirst(DEFAULT_NAMEFORMAT, "{pid}", pid)
    else
      ReplaceFirst(nameformat.value, "{pid}", pid)
  }

  lemma NoPidInDefault()
    ensures forall j :: 0 <= j <= |DEFAULT_NAMEFORMAT| ==> !OccursAt(DEFAULT_NAMEFORMAT, "{pid}", j)
  {
    forall j | 0 <= j <= |DEFAULT_NAMEFORMAT| ensures !OccursAt(DEFAULT_NAMEFORMAT, "{pid}", j) {
      if j + 5 <= |DEFAULT_NAMEFORMAT| {
        assert DEFAULT_NAMEFORMAT[j..j + 5][0] == DEFAULT_NAMEFORMAT[j] != '{';
      }
    }
  }

  /** `duration || ONE_DAY`, raised to one minute. */
  function NormalDuration(duration: Option<int>): (r: int)
    ensures r >= ONE_MINUTE
    ensures !TruthyNumber(duration) ==> r == ONE_DAY
    ensures TruthyNumber(duration) && duration.value >= ONE_MINUTE ==> r == duration.value
    ensures TruthyNumber(duration) && duration.value < ONE_MINUTE ==> r == ONE_MINUTE
  {
    var d := NumberOr(duration, ONE_DAY);
    if d < ONE_MINUTE then ONE_MINUTE else d
  }

  /** The constructor's stored settings, or the TypeError it throws.
      `pid` is `process.pid` as a string. */
  function Normalize(o: RawOptions, pid: string): (r: Result<Config, CtorError>)
    ensures r.Failure? <==> !o.rollingFile && !TruthyString(o.name)
    ensures r.Failure? ==> r.error == MissingName
    ensures r.Success? ==>
      var c := r.value;
      && c.rollingFile == o.rollingFile
      && c.logdir == o.logdir
      // duration: one day by default, never below one minute
      && c.duration >= ONE_MINUTE
      && (!TruthyNumber(o.duration) ==> c.duration == ONE_DAY)
      && (TruthyNumber(o.duration) && o.duration.value >= ONE_MINUTE ==> c.duration == o.duration.value)
      && (TruthyNumber(o.duration) && o.duration.value < ONE_MINUTE ==> c.duration == ONE_MINUTE)
      // encoding: lower-cased, 'utf8' spelled 'utf-8', utf-8 by default
      && IsLowerCase(c.encoding) && c.encoding != "utf8"
      && (!TruthyString(o.encoding) ==> c.encoding == "utf-8")
      && (TruthyString(o.encoding) && Lower(o.encoding.value) == "utf8" ==> c.encoding == "utf-8")
      && (TruthyString(o.encoding) && Lower(o.encoding.value) != "utf8" ==> c.encoding == Lower(o.encoding.value))
      // name format: the default, or the given one with its first `{pid}` replaced
      && (!TruthyString(o.nameformat) ==> c.nameformat == DEFAULT_NAMEFORMAT)
      && (TruthyString(o.nameformat) ==> c.nameformat == ReplaceFirst(o.nameformat.value, "{pid}", pid))
      // name kept; file mode '0666' by default
      && c.name == o.name
      && (TruthyString(o.mode) ==> c.streamMode == o.mode.value)
      && (!TruthyString(o.mode) ==> c.streamMode == DEFAULT_MODE)
      // level: lower-cased, 'info' by default
      && IsLowerCase(c.level) && c.level != ""
      && (!TruthyString(o.level) ==> c.level == "info")
      && (TruthyString(o.level) ==> c.level == Lower(o.level.value))
      // rolling mode: flush interval defaults to 2000 ms; otherwise raw
      && (o.rollingFile ==> c.flushTimeout == Some(NumberOr(o.flushTimeout, DEFAULT_FLUSH_TIMEOUT)))
      && (!o.rollingFile ==> c.flushTimeout == o.flushTimeout && c.cacheSize == o.cacheSize)
  {
    if !o.rollingFile && !TruthyString(o.name) then
      Failure(MissingName)
    else
      Success(Config(
        level := NormalLevel(o.level),
        logdir := o.logdir,
        rollingFile := o.rollingFile,
        name := o.name,
        nameformat := NormalFormat(o.nameformat, pid),
        duration := NormalDuration(o.duration),
        encoding := NormalEncoding(o.encoding),
        streamMode := StringOr(o.mode, DEFAULT_MODE),
        flushTimeout := if o.rollingFile then Some(NumberOr(o.flushTimeout, DEFAULT_FLUSH_TIMEOUT)) else o.flushTimeout,
        cacheSize := o.cacheSize))
  }

  // ---------------------------------------------------------------------------
  // The live-file prefix: /^\[([^\[\]-]+?)-\]/i, group 1

  predicate Bracketing(c: char) {
    c == '[' || c == ']' || c == '-'
  }

  /** First index at or after `i` holding `[`, `]` or `-` (or `|s|`). */
  function RunEnd(s: string, i: nat): (k: nat)
    requires i <= |s|
    ensures i <= k <= |s|
    ensures forall j :: i <= j < k ==> !Bracketing(s[j])
    ensures k < |s| ==> Bracketing(s[k])
    decreases |s| - i
  {
    if i == |s| || Bracketing(s[i]) then i else RunEnd(s, i + 1)
  }

  /** Group 1 of the match, or `None` when `.match` returns null. The class
      excludes `-`, so the lazy quantifier can only stop at the first bracket
      character, which must then open the literal `-]`. */
  function LivePrefix(format: string): Option<string> {
    if |format| == 0 || format[0] != '[' then None
    else
      var k := RunEnd(format, 1);
      if 2 <= k && k + 1 < |format| && format[k] == '-' && format[k + 1] == ']'
      then Some(format[1..k])
      else None
  }

  predicate FreeOfBrackets(p: string) {
    forall i :: 0 <= i < |p| ==> !Bracketing(p[i])
  }

  /** The regular expression matches exactly the formats that begin with
      `[p-]` for a non-empty `p` free of `[`, `]` and `-`; group 1 is `p`. */
  lemma LivePrefixSpec(format: string, p: string)
    ensures LivePrefix(format) == Some(p) <==>
      (|p| > 0 && FreeOfBrackets(p) && HasPrefix(format, "[" + p + "-]"))
  {
    if LivePrefix(format) == Some(p) {
      var k := RunEnd(format, 1);
      assert format[..|p| + 3] == "[" + p + "-]";
    }
    if |p| > 0 && FreeOfBrackets(p) && HasPrefix(format, "[" + p + "-]") {
      var head := "[" + p + "-]";
      assert format[..|head|] == head;
      assert format[0] == '[';
      assert format[1..|p| + 1] == p by {
        assert format[1..|p| + 1] == format[..|head|][1..|p| + 1] == head[1..|p| + 1];
      }
      forall j | 1 <= j < |p| + 1 ensures !Bracketing(format[j]) {
        assert format[j] == format[1..|p| + 1][j - 1];
      }
      assert format[|p| + 1] == head[|p| + 1] == '-';
      assert format[|p| + 2] == head[|p| + 2] == ']';
      assert RunEnd(format, 1) == |p| + 1;
    }
  }

  /** The default format yields the live file `application.log`. */
  lemma DefaultFormatPrefix()
    ensures LivePrefix(DEFAULT_NAMEFORMAT) == Some("application")
  {
    assert DEFAULT_NAMEFORMAT[..14] == "[" + "application" + "-]";
    assert FreeOfBrackets("application");
    LivePrefixSpec(DEFAULT_NAMEFORMAT, "application");
  }

  /** The middleware writers' format yields the live file `info.log`. */
  lemma MiddlewareFormatPrefix()
    ensures LivePrefix("[info-]YYYYMMDD[.log]") == Some("info")
  {
    assert "[info-]YYYYMMDD[.log]"[..7] == "[" + "info" + "-]";
    assert FreeOfBrackets("info");
    LivePrefixSpec("[info-]YYYYMMDD[.log]", "info");
  }

  /** The format named as the default in the constructor's doc comment has no
      `[p-]` prefix, so `cut` would throw on it. */
  lemma DocCommentFormatHasNoPrefix()
    ensures LivePrefix("[info.]YYYY-MM-DD[.log]") == None
  {
    var f := "[info.]YYYY-MM-DD[.log]";
    assert !Bracketing(f[1]) && !Bracketing(f[2]) && !Bracketing(f[3]) && !Bracketing(f[4]) && !Bracketing(f[5]);
    assert Bracketing(f[6]);
    assert RunEnd(f, 1) == 6;
  }

  // ---------------------------------------------------------------------------
  // Timers

  /** Granularity the first tick is aligned to: minute below one hour, hour
      below one day, day otherwise. */
  function AlignUnit(duration: int): int {
    if duration < ONE_HOUR then ONE_MINUTE else if duration < ONE_DAY then ONE_HOUR else ONE_DAY
  }

  /** `firstDuration()`: the delay from `now` (local wall-clock milliseconds)
      to the start of the unit containing `now + duration`. */
  function FirstDuration(duration: int, now: int): (r: int)
    ensures duration <= ONE_MINUTE ==> r == duration
    ensures duration > ONE_MINUTE ==>
      && duration - AlignUnit(duration) < r <= duration
      && (now + r) % AlignUnit(duration) == 0
  {
    if duration > ONE_MINUTE then
      var t := now + duration;
      var u := AlignUnit(duration);
      (t - t % u) - now
    else
      duration
  }

  /** `startTimer(d)` waits `d || this.duration`. */
  function TimerDelay(requested: int, duration: int): int {
    if requested == 0 then duration else requested
  }

  /** For a normalised duration, the first rotation fires after a positive
      delay no longer than the period, on a unit boundary when the period is
      longer than a minute; every later tick waits the period itself. */
  lemma FirstTickAligned(duration: int, now: int)
    requires duration >= ONE_MINUTE
    ensures var first := TimerDelay(FirstDuration(duration, now), duration);
      && 0 < first <= duration
      && (duration > ONE_MINUTE ==> (now + first) % AlignUnit(duration) == 0)
    ensures TimerDelay(duration, duration) == duration
  {
  }
}
