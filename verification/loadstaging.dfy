/** The staging-load stage (`run_load_staging` in
    script/load_to_staging_db.py): lenient date parse, the crawl dependency
    gate with its today-then-target fallback, the CND skip, the CSV name
    rebuilt from the seven-day window, and the LF / LR, LS / LR, LF appends.
    This stage has no self gate. */
module LoadStaging {
  import opened Base
  import opened Calendar
  import opened DateFormats
  import opened ProcessLog

  const ProcessName := "load_to_staging"
  const PrevProcess := "crawling"
  const ProcessId := 2
  const WindowDays := 7
  const DefaultStagingDir := "./staging"
  const Codes := Vocabulary(Some("LR"), {"LS", "LF", "LS_SKIP"})

  /** The crawl gate: CS or LS passes, CND skips, an absent status is looked
      up again at the target date, and no own status stops a rerun. */
  const StageGate := Gate(PrevProcess, {"CS", "LS"}, Some("CND"), true, ProcessName, {})

  /** What TRUNCATE plus LOAD DATA report: the loaded row count or an error. */
  datatype DbLoad = Loaded(rows: int) | DbFailed(error: string)

  /** The target date: today when the text is missing or empty, otherwise
      the first of the four patterns that parses. */
  function TargetDate(env: Env, target: Option<string>): (r: Option<Date>)
    requires EnvValid(env)
    ensures !Truthy(target) ==> r == Some(env.today)
    ensures r.Some? ==> Valid(r.value)
    // a given text is accepted exactly when it renders a valid date in one
    // of the four patterns, and it is then read as that date
    ensures Truthy(target) && r.Some? ==> exists f :: f in Lenient && Render(f, r.value) == target.value
    ensures Truthy(target) ==> forall f, d :: f in Lenient && Valid(d) && Render(f, d) == target.value ==> r == Some(d)
  {
    if Truthy(target) then LenientIsRendering(target.value); ParseLenient(target.value)
    else Some(env.today)
  }

  /** The CSV the crawler is expected to have produced for a window ending
      at `d`, both ends rendered `dd-mm-YYYY`; `None` when the window start
      is before 0001-01-01. */
  function CsvName(d: Date): Option<string>
    requires Valid(d)
  {
    match MinusDays(d, WindowDays)
    case None => None
    case Some(s) => Some("nong_san_" + Render(DashDmy, s) + "_" + Render(DashDmy, d) + ".csv")
  }

  /** `execute_load_data(path)`: a missing file raises `FileNotFoundError`
      before the database is touched; otherwise the database's outcome. */
  function ExecuteLoadData(path: string, files: set<string>, db: DbLoad): (r: DbLoad)
    ensures path !in files ==> r.DbFailed?
    ensures path in files ==> r == db
  {
    if path !in files then DbFailed("Không tìm thấy file CSV: " + path) else db
  }

  /** The lookups the gate performs without force: today's crawl status,
      then the target date's when today's is absent or "Null" and the dates differ. */
  function GateLookups(log: StatusLog, today: string, target: string): seq<(string, string)> {
    var first := Lookup(log, PrevProcess, today);
    if (first.None? || first == Some("Null")) && target != today
    then [(PrevProcess, today), (PrevProcess, target)]
    else [(PrevProcess, today)]
  }

  /** The LF message of a CSV that is not there, even though the gate passed. */
  function MissingFileMessage(name: string): string {
    "Không tìm thấy file " + name + " (Dù log trước đó báo OK hoặc Force Run)"
  }

  /** Everything after the gate: window, file probe, LR, load, LS or LF. */
  function LoadBody(env: Env, lookups: seq<(string, string)>, d: Date, stagingDir: Option<string>,
                    files: set<string>, db: DbLoad): (r: Run)
    requires EnvValid(env) && Valid(d)
    ensures r.lookups == lookups
    ensures forall i :: 0 <= i < |r.appended| ==> r.appended[i].process == ProcessName
    // only a path already probed to exist is bulk-loaded
    ensures forall i :: 0 <= i < |r.work| && r.work[i].BulkLoad? ==> r.work[i].path in files
    ensures CsvName(d).None? ==> r.appended == [] && r.work == [] && r.outcome.Raised?
    ensures CsvName(d).Some? ==>
      var path := Join(OrDefault(stagingDir, DefaultStagingDir), CsvName(d).value);
      && (path !in files ==>
            && |r.appended| == 1 && r.appended[0].status == "LF" && r.appended[0].endTime.Some?
            && r.appended[0].extracted == Some(0) && r.appended[0].loaded == Some(0)
            && r.work == [Probe(path)] && r.outcome == Returned(Nothing))
      && (path in files ==>
            && |r.appended| == 2 && r.appended[0].status == "LR" && r.appended[0].endTime.None?
            && r.appended[1].endTime.Some? && r.work == [Probe(path), BulkLoad(path)]
            && (db.Loaded? ==> r.appended[1].status == "LS" && r.appended[1].loaded == Some(db.rows)
                               && r.outcome == Returned(Count(db.rows)))
            && (db.DbFailed? ==> r.appended[1].status == "LF" && r.outcome == Exited(1)
                                 && r.mails == MailIf(env.sendTo, FailureMail)))
  {
    match CsvName(d)
    case None => Quiet(lookups, Raised("date value out of range"))
    case Some(name) =>
      var path := Join(OrDefault(stagingDir, DefaultStagingDir), name);
      if path !in files then
        var msg := MissingFileMessage(name);
        Run(lookups, [Entry(ProcessId, ProcessName, env.start, Some(env.finish), "LF",
                            Some(0), Some(0), Some(0), msg)],
            [Probe(path)], [], Returned(Nothing))
      else
        var running := Entry(ProcessId, ProcessName, env.start, None, "LR", None, None, None,
                             "Loading " + name);
        match ExecuteLoadData(path, files, db)
        case Loaded(n) =>
          Run(lookups, [running, Entry(ProcessId, ProcessName, env.start, Some(env.finish), "LS",
                                       None, Some(n), None, "Loaded: " + name)],
              [Probe(path), BulkLoad(path)], MailIf(env.sendTo, SuccessMail), Returned(Count(n)))
        case DbFailed(err) =>
          Run(lookups, [running, Entry(ProcessId, ProcessName, env.start, Some(env.finish), "LF",
                                       None, None, None, "Load Error: " + err)],
              [Probe(path), BulkLoad(path)], MailIf(env.sendTo, FailureMail), Exited(1))
  }

  /** `run_load_staging(target_date_str, force_run)`. `files` are the paths
      that exist and `db` is what the staging database reports for the load. */
  function RunLoadStaging(env: Env, target: Option<string>, force: bool, stagingDir: Option<string>,
                          files: set<string>, db: DbLoad): (r: Run)
    requires EnvValid(env)
    // every entry is appended under the stage's own process name
    ensures forall i :: 0 <= i < |r.appended| ==> r.appended[i].process == ProcessName
    ensures TargetDate(env, target).None? ==> r == Quiet([], Returned(Nothing))
    // with force the log is never read
    ensures force ==> r.lookups == []
    ensures TargetDate(env, target).Some? && !force && env.readFault.None? ==>
      var up := UpstreamStatus(StageGate, env.log, TodayText(env), Render(Iso, TargetDate(env, target).value));
      && r.lookups == GateLookups(env.log, TodayText(env), Render(Iso, TargetDate(env, target).value))
      // upstream reported no data: exactly one zero-count LS_SKIP, nothing probed or loaded
      && (up == Some("CND") ==>
            && |r.appended| == 1 && r.appended[0].status == "LS_SKIP"
            && r.appended[0].extracted == Some(0) && r.appended[0].loaded == Some(0)
            && r.appended[0].transformed == Some(0)
            && r.work == [] && r.outcome == Returned(Nothing))
      // upstream not ready: nothing written
      && (up != Some("CND") && up != Some("CS") && up != Some("LS") ==>
            r.appended == [] && r.work == [] && r.outcome == Returned(Nothing))
    // past the gate, with a window: a missing file is one LF with no LR; otherwise LR then LS or LF
    ensures TargetDate(env, target).Some? && CsvName(TargetDate(env, target).value).Some?
            && (force || (env.readFault.None? &&
                  UpstreamStatus(StageGate, env.log, TodayText(env), Render(Iso, TargetDate(env, target).value))
                    in {Some("CS"), Some("LS")})) ==>
      var path := Join(OrDefault(stagingDir, DefaultStagingDir), CsvName(TargetDate(env, target).value).value);
      && (path !in files ==>
            && |r.appended| == 1 && r.appended[0].status == "LF"
            && r.appended[0].extracted == Some(0) && r.appended[0].loaded == Some(0)
            && r.work == [Probe(path)] && r.outcome == Returned(Nothing))
      && (path in files ==>
            && |r.appended| == 2 && r.appended[0].status == "LR" && r.appended[0].endTime.None?
            && r.work == [Probe(path), BulkLoad(path)]
            && (db.Loaded? ==> r.appended[1].status == "LS" && r.appended[1].loaded == Some(db.rows)
                               && r.outcome == Returned(Count(db.rows)))
            && (db.DbFailed? ==> r.appended[1].status == "LF" && r.outcome == Exited(1)
                                 && r.mails == MailIf(env.sendTo, FailureMail)))
  {
    match TargetDate(env, target)
    case None => Quiet([], Returned(Nothing))
    case Some(d) =>
      if force then LoadBody(env, [], d, stagingDir, files, db)
      else
        var today := TodayText(env);
        var tgt := Render(Iso, d);
        if env.readFault.Some? then Quiet([(PrevProcess, today)], Raised(env.readFault.value.text))
        else
          var lookups := GateLookups(env.log, today, tgt);
          var up := UpstreamStatus(StageGate, env.log, today, tgt);
          if up == Some("CND") then
            Run(lookups, [Entry(ProcessId, ProcessName, env.start, Some(env.finish), "LS_SKIP",
                                Some(0), Some(0), Some(0), "Skipped: No Data form Crawler")],
                [], [], Returned(Nothing))
          else if up != Some("CS") && up != Some("LS") then Quiet(lookups, Returned(Nothing))
          else LoadBody(env, lookups, d, stagingDir, files, db)
  }

  /** The entry function agrees with the generic gate: abort writes nothing,
      skip writes exactly the skip code, and a run that proceeds (and has a
      window) follows the LR / terminal protocol. */
  lemma GateConformance(env: Env, target: Option<string>, force: bool, stagingDir: Option<string>,
                        files: set<string>, db: DbLoad)
    requires EnvValid(env) && env.readFault.None?
    requires TargetDate(env, target).Some? && CsvName(TargetDate(env, target).value).Some?
    ensures var d := TargetDate(env, target).value;
      var r := RunLoadStaging(env, target, force, stagingDir, files, db);
      match Decide(StageGate, env.log, TodayText(env), Render(Iso, d), force)
      case Abort => r.appended == [] && r.work == []
      case AlreadyDone => false
      case Skip => |r.appended| == 1 && r.appended[0].status == "LS_SKIP" && r.work == []
      case Proceed => FollowsProtocol(Codes, ProcessName, r.appended) && |r.work| > 0
  {
  }

  /** Within a run, the missing-file error of `execute_load_data` never
      fires: the entry function probed the same path first. */
  lemma ExecuteCheckPreempted(env: Env, target: Option<string>, force: bool, stagingDir: Option<string>,
                              files: set<string>, db: DbLoad)
    requires EnvValid(env)
    ensures var r := RunLoadStaging(env, target, force, stagingDir, files, db);
      forall i :: 0 <= i < |r.work| && r.work[i].BulkLoad? ==>
        r.work[i].path in files && ExecuteLoadData(r.work[i].path, files, db) == db
  {
  }
}
