/** The shape shared by `run_full_process` of the warehouse loader
    (scripts/load_to_dw.py) and of the data-mart loader
    (scripts/load_to_dm.py): dependency gate and own-status gate at the load
    date, the export step (clean filter, then the export procedure), the
    job loop, and exactly one terminal entry with a mail that is always sent.
    The two stages differ only in the constants of `Stage` and in the job
    loop, which each passes in. */
module ExportLoad {
  import opened Base
  import opened ProcessLog
  import opened TempFiles

  /** A stage's constants: its process name and config id, the upstream
      process and the one code accepted from it, its own codes that stop a
      rerun, and its success and failure codes. */
  datatype Stage = Stage(
    process: string,
    configId: int,
    prev: string,
    prevOk: string,
    done: set<string>,
    okCode: string,
    failCode: string)

  /** The stage's gate in terms of the generic decision. */
  function GateOf(st: Stage): Gate {
    Gate(st.prev, {st.prevOk}, None, false, st.process, st.done)
  }

  /** The terminal codes of the stage; there is no running marker. */
  function CodesOf(st: Stage): Vocabulary {
    Vocabulary(None, {st.okCode, st.failCode})
  }

  /** What `export_data` reports: the exported row count and the CSV files
      the export procedure writes into the temp folder, or the exception. */
  datatype ExportResult = Exported(count: int, produced: Folder) | ExportFailed(mysql: bool, error: string)

  function ExportMessage(mysql: bool, error: string): string {
    (if mysql then "MySQL Error during export: " else "Other Error during export: ") + error
  }

  /** An optional error as an f-string shows it. */
  function ErrorText(e: Option<string>): string {
    if e.Some? then e.value else "None"
  }

  /** Past both gates: without force, the upstream reported its one accepted
      code and the own status is not one that stops a rerun. */
  predicate Proceeds(st: Stage, log: StatusLog, d: string, force: bool) {
    var own := Lookup(log, st.process, d);
    force || (Lookup(log, st.prev, d) == Some(st.prevOk) && !(own.Some? && own.value in st.done))
  }

  /** `run_full_process(load_date, clean, force_run)`. `folder` is the temp
      folder before the run, `exp` what the export reports, and `load` the
      job loop, given the load date and the temp folder after the export. */
  function RunExportLoad(st: Stage, env: Env, loadDate: Option<string>, clean: int, force: bool, folder: Folder,
                        exp: ExportResult, load: (string, Folder) -> LoadReport): (r: Run)
    requires EnvValid(env)
    // every entry is appended under the stage's own process name
    ensures forall i :: 0 <= i < |r.appended| ==> r.appended[i].process == st.process
    // every path returns normally; a failure shows only in the log and the mail
    ensures r.outcome == Returned(Nothing)
    // without force, an upstream status other than the accepted one stops with no entry
    ensures env.readFault.None? && !force
            && Lookup(env.log, st.prev, LoadDateText(env, loadDate)) != Some(st.prevOk) ==>
      r == Quiet([(st.prev, LoadDateText(env, loadDate))], Returned(Nothing))
    // the own status is read whenever the first gate is passed
    ensures env.readFault.None? && (force || Lookup(env.log, st.prev, LoadDateText(env, loadDate)) == Some(st.prevOk)) ==>
      r.lookups == (if force then [] else [(st.prev, LoadDateText(env, loadDate))])
                   + [(st.process, LoadDateText(env, loadDate))]
    ensures env.readFault.None? && !Proceeds(st, env.log, LoadDateText(env, loadDate), force) ==>
      r.appended == [] && r.work == [] && r.mails == []
    ensures env.readFault.None? && Proceeds(st, env.log, LoadDateText(env, loadDate), force) ==>
      var d := LoadDateText(env, loadDate);
      && |r.appended| == 1 && r.appended[0].endTime.Some?
      && r.appended[0].process == st.process && r.appended[0].configId == st.configId
      && |r.work| >= 1 && r.work[0] == CallProcedure([Str(d)])
      && (exp.ExportFailed? ==>
            && r.appended[0].status == st.failCode
            && r.appended[0].extracted == Some(0) && r.appended[0].loaded == Some(0)
            && r.work == [CallProcedure([Str(d)])] && r.mails == [FailureMail])
      && (exp.Exported? ==>
            var rep := load(d, Clean(folder, d, clean) + exp.produced);
            && r.work == [CallProcedure([Str(d)]), LoadJobs(d)]
            && (!rep.ok ==> r.appended[0].status == st.failCode && r.appended[0].extracted == Some(exp.count)
                            && r.appended[0].loaded == Some(0) && r.mails == [FailureMail])
            && (rep.ok ==> r.appended[0].status == st.okCode && r.appended[0].extracted == Some(exp.count)
                           && r.appended[0].loaded == Some(rep.total) && r.mails == [SuccessMail]))
    // a failing lookup lands in the catch-all handler: one failure entry with no counts
    ensures env.readFault.Some? ==>
      && |r.appended| == 1 && r.appended[0].status == st.failCode
      && r.appended[0].extracted == None && r.appended[0].loaded == None
      && r.work == [] && r.mails == [FailureMail]
  {
    var d := LoadDateText(env, loadDate);
    if env.readFault.Some? then
      Run([if force then (st.process, d) else (st.prev, d)],
          [Terminal(st, env, st.failCode, None, None, "Unexpected Error: " + env.readFault.value.text)],
          [], [FailureMail], Returned(Nothing))
    else if !force && Lookup(env.log, st.prev, d) != Some(st.prevOk) then
      Quiet([(st.prev, d)], Returned(Nothing))
    else
      var lookups := (if force then [] else [(st.prev, d)]) + [(st.process, d)];
      var own := Lookup(env.log, st.process, d);
      if !force && own.Some? && own.value in st.done then Quiet(lookups, Returned(Nothing))
      else ExportThenLoad(st, env, d, lookups, clean, folder, exp, load)
  }

  /** The run past both gates: the clean filter and the export procedure,
      then the job loop over the temp folder, then one closed entry and the mail. */
  function ExportThenLoad(st: Stage, env: Env, d: string, lookups: seq<(string, string)>, clean: int, folder: Folder,
                          exp: ExportResult, load: (string, Folder) -> LoadReport): (r: Run)
    ensures r.lookups == lookups && r.outcome == Returned(Nothing)
    ensures |r.appended| == 1 && r.appended[0].endTime.Some?
    ensures r.appended[0].process == st.process && r.appended[0].configId == st.configId
    ensures |r.work| >= 1 && r.work[0] == CallProcedure([Str(d)])
    ensures exp.ExportFailed? ==>
      && r.appended[0].status == st.failCode
      && r.appended[0].extracted == Some(0) && r.appended[0].loaded == Some(0)
      && r.work == [CallProcedure([Str(d)])] && r.mails == [FailureMail]
    ensures exp.Exported? ==>
      var rep := load(d, Clean(folder, d, clean) + exp.produced);
      && r.work == [CallProcedure([Str(d)]), LoadJobs(d)]
      && (!rep.ok ==> r.appended[0].status == st.failCode && r.appended[0].extracted == Some(exp.count)
                      && r.appended[0].loaded == Some(0) && r.mails == [FailureMail])
      && (rep.ok ==> r.appended[0].status == st.okCode && r.appended[0].extracted == Some(exp.count)
                     && r.appended[0].loaded == Some(rep.total) && r.mails == [SuccessMail])
  {
    var call := CallProcedure([Str(d)]);
    match exp
    case ExportFailed(mysql, e) =>
      Run(lookups, [Terminal(st, env, st.failCode, Some(0), Some(0), "Export failed: " + ExportMessage(mysql, e))],
          [call], [FailureMail], Returned(Nothing))
    case Exported(n, produced) =>
      var rep := load(d, Clean(folder, d, clean) + produced);
      if !rep.ok then
        Run(lookups, [Terminal(st, env, st.failCode, Some(n), Some(0), "Export OK but Load failed: " + ErrorText(rep.error))],
            [call, LoadJobs(d)], [FailureMail], Returned(Nothing))
      else
        Run(lookups, [Terminal(st, env, st.okCode, Some(n), Some(rep.total), "Export and Load completed successfully.")],
            [call, LoadJobs(d)], [SuccessMail], Returned(Nothing))
  }

  function Terminal(st: Stage, env: Env, status: string, extracted: Option<int>, loaded: Option<int>, msg: string): Entry {
    Entry(st.configId, st.process, env.start, Some(env.finish), status, extracted, loaded, None, msg)
  }

  /** The entry function agrees with the generic gate (both statuses read at
      the load date) and appends exactly one terminal entry when it proceeds. */
  lemma GateConformance(st: Stage, env: Env, loadDate: Option<string>, clean: int, force: bool, folder: Folder,
                        exp: ExportResult, load: (string, Folder) -> LoadReport)
    requires EnvValid(env) && env.readFault.None?
    ensures var d := LoadDateText(env, loadDate);
      var r := RunExportLoad(st, env, loadDate, clean, force, folder, exp, load);
      match Decide(GateOf(st), env.log, d, d, force)
      case Abort => r.appended == [] && r.work == [] && r.mails == []
      case AlreadyDone => r.appended == [] && r.work == [] && r.mails == []
      case Skip => false
      case Proceed => FollowsProtocol(CodesOf(st), st.process, r.appended) && |r.work| >= 1
  {
  }
}
