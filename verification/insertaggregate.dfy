/** The aggregate-insert stage (`insert_with_proc` in
    scripts/insert_aggre_data.py): the warehouse-load gate and the own-status
    gate at the load date, the aggregate procedure, and one IS or IF entry.
    Unlike the other stages it reports through the exit status: a closed
    gate exits 1, an already completed run exits 0, a failure exits 1. */
module InsertAggregate {
  import opened Base
  import opened ProcessLog

  const ProcessName := "insert_aggre_data"
  const PrevProcess := "load_to_dw"
  const ProcessId := 5
  const Codes := Vocabulary(None, {"IS", "IF"})
  const DoneCodes := {"TO", "TR", "TS", "IS"}

  const StageGate := Gate(PrevProcess, {"LS"}, None, false, ProcessName, DoneCodes)

  /** What the procedure call and the follow-up count query report: the
      fetched row's count (`None` when no row came back), or the exception. */
  datatype InsertResult = Inserted(row: Option<int>) | InsertFailed(mysql: bool, error: string)

  function FailureMessage(mysql: bool, error: string): string {
    (if mysql then "MySQL Error: " else "Other Error: ") + error
  }

  function Failed(env: Env, mysql: bool, error: string): Entry {
    Entry(ProcessId, ProcessName, env.start, Some(env.finish), "IF", None, None, None, FailureMessage(mysql, error))
  }

  /** Past both gates: without force, the warehouse load reported LS and the
      own status is none of TO, TR, TS, IS. */
  predicate Proceeds(log: StatusLog, d: string, force: bool) {
    var own := Lookup(log, ProcessName, d);
    force || (Lookup(log, PrevProcess, d) == Some("LS") && !(own.Some? && own.value in DoneCodes))
  }

  /** `insert_with_proc(load_date, clean, force_run)`. */
  function RunInsert(env: Env, loadDate: Option<string>, clean: int, force: bool, proc: InsertResult): (r: Run)
    requires EnvValid(env)
    // every entry is appended under the stage's own process name
    ensures forall i :: 0 <= i < |r.appended| ==> r.appended[i].process == ProcessName
    // the run never returns a value and never lets an exception escape
    ensures r.outcome == Returned(Nothing) || r.outcome == Exited(0) || r.outcome == Exited(1)
    // without force, a warehouse-load status other than LS exits 1 with no entry
    ensures env.readFault.None? && !force
            && Lookup(env.log, PrevProcess, LoadDateText(env, loadDate)) != Some("LS") ==>
      r == Quiet([(PrevProcess, LoadDateText(env, loadDate))], Exited(1))
    // past the first gate the own status is read, force or not
    ensures env.readFault.None? && (force || Lookup(env.log, PrevProcess, LoadDateText(env, loadDate)) == Some("LS")) ==>
      var d := LoadDateText(env, loadDate);
      var own := Lookup(env.log, ProcessName, d);
      && r.lookups == (if force then [] else [(PrevProcess, d)]) + [(ProcessName, d)]
      // an own status of TO, TR, TS or IS exits 0 with no entry
      && (!force && own.Some? && own.value in DoneCodes ==> r == Quiet(r.lookups, Exited(0)))
    ensures env.readFault.None? && Proceeds(env.log, LoadDateText(env, loadDate), force) ==>
      var d := LoadDateText(env, loadDate);
      && r.work == [CallProcedure([Str(d), Num(clean)])]
      && |r.appended| == 1 && r.appended[0].endTime.Some?
      && (proc.Inserted? ==>
            && r.appended[0].status == "IS"
            && r.appended[0].loaded == Some(if proc.row.Some? then proc.row.value else 0)
            && r.mails == MailIf(env.sendTo, SuccessMail) && r.outcome == Returned(Nothing))
      && (proc.InsertFailed? ==>
            && r.appended[0].status == "IF" && r.appended[0].loaded == None
            && r.mails == MailIf(env.sendTo, FailureMail) && r.outcome == Exited(1))
    // a failing lookup is caught by the handlers: one IF, then exit 1
    ensures env.readFault.Some? ==>
      && |r.appended| == 1 && r.appended[0].status == "IF" && r.work == [] && r.outcome == Exited(1)
  {
    var d := LoadDateText(env, loadDate);
    if env.readFault.Some? then
      var f := env.readFault.value;
      Run([if force then (ProcessName, d) else (PrevProcess, d)], [Failed(env, f.mysql, f.text)], [],
          MailIf(env.sendTo, FailureMail), Exited(1))
    else if !force && Lookup(env.log, PrevProcess, d) != Some("LS") then
      Quiet([(PrevProcess, d)], Exited(1))
    else
      var lookups := (if force then [] else [(PrevProcess, d)]) + [(ProcessName, d)];
      var own := Lookup(env.log, ProcessName, d);
      if !force && own.Some? && own.value in DoneCodes then Quiet(lookups, Exited(0))
      else
        var work := [CallProcedure([Str(d), Num(clean)])];
        match proc
        case Inserted(row) =>
          var count := if row.Some? then row.value else 0;
          Run(lookups, [Entry(ProcessId, ProcessName, env.start, Some(env.finish), "IS",
                              None, Some(count), None, "Insert completed successfully.")],
              work, MailIf(env.sendTo, SuccessMail), Returned(Nothing))
        case InsertFailed(mysql, e) =>
          Run(lookups, [Failed(env, mysql, e)], work, MailIf(env.sendTo, FailureMail), Exited(1))
  }

  /** The entry function agrees with the generic gate and follows the
      single-terminal protocol when it proceeds. */
  lemma GateConformance(env: Env, loadDate: Option<string>, clean: int, force: bool, proc: InsertResult)
    requires EnvValid(env) && env.readFault.None?
    ensures var d := LoadDateText(env, loadDate);
      var r := RunInsert(env, loadDate, clean, force, proc);
      match Decide(StageGate, env.log, d, d, force)
      case Abort => r.appended == [] && r.work == [] && r.outcome == Exited(1)
      case AlreadyDone => r.appended == [] && r.work == [] && r.outcome == Exited(0)
      case Skip => false
      case Proceed => FollowsProtocol(Codes, ProcessName, r.appended) && |r.work| == 1
  {
  }

  /** The exit status tells a scheduler exactly this: 0 means the run either
      logged IS or found its work already done; anything else means the
      gate was closed or the run logged IF. */
  lemma ExitStatusMeaning(env: Env, loadDate: Option<string>, clean: int, force: bool, proc: InsertResult)
    requires EnvValid(env)
    ensures var d := LoadDateText(env, loadDate);
      var r := RunInsert(env, loadDate, clean, force, proc);
      && (ExitStatus(r.outcome) == 0 <==>
            || (|r.appended| == 1 && r.appended[0].status == "IS")
            || (env.readFault.None? && Decide(StageGate, env.log, d, d, force) == AlreadyDone))
      && (ExitStatus(r.outcome) != 0 <==>
            || (|r.appended| == 1 && r.appended[0].status == "IF")
            || (env.readFault.None? && Decide(StageGate, env.log, d, d, force) == Abort))
  {
  }
}
