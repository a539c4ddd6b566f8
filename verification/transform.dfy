/** The transform stage (`transform_with_proc` in scripts/transform.py):
    normalise the data date to `YYYY-MM-DD`, check today's staging-load
    status and today's own status (both are read even under force), call
    the transform procedure, take the record count from its result rows,
    and append exactly one TS or TF. Failures are logged, never re-raised. */
module Transform {
  import opened Base
  import opened Numerals
  import opened Calendar
  import opened DateFormats
  import opened ProcessLog

  const ProcessName := "transform"
  const PrevProcess := "load_to_staging"
  const ProcessId := 3
  const Codes := Vocabulary(None, {"TS", "TF"})

  /** Today's LS from the staging load passes; today's own TS stops a rerun
      (a prior TF does not). */
  const StageGate := Gate(PrevProcess, {"LS"}, None, false, ProcessName, {"TS"})

  /** The procedure's result sets (each a sequence of rows) or the exception
      it raised; `mysql` tells whether it is a `mysql.connector.Error`. */
  datatype ProcResult = ResultSets(sets: seq<seq<seq<PyValue>>>) | ProcFailed(mysql: bool, error: string)

  /** `int(v)`: `None` where Python raises. */
  function AsInt(v: PyValue): Option<int> {
    match v
    case Null => None
    case Int(i) => Some(i)
    case Text(s) => ParseInt(s)
  }

  /** A row whose last cell converts to an integer. */
  predicate Counts(row: seq<PyValue>) {
    |row| >= 1 && AsInt(row[|row| - 1]).Some?
  }

  function CountOf(row: seq<PyValue>): int
    requires Counts(row)
  {
    AsInt(row[|row| - 1]).value
  }

  /** All rows of all result sets, in order. */
  function Flatten(sets: seq<seq<seq<PyValue>>>): seq<seq<PyValue>> {
    if |sets| == 0 then [] else Flatten(sets[..|sets| - 1]) + sets[|sets| - 1]
  }

  /** The reference count: the last row that converts decides; 0 if none does. */
  function LastCount(rows: seq<seq<PyValue>>): int {
    if |rows| == 0 then 0
    else if Counts(rows[|rows| - 1]) then CountOf(rows[|rows| - 1])
    else LastCount(rows[..|rows| - 1])
  }

  /** The count is 0 when no row converts, and otherwise the value of the
      last row that converts; rows that fail leave it unchanged. */
  lemma {:induction false} LastCountIsLastConverted(rows: seq<seq<PyValue>>)
    ensures (forall i :: 0 <= i < |rows| ==> !Counts(rows[i])) ==> LastCount(rows) == 0
    ensures forall k :: 0 <= k < |rows| && Counts(rows[k]) && (forall j :: k < j < |rows| ==> !Counts(rows[j]))
              ==> LastCount(rows) == CountOf(rows[k])
  {
    if |rows| > 0 {
      var init := rows[..|rows| - 1];
      LastCountIsLastConverted(init);
      assert forall i :: 0 <= i < |init| ==> init[i] == rows[i];
    }
  }

  /** The record-count loop of the script over the procedure's result sets. */
  method ExtractRecordCount(sets: seq<seq<seq<PyValue>>>) returns (count: int)
    ensures count == LastCount(Flatten(sets))
  {
    count := 0;
    var i := 0;
    while i < |sets|
      invariant 0 <= i <= |sets|
      invariant count == LastCount(Flatten(sets[..i]))
    {
      var rows := sets[i];
      var j := 0;
      assert Flatten(sets[..i]) + rows[..0] == Flatten(sets[..i]);
      while j < |rows|
        invariant 0 <= j <= |rows|
        invariant count == LastCount(Flatten(sets[..i]) + rows[..j])
      {
        var row := rows[j];
        assert (Flatten(sets[..i]) + rows[..j + 1])[..|Flatten(sets[..i]) + rows[..j]|]
               == Flatten(sets[..i]) + rows[..j];
        if |row| >= 1 {
          var v := AsInt(row[|row| - 1]);
          if v.Some? {
            count := v.value;
          }
        }
        j := j + 1;
      }
      assert sets[..i + 1][..i] == sets[..i];
      assert rows[..j] == rows;
      i := i + 1;
    }
    assert sets[..i] == sets;
  }

  /** The data date handed to the procedure: today's `YYYY-MM-DD` when the
      text is missing or empty, else the lenient parse rendered `YYYY-MM-DD`. */
  function DataDate(env: Env, loadDate: Option<string>): Option<string>
    requires EnvValid(env)
  {
    if !Truthy(loadDate) then Some(TodayText(env))
    else
      match ParseLenient(loadDate.value)
      case None => None
      case Some(d) => Some(Render(Iso, d))
  }

  /** Normalisation: the data date is an ISO text of the same calendar date
      as the input, and an input already in ISO form is passed unchanged. */
  lemma NormalisesToIso(env: Env, loadDate: Option<string>)
    requires EnvValid(env) && Truthy(loadDate)
    ensures DataDate(env, loadDate).Some? <==> ParseLenient(loadDate.value).Some?
    ensures DataDate(env, loadDate).Some? ==> Parse(Iso, DataDate(env, loadDate).value) == ParseLenient(loadDate.value)
    ensures Parse(Iso, loadDate.value).Some? ==> DataDate(env, loadDate) == loadDate
  {
    if ParseLenient(loadDate.value).Some? {
      ParseRender(Iso, ParseLenient(loadDate.value).value);
    }
    if Parse(Iso, loadDate.value).Some? {
      RenderParse(Iso, loadDate.value);
    }
  }

  function FailureMessage(mysql: bool, error: string): string {
    (if mysql then "MySQL Error: " else "Other Error: ") + error
  }

  /** The closed TF entry of a failed run. */
  function Failed(env: Env, msg: string): Entry {
    Entry(ProcessId, ProcessName, env.start, Some(env.finish), "TF", None, None, None, msg)
  }

  /** `transform_with_proc(load_date, force_run)`. */
  function RunTransform(env: Env, loadDate: Option<string>, force: bool, proc: ProcResult): (r: Run)
    requires EnvValid(env)
    // every entry is appended under the stage's own process name
    ensures forall i :: 0 <= i < |r.appended| ==> r.appended[i].process == ProcessName
    ensures DataDate(env, loadDate).None? ==> r == Quiet([], Returned(Nothing))
    // every path of a run with a data date returns normally
    ensures r.outcome == Returned(Nothing)
    ensures DataDate(env, loadDate).Some? && env.readFault.None? ==>
      var today := TodayText(env);
      var prev := Lookup(env.log, PrevProcess, today);
      var own := Lookup(env.log, ProcessName, today);
      // the staging status is read for today only, with no fallback
      && |r.lookups| >= 1 && r.lookups[0] == (PrevProcess, today)
      && (prev != Some("LS") && !force ==> r == Quiet([(PrevProcess, today)], Returned(Nothing)))
      // the own status is read whenever the first gate is passed, force or not
      && (prev == Some("LS") || force ==> r.lookups == [(PrevProcess, today), (ProcessName, today)])
      && ((prev == Some("LS") || force) && own == Some("TS") && !force ==> r.appended == [] && r.work == [])
      && ((prev == Some("LS") || force) && (own != Some("TS") || force) ==>
            && r.work == [CallProcedure([Str(DataDate(env, loadDate).value)])]
            && |r.appended| == 1 && r.appended[0].endTime.Some?
            && (proc.ResultSets? ==>
                  r.appended[0].status == "TS"
                  && r.appended[0].transformed == Some(LastCount(Flatten(proc.sets)))
                  && r.mails == MailIf(env.sendTo, SuccessMail))
            && (proc.ProcFailed? ==>
                  r.appended[0].status == "TF" && r.appended[0].transformed == None
                  && r.mails == MailIf(env.sendTo, FailureMail)))
    // a failing status lookup is logged as one TF
    ensures DataDate(env, loadDate).Some? && env.readFault.Some? ==>
      |r.appended| == 1 && r.appended[0].status == "TF" && r.work == []
  {
    match DataDate(env, loadDate)
    case None => Quiet([], Returned(Nothing))
    case Some(dataDate) =>
      var today := TodayText(env);
      if env.readFault.Some? then
        var f := env.readFault.value;
        Run([(PrevProcess, today)], [Failed(env, FailureMessage(f.mysql, f.text))], [],
            MailIf(env.sendTo, FailureMail), Returned(Nothing))
      else
        var prev := Lookup(env.log, PrevProcess, today);
        if prev != Some("LS") && !force then Quiet([(PrevProcess, today)], Returned(Nothing))
        else
          var lookups := [(PrevProcess, today), (ProcessName, today)];
          var own := Lookup(env.log, ProcessName, today);
          if own == Some("TS") && !force then Quiet(lookups, Returned(Nothing))
          else
            var work := [CallProcedure([Str(dataDate)])];
            match proc
            case ResultSets(sets) =>
              Run(lookups, [Entry(ProcessId, ProcessName, env.start, Some(env.finish), "TS",
                                  None, None, Some(LastCount(Flatten(sets))),
                                  "Transform completed successfully.")],
                  work, MailIf(env.sendTo, SuccessMail), Returned(Nothing))
            case ProcFailed(mysql, err) =>
              Run(lookups, [Failed(env, FailureMessage(mysql, err))], work,
                  MailIf(env.sendTo, FailureMail), Returned(Nothing))
  }

  /** The entry function agrees with the generic gate (checked at today's
      date for both statuses) and follows the single-terminal protocol. */
  lemma GateConformance(env: Env, loadDate: Option<string>, force: bool, proc: ProcResult)
    requires EnvValid(env) && env.readFault.None? && DataDate(env, loadDate).Some?
    ensures var r := RunTransform(env, loadDate, force, proc);
      var today := TodayText(env);
      match Decide(StageGate, env.log, today, today, force)
      case Abort => r.appended == [] && r.work == []
      case AlreadyDone => r.appended == [] && r.work == []
      case Skip => false
      case Proceed => FollowsProtocol(Codes, ProcessName, r.appended) && |r.work| == 1
  {
  }
}
