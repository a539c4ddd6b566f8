/** The process log shared by all stages and the protocol every stage's entry
    function follows: look up the upstream stage's status, look up its own
    status, and append a running marker and exactly one terminal entry.

    The status lookup (`get_process_log_value`) and the append
    (`log_process_action`) live outside the modelled files; here the lookup
    is an abstract map from (process name, date text) to a status code and
    the appends of one run are returned as a sequence of entries. */
module ProcessLog {
  import opened Base
  import opened Calendar
  import DateFormats

  /** An abstract wall-clock instant. */
  type Time = nat

  /** One appended row of the process log. Counters are `None` where the
      script leaves them out or passes `None`. */
  datatype Entry = Entry(
    configId: int,
    process: string,
    startTime: Time,
    endTime: Option<Time>,
    status: string,
    extracted: Option<int>,
    loaded: Option<int>,
    transformed: Option<int>,
    message: string)

  /** Status lookup: (process name, `YYYY-MM-DD` text) to the status code. */
  type StatusLog = map<(string, string), string>

  function Lookup(log: StatusLog, process: string, date: string): (r: Option<string>)
    ensures r.Some? <==> (process, date) in log
    ensures r.Some? ==> r.value == log[(process, date)]
  {
    if (process, date) in log then Some(log[(process, date)]) else None
  }

  /** An exception raised by a status lookup when the control database is
      unreachable; `mysql` tells whether it is a `mysql.connector.Error`. */
  datatype Fault = Fault(mysql: bool, text: string)

  /** What a stage run receives from its surroundings: today's date, the
      clock readings at the start and at the end of the run, the status
      lookup, an optional lookup fault, and the `SEND_TO_EMAIL` parameter. */
  datatype Env = Env(
    today: Date,
    start: Time,
    finish: Time,
    log: StatusLog,
    readFault: Option<Fault>,
    sendTo: Option<string>)

  predicate EnvValid(env: Env) {
    Valid(env.today) && env.start <= env.finish
  }

  /** `datetime.now().strftime('%Y-%m-%d')`. */
  function TodayText(env: Env): string
    requires EnvValid(env)
  {
    DateFormats.Render(DateFormats.Iso, env.today)
  }

  /** The load date of the stages after the transform: today's `YYYY-MM-DD`
      when none is given; a given text is used as it is, without validation. */
  function LoadDateText(env: Env, loadDate: Option<string>): string
    requires EnvValid(env)
  {
    if loadDate.None? then TodayText(env) else loadDate.value
  }

  /** An argument of a stored-procedure call. */
  datatype Arg = Str(s: string) | Num(n: int)

  /** Work a stage hands to an external capability. */
  datatype Action =
    | Scrape(from: string, to: string)
    | Probe(path: string)
    | BulkLoad(path: string)
    | CallProcedure(args: seq<Arg>)
    | LoadJobs(date: string)

  datatype Mail = SuccessMail | FailureMail

  /** What an entry function returns normally. */
  datatype Value = Nothing | Path(path: string) | Count(n: int)

  /** How an entry function ends: a normal return, `sys.exit(code)`, or an
      exception that escapes it. */
  datatype Outcome = Returned(value: Value) | Exited(code: int) | Raised(error: string)

  /** The observable effects of one run, in the order they happen within each kind. */
  datatype Run = Run(
    lookups: seq<(string, string)>,
    appended: seq<Entry>,
    work: seq<Action>,
    mails: seq<Mail>,
    outcome: Outcome)

  /** A run that stops with no log write and no work. */
  function Quiet(lookups: seq<(string, string)>, outcome: Outcome): Run {
    Run(lookups, [], [], [], outcome)
  }

  /** `if SEND_TO_EMAIL: send_email(...)`. */
  function MailIf(sendTo: Option<string>, m: Mail): seq<Mail> {
    if Truthy(sendTo) then [m] else []
  }

  /** The process exit status a scheduler sees. */
  function ExitStatus(o: Outcome): int {
    match o
    case Returned(_) => 0
    case Exited(c) => c
    case Raised(_) => 1
  }

  // ------------------------------------------------------------------
  // The generic gate of a stage.

  /** The four things a stage can decide before doing any work. */
  datatype Decision = Abort | AlreadyDone | Skip | Proceed

  /** One stage's gate configuration: the upstream process and the codes it
      accepts from it, the upstream code that turns into a skip, whether an
      absent status is looked up again at the target date, and the codes of
      its own that count as done. */
  datatype Gate = Gate(
    upstream: string,
    accepted: set<string>,
    skipOn: Option<string>,
    fallback: bool,
    self: string,
    done: set<string>)

  /** The upstream status a stage sees: read at `checkDate`; with fallback,
      read again at `targetDate` when the first read found nothing (or the
      text "Null") and the two dates differ. */
  function UpstreamStatus(g: Gate, log: StatusLog, checkDate: string, targetDate: string): Option<string> {
    var first := Lookup(log, g.upstream, checkDate);
    if g.fallback && (first.None? || first == Some("Null")) && targetDate != checkDate
    then Lookup(log, g.upstream, targetDate)
    else first
  }

  /** An upstream status the gate lets through. */
  predicate Accepted(g: Gate, up: Option<string>) {
    up.Some? && up.value in g.accepted
  }

  /** The decision of a stage's gates, the reference every stage's entry
      function is proved against. Force bypasses both gates. */
  function Decide(g: Gate, log: StatusLog, checkDate: string, targetDate: string, force: bool): (d: Decision)
    ensures force ==> d == Proceed
    ensures d == Skip ==> g.skipOn.Some? && UpstreamStatus(g, log, checkDate, targetDate) == g.skipOn
    // the upstream gate comes first: a missing status aborts, and so does any
    // status that is neither the skip code nor an accepted one
    ensures !force && UpstreamStatus(g, log, checkDate, targetDate) == None ==> d == Abort
    ensures (!force && !(g.skipOn.Some? && UpstreamStatus(g, log, checkDate, targetDate) == g.skipOn)
             && !Accepted(g, UpstreamStatus(g, log, checkDate, targetDate))) ==> d == Abort
    ensures !force && g.skipOn.Some? && UpstreamStatus(g, log, checkDate, targetDate) == g.skipOn ==> d == Skip
    // the self gate only counts past the upstream gate: then a done own
    // status stops the run and anything else lets it proceed
    ensures (!force && !(g.skipOn.Some? && UpstreamStatus(g, log, checkDate, targetDate) == g.skipOn)
             && Accepted(g, UpstreamStatus(g, log, checkDate, targetDate))) ==>
      (d == AlreadyDone <==> Lookup(log, g.self, checkDate).Some? && Lookup(log, g.self, checkDate).value in g.done)
      && (d == AlreadyDone || d == Proceed)
    ensures d == AlreadyDone ==> Lookup(log, g.self, checkDate).Some? && Lookup(log, g.self, checkDate).value in g.done
    ensures d == Proceed && !force ==> Accepted(g, UpstreamStatus(g, log, checkDate, targetDate))
  {
    if force then Proceed
    else
      var up := UpstreamStatus(g, log, checkDate, targetDate);
      var own := Lookup(log, g.self, checkDate);
      if g.skipOn.Some? && up == g.skipOn then Skip
      else if !Accepted(g, up) then Abort
      else if own.Some? && own.value in g.done then AlreadyDone
      else Proceed
  }

  /** The status vocabulary of a stage: its optional running marker and its terminal codes. */
  datatype Vocabulary = Vocabulary(running: Option<string>, terminal: set<string>)

  /** The appends of a run that did its work: all under one process name,
      an optional open running marker, then exactly one closed terminal entry. */
  predicate FollowsProtocol(v: Vocabulary, process: string, es: seq<Entry>) {
    && (forall i :: 0 <= i < |es| ==> es[i].process == process)
    && (|es| == 1 || |es| == 2)
    && es[|es| - 1].status in v.terminal
    && es[|es| - 1].endTime.Some?
    && (|es| == 2 ==> v.running.Some? && es[0].status == v.running.value && es[0].endTime.None?)
  }

  // ------------------------------------------------------------------
  // How appended entries become visible to later lookups.

  /** The lookup after `es` were appended on day `date`, under the assumption
      that the lookup reports the latest status appended for a process on
      that day. */
  function Record(log: StatusLog, date: string, es: seq<Entry>): StatusLog
    decreases |es|
  {
    if |es| == 0 then log else Record(log[(es[0].process, date) := es[0].status], date, es[1..])
  }

  /** After a run's appends, the run's own process shows its last status and
      every other key is untouched. */
  lemma {:induction false} RecordLatest(log: StatusLog, date: string, es: seq<Entry>, process: string)
    requires |es| > 0
    requires forall i :: 0 <= i < |es| ==> es[i].process == process
    ensures Lookup(Record(log, date, es), process, date) == Some(es[|es| - 1].status)
    ensures forall p, d :: (p, d) != (process, date) ==> Lookup(Record(log, date, es), p, d) == Lookup(log, p, d)
    decreases |es|
  {
    var log' := log[(es[0].process, date) := es[0].status];
    if |es| > 1 {
      RecordLatest(log', date, es[1..], process);
    }
  }

  /** A run of the upstream stage hands over through its last status: on
      that day the next stage skips on its skip code, aborts on a code it
      does not accept, and otherwise proceeds unless its own status is done. */
  lemma UpstreamRunDecides(g: Gate, log: StatusLog, date: string, target: string, es: seq<Entry>)
    requires |es| > 0 && es[|es| - 1].status != "Null"
    requires forall i :: 0 <= i < |es| ==> es[i].process == g.upstream
    requires g.upstream != g.self
    ensures var last := es[|es| - 1].status;
      var own := Lookup(log, g.self, date);
      Decide(g, Record(log, date, es), date, target, false) ==
        if g.skipOn == Some(last) then Skip
        else if last !in g.accepted then Abort
        else if own.Some? && own.value in g.done then AlreadyDone
        else Proceed
  {
    RecordLatest(log, date, es, g.upstream);
  }

  /** A stage's own run decides its rerun on that day through its last
      status, while the upstream status it sees stays what it was. */
  lemma OwnRunDecides(g: Gate, log: StatusLog, date: string, target: string, es: seq<Entry>)
    requires |es| > 0
    requires forall i :: 0 <= i < |es| ==> es[i].process == g.self
    requires g.upstream != g.self
    ensures var up := UpstreamStatus(g, log, date, target);
      Decide(g, Record(log, date, es), date, target, false) ==
        if g.skipOn.Some? && up == g.skipOn then Skip
        else if !Accepted(g, up) then Abort
        else if es[|es| - 1].status in g.done then AlreadyDone
        else Proceed
  {
    RecordLatest(log, date, es, g.self);
  }

  /** Appends written on one day leave every lookup of another day as it was. */
  lemma {:induction false} RecordOtherDay(log: StatusLog, date: string, es: seq<Entry>, process: string, day: string)
    requires day != date
    ensures Lookup(Record(log, date, es), process, day) == Lookup(log, process, day)
    decreases |es|
  {
    if |es| > 0 {
      RecordOtherDay(log[(es[0].process, date) := es[0].status], date, es[1..], process, day);
    }
  }

  /** A gate that reads the log at other days than the one a run was
      written on decides after the run as it did before. */
  lemma OtherDayDecides(g: Gate, log: StatusLog, date: string, checkDate: string, targetDate: string,
                        es: seq<Entry>, force: bool)
    requires checkDate != date && targetDate != date
    ensures Decide(g, Record(log, date, es), checkDate, targetDate, force) == Decide(g, log, checkDate, targetDate, force)
  {
    RecordOtherDay(log, date, es, g.upstream, checkDate);
    RecordOtherDay(log, date, es, g.upstream, targetDate);
    RecordOtherDay(log, date, es, g.self, checkDate);
  }
}
