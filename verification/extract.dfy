/** The crawl stage (`run_crawling` in scripts/extract_data.py): resolve the
    target date, compute the seven-day window, append START, run the
    external crawler and append exactly one of CND, CS or CF. The stage has
    no dependency gate and no self gate; the force flag is printed only. */
module Extract {
  import opened Base
  import opened Calendar
  import opened DateFormats
  import opened ProcessLog

  const ProcessName := "crawling"
  const ProcessId := 1
  const WindowDays := 7
  const DefaultStagingDir := "./staging"
  const Codes := Vocabulary(Some("START"), {"CND", "CS", "CF"})

  /** What the external crawler reports for a window: no data, a saved CSV
      with its row count, or an exception. */
  datatype CrawlResult = NoData | Saved(records: nat) | CrawlFailed(error: string)

  /** The name under which the crawler saves the CSV of a window whose ends
      are rendered `dd/mm/YYYY`. */
  function CsvName(startText: string, endText: string): string {
    "nong_san_" + Replace(startText, '/', '-') + "_" + Replace(endText, '/', '-') + ".csv"
  }

  /** The target date: today when the text is missing or empty, otherwise
      its `%Y-%m-%d` parse (`None` when that fails). */
  function TargetDate(env: Env, target: Option<string>): (r: Option<Date>)
    requires EnvValid(env)
    ensures !Truthy(target) ==> r == Some(env.today)
    ensures r.Some? ==> Valid(r.value)
    // a given text is accepted exactly when it is the `%Y-%m-%d` rendering
    // of a valid date, and it is then read as that date
    ensures Truthy(target) && r.Some? ==> Render(Iso, r.value) == target.value
    ensures Truthy(target) ==> forall d :: Valid(d) && Render(Iso, d) == target.value ==> r == Some(d)
  {
    if Truthy(target) then ParseIsRendering(Iso, target.value); Parse(Iso, target.value)
    else Some(env.today)
  }

  /** The window (start, end) as `dd/mm/YYYY` texts: it ends at `d` and
      starts seven days earlier; `None` when the start is before 0001-01-01. */
  function Window(d: Date): Option<(string, string)>
    requires Valid(d)
  {
    match MinusDays(d, WindowDays)
    case None => None
    case Some(s) => Some((Render(SlashDmy, s), Render(SlashDmy, d)))
  }

  /** The window ends at the target date and starts exactly seven days
      earlier: read back with `%d/%m/%Y`, its texts give those two dates. */
  lemma WindowSpan(d: Date)
    requires Valid(d)
    ensures Window(d).None? <==> DayNumber(d) < WindowDays
    ensures Window(d).Some? ==>
      && Parse(SlashDmy, Window(d).value.1) == Some(d)
      && Parse(SlashDmy, Window(d).value.0).Some?
      && DayNumber(Parse(SlashDmy, Window(d).value.0).value) == DayNumber(d) - WindowDays
  {
    ParseRender(SlashDmy, d);
    if MinusDays(d, WindowDays).Some? {
      ParseRender(SlashDmy, MinusDays(d, WindowDays).value);
    }
  }

  /** The run after the window is known: START, the crawl, one terminal entry. */
  function Crawl(env: Env, s: string, e: string, stagingDir: Option<string>, crawl: CrawlResult): (r: Run)
    ensures r.lookups == [] && r.work == [Scrape(s, e)]
    ensures forall i :: 0 <= i < |r.appended| ==> r.appended[i].process == ProcessName
    ensures |r.appended| == 2
    ensures r.appended[0].status == "START" && r.appended[0].endTime == None && r.appended[1].endTime.Some?
    ensures crawl.NoData? ==>
      && r.appended[1].status == "CND"
      && r.appended[1].extracted == Some(0) && r.appended[1].loaded == Some(0) && r.appended[1].transformed == Some(0)
      && r.mails == [] && r.outcome == Returned(Nothing)
    ensures crawl.Saved? ==>
      && r.appended[1].status == "CS" && r.appended[1].extracted == Some(crawl.records)
      && r.mails == [] && r.outcome == Returned(Path(Join(OrDefault(stagingDir, DefaultStagingDir), CsvName(s, e))))
    ensures crawl.CrawlFailed? ==>
      && r.appended[1].status == "CF"
      && r.mails == MailIf(env.sendTo, FailureMail) && r.outcome == Raised(crawl.error)
  {
    var started := Entry(ProcessId, ProcessName, env.start, None, "START", None, None, None,
                         "Range: " + s + "-" + e);
    var work := [Scrape(s, e)];
    match crawl
    case NoData =>
      var msg := "No data found for range " + s + "-" + e;
      Run([], [started, Entry(ProcessId, ProcessName, env.start, Some(env.finish), "CND",
                              Some(0), Some(0), Some(0), msg)],
          work, [], Returned(Nothing))
    case Saved(n) =>
      var name := CsvName(s, e);
      var path := Join(OrDefault(stagingDir, DefaultStagingDir), name);
      Run([], [started, Entry(ProcessId, ProcessName, env.start, Some(env.finish), "CS",
                              Some(n), None, None, "Saved: " + name)],
          work, [], Returned(Path(path)))
    case CrawlFailed(err) =>
      Run([], [started, Entry(ProcessId, ProcessName, env.start, Some(env.finish), "CF",
                              None, None, None, "Crawler Error: " + err)],
          work, MailIf(env.sendTo, FailureMail), Raised(err))
  }

  /** `run_crawling(target_date, force_run)`. `stagingDir` is the
      `STAGING_DIR` parameter and `crawl` what the crawler reports. */
  function RunCrawling(env: Env, target: Option<string>, force: bool, stagingDir: Option<string>,
                       crawl: CrawlResult): (r: Run)
    requires EnvValid(env)
    // every entry is appended under the stage's own process name
    ensures forall i :: 0 <= i < |r.appended| ==> r.appended[i].process == ProcessName
    // no gate: the log is never consulted
    ensures r.lookups == []
    // a bad date text stops before any log write or work
    ensures TargetDate(env, target).None? ==> r == Quiet([], Returned(Nothing))
    // a window starting before year 1 raises before any log write
    ensures TargetDate(env, target).Some? && Window(TargetDate(env, target).value).None? ==>
      r.appended == [] && r.work == [] && r.outcome.Raised?
    ensures TargetDate(env, target).Some? && Window(TargetDate(env, target).value).Some? ==>
      var (s, e) := Window(TargetDate(env, target).value).value;
      && |r.appended| == 2
      && r.appended[0].status == "START" && r.appended[0].endTime == None
      && r.work == [Scrape(s, e)]
      && (crawl.NoData? ==>
            r.appended[1].status == "CND"
            && r.appended[1].extracted == Some(0) && r.appended[1].loaded == Some(0)
            && r.appended[1].transformed == Some(0)
            && r.mails == [] && r.outcome == Returned(Nothing))
      && (crawl.Saved? ==>
            r.appended[1].status == "CS" && r.appended[1].extracted == Some(crawl.records)
            && r.mails == [] && r.outcome == Returned(Path(Join(OrDefault(stagingDir, DefaultStagingDir), CsvName(s, e)))))
      && (crawl.CrawlFailed? ==>
            r.appended[1].status == "CF"
            && r.mails == MailIf(env.sendTo, FailureMail)
            && r.outcome == Raised(crawl.error))
  {
    match TargetDate(env, target)
    case None => Quiet([], Returned(Nothing))
    case Some(d) =>
      match Window(d)
      case None => Quiet([], Raised("date value out of range"))
      case Some((s, e)) => Crawl(env, s, e, stagingDir, crawl)
  }

  /** The force flag never changes what the crawl stage does. */
  lemma ForceIgnored(env: Env, target: Option<string>, stagingDir: Option<string>, crawl: CrawlResult)
    requires EnvValid(env)
    ensures RunCrawling(env, target, true, stagingDir, crawl) == RunCrawling(env, target, false, stagingDir, crawl)
  {
  }

  /** Every crawl that gets a window appends an open START and then exactly
      one closed terminal code of the crawl vocabulary; a failure is never
      absorbed into a zero exit status. */
  lemma CrawlFollowsProtocol(env: Env, target: Option<string>, force: bool, stagingDir: Option<string>,
                             crawl: CrawlResult)
    requires EnvValid(env)
    requires TargetDate(env, target).Some? && Window(TargetDate(env, target).value).Some?
    ensures FollowsProtocol(Codes, ProcessName, RunCrawling(env, target, force, stagingDir, crawl).appended)
    ensures crawl.CrawlFailed? <==> ExitStatus(RunCrawling(env, target, force, stagingDir, crawl).outcome) != 0
  {
  }
}
