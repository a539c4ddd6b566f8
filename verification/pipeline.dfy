/** How the six stages fit together: the file the crawler saves is the file
    the staging loader looks for, each stage's success code is the code the
    next stage's gate accepts under the matching process name, and the self
    gates stop or allow a rerun on the same day as each script says.

    A stage's appends become visible to later lookups through `Record`. An
    entry carries only clock readings, so it is filed under the day the run
    happens, whatever load date the run was for; the lookup for a
    (process, day) reports the latest status appended that day. A later
    stage that gates on another load date therefore still sees what it saw
    before the run. */
module Pipeline {
  import opened Base
  import opened Numerals
  import opened Calendar
  import opened DateFormats
  import opened ProcessLog
  import opened TempFiles
  import opened ExportLoad
  import Extract
  import LoadStaging
  import Transform
  import LoadToDw
  import InsertAggregate
  import LoadToDm

  // ------------------------------------------------------------------
  // A run is filed under today, whatever its load date.

  /** After an upstream run filed under today, the next stage's gate at load
      date `d` hands over through the run's last status when `d` is today,
      and decides as before otherwise. */
  lemma UpstreamRunAt(g: Gate, env: Env, d: string, es: seq<Entry>)
    requires EnvValid(env)
    requires |es| > 0 && es[|es| - 1].status != "Null"
    requires forall i :: 0 <= i < |es| ==> es[i].process == g.upstream
    requires g.upstream != g.self
    ensures var last := es[|es| - 1].status;
      var own := Lookup(env.log, g.self, d);
      var next := Decide(g, Record(env.log, TodayText(env), es), d, d, false);
      && (d == TodayText(env) ==>
            next == if g.skipOn == Some(last) then Skip
                    else if last !in g.accepted then Abort
                    else if own.Some? && own.value in g.done then AlreadyDone
                    else Proceed)
      && (d != TodayText(env) ==> next == Decide(g, env.log, d, d, false))
  {
    if d == TodayText(env) {
      UpstreamRunDecides(g, env.log, d, d, es);
    } else {
      OtherDayDecides(g, env.log, TodayText(env), d, d, es, false);
    }
  }

  /** After a stage's own run filed under today, its rerun gate at load date
      `d` stops exactly on a done last status when `d` is today (the
      upstream status being accepted), and decides as before otherwise. */
  lemma OwnRunAt(g: Gate, env: Env, d: string, es: seq<Entry>)
    requires EnvValid(env)
    requires |es| > 0
    requires forall i :: 0 <= i < |es| ==> es[i].process == g.self
    requires g.upstream != g.self && g.skipOn.None? && Accepted(g, UpstreamStatus(g, env.log, d, d))
    ensures var again := Decide(g, Record(env.log, TodayText(env), es), d, d, false);
      && (d == TodayText(env) ==> again == if es[|es| - 1].status in g.done then AlreadyDone else Proceed)
      && (d != TodayText(env) ==> again == Decide(g, env.log, d, d, false))
  {
    if d == TodayText(env) {
      OwnRunDecides(g, env.log, d, d, es);
    } else {
      OtherDayDecides(g, env.log, TodayText(env), d, d, es, false);
    }
  }

  // ------------------------------------------------------------------
  // The crawler's file and the staging loader's file.

  /** Replacing the slashes of a `dd/mm/YYYY` rendering gives the
      `dd-mm-YYYY` rendering of the same date. */
  lemma SlashToDash(d: Date)
    requires Valid(d)
    ensures Replace(Render(SlashDmy, d), '/', '-') == Render(DashDmy, d)
  {
    var y := Pad(d.year, 4);
    var m := Pad(d.month, 2);
    var dd := Pad(d.day, 2);
    var slash := Render(SlashDmy, d);
    var dash := Render(DashDmy, d);
    assert slash == dd + "/" + m + "/" + y;
    assert dash == dd + "-" + m + "-" + y;
    forall i | 0 <= i < 10
      ensures Replace(slash, '/', '-')[i] == dash[i]
    {
      if i < 2 {
        assert slash[i] == dd[i] && dash[i] == dd[i];
      } else if 3 <= i < 5 {
        assert slash[i] == m[i - 3] && dash[i] == m[i - 3];
      } else if 6 <= i {
        assert slash[i] == y[i - 6] && dash[i] == y[i - 6];
      }
    }
  }

  /** For the same target, the crawler and the staging loader agree on the
      date (the staging loader tries `%Y-%m-%d` first), on whether the
      window exists, and on the CSV: the path a successful crawl returns is
      the path the staging loader probes. */
  lemma CrawlFileIsStagingFile(env: Env, target: Option<string>, stagingDir: Option<string>, n: nat)
    requires EnvValid(env) && Extract.TargetDate(env, target).Some?
    ensures LoadStaging.TargetDate(env, target) == Extract.TargetDate(env, target)
    ensures var d := Extract.TargetDate(env, target).value;
      && (Extract.Window(d).Some? <==> LoadStaging.CsvName(d).Some?)
      && (Extract.Window(d).Some? ==>
            && Extract.CsvName(Extract.Window(d).value.0, Extract.Window(d).value.1) == LoadStaging.CsvName(d).value
            && Extract.RunCrawling(env, target, false, stagingDir, Extract.Saved(n)).outcome
                 == Returned(Path(Join(OrDefault(stagingDir, LoadStaging.DefaultStagingDir), LoadStaging.CsvName(d).value))))
  {
    var d := Extract.TargetDate(env, target).value;
    if MinusDays(d, Extract.WindowDays).Some? {
      SlashToDash(MinusDays(d, Extract.WindowDays).value);
      SlashToDash(d);
    }
  }

  // ------------------------------------------------------------------
  // Success codes open the next gate.

  /** After a crawl today, the staging gate proceeds on CS, skips on CND and
      aborts on CF, whatever the target date. */
  lemma CrawlToStaging(env: Env, target: Option<string>, stagingDir: Option<string>, crawl: Extract.CrawlResult,
                       tgt: string)
    requires EnvValid(env)
    requires Extract.TargetDate(env, target).Some? && Extract.Window(Extract.TargetDate(env, target).value).Some?
    ensures var r := Extract.RunCrawling(env, target, false, stagingDir, crawl);
      var log' := Record(env.log, TodayText(env), r.appended);
      var next := Decide(LoadStaging.StageGate, log', TodayText(env), tgt, false);
      && (crawl.Saved? ==> next == Proceed)
      && (crawl.NoData? ==> next == Skip)
      && (crawl.CrawlFailed? ==> next == Abort)
  {
    var r := Extract.RunCrawling(env, target, false, stagingDir, crawl);
    UpstreamRunDecides(LoadStaging.StageGate, env.log, TodayText(env), tgt, r.appended);
  }

  /** A staging run that ends in LS opens the transform gate for today,
      unless the transform already reported TS today. */
  lemma StagingToTransform(env: Env, target: Option<string>, force: bool, stagingDir: Option<string>,
                           files: set<string>, db: LoadStaging.DbLoad)
    requires EnvValid(env)
    requires var r := LoadStaging.RunLoadStaging(env, target, force, stagingDir, files, db);
      |r.appended| > 0 && r.appended[|r.appended| - 1].status == "LS"
    requires Lookup(env.log, Transform.ProcessName, TodayText(env)) != Some("TS")
    ensures var r := LoadStaging.RunLoadStaging(env, target, force, stagingDir, files, db);
      var log' := Record(env.log, TodayText(env), r.appended);
      Decide(Transform.StageGate, log', TodayText(env), TodayText(env), false) == Proceed
  {
    var r := LoadStaging.RunLoadStaging(env, target, force, stagingDir, files, db);
    UpstreamRunDecides(Transform.StageGate, env.log, TodayText(env), TodayText(env), r.appended);
  }

  /** A transform run that ends in TS opens the warehouse gate for a run
      without a load date (today), unless the warehouse loader's own status
      today is TF, TR or TS. */
  lemma TransformToDw(env: Env, loadDate: Option<string>, force: bool, proc: Transform.ProcResult)
    requires EnvValid(env)
    requires var r := Transform.RunTransform(env, loadDate, force, proc);
      |r.appended| > 0 && r.appended[|r.appended| - 1].status == "TS"
    requires var own := Lookup(env.log, LoadToDw.ProcessName, TodayText(env));
      !(own.Some? && own.value in {"TF", "TR", "TS"})
    ensures var r := Transform.RunTransform(env, loadDate, force, proc);
      var log' := Record(env.log, TodayText(env), r.appended);
      Decide(GateOf(LoadToDw.DwStage), log', LoadDateText(env, None), LoadDateText(env, None), false) == Proceed
  {
    var r := Transform.RunTransform(env, loadDate, force, proc);
    UpstreamRunDecides(GateOf(LoadToDw.DwStage), env.log, TodayText(env), TodayText(env), r.appended);
  }

  /** A warehouse run that ends in LS opens the aggregate-insert gate when
      its load date is today, unless the insert's own status is TO, TR, TS
      or IS; for another load date the insert's gate decides as before. */
  lemma DwToInsert(env: Env, loadDate: Option<string>, clean: int, force: bool, dir: string, folder: Folder,
                   exp: ExportResult, tables: Tables, connectError: Option<string>)
    requires EnvValid(env)
    requires var r := LoadToDw.RunLoadToDw(env, loadDate, clean, force, dir, folder, exp, tables, connectError);
      |r.appended| > 0 && r.appended[|r.appended| - 1].status == "LS"
    requires var own := Lookup(env.log, InsertAggregate.ProcessName, LoadDateText(env, loadDate));
      !(own.Some? && own.value in InsertAggregate.DoneCodes)
    ensures var r := LoadToDw.RunLoadToDw(env, loadDate, clean, force, dir, folder, exp, tables, connectError);
      var d := LoadDateText(env, loadDate);
      var log' := Record(env.log, TodayText(env), r.appended);
      && (d == TodayText(env) ==> Decide(InsertAggregate.StageGate, log', d, d, false) == Proceed)
      && (d != TodayText(env) ==>
            Decide(InsertAggregate.StageGate, log', d, d, false) == Decide(InsertAggregate.StageGate, env.log, d, d, false))
  {
    var r := LoadToDw.RunLoadToDw(env, loadDate, clean, force, dir, folder, exp, tables, connectError);
    UpstreamRunAt(InsertAggregate.StageGate, env, LoadDateText(env, loadDate), r.appended);
  }

  /** An insert run that ends in IS opens the data-mart gate when its load
      date is today, unless the mart loader's own status is IF, IR or IS;
      for another load date the mart's gate decides as before. */
  lemma InsertToDm(env: Env, loadDate: Option<string>, clean: int, force: bool, proc: InsertAggregate.InsertResult)
    requires EnvValid(env)
    requires var r := InsertAggregate.RunInsert(env, loadDate, clean, force, proc);
      |r.appended| > 0 && r.appended[|r.appended| - 1].status == "IS"
    requires var own := Lookup(env.log, LoadToDm.ProcessName, LoadDateText(env, loadDate));
      !(own.Some? && own.value in {"IF", "IR", "IS"})
    ensures var r := InsertAggregate.RunInsert(env, loadDate, clean, force, proc);
      var d := LoadDateText(env, loadDate);
      var log' := Record(env.log, TodayText(env), r.appended);
      && (d == TodayText(env) ==> Decide(GateOf(LoadToDm.DmStage), log', d, d, false) == Proceed)
      && (d != TodayText(env) ==>
            Decide(GateOf(LoadToDm.DmStage), log', d, d, false) == Decide(GateOf(LoadToDm.DmStage), env.log, d, d, false))
  {
    var r := InsertAggregate.RunInsert(env, loadDate, clean, force, proc);
    UpstreamRunAt(GateOf(LoadToDm.DmStage), env, LoadDateText(env, loadDate), r.appended);
  }

  // ------------------------------------------------------------------
  // Reruns on the same day.

  /** After a TS today, a second transform run without force is stopped
      even though its upstream still reports LS; after a TF it runs again. */
  lemma TransformRerun(env: Env, loadDate: Option<string>, force: bool, proc: Transform.ProcResult)
    requires EnvValid(env)
    requires var r := Transform.RunTransform(env, loadDate, force, proc); |r.appended| > 0
    requires Lookup(env.log, Transform.PrevProcess, TodayText(env)) == Some("LS")
    ensures var r := Transform.RunTransform(env, loadDate, force, proc);
      var log' := Record(env.log, TodayText(env), r.appended);
      var again := Decide(Transform.StageGate, log', TodayText(env), TodayText(env), false);
      && (r.appended[|r.appended| - 1].status == "TS" ==> again == AlreadyDone)
      && (r.appended[|r.appended| - 1].status == "TF" ==> again == Proceed)
  {
    var r := Transform.RunTransform(env, loadDate, force, proc);
    OwnRunDecides(Transform.StageGate, env.log, TodayText(env), TodayText(env), r.appended);
  }

  /** The warehouse loader's own LS or LF never stops a rerun: its self gate
      looks for transform codes, so with the transform still at TS a second
      run today proceeds and loads the dimension tables again. A run for
      another load date is filed under today and changes nothing at that date. */
  lemma DwRerunNotStopped(env: Env, loadDate: Option<string>, clean: int, force: bool, dir: string, folder: Folder,
                          exp: ExportResult, tables: Tables, connectError: Option<string>)
    requires EnvValid(env)
    requires var r := LoadToDw.RunLoadToDw(env, loadDate, clean, force, dir, folder, exp, tables, connectError);
      |r.appended| > 0
    requires Lookup(env.log, LoadToDw.PrevProcess, LoadDateText(env, loadDate)) == Some("TS")
    ensures var r := LoadToDw.RunLoadToDw(env, loadDate, clean, force, dir, folder, exp, tables, connectError);
      var d := LoadDateText(env, loadDate);
      var log' := Record(env.log, TodayText(env), r.appended);
      && (d == TodayText(env) ==> Decide(GateOf(LoadToDw.DwStage), log', d, d, false) == Proceed)
      && (d != TodayText(env) ==>
            Decide(GateOf(LoadToDw.DwStage), log', d, d, false) == Decide(GateOf(LoadToDw.DwStage), env.log, d, d, false))
  {
    var r := LoadToDw.RunLoadToDw(env, loadDate, clean, force, dir, folder, exp, tables, connectError);
    OwnRunAt(GateOf(LoadToDw.DwStage), env, LoadDateText(env, loadDate), r.appended);
  }

  /** A failed insert (IF) may be retried, a successful one (IS) exits 0 on
      a rerun today. A run for another load date is filed under today, so a
      rerun for that date decides as before. */
  lemma InsertRerun(env: Env, loadDate: Option<string>, clean: int, force: bool, proc: InsertAggregate.InsertResult)
    requires EnvValid(env)
    requires var r := InsertAggregate.RunInsert(env, loadDate, clean, force, proc); |r.appended| > 0
    requires Lookup(env.log, InsertAggregate.PrevProcess, LoadDateText(env, loadDate)) == Some("LS")
    ensures var r := InsertAggregate.RunInsert(env, loadDate, clean, force, proc);
      var d := LoadDateText(env, loadDate);
      var log' := Record(env.log, TodayText(env), r.appended);
      var again := Decide(InsertAggregate.StageGate, log', d, d, false);
      && (d == TodayText(env) && r.appended[|r.appended| - 1].status == "IF" ==> again == Proceed)
      && (d == TodayText(env) && r.appended[|r.appended| - 1].status == "IS" ==> again == AlreadyDone)
      && (d != TodayText(env) ==> again == Decide(InsertAggregate.StageGate, env.log, d, d, false))
  {
    var r := InsertAggregate.RunInsert(env, loadDate, clean, force, proc);
    OwnRunAt(InsertAggregate.StageGate, env, LoadDateText(env, loadDate), r.appended);
  }

  /** Unlike the insert, the data-mart loader is stopped by its own IF as
      well as by its IS: a failed mart load needs force to run again today.
      A run for another load date is filed under today, so a rerun for that
      date decides as before. */
  lemma DmRerunStopped(env: Env, loadDate: Option<string>, clean: int, force: bool, dir: string, folder: Folder,
                       exp: ExportResult, tables: Tables, truncateFaults: map<string, string>,
                       connectError: Option<string>)
    requires EnvValid(env)
    requires var r := LoadToDm.RunLoadToDm(env, loadDate, clean, force, dir, folder, exp, tables, truncateFaults, connectError);
      |r.appended| > 0
    requires Lookup(env.log, LoadToDm.PrevProcess, LoadDateText(env, loadDate)) == Some("IS")
    ensures var r := LoadToDm.RunLoadToDm(env, loadDate, clean, force, dir, folder, exp, tables, truncateFaults, connectError);
      var d := LoadDateText(env, loadDate);
      var log' := Record(env.log, TodayText(env), r.appended);
      && (d == TodayText(env) ==> Decide(GateOf(LoadToDm.DmStage), log', d, d, false) == AlreadyDone)
      && (d != TodayText(env) ==>
            Decide(GateOf(LoadToDm.DmStage), log', d, d, false) == Decide(GateOf(LoadToDm.DmStage), env.log, d, d, false))
  {
    var r := LoadToDm.RunLoadToDm(env, loadDate, clean, force, dir, folder, exp, tables, truncateFaults, connectError);
    OwnRunAt(GateOf(LoadToDm.DmStage), env, LoadDateText(env, loadDate), r.appended);
  }
}
