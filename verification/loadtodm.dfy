/** The data-mart stage (scripts/load_to_dm.py): the aggregate-insert gate
    and the own-status gate at the load date, the export from the
    warehouse, and the ordered three-file load into the report tables of the
    mart. Each report table is replaced: TRUNCATE, then LOAD DATA. One IF or
    IS entry ends the run. */
module LoadToDm {
  import opened Base
  import opened ProcessLog
  import opened TempFiles
  import opened ExportLoad

  const ProcessName := "load_to_dm"
  const PrevProcess := "insert_aggre_data"
  const ProcessId := 6

  /** The stage's constants: the aggregate insert must report IS; its own
      IF, IR or IS stops a rerun. */
  const DmStage := Stage(ProcessName, ProcessId, PrevProcess, "IS", {"IF", "IR", "IS"}, "IS", "IF")

  /** The job list, in the order the loader runs it. */
  function Jobs(d: string): seq<Job> {
    [ Job("export_product_" + d + ".csv", "rpt_product_price_summary"),
      Job("export_province_" + d + ".csv", "rpt_province_price_summary"),
      Job("export_weekly_" + d + ".csv", "rpt_weekly_price_trend") ]
  }

  /** A job that runs to the end: its CSV exists, its table truncates and
      the CSV loads. */
  predicate Completes(job: Job, folder: Folder, truncateFaults: map<string, string>) {
    Loadable(job, folder) && job.table !in truncateFaults
  }

  /** The job loop. `truncateFaults` maps a table to the error its TRUNCATE
      raises. A missing CSV or a failing TRUNCATE stops the loop before the
      table is touched; a failing LOAD stops it after the TRUNCATE, which
      MySQL commits implicitly, so the rollback leaves that table empty. */
  function RunMartJobs(jobs: seq<Job>, d: string, dir: string, folder: Folder, tables: Tables,
                       truncateFaults: map<string, string>, total: int): (r: LoadReport)
    ensures r.started <= |jobs|
    ensures |jobs| > 0 ==> r.started >= 1
    ensures r.ok <==> r.error.None?
    ensures r.ok ==>
      && r.started == |jobs|
      && forall j :: 0 <= j < |jobs| ==> Completes(jobs[j], folder, truncateFaults)
    ensures !r.ok ==> r.total == 0 && r.started >= 1
    ensures !r.ok ==>
      var failing := jobs[r.started - 1];
      && (forall j :: 0 <= j < r.started - 1 ==> Completes(jobs[j], folder, truncateFaults))
      && !Completes(failing, folder, truncateFaults)
      && (failing.csv !in folder ==> r.error == Some("CSV file not found: " + Join(dir, failing.csv)))
      && (failing.csv in folder && failing.table in truncateFaults ==>
            r.error == Some("Truncate failed for " + failing.table + ": " + truncateFaults[failing.table]))
      // the truncation of a table whose LOAD fails is not undone
      && (failing.csv in folder && failing.table !in truncateFaults ==>
            r.error == Some("Load failed: " + folder[failing.csv].error) && TableRows(r.tables, failing.table) == [])
    decreases |jobs|
  {
    if |jobs| == 0 then LoadReport(true, total, None, tables, 0)
    else
      var job := jobs[0];
      if job.csv !in folder then
        LoadReport(false, 0, Some("CSV file not found: " + Join(dir, job.csv)), tables, 1)
      else if job.table in truncateFaults then
        LoadReport(false, 0, Some("Truncate failed for " + job.table + ": " + truncateFaults[job.table]), tables, 1)
      else
        match folder[job.csv]
        case Unloadable(e) => LoadReport(false, 0, Some("Load failed: " + e), tables[job.table := []], 1)
        case Csv(rows) =>
          var rest := RunMartJobs(jobs[1..], d, dir, folder, tables[job.table := rows], truncateFaults,
                                  total + |KeepDate(rows, d)|);
          rest.(started := rest.started + 1)
  }

  /** Tables that no started job targets are untouched: a job after the one
      that stops the loop never runs. (The stopping job's own table may be
      left truncated.) */
  lemma {:induction false} MartJobsFrame(jobs: seq<Job>, d: string, dir: string, folder: Folder, tables: Tables,
                                         truncateFaults: map<string, string>, total: int, t: string)
    requires forall j :: 0 <= j < RunMartJobs(jobs, d, dir, folder, tables, truncateFaults, total).started ==>
      jobs[j].table != t
    ensures TableRows(RunMartJobs(jobs, d, dir, folder, tables, truncateFaults, total).tables, t) == TableRows(tables, t)
    decreases |jobs|
  {
    if |jobs| > 0 {
      assert jobs[0].table != t;
    }
    if |jobs| > 0 && Completes(jobs[0], folder, truncateFaults) {
      var job := jobs[0];
      var rows := folder[job.csv].rows;
      var tables', total' := tables[job.table := rows], total + |KeepDate(rows, d)|;
      var rest := RunMartJobs(jobs[1..], d, dir, folder, tables', truncateFaults, total');
      assert RunMartJobs(jobs, d, dir, folder, tables, truncateFaults, total) == rest.(started := rest.started + 1);
      forall j | 0 <= j < rest.started
        ensures jobs[1..][j].table != t
      {
        assert jobs[1..][j] == jobs[j + 1];
      }
      MartJobsFrame(jobs[1..], d, dir, folder, tables', truncateFaults, total', t);
    } else if |jobs| > 0 {
      MartStopFrame(jobs, d, dir, folder, tables, truncateFaults, total, t);
    }
  }

  /** A job that does not complete stops the loop touching at most its own table. */
  lemma MartStopFrame(jobs: seq<Job>, d: string, dir: string, folder: Folder, tables: Tables,
                      truncateFaults: map<string, string>, total: int, t: string)
    requires |jobs| > 0 && !Completes(jobs[0], folder, truncateFaults) && jobs[0].table != t
    ensures TableRows(RunMartJobs(jobs, d, dir, folder, tables, truncateFaults, total).tables, t) == TableRows(tables, t)
  {
  }

  /** The sum of the load date's row counts over the jobs' tables in `tables`. */
  function SumDated(jobs: seq<Job>, d: string, tables: Tables): int {
    if |jobs| == 0 then 0 else |KeepDate(TableRows(tables, jobs[0].table), d)| + SumDated(jobs[1..], d, tables)
  }

  /** After a successful run over distinct tables, every report table is
      exactly its CSV, whatever it held before, and the total is the
      accumulated count plus the load date's rows of those tables. */
  lemma {:induction false} MartJobsReplace(jobs: seq<Job>, d: string, dir: string, folder: Folder, tables: Tables,
                                           truncateFaults: map<string, string>, total: int)
    requires DistinctTables(jobs)
    requires RunMartJobs(jobs, d, dir, folder, tables, truncateFaults, total).ok
    ensures var r := RunMartJobs(jobs, d, dir, folder, tables, truncateFaults, total);
      && (forall j :: 0 <= j < |jobs| ==> TableRows(r.tables, jobs[j].table) == folder[jobs[j].csv].rows)
      && r.total == total + SumDated(jobs, d, r.tables)
    decreases |jobs|
  {
    if |jobs| > 0 {
      var job := jobs[0];
      var rows := folder[job.csv].rows;
      var tables' := tables[job.table := rows];
      var total' := total + |KeepDate(rows, d)|;
      var rest := jobs[1..];
      assert DistinctTables(rest);
      MartJobsReplace(rest, d, dir, folder, tables', truncateFaults, total');
      MartJobsFrame(rest, d, dir, folder, tables', truncateFaults, total', job.table);
      var r := RunMartJobs(jobs, d, dir, folder, tables, truncateFaults, total);
      assert TableRows(r.tables, job.table) == rows;
      forall j | 0 <= j < |jobs|
        ensures TableRows(r.tables, jobs[j].table) == folder[jobs[j].csv].rows
      {
        if j > 0 {
          assert jobs[j] == rest[j - 1];
        }
      }
    }
  }

  /** Loading the same folder again changes no table: the mart holds a
      snapshot of the exported files, unlike the warehouse, whose dimension
      tables grow on every load. */
  lemma MartRerunSame(jobs: seq<Job>, d: string, dir: string, folder: Folder, tables: Tables,
                      truncateFaults: map<string, string>, t: string)
    requires DistinctTables(jobs)
    requires RunMartJobs(jobs, d, dir, folder, tables, truncateFaults, 0).ok
    ensures var first := RunMartJobs(jobs, d, dir, folder, tables, truncateFaults, 0);
      var second := RunMartJobs(jobs, d, dir, folder, first.tables, truncateFaults, 0);
      && second.ok && second.total == first.total
      && TableRows(second.tables, t) == TableRows(first.tables, t)
  {
    var first := RunMartJobs(jobs, d, dir, folder, tables, truncateFaults, 0);
    var second := RunMartJobs(jobs, d, dir, folder, first.tables, truncateFaults, 0);
    MartJobsReplace(jobs, d, dir, folder, tables, truncateFaults, 0);
    MartJobsReplace(jobs, d, dir, folder, first.tables, truncateFaults, 0);
    SumDatedAgree(jobs, d, first.tables, second.tables);
    if j :| 0 <= j < |jobs| && jobs[j].table == t {
      assert TableRows(second.tables, t) == folder[jobs[j].csv].rows;
    } else {
      MartJobsFrame(jobs, d, dir, folder, tables, truncateFaults, 0, t);
      MartJobsFrame(jobs, d, dir, folder, first.tables, truncateFaults, 0, t);
    }
  }

  /** Sums over tables that agree on every job's table are equal. */
  lemma {:induction false} SumDatedAgree(jobs: seq<Job>, d: string, a: Tables, b: Tables)
    requires forall j :: 0 <= j < |jobs| ==> TableRows(a, jobs[j].table) == TableRows(b, jobs[j].table)
    ensures SumDated(jobs, d, a) == SumDated(jobs, d, b)
    decreases |jobs|
  {
    if |jobs| > 0 {
      SumDatedAgree(jobs[1..], d, a, b);
    }
  }

  /** `load_to_mart(load_date)` over the temp folder; `connectError` is a
      failure to connect to the mart. */
  function LoadToMart(d: string, dir: string, folder: Folder, tables: Tables,
                      truncateFaults: map<string, string>, connectError: Option<string>): LoadReport {
    if connectError.Some? then LoadReport(false, 0, Some("Load failed: " + connectError.value), tables, 0)
    else RunMartJobs(Jobs(d), d, dir, folder, tables, truncateFaults, 0)
  }

  /** On success the three report tables are exactly the three CSVs and the
      total is the load date's rows of the three. */
  lemma LoadToMartSummary(d: string, dir: string, folder: Folder, tables: Tables,
                          truncateFaults: map<string, string>, connectError: Option<string>)
    requires LoadToMart(d, dir, folder, tables, truncateFaults, connectError).ok
    ensures var r := LoadToMart(d, dir, folder, tables, truncateFaults, connectError);
      var js := Jobs(d);
      && TableRows(r.tables, "rpt_product_price_summary") == folder[js[0].csv].rows
      && TableRows(r.tables, "rpt_province_price_summary") == folder[js[1].csv].rows
      && TableRows(r.tables, "rpt_weekly_price_trend") == folder[js[2].csv].rows
      && r.total == |KeepDate(folder[js[0].csv].rows, d)| + |KeepDate(folder[js[1].csv].rows, d)|
                    + |KeepDate(folder[js[2].csv].rows, d)|
  {
    var js := Jobs(d);
    assert DistinctTables(js);
    MartJobsReplace(js, d, dir, folder, tables, truncateFaults, 0);
    var r := RunMartJobs(js, d, dir, folder, tables, truncateFaults, 0);
    assert js[1..][1..][1..] == [];
    assert js[1..][0] == js[1] && js[1..][1..][0] == js[2];
    assert SumDated(js[1..][1..], d, r.tables) == |KeepDate(TableRows(r.tables, js[2].table), d)|;
  }

  /** A second file that fails to load, after the first loaded: the first
      table holds its CSV, the second is left truncated, the third is
      untouched, and the total is 0. */
  lemma SecondLoadFails(d: string, dir: string, folder: Folder, tables: Tables, truncateFaults: map<string, string>)
    requires Completes(Jobs(d)[0], folder, truncateFaults)
    requires Jobs(d)[1].csv in folder && folder[Jobs(d)[1].csv].Unloadable?
    requires Jobs(d)[1].table !in truncateFaults
    ensures var r := LoadToMart(d, dir, folder, tables, truncateFaults, None);
      && !r.ok && r.total == 0 && r.started == 2
      && TableRows(r.tables, "rpt_product_price_summary") == folder[Jobs(d)[0].csv].rows
      && TableRows(r.tables, "rpt_province_price_summary") == []
      && TableRows(r.tables, "rpt_weekly_price_trend") == TableRows(tables, "rpt_weekly_price_trend")
  {
    var js := Jobs(d);
    var rows := folder[js[0].csv].rows;
    var tables' := tables[js[0].table := rows];
    assert js[1..][0] == js[1];
    assert RunMartJobs(js[1..], d, dir, folder, tables', truncateFaults, |KeepDate(rows, d)|)
           == LoadReport(false, 0, Some("Load failed: " + folder[js[1].csv].error), tables'[js[1].table := []], 1);
  }

  /** `run_full_process(load_date, clean, force_run)` of the mart loader.
      `dir` is the temp folder's path, `folder` its files before the run,
      `tables` the mart's tables. */
  function RunLoadToDm(env: Env, loadDate: Option<string>, clean: int, force: bool, dir: string, folder: Folder,
                       exp: ExportResult, tables: Tables, truncateFaults: map<string, string>,
                       connectError: Option<string>): (r: Run)
    requires EnvValid(env)
    // every entry is appended under the stage's own process name
    ensures forall i :: 0 <= i < |r.appended| ==> r.appended[i].process == ProcessName
    ensures r.outcome == Returned(Nothing)
    ensures env.readFault.None? ==>
      var d := LoadDateText(env, loadDate);
      var prev := Lookup(env.log, PrevProcess, d);
      var own := Lookup(env.log, ProcessName, d);
      // an insert status other than IS, or an own IF, IR or IS, stops without force
      && (!force && (prev != Some("IS") || (own.Some? && own.value in {"IF", "IR", "IS"})) ==>
            r.appended == [] && r.work == [])
      // otherwise: IF when the export fails (counts 0, 0)
      && (Proceeds(DmStage, env.log, d, force) && exp.ExportFailed? ==>
            && |r.appended| == 1 && r.appended[0].status == "IF"
            && r.appended[0].extracted == Some(0) && r.appended[0].loaded == Some(0))
      // IF with the exported count when the load fails, IS with both counts when it succeeds
      && (Proceeds(DmStage, env.log, d, force) && exp.Exported? ==>
            var rep := LoadToMart(d, dir, Clean(folder, d, clean) + exp.produced, tables, truncateFaults, connectError);
            && |r.appended| == 1 && r.appended[0].status == (if rep.ok then "IS" else "IF")
            && r.appended[0].extracted == Some(exp.count)
            && r.appended[0].loaded == Some(if rep.ok then rep.total else 0))
    ensures env.readFault.Some? ==>
      |r.appended| == 1 && r.appended[0].status == "IF" && r.appended[0].loaded == None
  {
    RunExportLoad(DmStage, env, loadDate, clean, force, folder, exp,
                  (d, f) => LoadToMart(d, dir, f, tables, truncateFaults, connectError))
  }

  /** The stage's gate is the generic gate with the insert dependency and
      IF, IR, IS as its own done codes. */
  lemma GateConformance(env: Env, loadDate: Option<string>, clean: int, force: bool, dir: string, folder: Folder,
                        exp: ExportResult, tables: Tables, truncateFaults: map<string, string>,
                        connectError: Option<string>)
    requires EnvValid(env) && env.readFault.None?
    ensures var d := LoadDateText(env, loadDate);
      var r := RunLoadToDm(env, loadDate, clean, force, dir, folder, exp, tables, truncateFaults, connectError);
      match Decide(Gate(PrevProcess, {"IS"}, None, false, ProcessName, {"IF", "IR", "IS"}), env.log, d, d, force)
      case Abort => r.appended == [] && r.work == []
      case AlreadyDone => r.appended == [] && r.work == []
      case Skip => false
      case Proceed => FollowsProtocol(Vocabulary(None, {"IS", "IF"}), ProcessName, r.appended) && |r.work| >= 1
  {
    ExportLoad.GateConformance(DmStage, env, loadDate, clean, force, folder, exp,
                               (d, f) => LoadToMart(d, dir, f, tables, truncateFaults, connectError));
  }
}
