/** The warehouse-load stage (scripts/load_to_dw.py): the transform gate
    and the own-status gate at the load date, the export step (clean
    filter, export procedure), the ordered three-file load into the
    warehouse with its fact-delete / dimension-append rule, and one LF or
    LS entry at the end. */
module LoadToDw {
  import opened Base
  import opened ProcessLog
  import opened TempFiles
  import opened ExportLoad

  const ProcessName := "load_to_dw"
  const PrevProcess := "transform"
  const ProcessId := 4

  /** The job list, in the order the loader runs it. */
  function Jobs(d: string): seq<Job> {
    [ Job("export_product_" + d + ".csv", "dim_product"),
      Job("export_province_" + d + ".csv", "dim_province"),
      Job("export_fact_" + d + ".csv", "fact_product_price") ]
  }

  /** A fact table: its lower-cased name contains "fact". */
  predicate IsFact(table: string) {
    Contains(Lower(table), "fact")
  }

  /** The table after one job: a fact table first loses the rows of the load
      date, a dimension table keeps everything; then the CSV rows are appended. */
  function Reloaded(table: string, d: string, prior: seq<Row>, rows: seq<Row>): seq<Row> {
    (if IsFact(table) then DropDate(prior, d) else prior) + rows
  }

  /** The row count after a job: the load date's rows of a fact table, all
      rows of a dimension table. */
  function Counted(table: string, d: string, rows: seq<Row>): int {
    if IsFact(table) then |KeepDate(rows, d)| else |rows|
  }

  /** The job loop. A missing CSV or a failing LOAD stops it at once with a
      zero total; a failing LOAD is rolled back together with its DELETE,
      while the jobs committed before it stay. */
  function RunJobs(jobs: seq<Job>, d: string, dir: string, folder: Folder, tables: Tables, total: int): (r: LoadReport)
    ensures r.started <= |jobs|
    ensures |jobs| > 0 ==> r.started >= 1
    ensures r.ok <==> r.error.None?
    ensures r.ok ==> r.started == |jobs| && forall j :: 0 <= j < |jobs| ==> Loadable(jobs[j], folder)
    ensures !r.ok ==>
      && r.total == 0
      && r.started >= 1
      && (forall j :: 0 <= j < r.started - 1 ==> Loadable(jobs[j], folder))
      && !Loadable(jobs[r.started - 1], folder)
      && (jobs[r.started - 1].csv !in folder ==>
            r.error == Some("CSV file not found: " + Join(dir, jobs[r.started - 1].csv)))
    decreases |jobs|
  {
    if |jobs| == 0 then LoadReport(true, total, None, tables, 0)
    else
      var job := jobs[0];
      if job.csv !in folder then
        LoadReport(false, 0, Some("CSV file not found: " + Join(dir, job.csv)), tables, 1)
      else
        match folder[job.csv]
        case Unloadable(e) => LoadReport(false, 0, Some("Load failed: " + e), tables, 1)
        case Csv(rows) =>
          var after := Reloaded(job.table, d, TableRows(tables, job.table), rows);
          var rest := RunJobs(jobs[1..], d, dir, folder, tables[job.table := after],
                              total + Counted(job.table, d, after));
          rest.(started := rest.started + 1)
  }

  /** The tables after the job loop: each job reloads its table until the
      first job whose CSV is missing or fails to load. */
  function Loaded(jobs: seq<Job>, d: string, folder: Folder, tables: Tables): Tables
    decreases |jobs|
  {
    if |jobs| == 0 || !Loadable(jobs[0], folder) then tables
    else
      var job := jobs[0];
      Loaded(jobs[1..], d, folder, tables[job.table := Reloaded(job.table, d, TableRows(tables, job.table), folder[job.csv].rows)])
  }

  /** The job loop leaves exactly the tables `Loaded` describes. */
  lemma {:induction false} JobsTables(jobs: seq<Job>, d: string, dir: string, folder: Folder, tables: Tables, total: int)
    ensures RunJobs(jobs, d, dir, folder, tables, total).tables == Loaded(jobs, d, folder, tables)
    decreases |jobs|
  {
    if |jobs| > 0 && Loadable(jobs[0], folder) {
      var job := jobs[0];
      var after := Reloaded(job.table, d, TableRows(tables, job.table), folder[job.csv].rows);
      JobsTables(jobs[1..], d, dir, folder, tables[job.table := after], total + Counted(job.table, d, after));
    }
  }

  /** Tables that no job targets are untouched. */
  lemma {:induction false} LoadedFrame(jobs: seq<Job>, d: string, folder: Folder, tables: Tables, t: string)
    requires forall j :: 0 <= j < |jobs| ==> jobs[j].table != t
    ensures TableRows(Loaded(jobs, d, folder, tables), t) == TableRows(tables, t)
    decreases |jobs|
  {
    if |jobs| > 0 && Loadable(jobs[0], folder) {
      var job := jobs[0];
      LoadedFrame(jobs[1..], d, folder, tables[job.table := Reloaded(job.table, d, TableRows(tables, job.table), folder[job.csv].rows)], t);
    }
  }

  /** Tables that no started job targets are untouched: a job after the one
      that stops the loop never runs, and the stopping job's own LOAD is
      rolled back with its DELETE. */
  lemma {:induction false} JobsFrame(jobs: seq<Job>, d: string, dir: string, folder: Folder, tables: Tables, total: int,
                                     t: string)
    requires forall j :: 0 <= j < RunJobs(jobs, d, dir, folder, tables, total).started ==> jobs[j].table != t
    ensures TableRows(RunJobs(jobs, d, dir, folder, tables, total).tables, t) == TableRows(tables, t)
    decreases |jobs|
  {
    if |jobs| > 0 && Loadable(jobs[0], folder) {
      var job := jobs[0];
      var after := Reloaded(job.table, d, TableRows(tables, job.table), folder[job.csv].rows);
      var tables', total' := tables[job.table := after], total + Counted(job.table, d, after);
      var rest := RunJobs(jobs[1..], d, dir, folder, tables', total');
      assert RunJobs(jobs, d, dir, folder, tables, total) == rest.(started := rest.started + 1);
      assert job.table != t;
      forall j | 0 <= j < rest.started
        ensures jobs[1..][j].table != t
      {
        assert jobs[1..][j] == jobs[j + 1];
      }
      JobsFrame(jobs[1..], d, dir, folder, tables', total', t);
    }
  }

  lemma {:induction false} LoadedKeepDimRows(jobs: seq<Job>, d: string, folder: Folder, tables: Tables, t: string)
    requires !IsFact(t)
    ensures TableRows(tables, t) <= TableRows(Loaded(jobs, d, folder, tables), t)
    decreases |jobs|
  {
    if |jobs| > 0 && Loadable(jobs[0], folder) {
      var job := jobs[0];
      var tables' := tables[job.table := Reloaded(job.table, d, TableRows(tables, job.table), folder[job.csv].rows)];
      LoadedKeepDimRows(jobs[1..], d, folder, tables', t);
      assert TableRows(tables, t) <= TableRows(tables', t);
      PrefixTransitive(TableRows(tables, t), TableRows(tables', t), TableRows(Loaded(jobs, d, folder, tables), t));
    }
  }

  /** Dimension tables are never deleted from: their old rows stay as a prefix. */
  lemma JobsKeepDimRows(jobs: seq<Job>, d: string, dir: string, folder: Folder, tables: Tables, total: int, t: string)
    requires !IsFact(t)
    ensures TableRows(tables, t) <= TableRows(RunJobs(jobs, d, dir, folder, tables, total).tables, t)
  {
    JobsTables(jobs, d, dir, folder, tables, total);
    LoadedKeepDimRows(jobs, d, folder, tables, t);
  }

  /** Reloading a fact table keeps its rows of other dates as a prefix. */
  lemma ReloadKeepsOtherDates(table: string, d: string, prior: seq<Row>, rows: seq<Row>)
    requires IsFact(table)
    ensures DropDate(prior, d) <= DropDate(Reloaded(table, d, prior, rows), d)
  {
    DropDateAppend(DropDate(prior, d), rows, d);
    DeleteDate(prior, d);
  }

  lemma {:induction false} LoadedKeepFactRows(jobs: seq<Job>, d: string, folder: Folder, tables: Tables, t: string)
    requires IsFact(t)
    ensures DropDate(TableRows(tables, t), d) <= DropDate(TableRows(Loaded(jobs, d, folder, tables), t), d)
    decreases |jobs|
  {
    if |jobs| > 0 && Loadable(jobs[0], folder) {
      var job := jobs[0];
      var tables' := tables[job.table := Reloaded(job.table, d, TableRows(tables, job.table), folder[job.csv].rows)];
      LoadedKeepFactRows(jobs[1..], d, folder, tables', t);
      if job.table == t {
        ReloadKeepsOtherDates(t, d, TableRows(tables, t), folder[job.csv].rows);
      }
      assert DropDate(TableRows(tables, t), d) <= DropDate(TableRows(tables', t), d);
      PrefixTransitive(DropDate(TableRows(tables, t), d), DropDate(TableRows(tables', t), d),
                       DropDate(TableRows(Loaded(jobs, d, folder, tables), t), d));
    }
  }

  /** Fact tables keep every row of another date, in order. */
  lemma JobsKeepFactRows(jobs: seq<Job>, d: string, dir: string, folder: Folder, tables: Tables, total: int, t: string)
    requires IsFact(t)
    ensures DropDate(TableRows(tables, t), d) <= DropDate(TableRows(RunJobs(jobs, d, dir, folder, tables, total).tables, t), d)
  {
    JobsTables(jobs, d, dir, folder, tables, total);
    LoadedKeepFactRows(jobs, d, folder, tables, t);
  }

  lemma PrefixTransitive(a: seq<Row>, b: seq<Row>, c: seq<Row>)
    requires a <= b && b <= c
    ensures a <= c
  {
    assert b[..|a|] == c[..|a|];
  }

  /** The sum of the per-job counts, each taken on the job's table in `tables`. */
  function SumCounts(jobs: seq<Job>, d: string, tables: Tables): int {
    if |jobs| == 0 then 0
    else Counted(jobs[0].table, d, TableRows(tables, jobs[0].table)) + SumCounts(jobs[1..], d, tables)
  }

  /** The total of a successful run over distinct tables is the sum of the
      per-job counts read on the final tables. */
  lemma {:induction false} JobsSum(jobs: seq<Job>, d: string, dir: string, folder: Folder, tables: Tables, total: int)
    requires DistinctTables(jobs)
    requires RunJobs(jobs, d, dir, folder, tables, total).ok
    ensures RunJobs(jobs, d, dir, folder, tables, total).total
              == total + SumCounts(jobs, d, RunJobs(jobs, d, dir, folder, tables, total).tables)
    decreases |jobs|
  {
    if |jobs| > 0 {
      var job := jobs[0];
      var after := Reloaded(job.table, d, TableRows(tables, job.table), folder[job.csv].rows);
      var tables' := tables[job.table := after];
      var total' := total + Counted(job.table, d, after);
      var rest := jobs[1..];
      assert DistinctTables(rest);
      assert forall j :: 0 <= j < |rest| ==> rest[j].table != job.table by {
        forall j | 0 <= j < |rest| ensures rest[j].table != job.table {
          assert rest[j] == jobs[j + 1];
        }
      }
      var r := RunJobs(rest, d, dir, folder, tables', total');
      assert RunJobs(jobs, d, dir, folder, tables, total).total == r.total;
      assert RunJobs(jobs, d, dir, folder, tables, total).tables == r.tables;
      JobsSum(rest, d, dir, folder, tables', total');
      JobsFrame(rest, d, dir, folder, tables', total', job.table);
      assert TableRows(r.tables, job.table) == after;
    }
  }

  /** When every job loads, each of the distinct target tables ends as its reload. */
  lemma {:induction false} LoadedReloads(jobs: seq<Job>, d: string, folder: Folder, tables: Tables)
    requires DistinctTables(jobs)
    requires forall j :: 0 <= j < |jobs| ==> Loadable(jobs[j], folder)
    ensures forall j :: 0 <= j < |jobs| ==>
      Loadable(jobs[j], folder) &&
      TableRows(Loaded(jobs, d, folder, tables), jobs[j].table)
        == Reloaded(jobs[j].table, d, TableRows(tables, jobs[j].table), folder[jobs[j].csv].rows)
    decreases |jobs|
  {
    if |jobs| > 0 {
      var job := jobs[0];
      var after := Reloaded(job.table, d, TableRows(tables, job.table), folder[job.csv].rows);
      var tables' := tables[job.table := after];
      var rest := jobs[1..];
      assert DistinctTables(rest);
      assert forall j :: 0 <= j < |rest| ==> Loadable(rest[j], folder) by {
        forall j | 0 <= j < |rest| ensures Loadable(rest[j], folder) {
          assert rest[j] == jobs[j + 1];
        }
      }
      LoadedReloads(rest, d, folder, tables');
      assert forall j :: 0 <= j < |rest| ==> rest[j].table != job.table by {
        forall j | 0 <= j < |rest| ensures rest[j].table != job.table {
          assert rest[j] == jobs[j + 1];
        }
      }
      LoadedFrame(rest, d, folder, tables', job.table);
      forall j | 0 <= j < |jobs|
        ensures TableRows(Loaded(jobs, d, folder, tables), jobs[j].table)
                  == Reloaded(jobs[j].table, d, TableRows(tables, jobs[j].table), folder[jobs[j].csv].rows)
      {
        if j > 0 {
          assert jobs[j] == rest[j - 1];
        }
      }
    }
  }

  /** After a successful run over distinct tables, every table holds its
      reload and the total is the accumulated count plus the sum of the
      per-table counts read on the final tables. */
  lemma JobsTotal(jobs: seq<Job>, d: string, dir: string, folder: Folder, tables: Tables, total: int)
    requires DistinctTables(jobs)
    requires RunJobs(jobs, d, dir, folder, tables, total).ok
    ensures var r := RunJobs(jobs, d, dir, folder, tables, total);
      && r.total == total + SumCounts(jobs, d, r.tables)
      && (forall j :: 0 <= j < |jobs| ==> Loadable(jobs[j], folder))
      && forall j :: 0 <= j < |jobs| ==>
           TableRows(r.tables, jobs[j].table)
             == Reloaded(jobs[j].table, d, TableRows(tables, jobs[j].table), folder[jobs[j].csv].rows)
  {
    JobsSum(jobs, d, dir, folder, tables, total);
    JobsTables(jobs, d, dir, folder, tables, total);
    LoadedReloads(jobs, d, folder, tables);
  }

  /** Without a connection error, `load_to_dw(load_date)` over the temp folder. */
  function LoadToDw(d: string, dir: string, folder: Folder, tables: Tables, connectError: Option<string>): LoadReport {
    if connectError.Some? then LoadReport(false, 0, Some("Load failed: " + connectError.value), tables, 0)
    else RunJobs(Jobs(d), d, dir, folder, tables, 0)
  }

  lemma LowerOfLowercase(s: string)
    requires forall i :: 0 <= i < |s| ==> !('A' <= s[i] <= 'Z')
    ensures Lower(s) == s
  {
  }

  /** A name with no upper-case letter and no 'f' is not a fact table. */
  lemma NotFact(t: string)
    requires forall i :: 0 <= i < |t| ==> !('A' <= t[i] <= 'Z') && t[i] != 'f'
    ensures !IsFact(t)
  {
    var needle := "fact";
    LowerOfLowercase(t);
    forall i | 0 <= i <= |t|
      ensures !(needle <= Lower(t)[i..])
    {
      if i < |t| {
        assert Lower(t)[i..][0] == t[i];
      }
    }
  }

  /** A lower-case name that starts with "fact" is a fact table. */
  lemma FactByPrefix(t: string)
    requires |t| >= 4 && t[..4] == "fact"
    requires forall i :: 0 <= i < |t| ==> !('A' <= t[i] <= 'Z')
    ensures IsFact(t)
  {
    var needle := "fact";
    LowerOfLowercase(t);
    assert needle <= Lower(t)[0..];
  }

  lemma TableKinds()
    ensures !IsFact("dim_product") && !IsFact("dim_province") && IsFact("fact_product_price")
  {
    NotFact("dim_product");
    NotFact("dim_province");
    FactByPrefix("fact_product_price");
  }

  /** The warehouse load as the stage sees it: the jobs run in the order
      dim_product, dim_province, fact_product_price; on success the total is
      the whole of both dimension tables plus the fact rows of the load
      date, the fact table's rows of that date are exactly the CSV's, and no
      row of another date and no dimension row is lost. */
  lemma SumCountsThree(jobs: seq<Job>, d: string, tables: Tables)
    requires |jobs| == 3
    ensures SumCounts(jobs, d, tables)
      == Counted(jobs[0].table, d, TableRows(tables, jobs[0].table))
         + Counted(jobs[1].table, d, TableRows(tables, jobs[1].table))
         + Counted(jobs[2].table, d, TableRows(tables, jobs[2].table))
  {
    var t1, t2 := jobs[1..], jobs[2..];
    assert t1[0] == jobs[1] && t1[1..] == t2 && t2[0] == jobs[2] && t2[1..] == [];
    assert SumCounts(t2, d, tables) == Counted(jobs[2].table, d, TableRows(tables, jobs[2].table));
    assert SumCounts(t1, d, tables) == Counted(jobs[1].table, d, TableRows(tables, jobs[1].table)) + SumCounts(t2, d, tables);
  }

  /** After a fact table's reload, its rows of the load date are the CSV's. */
  lemma ReloadFactSlice(table: string, d: string, prior: seq<Row>, rows: seq<Row>)
    requires IsFact(table)
    ensures KeepDate(Reloaded(table, d, prior, rows), d) == KeepDate(rows, d)
  {
    KeepDateAppend(DropDate(prior, d), rows, d);
    DeleteDate(prior, d);
  }

  lemma LoadToDwSummary(d: string, dir: string, folder: Folder, tables: Tables, connectError: Option<string>)
    ensures var r := LoadToDw(d, dir, folder, tables, connectError);
      var fact := "fact_product_price";
      && (!r.ok ==> r.total == 0)
      && (r.ok ==>
            && r.total == |TableRows(r.tables, "dim_product")| + |TableRows(r.tables, "dim_province")|
                          + |KeepDate(TableRows(r.tables, fact), d)|
            && KeepDate(TableRows(r.tables, fact), d) == KeepDate(folder[Jobs(d)[2].csv].rows, d))
      && TableRows(tables, "dim_product") <= TableRows(r.tables, "dim_product")
      && TableRows(tables, "dim_province") <= TableRows(r.tables, "dim_province")
      && DropDate(TableRows(tables, fact), d) <= DropDate(TableRows(r.tables, fact), d)
  {
    TableKinds();
    var jobs := Jobs(d);
    var fact := "fact_product_price";
    if connectError.None? {
      JobsKeepDimRows(jobs, d, dir, folder, tables, 0, "dim_product");
      JobsKeepDimRows(jobs, d, dir, folder, tables, 0, "dim_province");
      JobsKeepFactRows(jobs, d, dir, folder, tables, 0, fact);
      var r := RunJobs(jobs, d, dir, folder, tables, 0);
      if r.ok {
        assert DistinctTables(jobs);
        JobsTotal(jobs, d, dir, folder, tables, 0);
        SumCountsThree(jobs, d, r.tables);
        ReloadFactSlice(fact, d, TableRows(tables, fact), folder[jobs[2].csv].rows);
      }
    }
  }

  /** The scenario of a missing second file: the first job's rows stay
      committed, the total is 0, the error names the second file, and the
      third job is never started. */
  lemma SecondFileMissing(d: string, dir: string, folder: Folder, tables: Tables)
    requires Loadable(Jobs(d)[0], folder) && Jobs(d)[1].csv !in folder
    ensures var r := LoadToDw(d, dir, folder, tables, None);
      && !r.ok && r.total == 0 && r.started == 2
      && r.error == Some("CSV file not found: " + Join(dir, Jobs(d)[1].csv))
      && TableRows(r.tables, "dim_product") == TableRows(tables, "dim_product") + folder[Jobs(d)[0].csv].rows
      && TableRows(r.tables, "fact_product_price") == TableRows(tables, "fact_product_price")
  {
    TableKinds();
    var jobs := Jobs(d);
    var after := Reloaded("dim_product", d, TableRows(tables, "dim_product"), folder[jobs[0].csv].rows);
    var tables' := tables["dim_product" := after];
    var rest := RunJobs(jobs[1..], d, dir, folder, tables', Counted("dim_product", d, after));
    assert jobs[1..][0] == jobs[1];
    assert rest == LoadReport(false, 0, Some("CSV file not found: " + Join(dir, jobs[1].csv)), tables', 1);
  }


  /** The stage's constants: the transform must report TS; the own-status
      gate stops on TF, TR or TS, which are transform codes, so this stage's
      own LS or LF never stops a rerun. */
  const DwStage := Stage(ProcessName, ProcessId, PrevProcess, "TS", {"TF", "TR", "TS"}, "LS", "LF")

  /** `run_full_process(load_date, clean, force_run)` of the warehouse
      loader. `dir` is the temp folder's path, `folder` its files before the
      run, `tables` the warehouse tables, `connectError` a failure to
      connect to the warehouse. */
  function RunLoadToDw(env: Env, loadDate: Option<string>, clean: int, force: bool, dir: string, folder: Folder,
                       exp: ExportResult, tables: Tables, connectError: Option<string>): (r: Run)
    requires EnvValid(env)
    // every entry is appended under the stage's own process name
    ensures forall i :: 0 <= i < |r.appended| ==> r.appended[i].process == ProcessName
    ensures r.outcome == Returned(Nothing)
    ensures env.readFault.None? ==>
      var d := LoadDateText(env, loadDate);
      var prev := Lookup(env.log, PrevProcess, d);
      var own := Lookup(env.log, ProcessName, d);
      // a transform status other than TS, or an own TF, TR or TS, stops without force
      && (!force && (prev != Some("TS") || (own.Some? && own.value in {"TF", "TR", "TS"})) ==>
            r.appended == [] && r.work == [])
      // otherwise: LF when the export fails (counts 0, 0)
      && (Proceeds(DwStage, env.log, d, force) && exp.ExportFailed? ==>
            && |r.appended| == 1 && r.appended[0].status == "LF"
            && r.appended[0].extracted == Some(0) && r.appended[0].loaded == Some(0))
      // LF with the exported count when the load fails, LS with both counts when it succeeds
      && (Proceeds(DwStage, env.log, d, force) && exp.Exported? ==>
            var rep := LoadToDw(d, dir, Clean(folder, d, clean) + exp.produced, tables, connectError);
            && |r.appended| == 1 && r.appended[0].status == (if rep.ok then "LS" else "LF")
            && r.appended[0].extracted == Some(exp.count)
            && r.appended[0].loaded == Some(if rep.ok then rep.total else 0))
    ensures env.readFault.Some? ==>
      |r.appended| == 1 && r.appended[0].status == "LF" && r.appended[0].loaded == None
  {
    RunExportLoad(DwStage, env, loadDate, clean, force, folder, exp,
                  (d, f) => LoadToDw(d, dir, f, tables, connectError))
  }

  /** The stage's gate is the generic gate with the transform dependency and
      the three transform codes as its own done codes. */
  lemma GateConformance(env: Env, loadDate: Option<string>, clean: int, force: bool, dir: string, folder: Folder,
                        exp: ExportResult, tables: Tables, connectError: Option<string>)
    requires EnvValid(env) && env.readFault.None?
    ensures var d := LoadDateText(env, loadDate);
      var r := RunLoadToDw(env, loadDate, clean, force, dir, folder, exp, tables, connectError);
      match Decide(Gate(PrevProcess, {"TS"}, None, false, ProcessName, {"TF", "TR", "TS"}), env.log, d, d, force)
      case Abort => r.appended == [] && r.work == []
      case AlreadyDone => r.appended == [] && r.work == []
      case Skip => false
      case Proceed => FollowsProtocol(Vocabulary(None, {"LS", "LF"}), ProcessName, r.appended) && |r.work| >= 1
  {
    ExportLoad.GateConformance(DwStage, env, loadDate, clean, force, folder, exp,
                               (d, f) => LoadToDw(d, dir, f, tables, connectError));
  }
}
