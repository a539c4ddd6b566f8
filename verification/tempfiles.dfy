/** What the warehouse and data-mart loaders share: the temp folder of
    exported CSV files, the clean-mode filter applied to it before export,
    and abstract tables whose rows carry a `load_date`. */
module TempFiles {
  import opened Base

  /** A table row: its `load_date` text and the rest of its columns. */
  datatype Row = Row(loadDate: string, fields: seq<string>)

  /** A CSV file as the bulk loader sees it: the rows the server would
      insert, or the error it raises on `LOAD DATA`. */
  datatype CsvFile = Csv(rows: seq<Row>) | Unloadable(error: string)

  /** File name to contents. A folder that does not exist behaves like an
      empty one for both the clean filter and the loaders. */
  type Folder = map<string, CsvFile>

  /** Table name to rows; a name that is absent is an empty table. */
  type Tables = map<string, seq<Row>>

  function TableRows(t: Tables, name: string): seq<Row> {
    if name in t then t[name] else []
  }

  /** A temp file clean mode deletes: its name contains the load date and
      ends with ".csv" in any letter case. */
  predicate Stale(name: string, loadDate: string) {
    Contains(name, loadDate) && EndsWith(Lower(name), ".csv")
  }

  /** The folder after the clean step of `export_data`: with `clean == 1`
      every stale file is removed, otherwise nothing is. */
  function Clean(folder: Folder, loadDate: string, clean: int): Folder {
    if clean == 1 then map f | f in folder && !Stale(f, loadDate) :: folder[f] else folder
  }

  /** Clean mode deletes exactly the stale files; every other file stays
      with its contents; without clean mode the folder is untouched. */
  lemma CleanRemovesExactlyStale(folder: Folder, loadDate: string, clean: int)
    ensures forall f :: f in folder && !(clean == 1 && Stale(f, loadDate)) ==>
      f in Clean(folder, loadDate, clean) && Clean(folder, loadDate, clean)[f] == folder[f]
    ensures forall f :: f in Clean(folder, loadDate, clean) ==> f in folder && !(clean == 1 && Stale(f, loadDate))
    ensures clean != 1 ==> Clean(folder, loadDate, clean) == folder
  {
  }

  /** Cleaning twice is cleaning once. */
  lemma CleanIdempotent(folder: Folder, loadDate: string, clean: int)
    ensures Clean(Clean(folder, loadDate, clean), loadDate, clean) == Clean(folder, loadDate, clean)
  {
  }

  /** An upper-case extension is still a CSV to the filter. */
  lemma CleanIgnoresCase(loadDate: string)
    ensures Stale("export_fact_" + loadDate + ".CSV", loadDate)
  {
    var name := "export_fact_" + loadDate + ".CSV";
    ContainsInside("export_fact_", loadDate, ".CSV");
    assert Lower(name)[|name| - 4..] == ".csv";
  }

  /** Rows whose `load_date` is `d`. */
  function KeepDate(rows: seq<Row>, d: string): (r: seq<Row>)
    ensures |r| <= |rows|
    ensures forall i :: 0 <= i < |r| ==> r[i].loadDate == d
  {
    if |rows| == 0 then []
    else (if rows[0].loadDate == d then [rows[0]] else []) + KeepDate(rows[1..], d)
  }

  /** Rows whose `load_date` is not `d`. */
  function DropDate(rows: seq<Row>, d: string): (r: seq<Row>)
    ensures |r| <= |rows|
    ensures forall i :: 0 <= i < |r| ==> r[i].loadDate != d
  {
    if |rows| == 0 then []
    else (if rows[0].loadDate == d then [] else [rows[0]]) + DropDate(rows[1..], d)
  }

  lemma {:induction false} KeepDateAppend(xs: seq<Row>, ys: seq<Row>, d: string)
    ensures KeepDate(xs + ys, d) == KeepDate(xs, d) + KeepDate(ys, d)
  {
    if |xs| > 0 {
      var head := (if xs[0].loadDate == d then [xs[0]] else []);
      KeepDateAppend(xs[1..], ys, d);
      assert (xs + ys)[0] == xs[0] && (xs + ys)[1..] == xs[1..] + ys;
      assert KeepDate(xs + ys, d) == head + KeepDate(xs[1..] + ys, d);
      assert KeepDate(xs, d) == head + KeepDate(xs[1..], d);
    } else {
      assert xs + ys == ys;
    }
  }

  lemma {:induction false} DropDateAppend(xs: seq<Row>, ys: seq<Row>, d: string)
    ensures DropDate(xs + ys, d) == DropDate(xs, d) + DropDate(ys, d)
  {
    if |xs| > 0 {
      var head := (if xs[0].loadDate == d then [] else [xs[0]]);
      DropDateAppend(xs[1..], ys, d);
      assert (xs + ys)[0] == xs[0] && (xs + ys)[1..] == xs[1..] + ys;
      assert DropDate(xs + ys, d) == head + DropDate(xs[1..] + ys, d);
      assert DropDate(xs, d) == head + DropDate(xs[1..], d);
    } else {
      assert xs + ys == ys;
    }
  }

  /** Deleting the rows of `d` leaves none of them and keeps the others in order. */
  lemma {:induction false} DeleteDate(rows: seq<Row>, d: string)
    ensures KeepDate(DropDate(rows, d), d) == []
    ensures DropDate(DropDate(rows, d), d) == DropDate(rows, d)
  {
    if |rows| > 0 {
      DeleteDate(rows[1..], d);
      var head := if rows[0].loadDate == d then [] else [rows[0]];
      KeepDateAppend(head, DropDate(rows[1..], d), d);
      DropDateAppend(head, DropDate(rows[1..], d), d);
    }
  }

  /** One bulk-load job of a loader: a CSV of the temp folder and its target table. */
  datatype Job = Job(csv: string, table: string)

  /** A job whose CSV exists and loads. */
  predicate Loadable(job: Job, folder: Folder) {
    job.csv in folder && folder[job.csv].Csv?
  }

  predicate DistinctTables(jobs: seq<Job>) {
    forall i, j :: 0 <= i < j < |jobs| ==> jobs[i].table != jobs[j].table
  }

  /** What a loader's job loop returns (success, total row count, error
      message), with the tables it leaves behind and the number of jobs it
      started. */
  datatype LoadReport = LoadReport(ok: bool, total: int, error: Option<string>, tables: Tables, started: nat)
}
