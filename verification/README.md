# A Dafny model of the agricultural-price ETL pipeline's stage control

The pipeline moves daily agricultural prices through six stages:
1. crawl a seven-day window from a public web page into a CSV;
2. bulk-load the CSV into staging;
3. transform with a stored procedure;
4. export from staging and load the warehouse;
5. build weekly aggregates;
6. export from the warehouse and load the data mart.

Each stage is a script with one entry function. This project models what those functions decide and write:

- **Date resolution:** the target or load date, the seven-day window, and the ISO rendering.
- **Dependency gate:** the upstream stage's status in the process log must be one the stage accepts.
- **Self gate:** the stage's own status must not mark it as already done. A `force` flag bypasses both gates.
- **Log protocol:** a stage appends an optional running marker, then exactly one terminal entry with a status code and counters.
- **Mail and exit:** whether a mail goes out, and how the run ends: a normal return, `sys.exit(code)`, or an escaping exception.

Three other pieces are modelled as well:
- The job loops of the two export-and-load stages, over an abstract folder of CSV files and abstract tables:
  - the warehouse deletes the load date's fact rows and appends dimension rows;
  - the mart truncates and reloads.
- The temp-folder clean filter.
- The configuration audit row written by `log_conf_action`.

The model has no I/O. The following are inputs to each entry function:
- today's date and the clock;
- the status lookup of the process log, and whether that lookup raises;
- the `SEND_TO_EMAIL` and `STAGING_DIR` parameters;
- the set of existing files;
- what the crawler, the stored procedures and the bulk loads report.

A run returns a `ProcessLog.Run`: the lookups made, the entries appended, the external work requested, the mails sent, and the outcome.

Modules:
- `Base`, `Numerals`, `Calendar` and `DateFormats` give Python's truthiness, `str(int)`, `timedelta` arithmetic and the four `strptime`/`strftime` patterns.
- `ProcessLog` holds the log entry, the run record, the generic gate `Decide` that every stage is proved against, and `Record`, which describes how a run's appends become visible to later lookups. Entries carry only clock readings, so a run's appends are filed under the day the run happens, whatever its load date.
- `Extract`, `LoadStaging`, `Transform`, `LoadToDw`, `InsertAggregate` and `LoadToDm` hold one stage each.
- `ExportLoad` is the entry function shared by the two export-and-load stages.
- `TempFiles` holds the clean filter and the table model.
- `ConfAudit` holds the audit row.
- `Pipeline` states how the stages hand over to each other.

## Model

| member | source | states |
|---|---|---|
| Calendar.MinusDays | scripts/extract_data.py:171 | subtracting k days gives the date exactly k day numbers earlier, and fails exactly when that would precede 0001-01-01 |
| Numerals.ParseShowInt | scripts/log_manager.py:27-28 | the decimal text `str` gives an integer, with a minus sign for a negative one, reads back as that integer |
| DateFormats.ParseRender | script/load_to_staging_db.py:90-96 | parsing a rendered date in any of the four patterns gives the date back |
| DateFormats.RenderParse | script/load_to_staging_db.py:90-96 | a text one pattern accepts is exactly that pattern's rendering of the parsed date |
| DateFormats.RenderInjective | script/load_to_staging_db.py:139-141 | two valid dates render to the same text only if they are the same date |
| DateFormats.ParseFirstIsFirstSuccess | script/load_to_staging_db.py:89-100 | the first-success loop returns d exactly when some pattern parses to d and every earlier pattern rejects the text |
| DateFormats.ParseLenient | script/load_to_staging_db.py:89-100 | a lenient parse yields a valid date, and a text that is valid ISO is read as ISO |
| DateFormats.LenientOrder | script/load_to_staging_db.py:90-96 | the lenient parser tries ISO, day/month/year with slashes, year/month/day with slashes, then day-month-year with dashes, in that order |
| DateFormats.LenientReadsEverySpelling | scripts/transform.py:40-49 | every spelling of a date in one of the four patterns is read back as that date |
| DateFormats.LenientRejectsOtherSeparators | scripts/transform.py:40-53 | a text of another length than ten, or one whose third and fifth characters are neither `-` nor `/` (`05.01.2025`, `2025_01_05`), is rejected by every pattern, so the transform stops |
| DateFormats.ParseIsRendering | scripts/extract_data.py:162-167 | a pattern accepts exactly the texts that render a valid date in it, and reads each as that date |
| DateFormats.LenientIsRendering | script/load_to_staging_db.py:89-100 | the lenient parser accepts exactly the texts that render a valid date in one of its four patterns, and reads each as that date |
| DateFormats.LenientPatternsDisjoint | script/load_to_staging_db.py:90-96 | no text is accepted by two of the four patterns |
| ProcessLog.Decide | script/load_to_staging_db.py:106-135 | force always proceeds; without force the upstream gate comes first: the skip code skips, a missing or unaccepted upstream status aborts; only past it does the own status count, stopping exactly on a done code and proceeding otherwise |
| ProcessLog.RecordLatest | scripts/transform.py:81-86 | after a run's appends, a lookup of that process on that day reports the run's last status, and no other key changes |
| ProcessLog.UpstreamRunDecides | scripts/transform.py:67-86 | after an upstream run on a day, the next stage's gate on that day skips on its skip code, aborts on a code it does not accept, stops when its own status is done, and otherwise proceeds |
| ProcessLog.OwnRunDecides | scripts/transform.py:80-86 | after a stage's own run on a day, its rerun gate still sees the same upstream status and stops exactly when the run's last status is one of its done codes |
| ProcessLog.RecordOtherDay | scripts/insert_aggre_data.py:84-100 | appends written on one day leave every lookup of another day unchanged |
| ProcessLog.OtherDayDecides | scripts/insert_aggre_data.py:40-61 | a gate that reads the log at another day than the one a run was written on decides after the run as it did before |
| ConfAudit.LogTime | scripts/log_manager.py:15 | the stamp is 19 characters: the ISO date, a space, then the time |
| ConfAudit.LogTimeFields | scripts/log_manager.py:15 | the hour, minute and second read back from the stamp are the clock's |
| ConfAudit.Show | scripts/log_manager.py:27-28 | only None is stored as NULL; a text is stored unchanged and an integer as a numeral that parses back to it |
| ConfAudit.Clip | scripts/log_manager.py:29 | an absent or empty message is stored as NULL; any other message is stored as its prefix of length min(len, 255) |
| ConfAudit.ClipIdempotent | scripts/log_manager.py:29 | a message within 255 characters is kept whole, and clipping twice equals clipping once |
| ConfAudit.LogConfAction | scripts/log_manager.py:9-40 | the audit table only grows; a failed write leaves it unchanged and prints the warning; otherwise one row is added with the clock's stamp, the given action and key, the old and new values as `str(value)` (NULL only for None) and the message clipped to 255 characters |
| Extract.TargetDate | scripts/extract_data.py:159-167 | a missing or empty target means today; a given text is accepted exactly when it is the `%Y-%m-%d` rendering of a valid date, and is read as that date |
| Extract.WindowSpan | scripts/extract_data.py:169-172 | the window's end text reads back as the target date, and its start text as the date seven day numbers earlier; there is no window exactly when that start precedes year 1 |
| Extract.RunCrawling | scripts/extract_data.py:149-236 | the log is never read; a bad date writes nothing; otherwise START, then CND with zero counts, no path and no mail, CS with the record count, the saved CSV path and no mail, or CF with the error re-raised and the failure mail |
| Extract.ForceIgnored | scripts/extract_data.py:149-174 | the force flag never changes what the crawl does |
| Extract.CrawlFollowsProtocol | scripts/extract_data.py:179-236 | a crawl that has a window appends an open START and one closed crawl code, and exits non-zero exactly when the crawler failed |
| LoadStaging.TargetDate | script/load_to_staging_db.py:88-102 | a missing or empty target means today; a given text is accepted exactly when it renders a valid date in one of the four patterns, and is read as that date |
| LoadStaging.LoadBody | script/load_to_staging_db.py:137-205 | past the gate: a missing file writes one closed LF with zero counts and loads nothing; otherwise an open LR, the bulk load of the probed path, then LS with the loaded count or LF with exit 1 |
| LoadStaging.RunLoadStaging | script/load_to_staging_db.py:81-205 | force reads nothing; upstream CND writes only LS_SKIP with zero counts; other non-CS/LS statuses write nothing; past the gate, a missing file writes a single LF; otherwise LR then LS with the row count, or LF with exit 1 |
| LoadStaging.GateConformance | script/load_to_staging_db.py:106-135 | the entry function agrees with the generic gate: abort writes nothing, skip writes LS_SKIP, and proceeding follows the LR-then-terminal protocol |
| LoadStaging.ExecuteCheckPreempted | script/load_to_staging_db.py:150-156 | every bulk load is of a path already probed to exist, so the loader's own missing-file error never fires |
| Transform.LastCountIsLastConverted | scripts/transform.py:99-109 | the reported count is 0 when no row's last cell converts to int, and otherwise the value of the last row that converts |
| Transform.ExtractRecordCount | scripts/transform.py:99-109 | the nested loop over result sets returns the last convertible row's count |
| Transform.NormalisesToIso | scripts/transform.py:40-56 | the data date is the ISO text of the date the lenient parser reads, and an ISO input passes unchanged |
| Transform.RunTransform | scripts/transform.py:31-174 | both statuses are read at today's date; a staging status other than LS stops without a write unless forced; an own TS stops; otherwise the procedure is called with the data date and TS with the count or TF is appended |
| Transform.GateConformance | scripts/transform.py:64-86 | the entry function agrees with the generic gate and appends one terminal entry when it proceeds |
| TempFiles.CleanRemovesExactlyStale | scripts/load_to_dw.py:36-45 | clean mode deletes exactly the CSVs whose name contains the load date; every other file is kept with its contents; without clean mode nothing changes |
| TempFiles.CleanIdempotent | scripts/load_to_dw.py:36-45 | cleaning twice equals cleaning once |
| TempFiles.CleanIgnoresCase | scripts/load_to_dw.py:39 | an upper-case .CSV extension is still cleaned |
| TempFiles.DeleteDate | scripts/load_to_dw.py:129-133 | after deleting the load date's rows none remain, and deleting again changes nothing |
| TempFiles.KeepDateAppend | scripts/load_to_dw.py:153-154 | the load date's rows of a concatenation are those of each part |
| TempFiles.DropDateAppend | scripts/load_to_dw.py:129-133 | the other dates' rows of a concatenation are those of each part |
| ExportLoad.RunExportLoad | scripts/load_to_dw.py:182-332 | always returns normally; a failed dependency check writes nothing; a done own status writes nothing; otherwise exactly one closed entry: failure with zero counts on a failed export, failure with the export count on a failed load, success with both counts; the mail is always sent |
| ExportLoad.ExportThenLoad | scripts/load_to_dw.py:214-305 | past both gates: the export procedure is called with the load date; a failed export writes the failure code with zero counts; otherwise the job loop runs on the cleaned folder plus the export's files and its outcome decides the code, the loaded count and the mail |
| ExportLoad.GateConformance | scripts/load_to_dw.py:193-207 | an export-and-load stage agrees with the generic gate at the load date and appends one terminal entry when it proceeds |
| LoadToDw.RunJobs | scripts/load_to_dw.py:84-172 | success exactly when every job's CSV exists and loads; on failure the total is 0 and the first bad job is named, with its path when the file is missing |
| LoadToDw.JobsTables | scripts/load_to_dw.py:112-161 | the job loop leaves the tables as the jobs up to the first missing file each reload their table, in order |
| LoadToDw.JobsFrame | scripts/load_to_dw.py:112-161 | tables no started job targets are untouched: later jobs never run and the stopping job's load is rolled back |
| LoadToDw.JobsKeepDimRows | scripts/load_to_dw.py:134-136 | a dimension table keeps its earlier rows as a prefix |
| LoadToDw.JobsKeepFactRows | scripts/load_to_dw.py:129-133 | a fact table keeps every row of other dates |
| LoadToDw.JobsSum | scripts/load_to_dw.py:152-159 | a successful loop over distinct tables adds to the running total the per-job counts read on the final tables |
| LoadToDw.LoadedReloads | scripts/load_to_dw.py:125-150 | when every CSV exists and the tables are distinct, each table ends as its job's reload of its earlier rows |
| LoadToDw.JobsTotal | scripts/load_to_dw.py:152-159 | with distinct targets, each table ends as its reload and the total adds each table's count: the load date's rows for a fact table, all rows for a dimension |
| LoadToDw.TableKinds | scripts/load_to_dw.py:129 | fact_product_price is a fact table; dim_product and dim_province are not |
| LoadToDw.LoadToDwSummary | scripts/load_to_dw.py:84-165 | a full success counts both dimension tables whole plus the fact table's load-date rows, which equal the CSV's load-date rows |
| LoadToDw.SecondFileMissing | scripts/load_to_dw.py:118-123 | if the second CSV is missing, the first table keeps the rows already appended, the fact table is untouched, and the error names the second path |
| LoadToDw.RunLoadToDw | scripts/load_to_dw.py:182-332 | without force, a transform status other than TS or an own TF, TR or TS stops with no write; otherwise one entry: LF with zero counts on a failed export, LF with the export count on a failed load, LS with the export count and the load total |
| LoadToDw.GateConformance | scripts/load_to_dw.py:193-207 | the warehouse stage agrees with the generic gate |
| InsertAggregate.RunInsert | scripts/insert_aggre_data.py:28-169 | a status other than LS exits 1 with no write; TO/TR/TS/IS exits 0; otherwise the procedure is called with date and clean flag, then IS with the fetched count or 0, or IF with exit 1 |
| InsertAggregate.GateConformance | scripts/insert_aggre_data.py:40-61 | the insert stage agrees with the generic gate and appends one terminal entry when it proceeds |
| InsertAggregate.ExitStatusMeaning | scripts/insert_aggre_data.py:49-169 | the exit status is 0 exactly when the run logged IS or found its work already done, and non-zero exactly when it logged IF or the dependency gate was closed |
| LoadToDm.RunMartJobs | scripts/load_to_dm.py:99-190 | success exactly when every CSV exists, truncates and loads; on failure the total is 0 and the error names the missing file, the failed truncate or the load error; a failed load leaves its table empty |
| LoadToDm.MartJobsFrame | scripts/load_to_dm.py:140-175 | tables no started job targets are untouched, since the jobs after the one that stops the loop never run |
| LoadToDm.MartJobsReplace | scripts/load_to_dm.py:152-175 | after a full success, each table holds exactly its CSV's rows and the total is the sum of their load-date rows |
| LoadToDm.MartRerunSame | scripts/load_to_dm.py:140-180 | running the job loop again over the same folder succeeds with the same tables and total |
| LoadToDm.LoadToMartSummary | scripts/load_to_dm.py:99-180 | a full success replaces the three report tables with their CSVs |
| LoadToDm.SecondLoadFails | scripts/load_to_dm.py:152-190 | when the second load fails after its truncate, the first table is reloaded, the second is empty and the third is untouched |
| LoadToDm.RunLoadToDm | scripts/load_to_dm.py:200-372 | without force, an insert status other than IS or an own IF, IR or IS stops with no write; otherwise one entry: IF with zero counts on a failed export, IF with the export count on a failed load, IS with the export count and the load total |
| LoadToDm.GateConformance | scripts/load_to_dm.py:212-232 | the mart stage agrees with the generic gate |
| Pipeline.SlashToDash | scripts/extract_data.py:122-123 | replacing the slashes of a day/month/year rendering gives the dashed rendering |
| Pipeline.CrawlFileIsStagingFile | script/load_to_staging_db.py:137-146 | for a target the crawler accepts, staging resolves the same date and window, and probes the same path the crawl saved |
| Pipeline.UpstreamRunAt | scripts/insert_aggre_data.py:28-61 | after an upstream run, filed under today, the next gate at the load date hands over through the run's last status when that date is today, and decides as before otherwise |
| Pipeline.OwnRunAt | scripts/load_to_dm.py:206-232 | after a stage's own run, filed under today, its rerun gate at the load date stops exactly on a done last status when that date is today, and decides as before otherwise |
| Pipeline.CrawlToStaging | script/load_to_staging_db.py:106-131 | after today's crawl, the staging gate proceeds on CS, skips on CND and aborts on CF |
| Pipeline.StagingToTransform | scripts/transform.py:69-86 | staging ending in LS opens the transform gate unless the transform already logged TS today |
| Pipeline.TransformToDw | scripts/load_to_dw.py:193-207 | transform ending in TS opens the warehouse gate for today's load date unless its own status is TF, TR or TS |
| Pipeline.DwToInsert | scripts/insert_aggre_data.py:40-61 | a warehouse run for today ending in LS opens the insert gate unless the insert's own status is TO, TR, TS or IS; a run for another load date leaves that date's insert gate as it was |
| Pipeline.InsertToDm | scripts/load_to_dm.py:212-232 | an insert run for today ending in IS opens the mart gate unless the mart's own status is IF, IR or IS; a run for another load date leaves that date's mart gate as it was |
| Pipeline.TransformRerun | scripts/transform.py:80-86 | after TS a second transform is stopped; after TF it runs again |
| Pipeline.DwRerunNotStopped | scripts/load_to_dw.py:202-207 | the warehouse stage's own LS or LF never stops a rerun today, because its self gate tests transform codes; a run for another load date leaves that date's gate as it was |
| Pipeline.InsertRerun | scripts/insert_aggre_data.py:53-61 | after IF today the insert may run again; after IS it is already done; a run for another load date leaves that date's gate as it was |
| Pipeline.DmRerunStopped | scripts/load_to_dm.py:226-232 | after either IS or IF today the mart stage is stopped until forced; a run for another load date leaves that date's gate as it was |

## Left out

- **Outside systems.** The crawler (Selenium and pandas), MySQL, SMTP and the parameter table are not modelled. They become inputs: `CrawlResult`, `DbLoad`, `ProcResult`, `InsertResult`, `ExportResult`, the CSV folder, the tables, and `Env.sendTo` and `stagingDir`. script/param_sync.py, script/send_mail.py and scripts/crawing.py are not part of this model.
- **Process log functions.** `get_process_log_value` and `log_process_action` are not part of this model.
  - The lookup is an abstract map.
  - The appends are returned rather than written.
  - `Record` assumes that a lookup for a process and day reports the latest status appended on that day, the day an entry is written being the day of its clock readings.
  - A failing append is not modelled.
  - A failing lookup is modelled as a fault of the first read only.
- **`strptime` leniency.** Python also accepts single-digit day and month fields. The model accepts only two-digit day and month and four-digit year.
- **`strftime('%Y')` on years below 1000.** glibc does not pad these; the model pads them to four digits.
- **Lower-casing.** `Base.Lower` folds ASCII letters only.
- **Slicing.** Python slices count code points; the model's `string` counts Dafny characters.
- **Exception text.** Messages carrying an exception text take the text as given. `Path.resolve()` in the staging loader's message and the text of `str(e)` are not modelled.
- **Clean filter removals.** A failure of a single `os.remove` in the clean filter is not modelled. The file is simply removed.
- **Count conversion.** Only `int` cells and text cells that are an optional sign followed by ASCII digits are converted. `int()` also accepts surrounding whitespace and digit-group underscores (`" 12"`, `"1_000"`); `Transform.AsInt` rejects those. `Decimal` and `float` results of a procedure are not converted.
- **Export procedures.** What the procedures write is abstracted: `ExportResult.produced` is the set of CSVs the export adds to the temp folder, and its count is taken as reported.
- **Loader setup errors.** A failing connect or `SET GLOBAL local_infile` in the two loaders is one connect error. Backslash path normalisation is not modelled.
- **Concurrency.** Two stages running at once and clock readings inside a run are not modelled. Start and finish are parameters.
