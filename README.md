# The grimmoire job subsystem, in Dafny

This project models the part of grimmoire (a herbal-medicine research tool)
that runs long jobs and keeps their history:

- the scrape snapshot `ScraperProgress` and the `BaseScraper.run` loop;
- the `JobRunner`, which marks a job running, runs its function, and decides
  whether it ends paused, completed or failed;
- the `Journal` readers: last checkpoint, recovery point, timeline, summary;
- the `SourceRegistry` of scraper classes;
- the jobs, journal, sources and entity tables of the `DatabaseManager`;
- the two concrete crawlers, NAEB and PubChem: their item normalisers, the
  NAEB paging loops, and the PubChem compound loop.

Each source file is one module:

| module | file | form |
|---|---|---|
| `Json` (with `Wrappers`) | — | Python values as stored in payloads: `None`, bools, ints, strings, lists, dicts; Python truthiness, `or`, `dict.get`, `str(int)` |
| `Progress` | grimmoire/scraper/base.py | `ScraperProgress` as a datatype; `to_dict`/`from_dict` as functions |
| `Scraper` | grimmoire/scraper/base.py | the class `Scraper` with an imperative `Run` loop, proved against the recursive specification `RunFrom` |
| `Store` | grimmoire/db/manager.py | the class `Store`: a map of job rows, an append-only journal, the source rows and the entity tables |
| `Sources` | grimmoire/scraper/sources.py | the class `SourceRegistry` |
| `Journal` | grimmoire/jobs/journal.py | pure scans (`LastCheckpoint`, `RecoveryPoint`, `SummaryOf`) and the class `Journal`, whose loop methods are proved against them |
| `Runner` | grimmoire/jobs/runner.py | the class `JobRunner` |
| `Crawlers` | grimmoire/scraper/crawlers/naeb.py | pure normalisers; paging loops as methods proved against `PagesFrom` and `PubChemFrom` |

The abstract `scrape` generator is a `Stream`: the finite list of what it
did, then how it ended. Each step either yields an item or writes a snapshot
field it shares with the loop (`total_items`, `current_page`,
`processed_items`). A generator either runs out or raises. A job function is a
`JobScript`: its progress reports and the stop requests that reach the
runner while it runs, then whether it returns a value or raises a message.
Payloads are `Json` values. A stored text column that is `NULL` is `None`.

## Model

| member | source | states |
|---|---|---|
| Json.Or | grimmoire/scraper/crawlers/naeb.py:71 | Python `a or b`: `a` when `a` is truthy, otherwise `b` |
| Json.OrEmpty | grimmoire/db/manager.py:189 | `data or {}`: a truthy payload is kept, anything falsy becomes the empty mapping |
| Json.Get | grimmoire/scraper/base.py:32-36 | `d.get(key, default)`: the stored value when the key is present, the default otherwise |
| Json.In | grimmoire/jobs/journal.py:34 | the `in` test on a decoded payload: key membership for a dict, element equality for a list, substring for a string; a raise (`None`) for a value that supports no `in` |
| Json.NatToString | grimmoire/scraper/crawlers/naeb.py:164 | `str(n)` of a natural number is a non-empty string of decimal digits |
| Json.IntToStringRoundTrip | grimmoire/scraper/crawlers/naeb.py:164 | parsing `str(i)` gives back `i`, for every integer, negative ones included |
| Progress.LastErrors | grimmoire/scraper/base.py:26 | `errors[-10:]`: the last `min(10, len)` errors, in order |
| Progress.ToDict | grimmoire/scraper/base.py:20-27 | the five keys are present; the four scalar fields are copied and the error list is cut to its last 10 entries |
| Progress.FromDict | grimmoire/scraper/base.py:29-37 | each key present is copied; each missing key gets its default: 0, 0, 0, `None`, `[]` |
| Progress.ToDictWellTyped | grimmoire/scraper/base.py:20-37 | what `to_dict` writes is something `from_dict` can read back |
| Progress.RoundTrip | grimmoire/scraper/base.py:20-37 | `from_dict(to_dict(p))` is `p` with its errors cut to the last 10 |
| Progress.RoundTripExact | grimmoire/scraper/base.py:20-37 | with at most 10 errors, `from_dict(to_dict(p)) == p` |
| Progress.ToDictStable | grimmoire/scraper/base.py:20-37 | a second save/restore cycle changes nothing: the loss happens once |
| Progress.RestoreSparseMapping | grimmoire/scraper/base.py:29-37 | a mapping holding only `processed_items` restores to a fresh snapshot with that count |
| Store.StatusUpdate | grimmoire/db/manager.py:156-165 | `running` sets `started_at` (again on every run); `completed`/`failed` set `completed_at` and `error`, which is `None` when not given; any other status changes only the status; no other column changes |
| Store.ProgressUpdate | grimmoire/db/manager.py:167-173 | the progress is always replaced; `results_count` changes only when a count is given; nothing else changes |
| Store.JobsDown | grimmoire/db/manager.py:149-154 | every listed row is a stored job that the status filter selects |
| Store.JobsDownComplete | grimmoire/db/manager.py:149-154 | every stored job that the filter selects is listed |
| Store.JobsDownOrdered | grimmoire/db/manager.py:149-154 | the listing is newest first, by strictly decreasing id |
| Store.ForJob | grimmoire/db/manager.py:193-195 | `WHERE job_id = ?` applies only when the id is truthy: exactly the selected events, drawn from the journal |
| Store.ForJobAppend | grimmoire/db/manager.py:192-198 | filtering distributes over appending, so earlier events stay as they were |
| Store.NewestFirst | grimmoire/db/manager.py:192-198 | `get_journal`: at most `limit` events, the selected ones, newest first |
| Store.InsertByPriorityPermutes | grimmoire/db/manager.py:112 | inserting a source row into the ordering adds that row and loses none |
| Store.InsertByPrioritySorted | grimmoire/db/manager.py:112 | inserting into rows sorted by descending priority keeps them sorted |
| Store.SortByPriorityCorrect | grimmoire/db/manager.py:112 | `ORDER BY priority DESC` gives a sorted permutation of the rows |
| Store.EnabledOnly | grimmoire/db/manager.py:110-111 | `WHERE enabled = 1` keeps exactly the enabled rows and nothing else |
| Store.WithEnabled | grimmoire/db/manager.py:125-131 | only the `enabled` flag of the row with that id changes |
| Store.Tables.Append | grimmoire/db/manager.py:24-29 | one insert adds one row at the end of that table; the other tables are untouched |
| Store.FirstUnbindable | grimmoire/db/manager.py:46-51 | the position, counted from 0, of the first parameter in the tuple that SQLite cannot bind (a list or mapping, or an integer outside the signed 64-bit range, in a plain column); `None` exactly when every parameter binds |
| Store.BindRow | grimmoire/db/manager.py:46-51 | an insert succeeds only for known keyword arguments including `name`; the row has every column; plain columns hold the argument as given; an unknown keyword always fails; a missing `name` fails with Python's `TypeError` text; the first unbindable parameter decides the error: `OverflowError`'s text for a too-wide integer, otherwise the binding error naming its position |
| Store.BoundRowBinds | grimmoire/db/manager.py:46-51 | every plain column of an accepted row holds a value SQLite binds as given |
| Store.Store.constructor | grimmoire/db/manager.py:14-16 | an empty store over the seeded source catalogue |
| Store.Store.AdvanceClock | grimmoire/db/manager.py:158-159 | the store's clock moves forward and nothing else changes |
| Store.Store.GetSources | grimmoire/db/manager.py:108-114 | the rows, or the enabled rows, sorted by descending priority, as a permutation |
| Store.Store.EnableSource | grimmoire/db/manager.py:125-127 | sets the flag of that one id; everything else is unchanged |
| Store.Store.DisableSource | grimmoire/db/manager.py:129-131 | clears the flag of that one id; everything else is unchanged |
| Store.Store.CreateJob | grimmoire/db/manager.py:138-143 | adds one `pending` row under a fresh id, with query `query or {}`, and returns that id |
| Store.Store.GetJob | grimmoire/db/manager.py:145-147 | the row with that id, or `None` |
| Store.Store.GetJobs | grimmoire/db/manager.py:149-154 | exactly the stored jobs the status selects, newest first |
| Store.Store.UpdateJobStatus | grimmoire/db/manager.py:156-165 | that row becomes `StatusUpdate` of itself; a missing id changes nothing |
| Store.Store.UpdateJobProgress | grimmoire/db/manager.py:167-173 | that row becomes `ProgressUpdate` of itself; a missing id changes nothing |
| Store.Store.JournalEvent | grimmoire/db/manager.py:187-190 | appends one event with payload `data or {}` and keeps earlier events; an unknown job id fails the foreign key and appends nothing |
| Store.Store.GetJournal | grimmoire/db/manager.py:192-198 | exactly `NewestFirst`: the newest `limit` events the job filter selects, newest first, each taken from the journal |
| Store.Store.AddEntity | grimmoire/db/manager.py:21-29 | `add_<table>(**kwargs)`: on success one row is appended and its id returned; on failure the tables are unchanged |
| Scraper.TableFor | grimmoire/scraper/base.py:93-103 | `plant`, `ingredient`, `ailment` and `recipe` select their tables; any other type selects none |
| Scraper.SaveArgs | grimmoire/scraper/base.py:100-102 | a recipe gets `source_id` stamped on it; the other types are passed on unchanged |
| Scraper.SaveEffect | grimmoire/scraper/base.py:93-103 | an unknown type writes nothing; a known type inserts the row the store would bind; a saved recipe carries the scraper's source id |
| Scraper.Attempt | grimmoire/scraper/base.py:114-121 | one attempted item is recorded; a saved item counts, and a failing one appends its message |
| Scraper.Fatal | grimmoire/scraper/base.py:125-126 | a stream failure appends exactly one `"Fatal error: "` entry and ends the run |
| Scraper.Apply | grimmoire/scraper/base.py:111 | a generator write to the snapshot touches only the snapshot's counters |
| Scraper.AfterItem | grimmoire/scraper/base.py:114-124 | the item is attempted, then the callback, if any, is called once with the updated snapshot; a raising callback ends the run through the fatal handler |
| Scraper.Yields | grimmoire/scraper/base.py:111 | the items the generator yields, in order |
| Scraper.Successes | grimmoire/scraper/base.py:115-119 | the number of items that produce an entity and save without error |
| Scraper.ItemErrors | grimmoire/scraper/base.py:120-121 | one message per failing item, in order |
| Scraper.ItemAccounting | grimmoire/scraper/base.py:114-124 | one item adds its own error, if any, and its own write, and nothing else |
| Scraper.RunExtends | grimmoire/scraper/base.py:110-124 | the attempted items and the callback calls of a run only grow |
| Scraper.RunAccounting | grimmoire/scraper/base.py:110-128 | a run's error list is the old one, then one message per failing item attempted, then at most one fatal entry; its tables are the old ones plus the writes of the attempted items |
| Scraper.ProcessedAccounting | grimmoire/scraper/base.py:115-119 | without generator writes to the counter, `processed_items` rises by exactly the number of attempted items that saved, so it never goes down |
| Scraper.AttemptedArePrefixOfYields | grimmoire/scraper/base.py:111-113 | the items attempted are the first items yielded, in order |
| Scraper.StopHalts | grimmoire/scraper/base.py:112-113 | with a stop pending, no further item is attempted, saved or passed to the callback |
| Scraper.UninterruptedRunAttemptsAll | grimmoire/scraper/base.py:110-128 | with no callback and no stop, every yielded item is attempted, and the run ends fatal exactly when the generator raised |
| Scraper.CallbackOncePerItem | grimmoire/scraper/base.py:123-124 | the callback runs once per attempted item, successful or not, with that item, in order |
| Scraper.SourceIdOf | grimmoire/scraper/base.py:53-58 | `_get_source_id`: the id of the first source with that name, or `None` when no source has it |
| Scraper.Scraper.constructor | grimmoire/scraper/base.py:43-51 | the scraper keeps its store, name and class; `config or {}`; a fresh snapshot; no stop; the catalogue's source id for its name |
| Scraper.Scraper.RequestStop | grimmoire/scraper/base.py:77-78 | sets the flag and changes nothing else |
| Scraper.Scraper.ShouldStop | grimmoire/scraper/base.py:80-81 | reports the flag that `RequestStop` sets and `Run` clears when it starts |
| Scraper.Scraper.SaveItem | grimmoire/scraper/base.py:93-103 | inserts what `SaveEffect` says and returns the new row id; returns 0 and writes nothing for an unknown type; changes nothing on failure |
| Scraper.Scraper.TryItem | grimmoire/scraper/base.py:114-121 | the per-item `try`: the snapshot and tables become those of `Attempt` |
| Scraper.Scraper.Run | grimmoire/scraper/base.py:105-128 | the loop clears the stop flag, starts from `resume_from` or a fresh snapshot, and ends in exactly the state `RunFrom` describes; it always returns the snapshot |
| Sources.SourceRegistry.constructor | grimmoire/scraper/sources.py:10 | the registry starts empty |
| Sources.SourceRegistry.Register | grimmoire/scraper/sources.py:13-14 | binds the name; an existing name is overwritten in place and the key set does not grow; a new name is listed last |
| Sources.SourceRegistry.GetScraper | grimmoire/scraper/sources.py:17-21 | builds the registered class with `(db, name, config)`: a fresh snapshot, `config or {}`, and the catalogue id of the source with that name (`None` when none has it); `None` for a name nobody registered, matched exactly |
| Sources.SourceRegistry.ListSources | grimmoire/scraper/sources.py:24-25 | the registration order itself (`names`, which `Register` extends only with new names): every registered name exactly once |
| Sources.SourceRegistry.HasScraper | grimmoire/scraper/sources.py:28-29 | true exactly for the registered names, which are the names listed |
| Sources.SourceRegistry.RegisterScraper | grimmoire/scraper/sources.py:32-37 | the decorator registers the class and returns it unchanged |
| Journal.Decoded | grimmoire/jobs/journal.py:46 | a stored payload decodes to itself; a `NULL` payload becomes `{}` |
| Journal.CheckpointOf | grimmoire/jobs/journal.py:20-25 | a `progress` event offers its payload; a `NULL` payload or another type offers nothing |
| Journal.RecoveryOf | grimmoire/jobs/journal.py:30-38 | a `progress`, `paused` or `resume` event offers its payload, unwrapping `from_progress` when present; others offer nothing |
| Journal.FirstOffer | grimmoire/jobs/journal.py:20-26 | the early-return scan: the first offer in the list, or `None` when there is none |
| Journal.LastCheckpoint | grimmoire/jobs/journal.py:18-26 | the payload of the newest `progress` event that decodes, or `None` if there is none |
| Journal.RecoveryPoint | grimmoire/jobs/journal.py:28-39 | what the newest event offering a recovery point offers, or `None` |
| Journal.Duration | grimmoire/jobs/journal.py:87-93 | set only when both a start and an end were found, as end minus start |
| Journal.CountOf | grimmoire/jobs/journal.py:82-85 | the number of events of one type |
| Journal.FirstTime | grimmoire/jobs/journal.py:76-77 | present exactly when an event of the given types occurs |
| Journal.ScanAsWritten | grimmoire/jobs/journal.py:69-85 | as written, the loop never records an error; it counts `interrupt_requested` and `resume` events; it takes the start from the first (newest) `start` event and the end from the last (oldest) terminal event |
| Journal.ErrorsOf | grimmoire/jobs/journal.py:80-81 | one message per `error` event |
| Journal.SummaryIntended | grimmoire/jobs/journal.py:52-95 | the corrected summary: totals, interrupts and resumes as counted, one error per `error` event, duration from the oldest start to the newest end |
| Journal.IntendedDurationNonNegative | grimmoire/jobs/journal.py:87-93 | on a newest-first history that begins with a `start`, the corrected duration is never negative |
| Journal.IntendedErrors | grimmoire/jobs/journal.py:80-81 | the corrected summary lists the message of every `error` event |
| Journal.FailedRunLosesError | grimmoire/jobs/journal.py:78-81 | on a failed run the summary as written reports no errors; the corrected one reports the message |
| Journal.ResumedRunNegativeDuration | grimmoire/jobs/journal.py:76-79 | on a paused and resumed run, the duration as written is negative |
| Journal.ResumedRunIntendedDuration | grimmoire/jobs/journal.py:87-93 | on the same run, the corrected duration spans the whole history |
| Journal.Journal.constructor | grimmoire/jobs/journal.py:12-13 | the journal reads and writes through the given store |
| Journal.Journal.Log | grimmoire/jobs/journal.py:15-16 | appends exactly one event with payload `data or {}` |
| Journal.Journal.GetLastCheckpoint | grimmoire/jobs/journal.py:18-26 | `LastCheckpoint` over the job's 50 newest events, newest first: the newest `progress` payload among them, or `None` |
| Journal.Journal.GetRecoveryPoint | grimmoire/jobs/journal.py:28-39 | `RecoveryPoint` over the job's 100 newest events, newest first: what the newest offering event offers, or `None` |
| Journal.Journal.GetJobTimeline | grimmoire/jobs/journal.py:41-50 | one entry per fetched event, oldest first: the last 1000 events of the job's history, in the order they were journaled, with `NULL` payloads read as `{}` |
| Journal.Journal.Chronological | grimmoire/jobs/journal.py:44-49 | the reversed loop produces one entry per event, in reverse order |
| Journal.Journal.SummarizeJob | grimmoire/jobs/journal.py:52-95 | the summary over the job's 100 newest events is `SummaryOf`: status `unknown` for a missing job, `total_events` the number fetched |
| Journal.Journal.ScanEvents | grimmoire/jobs/journal.py:69-85 | the loop computes `ScanFrom` over the events |
| Runner.FinalStatus | grimmoire/jobs/runner.py:90-101 | failed exactly when the function raised; paused exactly when it returned after a stop request; completed otherwise |
| Runner.StepEvents | grimmoire/jobs/runner.py:62-64 | one event per step, in order |
| Runner.RunEventsShape | grimmoire/jobs/runner.py:75-106 | a run journals `start`, then one `progress` event per report carrying that payload and one `interrupt_requested` per stop, then exactly one terminal event matching the final status |
| Runner.ReportsKeepStatus | grimmoire/jobs/runner.py:62-64 | progress reports change only progress and `results_count` |
| Runner.FinalRowError | grimmoire/jobs/runner.py:80-101 | a failed run stores `str(e)` as the row's error and in the `error` event; a completed run clears the error; a paused run keeps it; `started_at` is the run's start |
| Runner.LastReportStored | grimmoire/jobs/runner.py:62-64 | the row ends with the payload of the last progress report |
| Runner.RunEventsTail | grimmoire/jobs/runner.py:86-101 | the last two events of a run are its last step's event and its terminal event |
| Runner.CheckpointAfterRun | grimmoire/jobs/journal.py:18-26 | after a run whose last step is a report, the last checkpoint is that report's payload, whatever came before |
| Runner.RecoveryPointAfterRun | grimmoire/jobs/journal.py:28-39 | after such a run, the recovery point is the `paused` payload when the run paused, otherwise the last report's payload |
| Runner.PausedOffersItself | grimmoire/jobs/runner.py:94-95 | a `paused` event offers its own payload as a recovery point |
| Runner.ResumeEventOffersProgress | grimmoire/jobs/runner.py:116 | a `resume` event offers exactly the progress it resumed from |
| Runner.JobRunner.constructor | grimmoire/jobs/runner.py:35-38 | no current job and no stop request |
| Runner.JobRunner.RequestStop | grimmoire/jobs/runner.py:52-56 | sets the flag (idempotently) and appends `interrupt_requested` only when a job is current |
| Runner.JobRunner.ShouldStop | grimmoire/jobs/runner.py:58-60 | reports the flag that `RequestStop` sets and `Begin` clears; `Finish` reads it to choose paused over completed |
| Runner.JobRunner.UpdateProgress | grimmoire/jobs/runner.py:62-64 | updates the job row first, then appends a `progress` event with the same payload |
| Runner.JobRunner.Begin | grimmoire/jobs/runner.py:76-81 | the job becomes current and the stop flag clears; then the row is marked running and `start` is journaled; a missing job fails the `start` event |
| Runner.JobRunner.Step | grimmoire/jobs/runner.py:86-88 | a report or a stop request, with its row update and event |
| Runner.JobRunner.RunSteps | grimmoire/jobs/runner.py:92 | the function's reports and stop requests, in order: the row gets `ApplyReports` and the journal gets `StepEvents` |
| Runner.JobRunner.Finish | grimmoire/jobs/runner.py:93-101 | the closing status update and exactly one closing event, as `FinalStatus` says |
| Runner.JobRunner.Execute | grimmoire/jobs/runner.py:90-106 | the function runs, the run closes, and no job is current afterwards |
| Runner.JobRunner.RunJobInternal | grimmoire/jobs/runner.py:75-106 | for an existing job, the row ends as `FinalRow`, the journal gains `RunEvents`, the result is returned, and no job is current; for a missing job nothing is written and the error escapes |
| Runner.JobRunner.ResumeJob | grimmoire/jobs/runner.py:108-121 | a missing job, or one neither paused nor pending, is refused with the message before anything is written; otherwise `resume` is journaled with the stored progress (or `{}`) and the function runs on that same value |
| Runner.JobRunner.GetResumableJobs | grimmoire/jobs/runner.py:129-130 | exactly the paused jobs, newest first |
| Crawlers.UseName | grimmoire/scraper/crawlers/naeb.py:82 | `use[:100]`: the first 100 characters of a string, or items of a list; any other value raises |
| Crawlers.NaebSpecies | grimmoire/scraper/crawlers/naeb.py:68-76 | a species row becomes a plant whose name is `common_name`, else `latin_name`, else `''`, and whose `common_names` is `[common_name]` when that is truthy, else `[]`; every key is an `add_plant` parameter |
| Crawlers.NaebUses | grimmoire/scraper/crawlers/naeb.py:77-86 | a uses row with an empty `use` gives nothing; a non-empty text `use` gives an ailment named by at most its first 100 characters; every key is an `add_ailment` parameter |
| Crawlers.NaebOtherTable | grimmoire/scraper/crawlers/naeb.py:86 | any other table gives nothing |
| Crawlers.RowItems | grimmoire/scraper/crawlers/naeb.py:40-41 | one `{'table', 'data'}` item per row, in order |
| Crawlers.PagesAdvance | grimmoire/scraper/crawlers/naeb.py:32-43 | from page `p`, the page numbers written are `p + 1`, `p + 2`, ... one by one, so `current_page` never goes back |
| Crawlers.UnpagedWritesNoPage | grimmoire/scraper/crawlers/naeb.py:45-56 | the uses loop writes no page number |
| Crawlers.YieldRows | grimmoire/scraper/crawlers/naeb.py:40-41 | the row loop yields `RowItems` |
| Crawlers.PageStep | grimmoire/scraper/crawlers/naeb.py:35-43 | one pass of the paging loop: it ends on a stop request or an empty page, and a failing request ends the generator |
| Crawlers.FetchPages | grimmoire/scraper/crawlers/naeb.py:34-43 | the paging loop produces exactly `PagesFrom`: it ends on a stop, an empty page, `offset >= total` or a failed request |
| Crawlers.NaebScrape | grimmoire/scraper/crawlers/naeb.py:58-62 | species pages from the snapshot's page, with `total_items` set to the species count, then every uses page from offset 0 |
| Crawlers.NaebPagesAdvance | grimmoire/scraper/crawlers/naeb.py:29-62 | over a whole NAEB scrape, the page numbers written continue one by one from the snapshot's page |
| Crawlers.PubChemIngredient | grimmoire/scraper/crawlers/naeb.py:158-170 | a compound item always becomes an ingredient whose keys are `add_ingredient` parameters and whose synonyms are the item's |
| Crawlers.PubChemCidText | grimmoire/scraper/crawlers/naeb.py:164 | `pubchem_cid` is `str(cid)`, which parses back to the cid |
| Crawlers.CidItems | grimmoire/scraper/crawlers/naeb.py:151-155 | at most one item per cid, yielded only when its properties were found |
| Crawlers.CompoundItems | grimmoire/scraper/crawlers/naeb.py:150-155 | at most one item per cid |
| Crawlers.CompoundItemsShape | grimmoire/scraper/crawlers/naeb.py:127 | the cid loop yields only items, each with at most 10 synonyms |
| Crawlers.CompoundSteps | grimmoire/scraper/crawlers/naeb.py:150-155 | the cid loop yields `CompoundItems` |
| Crawlers.CompoundStep | grimmoire/scraper/crawlers/naeb.py:147-156 | one compound name: its items, then `processed_items = i + 1` |
| Crawlers.SearchCompounds | grimmoire/scraper/crawlers/naeb.py:146-156 | the loop over the names produces `PubChemFrom` |
| Crawlers.PubChemScrape | grimmoire/scraper/crawlers/naeb.py:132-156 | `total_items` is the number of compound names (25), then the compound loop; the generator never raises |
| Crawlers.PubChemCounts | grimmoire/scraper/crawlers/naeb.py:146-156 | the counts written are `i + 1`, `i + 2`, ... one per name handled |
| Crawlers.PubChemSynonymsCapped | grimmoire/scraper/crawlers/naeb.py:127 | every yielded compound has at most 10 synonyms |
| Crawlers.PubChemYieldCount | grimmoire/scraper/crawlers/naeb.py:149 | at most 5 items per compound name |
| Crawlers.PubChemEndsWithCount | grimmoire/scraper/crawlers/naeb.py:156 | without a stop, the last thing the loop does is write the number of names |
| Crawlers.LastCountWins | grimmoire/scraper/base.py:119 | a generator write of `processed_items` made last overrides whatever the loop counted |
| Crawlers.PubChemRunCount | grimmoire/scraper/crawlers/naeb.py:156 | a PubChem run without stop or callback ends with `processed_items == 25`, however many items saved |
| Crawlers.RegisterCrawlers | grimmoire/scraper/crawlers/naeb.py:8-9 | the two decorators register `NAEB Datasette` and `PubChem`, in that order |

## Left out

- Threads, signals and the lock: `run_job` with `async_mode`, `wait_for_completion`, and the SIGINT/SIGTERM handlers. Only the synchronous path is modelled. A stop request that reaches the runner while the job function runs is a step of the `JobScript`.
- HTTP and rate limiting (`_make_request`, `_rate_limit`, `rate_limit`, the PubChem `rate_limit = 5`). `get_table_count`, `fetch_page`, `search_compounds`, `get_compound_properties` and `get_compound_synonyms` are function parameters giving their results. The `[:5]`, `[:100]` and `[:10]` cuts are applied to those results in the model. A failing request is a `Result` failure.
- The stop check inside the crawlers is an oracle parameter (`stopAt`), because the flag is set from outside the generator, by the callback or by another thread.
- Wall-clock time. Payload timestamps (`datetime.now().isoformat()`) are string parameters. `created_at`, `started_at` and `completed_at` are integer seconds from the store's `clock`, which does not advance during a run.
- Store.Store.GetJobs and Store.NewestFirst order by creation (id, and journal position) rather than by the `created_at` text. SQLite leaves the order of rows with equal timestamps unspecified; the model breaks such ties newest first.
- Journal.SummaryIntended, Journal.SummaryOf: `duration` is the difference in seconds, not the `str(timedelta)` text. The `ValueError` branch for an unparsable timestamp cannot occur, since the timestamps come from the store.
- JSON text: payloads are stored as structured values. A payload written by `json.dumps` always decodes, so the only undecodable payload is `NULL`.
- Python's f-string rendering of a list or dict inside a description is a fixed marker (`[...]`, `{...}`). `molecular_weight` is an opaque value; floats are not modelled.
- Crawlers.UseName: the message for slicing a dict is the one Python 3.11 gives (`unhashable type: 'slice'`).
- Store.BindRow: the `TypeError` for an unexpected keyword argument omits the argument's name, because Python names the first such keyword in the call's argument order and keyword arguments are an unordered map here. The binding error is the Python 3.11 text, with the parameter position counted from 0.
- Runner.JobRunner.RunJobInternal, Runner.JobRunner.Execute, Runner.JobRunner.ResumeJob: a job function is modelled only by its progress reports and stop requests. The entity rows it writes itself (the REPL's job functions call `Scraper.run`, which inserts rows) are not modelled, so these methods promise that the entity tables are unchanged.
- The search, FTS, statistics and name-listing queries of the store; `add_job_result`, `get_job_results`, `log_search`, `update_source_scraped`, `add_source`; `get_plant` and the other entity getters; `clear_old_entries`. None of these is part of the job subsystem.
- The schema DDL, triggers and seed rows (grimmoire/db/schema.py is not part of this model). The seed catalogue is a constructor parameter. The foreign keys of `journal.job_id` and `recipes.source_id`, and the `NOT NULL` on names, are modelled because the connection turns foreign keys on.
- Scraper.Scraper.Run: the per-item callback is a function of the item and the snapshot, returning continue, stop or raise. The callback cannot change other state.
- Progress.FromDict requires each present key to hold a value of its field's type. A value of another type would just be stored by the dataclass unchecked, and such a mapping never comes from `to_dict`.

## Findings

| source | as written | input that shows it | evidently intended | confidence | as-written member | corrected member |
|---|---|---|---|---|---|---|
| grimmoire/jobs/journal.py:78-81 | `error` is one of the terminal types tested first, so the branch that records `data.get('error')` is never reached and `errors` is always empty | a failed run, newest first: `error {"error": "boom"}` at 20, then `start` at 10 | the summary lists the message of every `error` event: `["boom"]` | high (proved; not executed) | Journal.FailedRunLosesError | Journal.IntendedErrors |
| grimmoire/jobs/journal.py:76-79 | on the newest-first list, the first `start` seen is the newest one and the last terminal event seen is the oldest, so a resumed job measures from its latest start back to its first pause | `complete` 50, `start` 40, `resume` 40, `paused` 30, `start` 10 gives duration -10 | the duration from the first start to the last end: 40 | high (proved; not executed) | Journal.ResumedRunNegativeDuration | Journal.IntendedDurationNonNegative |

`Journal.Journal.SummarizeJob` keeps the behaviour as written (`SummaryOf`,
`Journal.ScanAsWritten`). `Journal.SummaryIntended` is the corrected
definition. The properties above are proved about it, and
`Journal.ResumedRunIntendedDuration` computes the intended duration on the
same history.
