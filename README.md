# Text-to-video job pipeline, modelled in Dafny

The system turns text prompts into videos. Two services share state:

- a Go backend (`backend/main.go`);
- a Python video service (`video-service/app.py`).

They share a MySQL `jobs` table and Redis publish/subscribe channels.

The Go backend:

- accepts `POST /api/submit`;
- inserts a `pending` row under a fresh UUID;
- publishes the job on `video_jobs`;
- answers read queries: a job's status, a page of jobs newest first, and a completed job's video URL.

The Python video service:

- listens on `video_jobs` and validates each message;
- runs one job at a time through its lifecycle: `processing`, then the generator, then `completed` with `/videos/<id>.mp4` or `failed` with the error;
- sends every status change to both sinks through `update_job_status`. The sinks are an UPDATE on the row and an event on `job_updates`. Each sink can fail, and every failure is logged and swallowed.

What the model covers, file by file:

- `storage.dfy`: the two stores.
  - `Database` is the table, a `map` keyed by id.
  - `PubSub` holds the published messages of the two channels as append-only sequences.
  - Their methods change only the fields they name. A driver failure is an argument of each call.
- `video_service.dfy`: the Python service as a class `Service` over a `Database` and a `PubSub`.
  - Every method records what it did in a ghost `trace` of effects: a status write with its sink outcome, or a generator call.
  - Every method promises that the new state of the sinks is `Replay` of the old state over exactly those effects.
  - Lemmas about `Replay`, `LifecycleTrace` and `IntakeTrace` then state what a run does.
- `backend.dfy`: the Go handlers.
  - `submitJob` is a method that changes the table and the `video_jobs` channel.
  - The read handlers are functions of the table.
  - The listing's row loop is a method proved equal to a filter.
- `decimal.dfy`: Go's `strconv.Atoi` as the listing handler uses it, and `Itoa` as its inverse.
- `pipeline.dfy`: properties across both services.
  - A job the backend accepts is dispatched by the intake loop.
  - What a lifecycle run writes is what the read handlers then report.

Things outside the code are arguments of the model:

- the clock;
- UUIDs;
- whether each SQL statement, commit, publish or scan succeeds;
- the generator's outcome;
- the order MySQL picks among rows with equal `created_at`.

Some behaviours of the code are worth stating outright:

- The inserted status is `pending`; no `queued` status is ever written.
- The status write is `UPDATE ... WHERE id = ?`, not an upsert.
  - For an unknown id it changes nothing and creates no row (`Storage.UpdateWhereId`).
  - So the direct `/generate` endpoint, which inserts no row, changes no row either (`VideoService.EndpointChangesNoRow`).
- Nothing enforces that statuses only advance. A committed `processing` write replaces even a terminal status (`VideoService.ProcessingOverwritesAnyStatus`).
- The intake loop awaits each job before it reads the next message, so jobs run one after another, in arrival order.

## Model

| member | source | states |
|---|---|---|
| Storage.Assign | video-service/app.py:92-100 | the chosen UPDATE sets status and `updated_at`, plus `video_url` or `error` for those statements; id, prompt, `created_at` and the other nullable column keep their values |
| Storage.UpdateWhereId | video-service/app.py:93-100 | an UPDATE keyed by id changes only that row, creates and deletes no row, changes nothing for an unknown id, and keeps every row stored under its own id |
| Storage.Database.Insert | backend/main.go:206-212 | the INSERT succeeds exactly when the driver succeeds and the primary key `id` is free, and then adds exactly that row; otherwise the table is unchanged |
| Storage.Database.Update | video-service/app.py:91-102 | a committed UPDATE replaces the table by `UpdateWhereId`; a failed execute or commit leaves it unchanged |
| Storage.PubSub.PublishJob | backend/main.go:215-221 | a successful publish appends the job to `video_jobs`; a failed one appends nothing |
| Storage.PubSub.PublishUpdate | video-service/app.py:112 | a successful publish appends the event to `job_updates`; a failed one appends nothing |
| Decimal.Atoi | backend/main.go:256-266 | a parsed value lies within the 64-bit `int` range and comes from a string that ends in a digit |
| Decimal.AtoiItoa | backend/main.go:256 | every 64-bit `int` written in decimal is read back unchanged |
| Decimal.AtoiNumeral | backend/main.go:256-266 | every accepted numeral is an optional sign, any leading zeros and the digits of a natural number; it reads as that number with its sign, and a value outside the 64-bit `int` range gives the range error |
| Decimal.AtoiLeadingZeros | backend/main.go:256 | leading zeros are accepted and do not change the value (`007` reads as 7) |
| Decimal.AtoiPlusSign | backend/main.go:256 | an explicit `+` is accepted (`+5` reads as 5) |
| Decimal.AtoiOutOfRange | backend/main.go:256-259 | a numeral outside the 64-bit `int` range is refused, so the offset is reported invalid |
| Decimal.AtoiRejectsNonDigit | backend/main.go:256-266 | any character other than a digit, except a leading sign, makes the parse fail |
| VideoService.Statement | video-service/app.py:92-100 | a truthy `video_url` selects the status-and-URL UPDATE; otherwise a truthy `error` selects the status-and-error UPDATE; otherwise status only; each if and only if, carrying the given values |
| VideoService.EventOf | video-service/app.py:105-110 | the event of a status write carries its job id, status, URL and error unchanged |
| VideoService.Replay | video-service/app.py:87-116 | the sinks after a sequence of steps: each step applied by `Record`, in order; its properties are stated by `ReplayEvents`, `ReplayKeys`, `ReplayUntouched` and `ReplayAppend` |
| VideoService.Record | video-service/app.py:87-116 | one status write changes the table by the keyed UPDATE only when its commit succeeds, and appends its event only after that commit and only if the publish succeeds; a generator call changes neither sink |
| VideoService.ReplayEvents | video-service/app.py:102-112 | over any run, `job_updates` only grows, by exactly the events of the writes whose commit and publish both succeeded, in order |
| VideoService.ReplayKeys | video-service/app.py:93-100 | over any run, status writes create and delete no row and keep every row under its own id |
| VideoService.ReplayUntouched | video-service/app.py:93-100 | over any run, a row that no status write names is unchanged |
| VideoService.Service.UpdateJobStatus | video-service/app.py:87-116 | one call records one status write and moves the sinks by `Record`; it never fails |
| VideoService.VideoUrlFor | video-service/app.py:120 | the result path is `/videos/` followed by the job id and `.mp4` |
| VideoService.VideoUrlInjective | video-service/app.py:120 | two jobs never share a result path |
| VideoService.FailureMessage | video-service/app.py:137 | the error column of a failed job starts with `Video generation failed: `, and what follows it is exactly the cause |
| VideoService.TerminalWrite | video-service/app.py:133-139 | the last write is `completed` with the URL and no error exactly on success, and `failed` with `Video generation failed: <cause>` and no URL exactly on failure |
| VideoService.LifecycleTrace | video-service/app.py:118-140 | the steps of one `generate_video` call: the `processing` write, the generator call, then the terminal write, each with its own sink outcome; stated by `LifecycleWrites` and `ReplayLifecycle` |
| VideoService.LifecycleWrites | video-service/app.py:118-140 | one run issues exactly two status writes for its job, `processing` then the terminal one, and calls the generator once, between them |
| VideoService.ReplayLifecycle | video-service/app.py:118-140 | the sinks after one run are the two writes applied in order; the generator step changes nothing |
| VideoService.LifecycleRow | video-service/app.py:118-140 | for a known job whose two writes commit, the row ends `completed` with the URL or `failed` with the message, other columns kept, and every other row is unchanged |
| VideoService.LifecyclePublishesBoth | video-service/app.py:105-112 | with the event built from the write's own fields, a run whose commits and publishes succeed puts exactly `processing` then the terminal event on `job_updates` |
| VideoService.JobUpdateAccepts | video-service/app.py:36-40 | the `JobUpdate` model, under pydantic 2, accepts the arguments only when both `video_url` and `error` are strings |
| VideoService.PublishedAsWritten | video-service/app.py:105-112 | the events published as the code is written: a committed write whose `JobUpdate` is accepted and whose publish succeeds; stated by `LifecyclePublishesNothingAsWritten` |
| VideoService.LifecyclePublishesNothingAsWritten | video-service/app.py:36-40 | as written, the `JobUpdate` construction rejects the `None` it is given, so a run publishes no event at all, even when every sink call would succeed |
| VideoService.ProcessingOverwritesAnyStatus | video-service/app.py:123 | a committed `processing` write sets the status whatever it was before, a terminal one included |
| VideoService.Service.GenerateVideo | video-service/app.py:118-140 | the run records and applies exactly the lifecycle steps, and returns the URL on success and the cause on failure |
| VideoService.ValidJob | video-service/app.py:145-150 | a job is accepted if and only if both `job_id` and `prompt` are truthy, and then carries those values |
| VideoService.ProcessTrace | video-service/app.py:142-159 | an invalid job causes no step; a valid one causes exactly one lifecycle run |
| VideoService.Service.ProcessJob | video-service/app.py:142-159 | the call records and applies exactly `ProcessTrace` and never fails |
| VideoService.DispatchedJob | video-service/app.py:169-176 | a message is handed to `process_job` and runs a job exactly when it is of type `message`, its payload is an object and `ValidJob` accepts it |
| VideoService.MessageTrace | video-service/app.py:168-181 | a message causes steps if and only if it is of type `message`, decodes to an object and passes validation, and then exactly that job's lifecycle |
| VideoService.Service.HandleMessage | video-service/app.py:168-181 | handling one message records and applies exactly `MessageTrace`; no payload makes it fail |
| VideoService.IntakeTrace | video-service/app.py:168-181 | the steps of the loop over the delivered messages: each message's `MessageTrace`, in arrival order; stated by `IntakeAppend`, `IntakeWrites` and `IntakeGenerations` |
| VideoService.DispatchedJobs | video-service/app.py:168-181 | the jobs the loop hands to `process_job` that pass validation, in arrival order |
| VideoService.IntakeAppend | video-service/app.py:168-181 | the steps over two runs of messages are those of the first run followed by those of the second: no message stops the loop or changes what later messages do |
| VideoService.IntakeSkipsBadMessage | video-service/app.py:169-181 | a message that is not dispatched contributes no step between its neighbours |
| VideoService.IntakeWrites | video-service/app.py:161-181 | over a whole run of the loop, the status writes come in pairs, one pair per dispatched job in arrival order: `processing`, then `completed` or `failed` for the same job |
| VideoService.IntakeGenerations | video-service/app.py:161-181 | over a whole run of the loop, the generator is called exactly for the dispatched jobs, in arrival order |
| VideoService.Service.ListenForJobs | video-service/app.py:161-181 | the loop handles every delivered message in order, recording and applying exactly `IntakeTrace` |
| VideoService.EndpointChangesNoRow | video-service/app.py:226-234 | a run for the fresh id of `/generate` changes no row of the table |
| VideoService.Service.GenerateVideoEndpoint | video-service/app.py:226-243 | the endpoint runs one lifecycle for the fresh id, answers `{job_id, video_url, completed}` on success and HTTP 500 with the cause on failure |
| Backend.BindPrompt | backend/main.go:190-194 | the body binds if and only if it decodes and carries a non-empty `prompt` |
| Backend.NewJob | backend/main.go:196-203 | the job `submitJob` builds: the fresh id, the prompt, `pending`, the two clock readings, and no URL or error |
| Backend.SubmitJob | backend/main.go:189-225 | 400 and no write when the body does not bind; 500 and no publish when the INSERT fails; otherwise exactly one `pending` row under the new id, published if Redis accepts it, and 200 with the id either way |
| Backend.GetJobStatus | backend/main.go:227-249 | 400 if and only if the id is empty, 404 if and only if no row has it, 500 if and only if the query or the scan fails, each with its message, otherwise 200 with the stored status |
| Backend.ScansIntoJob | backend/main.go:236 | as written, scanning a whole row into `Job` succeeds only when neither `video_url` nor `error` is NULL |
| Backend.ScannedText | backend/main.go:309-320 | with a scan that succeeds, a set text column reads as its value and a NULL one as the empty string; the text is empty exactly when the column is NULL or holds the empty string |
| Backend.GetVideo | backend/main.go:301-326 | 200 if and only if the row exists, is `completed`, scans, and has a non-empty URL, which is returned; `Video not found or job not completed` exactly for a missing or unfinished job, `Video URL not available` exactly for a completed job whose URL reads empty, 400 and 500 with their messages |
| Backend.DefaultQuery | backend/main.go:253-254 | a query parameter's value when it is present, otherwise the default |
| Backend.ParsePaging | backend/main.go:253-266 | absent parameters mean offset 0 and limit 10; an offset that does not parse is reported first, then a limit that does not parse; the result is `Ok` if and only if both parse, and then holds both parsed values |
| Backend.EnumeratesNewestFirst | backend/main.go:272-275 | what `ORDER BY created_at DESC` yields: every id of the table exactly once, with `created_at` never increasing; the order among equal timestamps is the database's choice |
| Backend.EnumerationCountsRows | backend/main.go:272-275 | the unfiltered enumeration lists exactly as many ids as the table has rows |
| Backend.Matching | backend/main.go:271-277 | the query ranges over exactly the rows with the requested status, or all rows when none is requested, newest first, each row once |
| Backend.Page | backend/main.go:272 | `LIMIT`/`OFFSET` skip `offset` rows and keep at most `limit` of the rest, in order |
| Backend.PageKeeps | backend/main.go:272-275 | a `LIMIT`/`OFFSET` page has at most `limit` rows, all taken from the selection, and keeps its newest-first order and its distinctness |
| Backend.SelectPage | backend/main.go:268-279 | the query returns the matching rows from position `offset` on, at most `limit` of them (exactly that many when enough remain), in order: newest first, each once, all with the requested status |
| Backend.Filter | backend/main.go:288-295 | the rows that pass a test, in their original order; stated by `FilterMembers`, `FilterSorted`, `FilterDistinct` and `FilterKeepsAll` |
| Backend.FilterMembers | backend/main.go:288-296 | skipping rows keeps exactly the rows that pass |
| Backend.FilterSorted | backend/main.go:288-296 | skipping rows keeps the newest-first order |
| Backend.FilterDistinct | backend/main.go:288-296 | skipping rows never repeats a row |
| Backend.FilterKeepsAll | backend/main.go:288-296 | when no row is skipped, the rows are returned unchanged |
| Backend.ScanRows | backend/main.go:287-296 | the row loop returns the rows whose scan succeeds, in query order; a failing scan skips its row and does not end the loop |
| Backend.ListJobs | backend/main.go:251-299 | 400 for bad paging; 500 when the query fails or a value is negative; otherwise 200 with the scanned rows of the page: at most `limit`, newest first, each once, all from the table with the requested status |
| Pipeline.AcceptedJobIsDispatched | backend/main.go:196-217 | every job the backend accepts passes the video service's validation with its own id and prompt |
| Pipeline.CompletedJobIsServed | backend/main.go:301-326 | after a successful run whose writes commit, and with the scan succeeding, the job reads `completed` and `getVideo` serves its `/videos/<id>.mp4` URL |
| Pipeline.FailedJobIsNotServed | backend/main.go:309-313 | after a failed run whose writes commit, and with the scan succeeding, the job reads `failed`; `getVideo` answers 404 whatever its scan does |
| Pipeline.LostTerminalWriteLeavesProcessing | video-service/app.py:115-116 | when only the terminal write fails to commit, and with the scan succeeding, the job keeps reading `processing` |
| Pipeline.StatusAsWrittenFailsThroughoutRun | backend/main.go:235-236 | as written, no row of a submitted job scans into `Job`, before, during or after its run, so `getJobStatus` answers 500 for it |
| Pipeline.ListingAsWrittenIsEmpty | backend/main.go:290 | as written, `listJobs` drops every row with a NULL column, so a page of such rows lists as empty |
| Pipeline.SubmittedJobIsReported | backend/main.go:235-248 | with NULL columns scanned as empty strings, a job reads `pending` as soon as it is inserted |
| Pipeline.ListingKeepsSelectedPage | backend/main.go:287-298 | with NULL columns scanned as empty strings, `listJobs` returns the selected page in full |

## Left out

- The thread pool of two workers (`ThreadPoolExecutor`, `max_workers=2`) and asyncio scheduling: the intake loop awaits each job, so from the sinks' point of view the runs are sequential. Concurrency between the direct endpoint and the intake loop is not modelled.
- The shared pymysql connection and its transaction state across threads: each status write is one UPDATE followed by a commit that either succeeds or fails as a whole.
- Model loading, inference, video export and the GPU: the generator is an outcome argument, `Success` or `Failure(cause)`.
- Logging, environment configuration and the connection setup of both services.
- Startup, shutdown and health endpoints; the websocket relay of `job_updates`; and the Go router and CORS setup. None of these changes job state.
- JSON encoding and decoding: a message payload is given already decoded (undecodable, not an object, or an object with optional string fields). Non-string JSON values for `job_id` or `prompt` are not modelled.
- The Go `Job` JSON's timestamp format and `omitempty` fields, and the Go nil slice that encodes an empty listing as `null`.
- UUID generation and the clocks (`time.Now()`, `NOW()`, the column defaults): they are values passed in.
- MySQL specifics: collation and trailing-space comparison of ids, the `VARCHAR` length limits, and `ON UPDATE CURRENT_TIMESTAMP`. The model sets `updated_at` from the write's clock value.
- Backend.Matching: the status filter compares strings exactly, while `WHERE status = ?` compares under the column's collation, which in MySQL's default collations ignores case (`?status=COMPLETED` lists the completed rows). Backend.SelectPage and Backend.ListJobs inherit this.
- `rows.Err()` after the listing loop is not checked by the source; a broken result stream ends the loop early, and the model does not capture that.
- Backend.GetJobStatus and Backend.ListJobs: whether a scan succeeds is an argument (`scanOk`), not fixed to the NULL rule. So one contract covers both the source as written (`Backend.ScansIntoJob`) and the intended reading of NULL as an empty string (a scan that always succeeds).
- Backend.GetVideo: whether its scan succeeds is an argument too. As written it scans `video_url` alone, so it succeeds exactly when that column is not NULL; a scan that always succeeds is the intended reading.
- VideoService.Service.UpdateJobStatus: it publishes the event built from the write's own fields, which is the intended behaviour. The as-written construction failure is modelled separately by `VideoService.PublishedAsWritten`.
- VideoService.Record: it appends the intended event for every committed write whose publish succeeds. As written, the `JobUpdate` construction fails for every write the service issues, and nothing is published (see Findings).
- VideoService.ReplayEvents: it states the events under the same intended rule. The events as written are `VideoService.PublishedAsWritten`, which is empty for every lifecycle run.

## Findings

| source | as written | input that shows it | evidently intended | confidence | as-written member | corrected member |
|---|---|---|---|---|---|---|
| video-service/app.py:36-40 | `JobUpdate` declares `video_url: str = None` and `error: str = None`, and `update_job_status` always passes both. Pydantic 2, whose `model_dump_json` the code calls, rejects an explicit `None` for a `str` field. The exception is swallowed after the commit, so no event is published. | `generate_video("a red ball", "abc")`: the `processing` call passes `video_url=None, error=None`, `completed` passes `error=None`, `failed` passes `video_url=None` | one `job_updates` event per committed write, with absent fields left out | not executed | VideoService.LifecyclePublishesNothingAsWritten | VideoService.LifecyclePublishesBoth |
| backend/main.go:235-236 | `getJobStatus` scans the nullable `video_url` and `error` columns into plain Go `string`s. database/sql refuses to convert NULL into a `string`, so the handler answers 500. | a job just inserted by `submitJob` (both columns NULL), or one finished by the video service (one of them NULL) | NULL read as the empty string (`sql.NullString` or `COALESCE`), giving 200 with the status | not executed | Pipeline.StatusAsWrittenFailsThroughoutRun | Pipeline.SubmittedJobIsReported |
| backend/main.go:290 | `listJobs` scans the same two columns the same way and silently skips each row whose scan fails | any page of rows for jobs submitted and run once by the two services: each has `video_url` or `error` NULL, so the listing is empty | every selected row listed | not executed | Pipeline.ListingAsWrittenIsEmpty | Pipeline.ListingKeepsSelectedPage |
