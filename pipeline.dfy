/**
 * How the two services meet on the shared table: a job the Go backend
 * accepts is dispatched by the Python intake loop, and what the lifecycle
 * writes is what the Go read handlers then answer.
 */
module Pipeline {
  import opened Wrappers
  import opened Storage
  import opened VideoService
  import opened Backend

  /** The `video_jobs` message for a published job, as the intake loop receives it decoded. */
  function Delivered(job: JobRow): Message
  {
    Message("message", Object(JobData(Some(job.id), Some(job.prompt))))
  }

  /** Every job the backend accepts passes the video service's validation, with its id and prompt. */
  lemma AcceptedJobIsDispatched(body: SubmitBody, freshId: string, createdAt: int, updatedAt: int)
    requires BindPrompt(body).Some? && freshId != ""
    ensures DispatchedJob(Delivered(NewJob(freshId, BindPrompt(body).value, createdAt, updatedAt))) ==
      Some((freshId, BindPrompt(body).value))
  {
  }

  /**
   * A submitted job whose generation succeeds and whose two status writes
   * commit is then reported `completed` by `getJobStatus`, and `getVideo`
   * serves its `/videos/<id>.mp4` URL.
   */
  lemma CompletedJobIsServed(s: Sinks, job: JobRow, a: Attempt)
    requires job.id in s.table && s.table[job.id] == job
    requires job.id != "" && a.outcome.Success? && a.onStart.dbOk && a.onFinish.dbOk
    ensures var t := Replay(s, LifecycleTrace(job.id, job.prompt, a)).table;
      && GetJobStatus(t, job.id, true, true) == StatusResponse(200, Completed, "")
      && GetVideo(t, job.id, true, true) == VideoResponse(200, VideoUrlFor(job.id), "")
  {
    LifecycleRow(s, job.id, job.prompt, a);
  }

  /**
   * A submitted job whose generation fails is reported `failed`, and
   * `getVideo` answers 404 for it.
   */
  lemma FailedJobIsNotServed(s: Sinks, job: JobRow, a: Attempt, scanOk: bool)
    requires job.id in s.table && s.table[job.id] == job
    requires job.id != "" && a.outcome.Failure? && a.onStart.dbOk && a.onFinish.dbOk
    ensures var t := Replay(s, LifecycleTrace(job.id, job.prompt, a)).table;
      && GetJobStatus(t, job.id, true, true) == StatusResponse(200, Failed, "")
      && GetVideo(t, job.id, true, scanOk).code == 404
  {
    LifecycleRow(s, job.id, job.prompt, a);
  }

  /**
   * When only the final status write fails to commit, the run still ends
   * as it would have (the sink swallows the failure), but the table keeps
   * saying `processing`: the outcome is lost to the readers, not reversed.
   */
  lemma LostTerminalWriteLeavesProcessing(s: Sinks, job: JobRow, a: Attempt)
    requires job.id in s.table && s.table[job.id] == job && job.id != ""
    requires a.onStart.dbOk && !a.onFinish.dbOk
    ensures var t := Replay(s, LifecycleTrace(job.id, job.prompt, a)).table;
      GetJobStatus(t, job.id, true, true) == StatusResponse(200, Processing, "")
  {
    ReplayLifecycle(s, job.id, job.prompt, a);
  }

  // ---------------------------------------------------------------------
  // Scanning nullable columns into plain strings

  /**
   * No row the two services write scans into `Job` as written: a submitted
   * row has both nullable columns NULL, and one run of the lifecycle sets
   * at most one of them. So `getJobStatus` answers 500 for the job before,
   * during and after its run.
   */
  lemma StatusAsWrittenFailsThroughoutRun(s: Sinks, job: JobRow, a: Attempt)
    requires job.id in s.table && s.table[job.id] == job && job.id != ""
    requires job.videoUrl == None && job.error == None
    ensures !ScansIntoJob(job)
    ensures !ScansIntoJob(Record(s, Issue(StatusWrite(job.id, Processing, None, None), a.onStart)).table[job.id])
    ensures var t := Replay(s, LifecycleTrace(job.id, job.prompt, a)).table;
      && job.id in t && !ScansIntoJob(t[job.id])
      && GetJobStatus(t, job.id, true, ScansIntoJob(t[job.id])) == StatusResponse(500, "", "Failed to get job status")
  {
    ReplayLifecycle(s, job.id, job.prompt, a);
    var w0 := StatusWrite(job.id, Processing, None, None);
    var s1 := Record(s, Issue(w0, a.onStart));
    assert s1.table[job.id].videoUrl == None && s1.table[job.id].error == None;
  }

  /** As written, `listJobs` drops every row that has a NULL column, so a page of such rows lists as empty. */
  lemma ListingAsWrittenIsEmpty(rows: seq<JobRow>)
    requires forall i :: 0 <= i < |rows| ==> rows[i].videoUrl.None? || rows[i].error.None?
    ensures Filter(rows, (row: JobRow) => ScansIntoJob(row)) == []
  {
    var keep := (row: JobRow) => ScansIntoJob(row);
    var r := Filter(rows, keep);
    FilterMembers(rows, keep);
    if r != [] {
      assert r[0] in r;
    }
  }

  /**
   * With nullable columns scanned as intended (a NULL reads as the empty
   * string, so the scan succeeds), a job is reported `pending` as soon as
   * `submitJob` has inserted it.
   */
  lemma SubmittedJobIsReported(t: Table, freshId: string, prompt: string, createdAt: int, updatedAt: int)
    requires freshId != ""
    ensures var t' := t[freshId := NewJob(freshId, prompt, createdAt, updatedAt)];
      GetJobStatus(t', freshId, true, true) == StatusResponse(200, Pending, "")
  {
  }

  /**
   * With the scan as intended, `listJobs` returns the selected page in
   * full: every row the query yields is listed.
   */
  lemma ListingKeepsSelectedPage(t: Table, order: seq<string>, status: string, offset: nat, limit: nat)
    requires EnumeratesNewestFirst(t, order)
    ensures Filter(SelectPage(t, order, status, offset, limit), (row: JobRow) => true) ==
      SelectPage(t, order, status, offset, limit)
  {
    FilterKeepsAll(SelectPage(t, order, status, offset, limit));
  }
}
