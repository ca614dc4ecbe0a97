/**
 * The two external stores shared by the Go backend and the Python video
 * service: the MySQL `jobs` table and the Redis publish/subscribe channels.
 * Each call into them may fail; whether it does is an oracle argument.
 */
module Storage {
  import opened Wrappers

  // The status strings the two services write.
  const Pending := "pending"
  const Processing := "processing"
  const Completed := "completed"
  const Failed := "failed"

  /**
   * One row of the `jobs` table. `video_url` and `error` are nullable
   * columns; the timestamps are abstract clock values.
   */
  datatype JobRow = JobRow(
    id: string,
    prompt: string,
    status: string,
    createdAt: int,
    updatedAt: int,
    videoUrl: Option<string>,
    error: Option<string>)

  /** The table, keyed by its primary key `id`. */
  type Table = map<string, JobRow>

  /** The primary-key invariant: the row stored under a key carries that key as its id. */
  predicate KeyedById(t: Table)
  {
    forall k :: k in t ==> t[k].id == k
  }

  /**
   * The event published on the `job_updates` channel: job id, status and
   * the optional video URL and error (absent fields are `None`).
   */
  datatype JobUpdate = JobUpdate(jobId: string, status: string, videoUrl: Option<string>, error: Option<string>)

  /**
   * The SET part of the three UPDATE statements the status sink can issue:
   * status with video_url, status with error, or status alone.
   */
  datatype Assignment =
    | StatusAndUrl(status: string, videoUrl: string)
    | StatusAndError(status: string, error: string)
    | StatusOnly(status: string)

  /**
   * The effect of one UPDATE on one row: the statement's columns are set,
   * `updated_at` is refreshed, and every other column keeps its value.
   */
  function Assign(row: JobRow, a: Assignment, now: int): (r: JobRow)
    ensures r.id == row.id && r.prompt == row.prompt && r.createdAt == row.createdAt
    ensures r.status == a.status && r.updatedAt == now
    ensures r.videoUrl == if a.StatusAndUrl? then Some(a.videoUrl) else row.videoUrl
    ensures r.error == if a.StatusAndError? then Some(a.error) else row.error
  {
    match a
    case StatusAndUrl(s, u) => row.(status := s, videoUrl := Some(u), updatedAt := now)
    case StatusAndError(s, e) => row.(status := s, error := Some(e), updatedAt := now)
    case StatusOnly(s) => row.(status := s, updatedAt := now)
  }

  /**
   * `UPDATE jobs SET ... WHERE id = ?`: only the row with that id changes;
   * an unknown id changes nothing and creates no row.
   */
  function UpdateWhereId(t: Table, id: string, a: Assignment, now: int): (t': Table)
    ensures t'.Keys == t.Keys
    ensures id !in t ==> t' == t
    ensures id in t ==> t'[id] == Assign(t[id], a, now)
    ensures forall k :: k in t && k != id ==> t'[k] == t[k]
    ensures KeyedById(t) ==> KeyedById(t')
  {
    if id in t then t[id := Assign(t[id], a, now)] else t
  }

  /** The MySQL `jobs` table: `id` is the primary key. */
  class Database {
    var jobs: Table

    constructor ()
      ensures jobs == map[]
    {
      jobs := map[];
    }

    /**
     * INSERT of a new row. It fails when the driver fails (`succeeds` is
     * false) or when the primary key is already taken.
     */
    method Insert(row: JobRow, succeeds: bool) returns (ok: bool)
      modifies this`jobs
      ensures ok == (succeeds && row.id !in old(jobs))
      ensures jobs == if ok then old(jobs)[row.id := row] else old(jobs)
    {
      ok := succeeds && row.id !in jobs;
      if ok {
        jobs := jobs[row.id := row];
      }
    }

    /**
     * An UPDATE keyed by id followed by a commit. When either raises
     * (`succeeds` is false) the table keeps its old contents.
     */
    method Update(id: string, a: Assignment, now: int, succeeds: bool) returns (ok: bool)
      modifies this`jobs
      ensures ok == succeeds
      ensures jobs == if ok then UpdateWhereId(old(jobs), id, a, now) else old(jobs)
    {
      ok := succeeds;
      if ok {
        jobs := UpdateWhereId(jobs, id, a, now);
      }
    }
  }

  /**
   * The Redis server, seen as the two channels the core uses: what was
   * published on them, in order. Published messages are never withdrawn.
   */
  class PubSub {
    var videoJobs: seq<JobRow>
    var jobUpdates: seq<JobUpdate>

    constructor ()
      ensures videoJobs == [] && jobUpdates == []
    {
      videoJobs, jobUpdates := [], [];
    }

    /** PUBLISH on `video_jobs`; a failure publishes nothing. */
    method PublishJob(job: JobRow, succeeds: bool) returns (ok: bool)
      modifies this`videoJobs
      ensures ok == succeeds
      ensures videoJobs == if ok then old(videoJobs) + [job] else old(videoJobs)
    {
      ok := succeeds;
      if ok {
        videoJobs := videoJobs + [job];
      }
    }

    /** PUBLISH on `job_updates`; a failure publishes nothing. */
    method PublishUpdate(u: JobUpdate, succeeds: bool) returns (ok: bool)
      modifies this`jobUpdates
      ensures ok == succeeds
      ensures jobUpdates == if ok then old(jobUpdates) + [u] else old(jobUpdates)
    {
      ok := succeeds;
      if ok {
        jobUpdates := jobUpdates + [u];
      }
    }
  }
}
