/**
 * The Go backend's handlers over the jobs table: `submitJob` creates a
 * `pending` row and publishes it on `video_jobs`; `getJobStatus`,
 * `listJobs` and `getVideo` answer read queries. The read handlers take the
 * table as a value, so they cannot change it.
 *
 * Each database call may fail (`queryOk`, `insertOk`), and so may each Go
 * `Scan` (`scanOk`): whether a scan of a row with NULL columns into plain
 * strings succeeds is left to the driver. When a scan succeeds, a NULL
 * column reads as the empty string.
 */
module Backend {
  import opened Wrappers
  import opened Storage
  import opened Decimal

  /** The request body of `POST /api/submit` as gin's JSON binder sees it. */
  datatype SubmitBody = Malformed | SubmitRequest(prompt: Option<string>)

  datatype SubmitResponse = SubmitResponse(code: int, jobId: string, error: string)
  datatype StatusResponse = StatusResponse(code: int, jobStatus: string, error: string)
  datatype ListResponse = ListResponse(code: int, jobs: seq<JobRow>, error: string)
  datatype VideoResponse = VideoResponse(code: int, url: string, error: string)

  // ---------------------------------------------------------------------
  // submitJob

  /**
   * `ShouldBindJSON` into `SubmitRequest`, whose `prompt` is
   * `binding:"required"`: the body must decode and carry a non-empty prompt.
   */
  function BindPrompt(body: SubmitBody): (r: Option<string>)
    ensures r.Some? <==> body.SubmitRequest? && body.prompt.Some? && body.prompt.value != ""
    ensures r.Some? ==> body.prompt == Some(r.value)
  {
    match body
    case Malformed => None
    case SubmitRequest(p) => if p.Some? && p.value != "" then p else None
  }

  /** The `Job` value `submitJob` builds, inserts and publishes. */
  function NewJob(id: string, prompt: string, createdAt: int, updatedAt: int): JobRow
  {
    JobRow(id, prompt, Pending, createdAt, updatedAt, None, None)
  }

  /**
   * `submitJob`. `freshId` is the generated UUID and `createdAt`/`updatedAt`
   * the two clock readings. A body without a non-empty prompt gets 400 and
   * no write; a failed INSERT gets 500 and no publish; otherwise exactly one
   * `pending` row is added under the new id, it is published if Redis
   * accepts it, and the reply is 200 with the id either way.
   */
  method SubmitJob(db: Database, bus: PubSub, body: SubmitBody, freshId: string,
                   createdAt: int, updatedAt: int, insertOk: bool, publishOk: bool)
    returns (r: SubmitResponse)
    modifies db`jobs, bus`videoJobs
    ensures BindPrompt(body).None? ==>
      && r == SubmitResponse(400, "", "Invalid request body")
      && db.jobs == old(db.jobs) && bus.videoJobs == old(bus.videoJobs)
    ensures BindPrompt(body).Some? && !(insertOk && freshId !in old(db.jobs)) ==>
      && r == SubmitResponse(500, "", "Failed to create job")
      && db.jobs == old(db.jobs) && bus.videoJobs == old(bus.videoJobs)
    ensures BindPrompt(body).Some? && insertOk && freshId !in old(db.jobs) ==>
      var job := NewJob(freshId, BindPrompt(body).value, createdAt, updatedAt);
      && r == SubmitResponse(200, freshId, "")
      && db.jobs == old(db.jobs)[freshId := job]
      && bus.videoJobs == old(bus.videoJobs) + if publishOk then [job] else []
    ensures KeyedById(old(db.jobs)) ==> KeyedById(db.jobs)
  {
    var prompt := BindPrompt(body);
    if prompt.None? {
      return SubmitResponse(400, "", "Invalid request body");
    }
    var job := NewJob(freshId, prompt.value, createdAt, updatedAt);
    var inserted := db.Insert(job, insertOk);
    if !inserted {
      return SubmitResponse(500, "", "Failed to create job");
    }
    var _ := bus.PublishJob(job, publishOk);  // a publish failure is only logged
    r := SubmitResponse(200, freshId, "");
  }

  // ---------------------------------------------------------------------
  // getJobStatus

  /**
   * `getJobStatus`: 400 without a job id, 404 when no row has it, 500 when
   * the query or the scan fails, otherwise 200 with the stored status.
   */
  function GetJobStatus(t: Table, jobId: string, queryOk: bool, scanOk: bool): (r: StatusResponse)
    ensures r.code == 400 <==> jobId == ""
    ensures r.code == 404 <==> jobId != "" && queryOk && jobId !in t
    ensures r.code == 500 <==> jobId != "" && (!queryOk || (jobId in t && !scanOk))
    ensures r.code == 200 <==> jobId != "" && queryOk && jobId in t && scanOk
    ensures r.code == 200 ==> r.jobStatus == t[jobId].status && r.error == ""
    ensures r.code != 200 ==> r.jobStatus == ""
    ensures r.code == 400 ==> r.error == "job_id is required"
    ensures r.code == 404 ==> r.error == "Job not found"
    ensures r.code == 500 ==> r.error == "Failed to get job status"
  {
    if jobId == "" then StatusResponse(400, "", "job_id is required")
    else if !queryOk then StatusResponse(500, "", "Failed to get job status")
    else if jobId !in t then StatusResponse(404, "", "Job not found")
    else if !scanOk then StatusResponse(500, "", "Failed to get job status")
    else StatusResponse(200, t[jobId].status, "")
  }

  /**
   * Whether the `Scan` of a whole row into the plain `string` fields of
   * `Job`, as `getJobStatus` and `listJobs` write it, succeeds: Go's
   * database/sql refuses to convert a NULL column into a `string`, so a
   * row whose `video_url` or `error` is NULL fails to scan.
   */
  predicate ScansIntoJob(row: JobRow)
  {
    row.videoUrl.Some? && row.error.Some?
  }

  // ---------------------------------------------------------------------
  // getVideo

  /** A nullable text column read into a Go `string` by a scan that succeeds. */
  function ScannedText(column: Option<string>): (v: string)
    ensures column.Some? ==> v == column.value
    ensures v == "" <==> column == None || column == Some("")
  {
    if column.Some? then column.value else ""
  }

  /**
   * `getVideo`: a URL only for an existing, `completed` row with a
   * non-empty `video_url`; 400 without a job id; 500 when the query or the
   * scan fails; every other miss is 404.
   */
  function GetVideo(t: Table, jobId: string, queryOk: bool, scanOk: bool): (r: VideoResponse)
    ensures r.code == 200 <==>
      jobId != "" && queryOk && jobId in t && t[jobId].status == Completed && scanOk
      && t[jobId].videoUrl.Some? && t[jobId].videoUrl.value != ""
    ensures r.code == 200 ==> t[jobId].videoUrl == Some(r.url) && r.url != "" && r.error == ""
    ensures r.code == 400 <==> jobId == ""
    ensures r.code == 500 <==>
      jobId != "" && (!queryOk || (jobId in t && t[jobId].status == Completed && !scanOk))
    ensures r.code == 404 <==>
      jobId != "" && queryOk
      && (jobId !in t || t[jobId].status != Completed || (scanOk && ScannedText(t[jobId].videoUrl) == ""))
    ensures r.code != 200 ==> r.url == "" && r.error != ""
    ensures r.code == 400 ==> r.error == "job_id is required"
    ensures r.code == 500 ==> r.error == "Failed to get video"
    ensures r.error == "Video not found or job not completed" <==>
      jobId != "" && queryOk && (jobId !in t || t[jobId].status != Completed)
    ensures r.error == "Video URL not available" <==>
      jobId != "" && queryOk && jobId in t && t[jobId].status == Completed && scanOk
      && ScannedText(t[jobId].videoUrl) == ""
  {
    if jobId == "" then VideoResponse(400, "", "job_id is required")
    else if !queryOk then VideoResponse(500, "", "Failed to get video")
    else if jobId !in t || t[jobId].status != Completed then
      VideoResponse(404, "", "Video not found or job not completed")
    else if !scanOk then VideoResponse(500, "", "Failed to get video")
    else
      var url := ScannedText(t[jobId].videoUrl);
      if url == "" then VideoResponse(404, "", "Video URL not available")
      else VideoResponse(200, url, "")
  }

  // ---------------------------------------------------------------------
  // listJobs

  /** `c.DefaultQuery`: the parameter's value when it is present, else the default. */
  function DefaultQuery(param: Option<string>, default: string): string
  {
    if param.Some? then param.value else default
  }

  /**
   * The two integer parameters of `listJobs`, `offset` (default "0") then
   * `limit` (default "10"), each read by `strconv.Atoi`.
   */
  function ParsePaging(offsetParam: Option<string>, limitParam: Option<string>): (r: Result<(int, int), string>)
    ensures offsetParam == None && limitParam == None ==> r == Ok((0, 10))
    ensures Atoi(DefaultQuery(offsetParam, "0")).None? ==> r == Err("Invalid offset")
    ensures Atoi(DefaultQuery(offsetParam, "0")).Some? && Atoi(DefaultQuery(limitParam, "10")).None? ==>
      r == Err("Invalid limit")
    ensures r.Ok? <==>
      Atoi(DefaultQuery(offsetParam, "0")).Some? && Atoi(DefaultQuery(limitParam, "10")).Some?
    ensures r.Ok? ==>
      Atoi(DefaultQuery(offsetParam, "0")) == Some(r.value.0) && Atoi(DefaultQuery(limitParam, "10")) == Some(r.value.1)
  {
    match Atoi(DefaultQuery(offsetParam, "0"))
    case None => Err("Invalid offset")
    case Some(offset) =>
      match Atoi(DefaultQuery(limitParam, "10"))
      case None => Err("Invalid limit")
      case Some(limit) => Ok((offset, limit))
  }

  predicate CreatedDesc(rows: seq<JobRow>)
  {
    forall i, j :: 0 <= i < j < |rows| ==> rows[i].createdAt >= rows[j].createdAt
  }

  /** No row occurs twice. */
  predicate NoDuplicates(rows: seq<JobRow>)
  {
    forall i, j :: 0 <= i < j < |rows| ==> rows[i] != rows[j]
  }

  /**
   * What `ORDER BY created_at DESC` enumerates: every key of the table once,
   * newest row first. Rows with equal `created_at` may come in any order, so
   * the enumeration is the database's choice.
   */
  predicate EnumeratesNewestFirst(t: Table, order: seq<string>)
  {
    && (forall i :: 0 <= i < |order| ==> order[i] in t)
    && (forall k :: k in t ==> k in order)
    && (forall i, j :: 0 <= i < j < |order| ==> order[i] != order[j])
    && (forall i, j :: 0 <= i < j < |order| ==> t[order[i]].createdAt >= t[order[j]].createdAt)
  }

  /** An enumeration of the table lists exactly as many ids as it has rows. */
  lemma EnumerationCountsRows(t: Table, order: seq<string>)
    requires EnumeratesNewestFirst(t, order)
    ensures |order| == |t|
  {
    DistinctCount(order);
    assert (set k | k in order) == t.Keys;
  }

  /** A sequence without repeats has as many distinct elements as entries. */
  lemma {:induction false} DistinctCount(order: seq<string>)
    requires forall i, j :: 0 <= i < j < |order| ==> order[i] != order[j]
    ensures |set k | k in order| == |order|
  {
    if order != [] {
      var init, last := order[..|order| - 1], order[|order| - 1];
      DistinctCount(init);
      assert order == init + [last];
      assert last !in init;
      assert (set k | k in order) == (set k | k in init) + {last};
    }
  }

  function RowsAt(t: Table, order: seq<string>): (rows: seq<JobRow>)
    requires forall i :: 0 <= i < |order| ==> order[i] in t
    ensures |rows| == |order|
    ensures forall i :: 0 <= i < |order| ==> rows[i] == t[order[i]]
  {
    seq(|order|, i requires 0 <= i < |order| => t[order[i]])
  }

  /** The rows that satisfy `keep`, in their original order. */
  function Filter(rows: seq<JobRow>, keep: JobRow -> bool): (r: seq<JobRow>)
    ensures |r| <= |rows|
    decreases |rows|
  {
    if rows == [] then []
    else
      var init, last := Filter(rows[..|rows| - 1], keep), rows[|rows| - 1];
      if keep(last) then init + [last] else init
  }

  /** Filtering keeps exactly the rows that satisfy `keep`. */
  lemma {:induction false} FilterMembers(rows: seq<JobRow>, keep: JobRow -> bool)
    ensures forall x :: x in Filter(rows, keep) <==> x in rows && keep(x)
    decreases |rows|
  {
    if rows != [] {
      var prefix, last := rows[..|rows| - 1], rows[|rows| - 1];
      FilterMembers(prefix, keep);
      assert rows == prefix + [last];
    }
  }

  /** A filter that keeps every row returns the rows unchanged. */
  lemma {:induction false} FilterKeepsAll(rows: seq<JobRow>)
    ensures Filter(rows, (row: JobRow) => true) == rows
    decreases |rows|
  {
    if rows != [] {
      FilterKeepsAll(rows[..|rows| - 1]);
      assert rows == rows[..|rows| - 1] + [rows[|rows| - 1]];
    }
  }

  /** Filtering keeps the newest-first order. */
  lemma {:induction false} FilterSorted(rows: seq<JobRow>, keep: JobRow -> bool)
    requires CreatedDesc(rows)
    ensures CreatedDesc(Filter(rows, keep))
    decreases |rows|
  {
    if rows != [] {
      var prefix, last := rows[..|rows| - 1], rows[|rows| - 1];
      var init := Filter(prefix, keep);
      assert CreatedDesc(prefix);
      FilterSorted(prefix, keep);
      if keep(last) {
        FilterMembers(prefix, keep);
        forall i | 0 <= i < |init|
          ensures init[i].createdAt >= last.createdAt
        {
          assert init[i] in prefix;
          var k :| 0 <= k < |prefix| && prefix[k] == init[i];
          assert rows[k] == init[i];
        }
        assert Filter(rows, keep) == init + [last];
      }
    }
  }

  /** Filtering never introduces a repeated row. */
  lemma {:induction false} FilterDistinct(rows: seq<JobRow>, keep: JobRow -> bool)
    requires NoDuplicates(rows)
    ensures NoDuplicates(Filter(rows, keep))
    decreases |rows|
  {
    if rows != [] {
      var prefix, last := rows[..|rows| - 1], rows[|rows| - 1];
      var init := Filter(prefix, keep);
      assert NoDuplicates(prefix);
      FilterDistinct(prefix, keep);
      if keep(last) {
        FilterMembers(prefix, keep);
        assert last !in init;
        assert Filter(rows, keep) == init + [last];
      }
    }
  }

  /** Under the primary-key invariant, distinct ids in the enumeration give distinct rows. */
  lemma RowsAtDistinct(t: Table, order: seq<string>)
    requires EnumeratesNewestFirst(t, order) && KeyedById(t)
    ensures NoDuplicates(RowsAt(t, order))
  {
    var all := RowsAt(t, order);
    forall i, j | 0 <= i < j < |all| ensures all[i] != all[j] {
      assert all[i].id == order[i] && all[j].id == order[j];
    }
  }

  /**
   * The rows a listing query selects before paging: with a non-empty
   * status filter exactly the rows with that status, otherwise all rows,
   * newest first.
   */
  function Matching(t: Table, order: seq<string>, status: string): (m: seq<JobRow>)
    requires EnumeratesNewestFirst(t, order)
    ensures CreatedDesc(m)
    ensures forall x :: x in m <==> x in t.Values && (status == "" || x.status == status)
    ensures KeyedById(t) ==> NoDuplicates(m)
  {
    var all := RowsAt(t, order);
    forall x | x in t.Values ensures x in all {
      var k :| k in t && t[k] == x;
      var i :| 0 <= i < |order| && order[i] == k;
      assert all[i] == x;
    }
    assert KeyedById(t) ==> NoDuplicates(all) by {
      if KeyedById(t) { RowsAtDistinct(t, order); }
    }
    if status == "" then all
    else
      var keep := (row: JobRow) => row.status == status;
      FilterMembers(all, keep);
      FilterSorted(all, keep);
      assert KeyedById(t) ==> NoDuplicates(Filter(all, keep)) by {
        if KeyedById(t) { FilterDistinct(all, keep); }
      }
      Filter(all, keep)
  }

  /** `LIMIT limit OFFSET offset`: skip `offset` rows, then keep at most `limit`. */
  function Page(m: seq<JobRow>, offset: nat, limit: nat): (p: seq<JobRow>)
    ensures |p| == if offset >= |m| then 0 else if limit < |m| - offset then limit else |m| - offset
    ensures forall i :: 0 <= i < |p| ==> p[i] == m[offset + i]
  {
    if offset >= |m| then []
    else m[offset..if limit < |m| - offset then offset + limit else |m|]
  }

  /** The rows the listing query returns, in order. */
  function SelectPage(t: Table, order: seq<string>, status: string, offset: nat, limit: nat): (rows: seq<JobRow>)
    requires EnumeratesNewestFirst(t, order)
    ensures var m := Matching(t, order, status);
      && |rows| == (if offset >= |m| then 0 else if limit < |m| - offset then limit else |m| - offset)
      && forall i :: 0 <= i < |rows| ==> rows[i] == m[offset + i]
    ensures |rows| <= limit && CreatedDesc(rows)
    ensures forall x :: x in rows ==> x in t.Values && (status == "" || x.status == status)
    ensures KeyedById(t) ==> NoDuplicates(rows)
  {
    var m := Matching(t, order, status);
    PageKeeps(m, offset, limit);
    Page(m, offset, limit)
  }

  /** A page keeps the order, the members and the distinctness of what it is cut from. */
  lemma PageKeeps(m: seq<JobRow>, offset: nat, limit: nat)
    ensures var p := Page(m, offset, limit);
      && |p| <= limit
      && (CreatedDesc(m) ==> CreatedDesc(p))
      && (forall x :: x in p ==> x in m)
      && (NoDuplicates(m) ==> NoDuplicates(p))
  {
    var p := Page(m, offset, limit);
    forall x | x in p ensures x in m {
      var i :| 0 <= i < |p| && p[i] == x;
      assert m[offset + i] == x;
    }
  }

  lemma FilterStep(rows: seq<JobRow>, i: nat, keep: JobRow -> bool)
    requires i < |rows|
    ensures Filter(rows[..i + 1], keep) == Filter(rows[..i], keep) + if keep(rows[i]) then [rows[i]] else []
  {
    assert rows[..i + 1][..i] == rows[..i];
  }

  /**
   * The `for rows.Next()` loop of `listJobs`: each row is scanned and
   * appended, and a row whose scan fails is skipped, not fatal.
   */
  method ScanRows(rows: seq<JobRow>, scanOk: JobRow -> bool) returns (jobs: seq<JobRow>)
    ensures jobs == Filter(rows, scanOk)
  {
    jobs := [];
    var i := 0;
    while i < |rows|
      invariant 0 <= i <= |rows|
      invariant jobs == Filter(rows[..i], scanOk)
    {
      FilterStep(rows, i, scanOk);
      if scanOk(rows[i]) {
        jobs := jobs + [rows[i]];
      }
      i := i + 1;
    }
    assert rows[..|rows|] == rows;
  }

  /**
   * `listJobs`. Bad paging parameters give 400 before any query; a failing
   * query (a negative LIMIT or OFFSET is one) gives 500; otherwise 200 with
   * the selected rows, newest first, minus every row whose scan fails.
   */
  method ListJobs(t: Table, order: seq<string>, status: string,
                  offsetParam: Option<string>, limitParam: Option<string>,
                  queryOk: bool, scanOk: JobRow -> bool)
    returns (r: ListResponse)
    requires EnumeratesNewestFirst(t, order)
    ensures ParsePaging(offsetParam, limitParam).Err? ==>
      r == ListResponse(400, [], ParsePaging(offsetParam, limitParam).error)
    ensures ParsePaging(offsetParam, limitParam).Ok? ==>
      var paging := ParsePaging(offsetParam, limitParam).value;
      && (r.code == 200 <==> queryOk && paging.0 >= 0 && paging.1 >= 0)
      && (r.code != 200 ==> r == ListResponse(500, [], "Failed to list jobs"))
      && (r.code == 200 ==> r.jobs == Filter(SelectPage(t, order, status, paging.0, paging.1), scanOk))
    ensures r.code == 200 ==> r.error == "" && |r.jobs| <= ParsePaging(offsetParam, limitParam).value.1
    ensures r.code == 200 ==> CreatedDesc(r.jobs)
    ensures r.code == 200 && KeyedById(t) ==> NoDuplicates(r.jobs)
    ensures r.code == 200 ==>
      forall x :: x in r.jobs ==> x in t.Values && scanOk(x) && (status == "" || x.status == status)
  {
    var paging := ParsePaging(offsetParam, limitParam);
    if paging.Err? {
      return ListResponse(400, [], paging.error);
    }
    var (offset, limit) := paging.value;
    if !queryOk || offset < 0 || limit < 0 {
      return ListResponse(500, [], "Failed to list jobs");
    }
    var rows := SelectPage(t, order, status, offset, limit);
    var jobs := ScanRows(rows, scanOk);
    FilterMembers(rows, scanOk);
    FilterSorted(rows, scanOk);
    if KeyedById(t) {
      FilterDistinct(rows, scanOk);
    }
    r := ListResponse(200, jobs, "");
  }
}
