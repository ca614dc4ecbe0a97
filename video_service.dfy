/**
 * The Python video service: the status sink `update_job_status`, the job
 * lifecycle `generate_video`, the validation in `process_job`, the intake
 * loop `listen_for_jobs` and the direct `/generate` endpoint.
 *
 * The video generator (model inference and export) is an opaque outcome,
 * `Success` or `Failure(cause)`. Every database and publish call may fail;
 * the oracle `SinkEnv` of each status write says whether it does, and gives
 * the clock value that `NOW()` reads.
 */
module VideoService {
  import opened Wrappers
  import opened Storage

  datatype GenOutcome = Success | Failure(cause: string)

  /** How one status write fares: does the DB write commit, does the publish go out, and the time. */
  datatype SinkEnv = SinkEnv(dbOk: bool, publishOk: bool, now: int)

  /** Everything outside the code that decides one job's run. */
  datatype Attempt = Attempt(outcome: GenOutcome, onStart: SinkEnv, onFinish: SinkEnv)

  /** The arguments of one `update_job_status` call. */
  datatype StatusWrite = StatusWrite(jobId: string, status: string, videoUrl: Option<string>, error: Option<string>)

  /** What the service does, in order: issue a status write, or call the generator. */
  datatype Effect = Issue(write: StatusWrite, env: SinkEnv) | Generate(jobId: string, prompt: string)

  /** The state of both sinks: the jobs table and the `job_updates` channel. */
  datatype Sinks = Sinks(table: Table, events: seq<JobUpdate>)

  /** Python truthiness of an optional string: present and non-empty. */
  predicate Truthy(s: Option<string>)
  {
    s.Some? && s.value != ""
  }

  // ---------------------------------------------------------------------
  // Status sink

  /**
   * The UPDATE statement `update_job_status` chooses: with a truthy
   * `video_url` it sets status and video_url; otherwise with a truthy
   * `error` it sets status and error; otherwise status only.
   */
  function Statement(w: StatusWrite): (a: Assignment)
    ensures a.status == w.status
    ensures a.StatusAndUrl? <==> Truthy(w.videoUrl)
    ensures a.StatusAndError? <==> !Truthy(w.videoUrl) && Truthy(w.error)
    ensures a.StatusAndUrl? ==> w.videoUrl == Some(a.videoUrl)
    ensures a.StatusAndError? ==> w.error == Some(a.error)
  {
    if Truthy(w.videoUrl) then StatusAndUrl(w.status, w.videoUrl.value)
    else if Truthy(w.error) then StatusAndError(w.status, w.error.value)
    else StatusOnly(w.status)
  }

  /** The event published for a status write: the same four fields. */
  function EventOf(w: StatusWrite): (u: JobUpdate)
    ensures u.jobId == w.jobId && u.status == w.status
    ensures u.videoUrl == w.videoUrl && u.error == w.error
  {
    JobUpdate(w.jobId, w.status, w.videoUrl, w.error)
  }

  /**
   * The effect of one step on the sinks. A status write changes the table
   * only if its DB write commits, and publishes its event only after that
   * commit, if the publish succeeds. A generator call touches neither.
   */
  function Record(s: Sinks, e: Effect): (s': Sinks)
    ensures s'.table.Keys == s.table.Keys
    ensures e.Generate? || !e.env.dbOk ==> s' == s
    ensures e.Issue? && e.env.dbOk ==>
      s'.table == UpdateWhereId(s.table, e.write.jobId, Statement(e.write), e.env.now)
    ensures s'.events ==
      s.events + if e.Issue? && e.env.dbOk && e.env.publishOk then [EventOf(e.write)] else []
  {
    match e
    case Generate(_, _) => s
    case Issue(w, env) =>
      if !env.dbOk then s
      else
        var t := UpdateWhereId(s.table, w.jobId, Statement(w), env.now);
        Sinks(t, s.events + if env.publishOk then [EventOf(w)] else [])
  }

  /** The sinks after a whole sequence of steps, in order. */
  function Replay(s: Sinks, tr: seq<Effect>): Sinks
    decreases tr
  {
    if tr == [] then s else Replay(Record(s, tr[0]), tr[1..])
  }

  /** The status writes among the steps, in order. */
  function Writes(tr: seq<Effect>): (ws: seq<StatusWrite>)
    ensures |ws| <= |tr|
  {
    if tr == [] then []
    else (if tr[0].Issue? then [tr[0].write] else []) + Writes(tr[1..])
  }

  /** The events that reach `job_updates`: one for each write whose DB commit and publish both succeed. */
  function Published(tr: seq<Effect>): seq<JobUpdate>
  {
    if tr == [] then []
    else
      (if tr[0].Issue? && tr[0].env.dbOk && tr[0].env.publishOk then [EventOf(tr[0].write)] else [])
      + Published(tr[1..])
  }

  /** The generator calls among the steps, as (job id, prompt) pairs, in order. */
  function Generations(tr: seq<Effect>): seq<(string, string)>
  {
    if tr == [] then []
    else (if tr[0].Generate? then [(tr[0].jobId, tr[0].prompt)] else []) + Generations(tr[1..])
  }

  /** A write step is for a job when it names that job id. */
  predicate WritesTo(tr: seq<Effect>, id: string)
  {
    exists i :: 0 <= i < |tr| && tr[i].Issue? && tr[i].write.jobId == id
  }

  lemma {:induction false} ReplayAppend(s: Sinks, a: seq<Effect>, b: seq<Effect>)
    ensures Replay(s, a + b) == Replay(Replay(s, a), b)
    decreases a
  {
    if a != [] {
      assert (a + b)[1..] == a[1..] + b;
      ReplayAppend(Record(s, a[0]), a[1..], b);
    } else {
      assert a + b == b;
    }
  }

  lemma {:induction false} WritesAppend(a: seq<Effect>, b: seq<Effect>)
    ensures Writes(a + b) == Writes(a) + Writes(b)
  {
    if a != [] {
      assert (a + b)[1..] == a[1..] + b;
      WritesAppend(a[1..], b);
    } else {
      assert a + b == b;
    }
  }

  lemma {:induction false} GenerationsAppend(a: seq<Effect>, b: seq<Effect>)
    ensures Generations(a + b) == Generations(a) + Generations(b)
  {
    if a != [] {
      assert (a + b)[1..] == a[1..] + b;
      GenerationsAppend(a[1..], b);
    } else {
      assert a + b == b;
    }
  }

  /**
   * Replaying any steps only appends to the events, and what it appends is
   * exactly the published ones: the writes whose commit and publish succeeded.
   */
  lemma {:induction false} ReplayEvents(s: Sinks, tr: seq<Effect>)
    ensures Replay(s, tr).events == s.events + Published(tr)
    decreases tr
  {
    if tr != [] {
      var e := tr[0];
      var head := if e.Issue? && e.env.dbOk && e.env.publishOk then [EventOf(e.write)] else [];
      ReplayEvents(Record(s, e), tr[1..]);
      assert Record(s, e).events == s.events + head;
      assert Published(tr) == head + Published(tr[1..]);
      assert (s.events + head) + Published(tr[1..]) == s.events + (head + Published(tr[1..]));
    }
  }

  /**
   * Replaying any steps creates and deletes no row, and keeps the
   * primary-key invariant.
   */
  lemma {:induction false} ReplayKeys(s: Sinks, tr: seq<Effect>)
    ensures Replay(s, tr).table.Keys == s.table.Keys
    ensures KeyedById(s.table) ==> KeyedById(Replay(s, tr).table)
    decreases tr
  {
    if tr != [] {
      ReplayKeys(Record(s, tr[0]), tr[1..]);
    }
  }

  /** Replaying any steps leaves every row that no write names unchanged. */
  lemma {:induction false} ReplayUntouched(s: Sinks, tr: seq<Effect>, k: string)
    requires k in s.table && !WritesTo(tr, k)
    ensures k in Replay(s, tr).table && Replay(s, tr).table[k] == s.table[k]
    decreases tr
  {
    if tr != [] {
      assert !(tr[0].Issue? && tr[0].write.jobId == k);
      assert !WritesTo(tr[1..], k) by {
        forall i | 0 <= i < |tr[1..]|
          ensures !(tr[1..][i].Issue? && tr[1..][i].write.jobId == k)
        {
          assert tr[1..][i] == tr[i + 1];
        }
      }
      ReplayUntouched(Record(s, tr[0]), tr[1..], k);
    }
  }

  /**
   * Whether `JobUpdate(...)` accepts the arguments as `update_job_status`
   * passes them. Its `video_url` and `error` fields are declared `str` with
   * a default of `None`; pydantic 2 (the version whose `model_dump_json`
   * the code calls) validates an explicitly passed `None` against `str` and
   * raises, so the model is built only when both are strings.
   */
  predicate JobUpdateAccepts(w: StatusWrite)
  {
    w.videoUrl.Some? && w.error.Some?
  }

  /**
   * The events `update_job_status` publishes as the code is written: the
   * event is built after the commit, and when building it raises, the
   * exception is logged and swallowed and nothing is published.
   */
  function PublishedAsWritten(tr: seq<Effect>): seq<JobUpdate>
  {
    if tr == [] then []
    else
      (if tr[0].Issue? && tr[0].env.dbOk && JobUpdateAccepts(tr[0].write) && tr[0].env.publishOk
       then [EventOf(tr[0].write)] else [])
      + PublishedAsWritten(tr[1..])
  }

  // ---------------------------------------------------------------------
  // Job lifecycle

  /** The result path of a job, derived from its id alone. */
  function VideoUrlFor(jobId: string): (u: string)
    ensures |u| == |jobId| + 12
    ensures u[..8] == "/videos/" && u[|u| - 4..] == ".mp4" && u[8..|u| - 4] == jobId
  {
    "/videos/" + jobId + ".mp4"
  }

  /** The result path determines the job: two jobs never share a video URL. */
  lemma VideoUrlInjective(id1: string, id2: string)
    requires VideoUrlFor(id1) == VideoUrlFor(id2)
    ensures id1 == id2
  {
    var u := VideoUrlFor(id1);
    assert id1 == u[8..|u| - 4];
  }

  /** The error column written when generation fails. */
  function FailureMessage(cause: string): (m: string)
    ensures |m| == |FailurePrefix| + |cause|
    ensures m[..|FailurePrefix|] == FailurePrefix && m[|FailurePrefix|..] == cause
  {
    FailurePrefix + cause
  }

  const FailurePrefix := "Video generation failed: "

  /** The terminal status write of a run with this outcome. */
  function TerminalWrite(jobId: string, outcome: GenOutcome): (w: StatusWrite)
    ensures w.jobId == jobId
    ensures w.status == Completed <==> outcome.Success?
    ensures w.status == Failed <==> outcome.Failure?
    ensures outcome.Success? ==> w.videoUrl == Some(VideoUrlFor(jobId)) && w.error == None
    ensures outcome.Failure? ==> w.videoUrl == None && w.error == Some(FailureMessage(outcome.cause))
  {
    match outcome
    case Success => StatusWrite(jobId, Completed, Some(VideoUrlFor(jobId)), None)
    case Failure(cause) => StatusWrite(jobId, Failed, None, Some(FailureMessage(cause)))
  }

  /** The steps of one `generate_video` call. */
  function LifecycleTrace(jobId: string, prompt: string, a: Attempt): seq<Effect>
  {
    [ Issue(StatusWrite(jobId, Processing, None, None), a.onStart),
      Generate(jobId, prompt),
      Issue(TerminalWrite(jobId, a.outcome), a.onFinish) ]
  }

  /** Replaying one run: the generator step leaves the sinks alone, so only the two writes act. */
  lemma ReplayLifecycle(s: Sinks, jobId: string, prompt: string, a: Attempt)
    ensures Replay(s, LifecycleTrace(jobId, prompt, a)) ==
      Record(Record(s, Issue(StatusWrite(jobId, Processing, None, None), a.onStart)),
             Issue(TerminalWrite(jobId, a.outcome), a.onFinish))
  {
    var e0 := Issue(StatusWrite(jobId, Processing, None, None), a.onStart);
    var e1 := Generate(jobId, prompt);
    var e2 := Issue(TerminalWrite(jobId, a.outcome), a.onFinish);
    var s1 := Record(s, e0);
    assert LifecycleTrace(jobId, prompt, a) == [e0, e1, e2];
    assert [e0, e1, e2][1..] == [e1, e2] && [e1, e2][1..] == [e2] && [e2][1..] == [];
    calc {
      Replay(s, [e0, e1, e2]);
      Replay(s1, [e1, e2]);
      Replay(Record(s1, e1), [e2]);
      { assert Record(s1, e1) == s1; }
      Replay(s1, [e2]);
      Replay(Record(s1, e2), []);
    }
  }

  /**
   * One `generate_video` call issues exactly two status writes, both for its
   * job: `processing`, then one terminal status (`completed` exactly when
   * generation succeeds), whatever the sinks do; the generator is called
   * once, between the two.
   */
  lemma LifecycleWrites(jobId: string, prompt: string, a: Attempt)
    ensures Writes(LifecycleTrace(jobId, prompt, a)) ==
      [StatusWrite(jobId, Processing, None, None), TerminalWrite(jobId, a.outcome)]
    ensures Generations(LifecycleTrace(jobId, prompt, a)) == [(jobId, prompt)]
    ensures LifecycleTrace(jobId, prompt, a)[1] == Generate(jobId, prompt)
  {
    var e0 := Issue(StatusWrite(jobId, Processing, None, None), a.onStart);
    var e1 := Generate(jobId, prompt);
    var e2 := Issue(TerminalWrite(jobId, a.outcome), a.onFinish);
    assert LifecycleTrace(jobId, prompt, a) == [e0, e1, e2];
    assert [e0, e1, e2][1..] == [e1, e2] && [e1, e2][1..] == [e2] && [e2][1..] == [];
    assert Writes([e2]) == [e2.write] && Generations([e2]) == [];
    assert Writes([e1, e2]) == [e2.write] && Generations([e1, e2]) == [(jobId, prompt)];
  }

  /**
   * As written, `generate_video` publishes no event at all, even when every
   * commit and publish would succeed: each of its writes passes `None` for
   * `video_url` or `error`.
   */
  lemma LifecyclePublishesNothingAsWritten(jobId: string, prompt: string, a: Attempt)
    ensures PublishedAsWritten(LifecycleTrace(jobId, prompt, a)) == []
  {
    var e0 := Issue(StatusWrite(jobId, Processing, None, None), a.onStart);
    var e1 := Generate(jobId, prompt);
    var e2 := Issue(TerminalWrite(jobId, a.outcome), a.onFinish);
    assert LifecycleTrace(jobId, prompt, a) == [e0, e1, e2];
    assert [e0, e1, e2][1..] == [e1, e2] && [e1, e2][1..] == [e2] && [e2][1..] == [];
    assert !JobUpdateAccepts(e2.write);
    assert PublishedAsWritten([e2]) == [] + PublishedAsWritten([]);
    assert PublishedAsWritten([e1, e2]) == [] + PublishedAsWritten([e2]);
    assert PublishedAsWritten([e0, e1, e2]) == [] + PublishedAsWritten([e1, e2]);
  }

  /**
   * With the event built from the write as intended, a run whose commits
   * and publishes succeed puts exactly its two status events on
   * `job_updates`, `processing` first, the terminal one second.
   */
  lemma LifecyclePublishesBoth(s: Sinks, jobId: string, prompt: string, a: Attempt)
    requires a.onStart.dbOk && a.onStart.publishOk && a.onFinish.dbOk && a.onFinish.publishOk
    ensures Replay(s, LifecycleTrace(jobId, prompt, a)).events ==
      s.events + [JobUpdate(jobId, Processing, None, None), EventOf(TerminalWrite(jobId, a.outcome))]
  {
    ReplayLifecycle(s, jobId, prompt, a);
  }

  /**
   * Nothing in the sink enforces the order of statuses in the store: a
   * committed `processing` write replaces whatever status the row had,
   * a terminal one included.
   */
  lemma ProcessingOverwritesAnyStatus(s: Sinks, jobId: string, env: SinkEnv)
    requires jobId in s.table && env.dbOk
    ensures Record(s, Issue(StatusWrite(jobId, Processing, None, None), env)).table[jobId].status == Processing
  {
  }

  /**
   * The row of a known job after one run whose two DB writes commit: the
   * terminal status with the URL on success, or with the failure message on
   * failure; the URL column is untouched on failure, and the id, prompt
   * and creation time are kept. No other row changes.
   */
  lemma LifecycleRow(s: Sinks, jobId: string, prompt: string, a: Attempt)
    requires jobId in s.table && a.onStart.dbOk && a.onFinish.dbOk
    ensures Replay(s, LifecycleTrace(jobId, prompt, a)).table.Keys == s.table.Keys
    ensures var row := Replay(s, LifecycleTrace(jobId, prompt, a)).table[jobId];
      && row.updatedAt == a.onFinish.now
      && row.id == s.table[jobId].id && row.prompt == s.table[jobId].prompt
      && row.createdAt == s.table[jobId].createdAt
      && (a.outcome.Success? ==> row.status == Completed && row.videoUrl == Some(VideoUrlFor(jobId))
                                 && row.error == s.table[jobId].error)
      && (a.outcome.Failure? ==> row.status == Failed && row.videoUrl == s.table[jobId].videoUrl
                                 && row.error == Some(FailureMessage(a.outcome.cause)))
    ensures forall k :: k in s.table && k != jobId ==>
      Replay(s, LifecycleTrace(jobId, prompt, a)).table[k] == s.table[k]
  {
    ReplayLifecycle(s, jobId, prompt, a);
  }

  // ---------------------------------------------------------------------
  // Validation and intake

  /** The fields `process_job` reads from a decoded message. */
  datatype JobData = JobData(jobId: Option<string>, prompt: Option<string>)

  /** A message payload: not JSON, JSON that is not an object, or an object. */
  datatype Payload = Undecodable | NotAnObject | Object(data: JobData)

  /** A message of the Redis subscription: its `type` and its `data`. */
  datatype Message = Message(kind: string, payload: Payload)

  /** One delivered message together with the outcome its job would have. */
  datatype Delivery = Delivery(message: Message, attempt: Attempt)

  /** The guard of `process_job`: both `job_id` and `prompt` truthy. */
  function ValidJob(d: JobData): (r: Option<(string, string)>)
    ensures r.Some? <==> Truthy(d.jobId) && Truthy(d.prompt)
    ensures r.Some? ==>
      r.value.0 != "" && r.value.1 != "" && d.jobId == Some(r.value.0) && d.prompt == Some(r.value.1)
  {
    if !Truthy(d.jobId) || !Truthy(d.prompt) then None
    else Some((d.jobId.value, d.prompt.value))
  }

  /** The steps of one `process_job` call. */
  function ProcessTrace(d: JobData, a: Attempt): (tr: seq<Effect>)
    ensures ValidJob(d).None? <==> tr == []
    ensures ValidJob(d).Some? ==> tr == LifecycleTrace(ValidJob(d).value.0, ValidJob(d).value.1, a)
  {
    match ValidJob(d)
    case None => []
    case Some((jobId, prompt)) => LifecycleTrace(jobId, prompt, a)
  }

  /** The job a delivered message carries, if the intake loop dispatches it. */
  function DispatchedJob(m: Message): (r: Option<(string, string)>)
    ensures r.Some? <==> m.kind == "message" && m.payload.Object? && ValidJob(m.payload.data).Some?
    ensures r.Some? ==> r == ValidJob(m.payload.data)
  {
    if m.kind == "message" && m.payload.Object? then ValidJob(m.payload.data) else None
  }

  /**
   * The steps for one message: a message that is not of type "message",
   * is not JSON or not an object, or fails validation causes none.
   */
  function MessageTrace(dl: Delivery): (tr: seq<Effect>)
    ensures DispatchedJob(dl.message).None? <==> tr == []
    ensures DispatchedJob(dl.message).Some? ==>
      tr == LifecycleTrace(DispatchedJob(dl.message).value.0, DispatchedJob(dl.message).value.1, dl.attempt)
  {
    if dl.message.kind == "message" && dl.message.payload.Object? then
      ProcessTrace(dl.message.payload.data, dl.attempt)
    else []
  }

  /** The steps of the intake loop over a sequence of deliveries. */
  function IntakeTrace(ds: seq<Delivery>): seq<Effect>
  {
    if ds == [] then [] else IntakeTrace(ds[..|ds| - 1]) + MessageTrace(ds[|ds| - 1])
  }

  /** The jobs the intake loop dispatches, in order. */
  function DispatchedJobs(ds: seq<Delivery>): seq<(string, string)>
  {
    if ds == [] then []
    else
      DispatchedJobs(ds[..|ds| - 1])
      + match DispatchedJob(ds[|ds| - 1].message) case None => [] case Some(j) => [j]
  }

  /**
   * Isolation between messages: the steps of the loop over two runs of
   * messages are those of the first followed by those of the second, so
   * no message, whatever it holds and however its job ends, stops the loop
   * or changes what later messages do.
   */
  lemma {:induction false} IntakeAppend(ds: seq<Delivery>, more: seq<Delivery>)
    ensures IntakeTrace(ds + more) == IntakeTrace(ds) + IntakeTrace(more)
  {
    if more != [] {
      var n := |more|;
      assert (ds + more)[..|ds + more| - 1] == ds + more[..n - 1];
      IntakeAppend(ds, more[..n - 1]);
    } else {
      assert ds + more == ds;
    }
  }

  /** The loop over one more message: the steps so far, then that message's steps. */
  lemma IntakeSnoc(ds: seq<Delivery>, d: Delivery)
    ensures IntakeTrace(ds + [d]) == IntakeTrace(ds) + MessageTrace(d)
  {
    assert (ds + [d])[..|ds + [d]| - 1] == ds;
  }

  /** The loop over the first `i + 1` messages, in terms of the first `i`. */
  lemma IntakePrefix(ds: seq<Delivery>, i: int)
    requires 0 <= i < |ds|
    ensures IntakeTrace(ds[..i + 1]) == IntakeTrace(ds[..i]) + MessageTrace(ds[i])
  {
    assert ds[..i + 1] == ds[..i] + [ds[i]];
    IntakeSnoc(ds[..i], ds[i]);
  }

  /** One iteration of the intake loop extends the recorded steps by that message's. */
  lemma IntakeStepTrace(t: seq<Effect>, ds: seq<Delivery>, i: int, t0: seq<Effect>)
    requires 0 <= i < |ds|
    requires t0 == t + IntakeTrace(ds[..i])
    ensures t0 + MessageTrace(ds[i]) == t + IntakeTrace(ds[..i + 1])
  {
    IntakePrefix(ds, i);
  }

  /** One iteration of the intake loop takes the sinks to the replay of one more message. */
  lemma IntakeStepSinks(s0: Sinks, ds: seq<Delivery>, i: int, mid: Sinks)
    requires 0 <= i < |ds|
    requires mid == Replay(s0, IntakeTrace(ds[..i]))
    ensures Replay(mid, MessageTrace(ds[i])) == Replay(s0, IntakeTrace(ds[..i + 1]))
  {
    IntakePrefix(ds, i);
    ReplayAppend(s0, IntakeTrace(ds[..i]), MessageTrace(ds[i]));
  }

  /** A message that is not dispatched, between two runs of messages, contributes no step. */
  lemma IntakeSkipsBadMessage(before: seq<Delivery>, bad: Delivery, after: seq<Delivery>)
    requires DispatchedJob(bad.message).None?
    ensures IntakeTrace(before + [bad] + after) == IntakeTrace(before) + IntakeTrace(after)
  {
    var withBad := IntakeTrace(before + [bad]);
    IntakeSnoc(before, bad);
    assert MessageTrace(bad) == [];
    assert withBad == IntakeTrace(before);
    IntakeAppend(before + [bad], after);
  }

  /**
   * Over a whole run of the intake loop the status writes come in pairs, one
   * pair per dispatched job in arrival order: `processing` for the job, then
   * one terminal status for the same job.
   */
  lemma {:induction false} IntakeWrites(ds: seq<Delivery>)
    ensures |Writes(IntakeTrace(ds))| == 2 * |DispatchedJobs(ds)|
    ensures forall k :: 0 <= k < |DispatchedJobs(ds)| ==>
      && Writes(IntakeTrace(ds))[2 * k] == StatusWrite(DispatchedJobs(ds)[k].0, Processing, None, None)
      && Writes(IntakeTrace(ds))[2 * k + 1].jobId == DispatchedJobs(ds)[k].0
      && Writes(IntakeTrace(ds))[2 * k + 1].status in {Completed, Failed}
  {
    if ds != [] {
      var init, last := ds[..|ds| - 1], ds[|ds| - 1];
      IntakeWrites(init);
      var pre, step := IntakeTrace(init), MessageTrace(last);
      assert IntakeTrace(ds) == pre + step;
      WritesAppend(pre, step);
      match DispatchedJob(last.message)
      case None =>
        assert Writes(step) == [];
      case Some(j) =>
        LifecycleWrites(j.0, j.1, last.attempt);
        var ws := Writes(pre) + Writes(step);
        var js := DispatchedJobs(ds);
        assert js == DispatchedJobs(init) + [j];
        forall k | 0 <= k < |js|
          ensures ws[2 * k] == StatusWrite(js[k].0, Processing, None, None)
          ensures ws[2 * k + 1].jobId == js[k].0 && ws[2 * k + 1].status in {Completed, Failed}
        {
          if k < |DispatchedJobs(init)| {
            assert js[k] == DispatchedJobs(init)[k];
          } else {
            assert ws[2 * k] == Writes(step)[0] && ws[2 * k + 1] == Writes(step)[1];
          }
        }
    }
  }

  /** Over a whole run of the intake loop the generator is called exactly for the dispatched jobs, in order. */
  lemma {:induction false} IntakeGenerations(ds: seq<Delivery>)
    ensures Generations(IntakeTrace(ds)) == DispatchedJobs(ds)
  {
    if ds != [] {
      var init, last := ds[..|ds| - 1], ds[|ds| - 1];
      IntakeGenerations(init);
      var pre, step := IntakeTrace(init), MessageTrace(last);
      assert IntakeTrace(ds) == pre + step;
      GenerationsAppend(pre, step);
      match DispatchedJob(last.message)
      case None =>
        assert Generations(step) == [];
      case Some(j) =>
        LifecycleWrites(j.0, j.1, last.attempt);
    }
  }

  // ---------------------------------------------------------------------
  // The direct `/generate` endpoint

  /** The reply of `POST /generate`: the JSON body, or the HTTPException. */
  datatype GenerateReply =
    | Generated(jobId: string, videoUrl: string, status: string)
    | HttpError(code: int, detail: string)

  /**
   * The endpoint inserts no row: for a fresh id the table is unchanged
   * by the run, though its status events are still published.
   */
  lemma EndpointChangesNoRow(s: Sinks, jobId: string, prompt: string, a: Attempt)
    requires jobId !in s.table
    ensures Replay(s, LifecycleTrace(jobId, prompt, a)).table == s.table
  {
    ReplayLifecycle(s, jobId, prompt, a);
  }

  // ---------------------------------------------------------------------
  // The service

  /**
   * The video service process with its two connections. `trace` records
   * every status write it issues and every generator call it makes.
   */
  class Service {
    const db: Database
    const bus: PubSub
    ghost var trace: seq<Effect>

    ghost function SinkState(): Sinks
      reads db, bus
    {
      Sinks(db.jobs, bus.jobUpdates)
    }

    constructor (db: Database, bus: PubSub)
      ensures this.db == db && this.bus == bus && trace == []
    {
      this.db := db;
      this.bus := bus;
      trace := [];
    }

    /**
     * `update_job_status`: one UPDATE and a commit, then a publish on
     * `job_updates` only if the commit succeeded. Every failure is logged
     * and swallowed: the method never fails.
     */
    method UpdateJobStatus(jobId: string, status: string, videoUrl: Option<string>, error: Option<string>,
                           env: SinkEnv)
      modifies db`jobs, bus`jobUpdates, this`trace
      ensures trace == old(trace) + [Issue(StatusWrite(jobId, status, videoUrl, error), env)]
      ensures SinkState() == Record(old(SinkState()), Issue(StatusWrite(jobId, status, videoUrl, error), env))
    {
      var w := StatusWrite(jobId, status, videoUrl, error);
      trace := trace + [Issue(w, env)];
      var committed := db.Update(jobId, Statement(w), env.now, env.dbOk);
      if !committed {
        return;
      }
      var _ := bus.PublishUpdate(JobUpdate(jobId, status, videoUrl, error), env.publishOk);
    }

    /**
     * `generate_video`: `processing`, then the generator, then `completed`
     * with the URL (returned) or `failed` with the message (the cause is
     * re-raised, here returned as `Err`).
     */
    method GenerateVideo(prompt: string, jobId: string, a: Attempt) returns (r: Result<string, string>)
      modifies db`jobs, bus`jobUpdates, this`trace
      ensures trace == old(trace) + LifecycleTrace(jobId, prompt, a)
      ensures SinkState() == Replay(old(SinkState()), LifecycleTrace(jobId, prompt, a))
      ensures r == if a.outcome.Success? then Ok(VideoUrlFor(jobId)) else Err(a.outcome.cause)
    {
      var videoUrl := VideoUrlFor(jobId);
      ghost var s0 := SinkState();
      UpdateJobStatus(jobId, Processing, None, None, a.onStart);
      trace := trace + [Generate(jobId, prompt)];
      match a.outcome {
        case Success =>
          UpdateJobStatus(jobId, Completed, Some(videoUrl), None, a.onFinish);
          r := Ok(videoUrl);
        case Failure(cause) =>
          UpdateJobStatus(jobId, Failed, None, Some(FailureMessage(cause)), a.onFinish);
          r := Err(cause);
      }
      ReplayLifecycle(s0, jobId, prompt, a);
    }

    /** `process_job`: validate, then run the lifecycle; its failure is logged and swallowed. */
    method ProcessJob(d: JobData, a: Attempt)
      modifies db`jobs, bus`jobUpdates, this`trace
      ensures trace == old(trace) + ProcessTrace(d, a)
      ensures SinkState() == Replay(old(SinkState()), ProcessTrace(d, a))
    {
      if !Truthy(d.jobId) || !Truthy(d.prompt) {
        return;
      }
      var _ := GenerateVideo(d.prompt.value, d.jobId.value, a);
    }

    /**
     * One pass of the body of `listen_for_jobs`: a non-"message" entry is
     * ignored; an undecodable payload (JSONDecodeError) or one that is not
     * an object (the `.get` that logs it raises) is logged and dropped; an
     * object goes to `process_job`, which never raises.
     */
    method HandleMessage(dl: Delivery)
      modifies db`jobs, bus`jobUpdates, this`trace
      ensures trace == old(trace) + MessageTrace(dl)
      ensures SinkState() == Replay(old(SinkState()), MessageTrace(dl))
    {
      var m := dl.message;
      if m.kind == "message" {
        match m.payload
        case Undecodable =>
        case NotAnObject =>
        case Object(d) =>
          ProcessJob(d, dl.attempt);
      }
    }

    /** `listen_for_jobs` over the messages delivered so far: every one is handled, in order. */
    method ListenForJobs(ds: seq<Delivery>)
      modifies db`jobs, bus`jobUpdates, this`trace
      ensures trace == old(trace) + IntakeTrace(ds)
      ensures SinkState() == Replay(old(SinkState()), IntakeTrace(ds))
    {
      ghost var s0 := SinkState();
      var i := 0;
      while i < |ds|
        invariant 0 <= i <= |ds|
        invariant trace == old(trace) + IntakeTrace(ds[..i])
        invariant SinkState() == Replay(s0, IntakeTrace(ds[..i]))
      {
        ghost var t0, mid := trace, SinkState();
        HandleMessage(ds[i]);
        IntakeStepTrace(old(trace), ds, i, t0);
        IntakeStepSinks(s0, ds, i, mid);
        i := i + 1;
      }
      assert ds[..|ds|] == ds;
    }

    /** `POST /generate`: a fresh id, one lifecycle run, and its reply. */
    method GenerateVideoEndpoint(prompt: string, freshId: string, a: Attempt) returns (reply: GenerateReply)
      modifies db`jobs, bus`jobUpdates, this`trace
      ensures trace == old(trace) + LifecycleTrace(freshId, prompt, a)
      ensures SinkState() == Replay(old(SinkState()), LifecycleTrace(freshId, prompt, a))
      ensures a.outcome.Success? ==> reply == Generated(freshId, VideoUrlFor(freshId), Completed)
      ensures a.outcome.Failure? ==> reply == HttpError(500, a.outcome.cause)
    {
      var r := GenerateVideo(prompt, freshId, a);
      match r
      case Ok(url) => reply := Generated(freshId, url, Completed);
      case Err(e) => reply := HttpError(500, e);
    }
  }
}
