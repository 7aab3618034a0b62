/**
 * The background service's decisions: when the machine counts as under
 * high pressure, which queued tasks the worker performs and which it
 * drops, and which sessions the summary job queues.
 */
module Background {
  import opened Common
  import opened Models
  import Governor

  datatype BackgroundTask = EmbedDocument(docId: string) | SummarizeSession(sessionId: string) | RefreshRecommendations

  /** The bound of the worker's task channel. */
  const QueueCapacity: nat := 256

  /** The threshold, for CPU and memory alike, above which summaries and refreshes are dropped. */
  const HighPressurePct: real := 88.0

  /**
   * `is_pressure_high`: CPU at 88% or more, or memory at 88% or more when
   * the total is known; with an unknown total only the CPU counts.
   */
  function IsPressureHigh(stats: LiveSystemStats): (high: bool)
    ensures stats.memoryTotalMb == 0 ==> (high <==> stats.cpuUsagePct >= HighPressurePct)
    ensures stats.memoryTotalMb > 0 ==>
      (high <==> stats.cpuUsagePct >= HighPressurePct
                 || stats.memoryUsedMb as real * 100.0 >= HighPressurePct * stats.memoryTotalMb as real)
  {
    if stats.memoryTotalMb == 0 then stats.cpuUsagePct >= HighPressurePct
    else
      PercentThreshold(stats.memoryUsedMb as real, stats.memoryTotalMb as real, HighPressurePct);
      stats.cpuUsagePct >= HighPressurePct || Governor.MemoryPct(stats) >= HighPressurePct
  }

  /** `used / total * 100 >= t` exactly when `used * 100 >= t * total`, for a positive total. */
  lemma PercentThreshold(used: real, total: real, t: real)
    requires total > 0.0
    ensures (used / total) * 100.0 >= t <==> used * 100.0 >= t * total
  {
    var q := used / total;
    assert q * total == used;
    assert q * 100.0 * total == used * 100.0;
    if q * 100.0 >= t {
      MulMonotoneReal(t, q * 100.0, total);
    } else {
      MulMonotoneReal(q * 100.0, t, total);
      assert q * 100.0 * total != t * total by {
        MulCancel(q * 100.0, t, total);
      }
    }
  }

  lemma MulMonotoneReal(a: real, b: real, c: real)
    requires a <= b && c > 0.0
    ensures a * c <= b * c
  {
  }

  lemma MulCancel(a: real, b: real, c: real)
    requires a != b && c > 0.0
    ensures a * c != b * c
  {
  }

  /** What the worker does for one task that it does not drop. */
  datatype Job = EmbedChunks(docId: string) | Summarize(sessionId: string) | Recompute

  /**
   * The job one task leads to, given the pressure when it is taken off
   * the queue: documents are embedded whenever RAG exists, pressure or
   * not; summaries and refreshes are dropped under high pressure, and a
   * refresh also needs a stored hardware profile.
   */
  function JobFor(task: BackgroundTask, stats: LiveSystemStats, ragPresent: bool, profilePresent: bool): (j: Option<Job>)
    ensures task.EmbedDocument? ==> (j.Some? <==> ragPresent) && (j.Some? ==> j.value == EmbedChunks(task.docId))
    ensures task.SummarizeSession? ==> (j.Some? <==> !IsPressureHigh(stats)) && (j.Some? ==> j.value == Summarize(task.sessionId))
    ensures task.RefreshRecommendations? ==> (j.Some? <==> !IsPressureHigh(stats) && profilePresent) && (j.Some? ==> j.value == Recompute)
  {
    match task
    case EmbedDocument(docId) => if ragPresent then Some(EmbedChunks(docId)) else None
    case SummarizeSession(sessionId) => if IsPressureHigh(stats) then None else Some(Summarize(sessionId))
    case RefreshRecommendations =>
      if IsPressureHigh(stats) then None
      else if profilePresent then Some(Recompute) else None
  }

  /** The jobs performed for the tasks, in queue order; `pressure[i]` is sampled for `tasks[i]`. */
  function Performed(tasks: seq<BackgroundTask>, pressure: seq<LiveSystemStats>, ragPresent: bool, profilePresent: bool): (jobs: seq<Job>)
    requires |pressure| == |tasks|
    ensures |jobs| <= |tasks|
  {
    if |tasks| == 0 then []
    else
      var n := |tasks| - 1;
      var earlier := Performed(tasks[..n], pressure[..n], ragPresent, profilePresent);
      match JobFor(tasks[n], pressure[n], ragPresent, profilePresent)
      case Some(j) => earlier + [j]
      case None => earlier
  }

  /**
   * The worker loop: take each task off the queue in turn and perform it
   * or drop it.  A dropped task is gone; nothing is requeued.
   */
  method Work(tasks: seq<BackgroundTask>, pressure: seq<LiveSystemStats>, ragPresent: bool, profilePresent: bool)
    returns (jobs: seq<Job>)
    requires |pressure| == |tasks|
    ensures jobs == Performed(tasks, pressure, ragPresent, profilePresent)
  {
    jobs := [];
    var i := 0;
    while i < |tasks|
      invariant 0 <= i <= |tasks|
      invariant jobs == Performed(tasks[..i], pressure[..i], ragPresent, profilePresent)
    {
      assert tasks[..i + 1][..i] == tasks[..i];
      assert pressure[..i + 1][..i] == pressure[..i];
      var task := tasks[i];
      match task {
        case EmbedDocument(docId) =>
          if ragPresent {
            jobs := jobs + [EmbedChunks(docId)];
          }
        case SummarizeSession(sessionId) =>
          if !IsPressureHigh(pressure[i]) {
            jobs := jobs + [Summarize(sessionId)];
          }
        case RefreshRecommendations =>
          if !IsPressureHigh(pressure[i]) && profilePresent {
            jobs := jobs + [Recompute];
          }
      }
      i := i + 1;
    }
    assert tasks[..i] == tasks;
    assert pressure[..i] == pressure;
  }

  function EmbedTasks(tasks: seq<BackgroundTask>): nat {
    if |tasks| == 0 then 0
    else EmbedTasks(tasks[..|tasks| - 1]) + (if tasks[|tasks| - 1].EmbedDocument? then 1 else 0)
  }

  function EmbedJobs(jobs: seq<Job>): nat {
    if |jobs| == 0 then 0
    else EmbedJobs(jobs[..|jobs| - 1]) + (if jobs[|jobs| - 1].EmbedChunks? then 1 else 0)
  }

  lemma EmbedJobsAppend(jobs: seq<Job>, j: Job)
    ensures EmbedJobs(jobs + [j]) == EmbedJobs(jobs) + (if j.EmbedChunks? then 1 else 0)
  {
    assert (jobs + [j])[..|jobs|] == jobs;
  }

  /** Pressure never gates embedding: with RAG present every queued document is embedded. */
  lemma {:induction false} EmbeddingIsNeverGated(tasks: seq<BackgroundTask>, pressure: seq<LiveSystemStats>, profilePresent: bool)
    requires |pressure| == |tasks|
    ensures EmbedJobs(Performed(tasks, pressure, true, profilePresent)) == EmbedTasks(tasks)
  {
    if |tasks| > 0 {
      var n := |tasks| - 1;
      EmbeddingIsNeverGated(tasks[..n], pressure[..n], profilePresent);
      EmbedStep(tasks, pressure, profilePresent);
    }
  }

  /** The last task adds an embedding exactly when it is a document. */
  lemma EmbedStep(tasks: seq<BackgroundTask>, pressure: seq<LiveSystemStats>, profilePresent: bool)
    requires |pressure| == |tasks| > 0
    ensures var n := |tasks| - 1;
      EmbedJobs(Performed(tasks, pressure, true, profilePresent))
      == EmbedJobs(Performed(tasks[..n], pressure[..n], true, profilePresent)) + (if tasks[n].EmbedDocument? then 1 else 0)
  {
    var n := |tasks| - 1;
    var earlier := Performed(tasks[..n], pressure[..n], true, profilePresent);
    match JobFor(tasks[n], pressure[n], true, profilePresent)
    case Some(j) => EmbedJobsAppend(earlier, j);
    case None =>
  }

  /** Under high pressure throughout, the worker only embeds documents. */
  lemma {:induction false} HighPressureOnlyEmbeds(tasks: seq<BackgroundTask>, pressure: seq<LiveSystemStats>,
                                                  ragPresent: bool, profilePresent: bool)
    requires |pressure| == |tasks|
    requires forall i :: 0 <= i < |pressure| ==> IsPressureHigh(pressure[i])
    ensures forall k :: 0 <= k < |Performed(tasks, pressure, ragPresent, profilePresent)| ==>
      Performed(tasks, pressure, ragPresent, profilePresent)[k].EmbedChunks?
  {
    if |tasks| > 0 {
      var n := |tasks| - 1;
      HighPressureOnlyEmbeds(tasks[..n], pressure[..n], ragPresent, profilePresent);
    }
  }

  /** Without pressure and with a profile, every task but an embed without RAG is performed. */
  lemma {:induction false} CalmRunsEverything(tasks: seq<BackgroundTask>, pressure: seq<LiveSystemStats>)
    requires |pressure| == |tasks|
    requires forall i :: 0 <= i < |pressure| ==> !IsPressureHigh(pressure[i])
    ensures |Performed(tasks, pressure, true, true)| == |tasks|
  {
    if |tasks| > 0 {
      var n := |tasks| - 1;
      CalmRunsEverything(tasks[..n], pressure[..n]);
    }
  }

  // ---------------------------------------------------------------------
  // Session summary job
  // ---------------------------------------------------------------------

  /** The columns of a listed session that the summary job reads. */
  datatype SessionRow = SessionRow(id: string, messageCount: int)

  /** Sessions with this many messages or more are summarised. */
  const SummaryMinMessages: int := 20

  /** The tasks one tick of the summary job queues, in listing order. */
  function SummaryTasks(sessions: seq<SessionRow>): (tasks: seq<BackgroundTask>) {
    if |sessions| == 0 then []
    else
      var n := |sessions| - 1;
      SummaryTasks(sessions[..n])
        + (if sessions[n].messageCount >= SummaryMinMessages then [SummarizeSession(sessions[n].id)] else [])
  }

  /** Some long enough session has this id. */
  predicate Eligible(sessions: seq<SessionRow>, id: string) {
    exists i :: 0 <= i < |sessions| && sessions[i].messageCount >= SummaryMinMessages && sessions[i].id == id
  }

  /** Every queued task is a summary of a long enough session. */
  lemma {:induction false} SummaryTasksAreEligible(sessions: seq<SessionRow>)
    ensures forall k :: 0 <= k < |SummaryTasks(sessions)| ==>
      SummaryTasks(sessions)[k].SummarizeSession? && Eligible(sessions, SummaryTasks(sessions)[k].sessionId)
  {
    if |sessions| > 0 {
      var n := |sessions| - 1;
      SummaryTasksAreEligible(sessions[..n]);
      var earlier := SummaryTasks(sessions[..n]);
      var all := SummaryTasks(sessions);
      forall k | 0 <= k < |all|
        ensures all[k].SummarizeSession? && Eligible(sessions, all[k].sessionId)
      {
        if k < |earlier| {
          assert all[k] == earlier[k];
          var i :| 0 <= i < n && sessions[..n][i].messageCount >= SummaryMinMessages
                   && sessions[..n][i].id == earlier[k].sessionId;
          assert sessions[i] == sessions[..n][i];
        } else {
          assert sessions[n].messageCount >= SummaryMinMessages;
          assert all[k] == SummarizeSession(sessions[n].id);
        }
      }
    }
  }

  /** Every long enough session is queued as a summary task. */
  lemma {:induction false} EligibleSessionsAreQueued(sessions: seq<SessionRow>)
    ensures forall i :: 0 <= i < |sessions| && sessions[i].messageCount >= SummaryMinMessages ==>
      SummarizeSession(sessions[i].id) in SummaryTasks(sessions)
  {
    if |sessions| > 0 {
      var n := |sessions| - 1;
      EligibleSessionsAreQueued(sessions[..n]);
      var earlier := SummaryTasks(sessions[..n]);
      var all := SummaryTasks(sessions);
      forall i | 0 <= i < |sessions| && sessions[i].messageCount >= SummaryMinMessages
        ensures SummarizeSession(sessions[i].id) in all
      {
        if i < n {
          assert sessions[..n][i] == sessions[i];
          assert SummarizeSession(sessions[i].id) in earlier;
        } else {
          assert all[|all| - 1] == SummarizeSession(sessions[n].id);
        }
      }
    }
  }

  /** One tick of the summary job: send a summary task for each long enough session. */
  method SummaryJobTick(sessions: seq<SessionRow>) returns (sent: seq<BackgroundTask>)
    ensures sent == SummaryTasks(sessions)
  {
    sent := [];
    for i := 0 to |sessions|
      invariant sent == SummaryTasks(sessions[..i])
    {
      assert sessions[..i + 1][..i] == sessions[..i];
      if sessions[i].messageCount >= SummaryMinMessages {
        sent := sent + [SummarizeSession(sessions[i].id)];
      }
    }
    assert sessions[..|sessions|] == sessions;
  }

  // ---------------------------------------------------------------------
  // Jobs and the task channel
  // ---------------------------------------------------------------------

  /**
   * `start_critical_tasks`: the MCP health check always runs; the worker,
   * the secondary jobs and the background jobs only when the service is
   * enabled.  The delays before the latter two groups are not modelled.
   */
  function StartedJobs(enabled: bool): (names: set<string>)
    ensures "mcp_health" in names
    ensures !enabled ==> names == {"mcp_health"}
    ensures enabled ==> "worker" in names && "session_summary" in names && |names| == 6
  {
    if enabled then {"mcp_health", "worker", "session_summary", "memory_decay", "model_refresh", "analytics_agg"}
    else {"mcp_health"}
  }

  /**
   * The bounded task channel between the senders (the summary and refresh
   * jobs, commands) and the worker.  A send on a full channel waits for
   * room; the model states that wait as the precondition of `Send`.
   */
  class TaskChannel {
    var pending: seq<BackgroundTask>

    predicate Valid()
      reads this
    {
      |pending| <= QueueCapacity
    }

    constructor()
      ensures Valid() && pending == []
    {
      pending := [];
    }

    method Send(task: BackgroundTask)
      requires Valid() && |pending| < QueueCapacity
      modifies this
      ensures Valid() && pending == old(pending) + [task]
    {
      pending := pending + [task];
    }

    /** The worker's receive: the oldest task, or nothing when the channel is empty. */
    method Receive() returns (task: Option<BackgroundTask>)
      requires Valid()
      modifies this
      ensures Valid()
      ensures old(pending) == [] ==> task.None? && pending == []
      ensures old(pending) != [] ==> task == Some(old(pending)[0]) && pending == old(pending)[1..]
    {
      if |pending| == 0 {
        task := None;
      } else {
        task := Some(pending[0]);
        pending := pending[1..];
      }
    }
  }
}
