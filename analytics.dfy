/**
 * The analytics service: the process-wide first-inference latency cell,
 * written once by the first successful inference, and the performance log
 * every inference is appended to.
 */
module Analytics {
  import opened Common
  import opened Errors

  /** The cell's value before any inference has been recorded. */
  const Unset: int := -1

  /** A row of the performance log, reduced to the columns an inference sets. */
  datatype PerfLog = PerfLog(
    eventType: string,
    sessionId: Option<string>,
    modelId: Option<string>,
    latencyMs: int,
    tokensIn: Option<int>,
    tokensOut: Option<int>,
    tokensPerSec: Option<real>,
    success: bool,
    errorCode: Option<string>)

  /** One call of `log_inference`, as far as the cell is concerned. */
  datatype InferenceCall = InferenceCall(latencyMs: int, success: bool)

  /** A call that may set the cell: a success with a latency that is not negative. */
  predicate Records(c: InferenceCall) { c.success && c.latencyMs >= 0 }

  /** The compare-exchange from `Unset`: only an unset cell takes the latency. */
  function Step(cell: int, c: InferenceCall): (next: int)
    ensures cell != Unset ==> next == cell
    ensures cell == Unset ==> (next == Unset <==> !Records(c))
    ensures cell == Unset && Records(c) ==> next == c.latencyMs
  {
    if Records(c) && cell == Unset then c.latencyMs else cell
  }

  /** The cell after a sequence of calls, starting unset. */
  function CellAfter(calls: seq<InferenceCall>): int {
    if |calls| == 0 then Unset else Step(CellAfter(calls[..|calls| - 1]), calls[|calls| - 1])
  }

  /** How `first_inference_latency_ms` reads the cell. */
  function Reading(cell: int): (r: Option<int>)
    ensures r.None? <==> cell < 0
    ensures r.Some? ==> r.value == cell
  {
    if cell < 0 then None else Some(cell)
  }

  /**
   * The reading after any calls is the latency of the first recording
   * call, and nothing when no call records.
   */
  lemma {:induction false} FirstRecordingCallWins(calls: seq<InferenceCall>)
    ensures Reading(CellAfter(calls)).None? <==> forall i :: 0 <= i < |calls| ==> !Records(calls[i])
    ensures Reading(CellAfter(calls)).Some? ==>
      exists i :: 0 <= i < |calls| && Records(calls[i]) && calls[i].latencyMs == CellAfter(calls)
                  && forall j :: 0 <= j < i ==> !Records(calls[j])
    ensures CellAfter(calls) == Unset || CellAfter(calls) >= 0
  {
    if |calls| > 0 {
      var n := |calls| - 1;
      var prefix := calls[..n];
      FirstRecordingCallWins(prefix);
      assert forall i :: 0 <= i < n ==> prefix[i] == calls[i];
      if CellAfter(prefix) == Unset {
        if Records(calls[n]) {
          assert forall j :: 0 <= j < n ==> !Records(calls[j]);
        }
      } else {
        var i :| 0 <= i < |prefix| && Records(prefix[i]) && prefix[i].latencyMs == CellAfter(prefix)
                 && forall j :: 0 <= j < i ==> !Records(prefix[j]);
        assert calls[i] == prefix[i];
      }
    }
  }

  /** Once set, later calls never change the reading. */
  lemma {:induction false} ReadingIsStable(calls: seq<InferenceCall>, later: seq<InferenceCall>)
    requires Reading(CellAfter(calls)).Some?
    ensures CellAfter(calls + later) == CellAfter(calls)
    decreases |later|
  {
    if |later| > 0 {
      var n := |later| - 1;
      assert (calls + later)[..|calls| + n] == calls + later[..n];
      ReadingIsStable(calls, later[..n]);
    } else {
      assert calls + later == calls;
    }
  }

  /** The analytics service with its cell and the performance log it writes to. */
  class Service {
    var firstLatencyMs: int
    var perfLogs: seq<PerfLog>

    /** The cell holds `Unset` or a recorded latency. */
    predicate Valid()
      reads this
    {
      firstLatencyMs == Unset || firstLatencyMs >= 0
    }

    constructor()
      ensures Valid() && firstLatencyMs == Unset && perfLogs == []
    {
      firstLatencyMs := Unset;
      perfLogs := [];
    }

    /** `first_inference_latency_ms`. */
    function FirstInferenceLatencyMs(): (r: Option<int>)
      reads this
      ensures r == Reading(firstLatencyMs)
    {
      if firstLatencyMs < 0 then None else Some(firstLatencyMs)
    }

    /**
     * `log_inference`: the cell is offered the latency first, whether the
     * log write then succeeds or not; the write appends an "inference"
     * row.  `writeFailure` is the storage error, if any.
     */
    method LogInference(sessionId: Option<string>, modelId: Option<string>, latencyMs: int,
                        tokensIn: Option<int>, tokensOut: Option<int>, tokensPerSec: Option<real>,
                        success: bool, errorCode: Option<string>, writeFailure: Option<AppError>)
      returns (r: Result<()>)
      requires Valid()
      modifies this
      ensures Valid()
      ensures firstLatencyMs == Step(old(firstLatencyMs), InferenceCall(latencyMs, success))
      ensures old(FirstInferenceLatencyMs()).Some? ==> FirstInferenceLatencyMs() == old(FirstInferenceLatencyMs())
      ensures writeFailure.None? ==> (r == Ok(()) && perfLogs == old(perfLogs) +
        [PerfLog("inference", sessionId, modelId, latencyMs, tokensIn, tokensOut, tokensPerSec, success, errorCode)])
      ensures writeFailure.Some? ==> r == Err(writeFailure.value) && perfLogs == old(perfLogs)
    {
      if success && latencyMs >= 0 {
        if firstLatencyMs == Unset {
          firstLatencyMs := latencyMs;
        }
      }
      if writeFailure.Some? {
        return Err(writeFailure.value);
      }
      perfLogs := perfLogs + [PerfLog("inference", sessionId, modelId, latencyMs, tokensIn, tokensOut,
                                      tokensPerSec, success, errorCode)];
      r := Ok(());
    }
  }
}
