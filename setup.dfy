/**
 * The setup orchestrator: one persisted setup row per user key (the
 * absent user id is its own key), rewritten by each stage operation with
 * overwrite semantics for status, stage, progress and last error, and
 * keep-unless-given semantics for bundle, hardware profile and metadata.
 */
module Setup {
  import opened Common
  import opened Models

  const StartMetadata := "{\"autoUpgrade\":\"pending\"}"
  const CompletedMetadata := "{\"autoUpgrade\":\"queued\"}"
  const SkippedMetadata := "{\"autoUpgrade\":\"skipped\"}"

  /** `COALESCE(given, kept)`. */
  function Coalesce<T>(given: Option<T>, kept: Option<T>): (r: Option<T>)
    ensures given.Some? ==> r == given
    ensures given.None? ==> r == kept
  {
    if given.Some? then given else kept
  }

  /**
   * The row an upsert leaves: written fields replace the old ones, the
   * optional ones keep the old value when not given, and a first insert
   * without metadata stores "{}".
   */
  function Upserted(existing: Option<SetupState>, status: string, stage: string, progressPct: real,
                    selectedBundle: Option<string>, hardwareProfileId: Option<string>,
                    lastError: Option<string>, metadata: Option<string>): (r: SetupState)
    ensures r.status == status && r.currentStage == stage && r.progressPct == progressPct && r.lastError == lastError
    ensures existing.Some? ==> r.selectedBundle == Coalesce(selectedBundle, existing.value.selectedBundle)
    ensures existing.Some? ==> r.hardwareProfileId == Coalesce(hardwareProfileId, existing.value.hardwareProfileId)
    ensures existing.Some? ==> r.metadata == (if metadata.Some? then metadata.value else existing.value.metadata)
    ensures existing.None? ==> r.selectedBundle == selectedBundle && r.hardwareProfileId == hardwareProfileId
    ensures existing.None? ==> r.metadata == (if metadata.Some? then metadata.value else "{}")
  {
    match existing
    case Some(row) =>
      SetupState(status, stage, progressPct,
        Coalesce(selectedBundle, row.selectedBundle),
        Coalesce(hardwareProfileId, row.hardwareProfileId),
        lastError,
        if metadata.Some? then metadata.value else row.metadata)
    case None =>
      SetupState(status, stage, progressPct, selectedBundle, hardwareProfileId, lastError,
        if metadata.Some? then metadata.value else "{}")
  }

  /** Repeating the same upsert changes nothing more. */
  lemma UpsertIdempotent(existing: Option<SetupState>, status: string, stage: string, progressPct: real,
                         selectedBundle: Option<string>, hardwareProfileId: Option<string>,
                         lastError: Option<string>, metadata: Option<string>)
    ensures var once := Upserted(existing, status, stage, progressPct, selectedBundle, hardwareProfileId, lastError, metadata);
      Upserted(Some(once), status, stage, progressPct, selectedBundle, hardwareProfileId, lastError, metadata) == once
  {
  }

  /** A retry after a failure clears the error and keeps the chosen bundle and profile. */
  lemma RetryAfterFailure(existing: Option<SetupState>, stage: string, error: string)
    ensures var failed := Upserted(existing, "failed", stage, 0.0, None, None, Some(error), None);
      var retried := Upserted(Some(failed), "running", stage, 15.0, None, None, None, None);
      && failed.lastError == Some(error) && retried.lastError == None
      && retried.selectedBundle == failed.selectedBundle
      && retried.hardwareProfileId == failed.hardwareProfileId
      && retried.metadata == failed.metadata
  {
  }

  /** The setup rows, keyed by user id; `None` is the row without a user. */
  class SetupStore {
    var rows: map<Option<string>, SetupState>

    constructor()
      ensures rows == map[]
    {
      rows := map[];
    }

    /** `get_state`. */
    function GetState(userId: Option<string>): (r: Option<SetupState>)
      reads this
      ensures r.Some? <==> userId in rows
      ensures r.Some? ==> r.value == rows[userId]
    {
      if userId in rows then Some(rows[userId]) else None
    }

    /** `upsert_state`: update the user's row or insert it, then read it back. */
    method UpsertState(userId: Option<string>, status: string, stage: string, progressPct: real,
                       selectedBundle: Option<string>, hardwareProfileId: Option<string>,
                       lastError: Option<string>, metadata: Option<string>)
      returns (r: SetupState)
      modifies this
      ensures r == Upserted(old(GetState(userId)), status, stage, progressPct, selectedBundle, hardwareProfileId, lastError, metadata)
      ensures rows == old(rows)[userId := r]
    {
      var existing := GetState(userId);
      rows := rows[userId := Upserted(existing, status, stage, progressPct, selectedBundle, hardwareProfileId, lastError, metadata)];
      var back := GetState(userId);
      r := back.value;
    }

    /** `start_or_resume`: running at stage A, 10%, auto-upgrade pending. */
    method StartOrResume(userId: Option<string>, selectedBundle: Option<string>, hardwareProfileId: Option<string>)
      returns (r: SetupState)
      modifies this
      ensures r.status == "running" && r.currentStage == "stage_a_preflight" && r.progressPct == 10.0
      ensures r.lastError == None && r.metadata == StartMetadata
      ensures r == Upserted(old(GetState(userId)), "running", "stage_a_preflight", 10.0, selectedBundle, hardwareProfileId, None, Some(StartMetadata))
      ensures rows == old(rows)[userId := r]
    {
      r := UpsertState(userId, "running", "stage_a_preflight", 10.0, selectedBundle, hardwareProfileId, None, Some(StartMetadata));
    }

    /** `update_stage`: running at the given stage and progress, error cleared. */
    method UpdateStage(userId: Option<string>, stage: string, progressPct: real) returns (r: SetupState)
      modifies this
      ensures r == Upserted(old(GetState(userId)), "running", stage, progressPct, None, None, None, None)
      ensures r.lastError == None
      ensures rows == old(rows)[userId := r]
    {
      r := UpsertState(userId, "running", stage, progressPct, None, None, None, None);
    }

    /** `mark_completed`: completed at 100% with the upgrade queued. */
    method MarkCompleted(userId: Option<string>) returns (r: SetupState)
      modifies this
      ensures r == Upserted(old(GetState(userId)), "completed", "stage_d_background_upgrade_queued", 100.0, None, None, None, Some(CompletedMetadata))
      ensures r.progressPct == 100.0 && r.metadata == CompletedMetadata
      ensures rows == old(rows)[userId := r]
    {
      r := UpsertState(userId, "completed", "stage_d_background_upgrade_queued", 100.0, None, None, None, Some(CompletedMetadata));
    }

    /** `mark_failed`: failed at the given stage, progress 0, the error recorded. */
    method MarkFailed(userId: Option<string>, stage: string, error: string) returns (r: SetupState)
      modifies this
      ensures r == Upserted(old(GetState(userId)), "failed", stage, 0.0, None, None, Some(error), None)
      ensures r.status == "failed" && r.progressPct == 0.0 && r.lastError == Some(error)
      ensures rows == old(rows)[userId := r]
    {
      r := UpsertState(userId, "failed", stage, 0.0, None, None, Some(error), None);
    }

    /** `skip_quality_upgrade`: completed at 100% with the upgrade skipped. */
    method SkipQualityUpgrade(userId: Option<string>) returns (r: SetupState)
      modifies this
      ensures r == Upserted(old(GetState(userId)), "completed", "stage_d_skipped", 100.0, None, None, None, Some(SkippedMetadata))
      ensures rows == old(rows)[userId := r]
    {
      r := UpsertState(userId, "completed", "stage_d_skipped", 100.0, None, None, None, Some(SkippedMetadata));
    }

    /** `retry_stage`: running at the given stage, 15%. */
    method RetryStage(userId: Option<string>, stage: string) returns (r: SetupState)
      modifies this
      ensures r == Upserted(old(GetState(userId)), "running", stage, 15.0, None, None, None, None)
      ensures r.status == "running" && r.progressPct == 15.0 && r.lastError == None
      ensures rows == old(rows)[userId := r]
    {
      r := UpsertState(userId, "running", stage, 15.0, None, None, None, None);
    }
  }
}
