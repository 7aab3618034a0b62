/**
 * The model commands: the download file name derived from a model's URL,
 * model lookup by id or name, the model the NLP setup downloads, the
 * compatibility score, and the in-memory download tracker that moves a
 * model through queued, downloading, completed and failed.
 */
module ModelCommands {
  import opened Common
  import opened Models
  import opened Errors
  import Recommendation
  import Setup

  // ---------------------------------------------------------------------
  // normalize_filename
  // ---------------------------------------------------------------------

  /** The characters a file name may not contain; each becomes '_'. */
  predicate Forbidden(c: char) {
    c == '<' || c == '>' || c == ':' || c == '"' || c == '/' || c == '\\' || c == '|' || c == '?' || c == '*'
  }

  predicate NoForbidden(s: string) { forall i :: 0 <= i < |s| ==> !Forbidden(s[i]) }

  /** `split(c).next()`: the text before the first `c`; there always is one. */
  function FirstPiece(s: string, c: char): (r: Option<string>)
    ensures r.Some? && c !in r.value && StartsWith(s, r.value)
    ensures |r.value| < |s| ==> s[|r.value|] == c
  {
    Some(s[..FirstIndex(s, c)])
  }

  /** The text after the last `c`: all of `s` when it has none. */
  function AfterLast(s: string, c: char): (r: string)
    ensures c !in r && EndsWith(s, r)
    ensures |r| < |s| ==> s[|s| - |r| - 1] == c
    ensures c !in s ==> r == s
  {
    if |s| == 0 then ""
    else if s[|s| - 1] == c then ""
    else
      var r := AfterLast(s[..|s| - 1], c) + [s[|s| - 1]];
      assert s[..|s| - 1][|s| - 1 - (|r| - 1)..] + [s[|s| - 1]] == s[|s| - |r|..];
      r
  }

  /** `rsplit(c).next()`: the last segment; there always is one. */
  function LastPiece(s: string, c: char): (r: Option<string>)
    ensures r.Some? && c !in r.value && EndsWith(s, r.value)
  {
    Some(AfterLast(s, c))
  }

  function SanitizeChar(c: char): (d: char)
    ensures !Forbidden(d)
    ensures !Forbidden(c) ==> d == c
    ensures IsWs(d) <==> IsWs(c)
  {
    if Forbidden(c) then '_' else c
  }

  /** Every forbidden character replaced by '_', the rest kept. */
  function Sanitize(s: string): (r: string)
    ensures |r| == |s| && NoForbidden(r)
    ensures forall i :: 0 <= i < |s| ==> r[i] == SanitizeChar(s[i])
  {
    seq(|s|, i requires 0 <= i < |s| => SanitizeChar(s[i]))
  }

  const Gguf := ".gguf"

  /**
   * The segment `split('?').next().and_then(rsplit('/').next())` picks
   * before `unwrap_or(fallbackName)`: always the URL's last path segment,
   * so the fallback is never taken.
   */
  function Segment(url: string, fallbackName: string): (r: string)
    ensures r == AfterLast(url[..FirstIndex(url, '?')], '/')
  {
    var segment := match FirstPiece(url, '?') {
      case Some(value) => LastPiece(value, '/')
      case None => None
    };
    if segment.Some? then segment.value else fallbackName
  }

  /** Append ".gguf" unless the name already ends with it, ignoring case. */
  function WithGguf(out: string): (r: string)
    ensures EndsWith(Lower(r), Gguf)
    ensures EndsWith(Lower(out), Gguf) ==> r == out
    ensures NoForbidden(out) ==> NoForbidden(r)
    ensures |r| > 0 && !IsWs(r[|r| - 1])
    ensures |out| > 0 ==> r[0] == out[0] && (r == out || r[|r| - 1] == 'f')
    ensures |out| == 0 ==> r == Gguf
  {
    if !EndsWith(Lower(out), Gguf) then
      var r := out + Gguf;
      assert Lower(r)[|r| - 5..] == Gguf;
      r
    else out
  }

  /** `normalize_filename`: last path segment of the URL without its query, trimmed, sanitized, with ".gguf". */
  function NormalizeFilename(url: string, fallbackName: string): (r: string)
  {
    WithGguf(Sanitize(Trim(Segment(url, fallbackName))))
  }

  /** The file name contains no forbidden character and ends in ".gguf", ignoring case. */
  lemma NormalizedFilenameShape(url: string, fallbackName: string)
    ensures NoForbidden(NormalizeFilename(url, fallbackName))
    ensures EndsWith(Lower(NormalizeFilename(url, fallbackName)), Gguf)
  {
  }

  /** The fallback name is never consulted: both pieces always exist. */
  lemma FallbackNeverUsed(url: string, f1: string, f2: string)
    ensures NormalizeFilename(url, f1) == NormalizeFilename(url, f2)
  {
  }

  /** A string without whitespace at either end is its own trim. */
  lemma TrimOfTrimmed(s: string)
    requires |s| > 0 ==> !IsWs(s[0]) && !IsWs(s[|s| - 1])
    ensures Trim(s) == s
  {
    if |s| > 0 {
      assert TrimStart(s) == s;
      assert TrimEnd(s) == s;
    }
  }

  /** A string with no forbidden character is its own sanitization. */
  lemma SanitizeOfClean(s: string)
    requires NoForbidden(s)
    ensures Sanitize(s) == s
  {
  }

  /** Normalizing a normalized file name changes nothing. */
  lemma NormalizeFilenameIdempotent(url: string, fallbackName: string)
    ensures var r := NormalizeFilename(url, fallbackName); NormalizeFilename(r, fallbackName) == r
  {
    var r := NormalizeFilename(url, fallbackName);
    NormalizedEdges(url, fallbackName);
    SegmentOfClean(r, fallbackName);
    TrimOfTrimmed(r);
    SanitizeOfClean(r);
  }

  /** A clean name is its own last segment. */
  lemma SegmentOfClean(s: string, fallbackName: string)
    requires NoForbidden(s)
    ensures Segment(s, fallbackName) == s
  {
    assert '?' !in s && '/' !in s by {
      assert forall i :: 0 <= i < |s| ==> !Forbidden(s[i]);
    }
    assert s[..FirstIndex(s, '?')] == s;
  }

  /** A normalized name is clean and starts and ends with a non-space. */
  lemma NormalizedEdges(url: string, fallbackName: string)
    ensures var r := NormalizeFilename(url, fallbackName);
      NoForbidden(r) && |r| > 0 && !IsWs(r[0]) && !IsWs(r[|r| - 1])
  {
    FinishedEdges(Trim(Segment(url, fallbackName)));
  }

  lemma FinishedEdges(t: string)
    requires |t| > 0 ==> !IsWs(t[0])
    ensures var r := WithGguf(Sanitize(t));
      NoForbidden(r) && |r| > 0 && !IsWs(r[0]) && !IsWs(r[|r| - 1])
  {
    var out := Sanitize(t);
    if |out| > 0 {
      assert out[0] == SanitizeChar(t[0]);
    } else {
      assert WithGguf(out) == Gguf;
    }
  }

  // ---------------------------------------------------------------------
  // resolve_model and the NLP setup target
  // ---------------------------------------------------------------------

  /** `resolve_model`: the catalog row with that id, else with that name, else NotFound. */
  function ResolveModel(catalog: seq<Model>, idOrName: string): (r: Result<Model>)
    ensures r.Ok? ==> r.value in catalog && (r.value.id == idOrName || r.value.name == idOrName)
    ensures (exists i :: 0 <= i < |catalog| && catalog[i].id == idOrName) ==> r.Ok? && r.value.id == idOrName
    ensures r.Err? <==> forall i :: 0 <= i < |catalog| ==> catalog[i].id != idOrName && catalog[i].name != idOrName
    ensures r.Err? ==> r.error == NotFound("model", idOrName)
  {
    match FirstWhere(catalog, (m: Model) => m.id == idOrName)
    case Some(i) => Ok(catalog[i])
    case None =>
      match FirstWhere(catalog, (m: Model) => m.name == idOrName)
      case Some(j) => Ok(catalog[j])
      case None => Err(NotFound("model", idOrName))
  }

  const StarterFallbackName := "qwen2.5-0.5b-instruct-q4_k_m"

  /**
   * The model `run_nlp_setup` downloads: the requested one when a
   * non-blank name is given, else the installed default, the first
   * installed model, the catalog's starter model, the first catalog row.
   */
  function NlpTarget(requested: Option<string>, installed: seq<Model>, catalog: seq<Model>): (r: Result<Model>)
    ensures requested.Some? && !IsBlank(requested.value) ==> r == ResolveModel(catalog, Trim(requested.value))
    ensures (requested.None? || IsBlank(requested.value)) && (exists i :: 0 <= i < |installed| && IsDefault(installed[i]))
            ==> r.Ok? && r.value in installed && IsDefault(r.value)
    ensures (requested.None? || IsBlank(requested.value)) && |installed| > 0
            && (forall i :: 0 <= i < |installed| ==> !IsDefault(installed[i]))
            ==> r == Ok(installed[0])
    ensures (requested.None? || IsBlank(requested.value)) && |installed| == 0
            && (exists i :: 0 <= i < |catalog| && catalog[i].name == StarterFallbackName)
            ==> r.Ok? && r.value in catalog && r.value.name == StarterFallbackName
    ensures (requested.None? || IsBlank(requested.value)) && |installed| == 0
            && (forall i :: 0 <= i < |catalog| ==> catalog[i].name != StarterFallbackName)
            ==> r == (if |catalog| > 0 then Ok(catalog[0]) else Err(NotFound("model", "catalog-empty")))
  {
    if requested.Some? && |Trim(requested.value)| > 0 then
      ResolveModel(catalog, Trim(requested.value))
    else
      var firstDefault := FirstWhere(installed, (m: Model) => m.isDefault == 1);
      if firstDefault.Some? then Ok(installed[firstDefault.value])
      else if |installed| > 0 then Ok(installed[0])
      else
        var starter := FirstWhere(catalog, (m: Model) => m.name == StarterFallbackName);
        if starter.Some? then Ok(catalog[starter.value])
        else if |catalog| > 0 then Ok(catalog[0])
        else Err(NotFound("model", "catalog-empty"))
  }

  /**
   * `NlpTarget` over the outcomes of the reads it needs: `installed` of
   * listing the installed models, `catalog` of the first catalog query
   * that runs (by id or name, by the starter's name, or the full listing).
   * A read is consulted only on the path that needs it, and its error is
   * then returned.
   */
  function NlpTargetRead(requested: Option<string>, installed: Result<seq<Model>>, catalog: Result<seq<Model>>)
    : (r: Result<Model>)
    ensures installed.Ok? && catalog.Ok? ==> r == NlpTarget(requested, installed.value, catalog.value)
    ensures requested.Some? && !IsBlank(requested.value) && catalog.Err? ==> r == Err(catalog.error)
    ensures (requested.None? || IsBlank(requested.value)) && installed.Err? ==> r == Err(installed.error)
    ensures (requested.None? || IsBlank(requested.value)) && installed.Ok? && |installed.value| > 0 ==>
              r.Ok? && r.value in installed.value
    ensures (requested.None? || IsBlank(requested.value)) && installed == Ok([]) && catalog.Err? ==>
              r == Err(catalog.error)
  {
    if requested.Some? && |Trim(requested.value)| > 0 then
      if catalog.Err? then Err(catalog.error) else NlpTarget(requested, [], catalog.value)
    else if installed.Err? then Err(installed.error)
    else if |installed.value| > 0 then NlpTarget(requested, installed.value, [])
    else if catalog.Err? then Err(catalog.error)
    else NlpTarget(requested, [], catalog.value)
  }

  /** Only an empty catalog leaves the NLP setup without a model. */
  lemma NlpTargetFailsOnlyOnEmptyCatalog(installed: seq<Model>, catalog: seq<Model>)
    ensures NlpTarget(None, installed, catalog).Err? <==> |installed| == 0 && |catalog| == 0
  {
  }

  // ---------------------------------------------------------------------
  // get_model_compatibility
  // ---------------------------------------------------------------------

  datatype CompatibilityInfo = CompatibilityInfo(modelId: string, compatibilityScore: real, reason: string)

  /** 0.55 of the RAM fit plus 0.45 of the VRAM fit. */
  function CompatibilityScore(profile: SystemProfile, model: Model): (r: real)
    ensures r <= 1.0
    ensures profile.totalRamMb >= 0 && Recommendation.VramOf(profile) >= 0 ==> r >= 0.0
    ensures profile.totalRamMb >= Max(model.recommendedRamMb, 1) && model.minVramMb <= 0 ==> r == 1.0
  {
    Recommendation.RamFit(profile, model) * 0.55 + Recommendation.VramFit(profile, model) * 0.45
  }

  /** `get_model_compatibility`: resolve the model, then insist on a detected profile. */
  function GetModelCompatibility(catalog: seq<Model>, profile: Option<SystemProfile>, modelId: string): (r: Result<CompatibilityInfo>)
    ensures ResolveModel(catalog, modelId).Err? ==> r == Err(NotFound("model", modelId))
    ensures ResolveModel(catalog, modelId).Ok? && profile.None? ==> r == Err(NotFound("system_profile", "current"))
    ensures r.Ok? ==> profile.Some? && r.value.modelId == ResolveModel(catalog, modelId).value.id
                      && r.value.compatibilityScore <= 1.0
    ensures r.Ok? ==> var model := ResolveModel(catalog, modelId).value;
      && r.value.compatibilityScore == CompatibilityScore(profile.value, model)
      && r.value.reason == "RAM " + Fixed2(Recommendation.RamFit(profile.value, model))
                           + ", VRAM " + Fixed2(Recommendation.VramFit(profile.value, model))
  {
    match ResolveModel(catalog, modelId)
    case Err(e) => Err(e)
    case Ok(model) =>
      if profile.None? then Err(NotFound("system_profile", "current"))
      else
        var ram := Recommendation.RamFit(profile.value, model);
        var vram := Recommendation.VramFit(profile.value, model);
        Ok(CompatibilityInfo(model.id, CompatibilityScore(profile.value, model),
                             "RAM " + Fixed2(ram) + ", VRAM " + Fixed2(vram)))
  }

  // ---------------------------------------------------------------------
  // The download tracker
  // ---------------------------------------------------------------------

  datatype DownloadProgress = DownloadProgress(
    modelId: string,
    status: string,
    progressPct: real,
    bytesDownloaded: int,
    bytesTotal: Option<int>,
    errorMessage: Option<string>,
    filePath: Option<string>)

  datatype DownloadHandle = DownloadHandle(modelId: string, status: string)

  predicate KnownStatus(s: string) {
    s == "queued" || s == "downloading" || s == "completed" || s == "failed"
  }

  /** A download already under way: starting it again does nothing. */
  predicate InFlight(p: DownloadProgress) { p.status == "queued" || p.status == "downloading" }

  /** `tracker_entry`: a fresh entry in the given status, nothing transferred. */
  function TrackerEntry(modelId: string, status: string): (p: DownloadProgress)
    ensures p.modelId == modelId && p.status == status
    ensures p.progressPct == 0.0 && p.bytesDownloaded == 0
    ensures p.bytesTotal.None? && p.errorMessage.None? && p.filePath.None?
  {
    DownloadProgress(modelId, status, 0.0, 0, None, None, None)
  }

  /** The percentage shown for `downloaded` bytes of `total`. */
  function ProgressPct(downloaded: int, total: Option<int>): (r: real)
    ensures total.None? || total.value <= 0 ==> r == 0.0
    ensures downloaded >= 0 ==> 0.0 <= r <= 100.0
    ensures total.Some? && total.value > 0 && downloaded >= total.value ==> r == 100.0
  {
    if total.None? then 0.0
    else if total.value <= 0 then 0.0
    else
      var q := Percent(downloaded, total.value);
      MinR(q, 100.0)
  }

  /** `downloaded / total * 100` for a positive total. */
  function Percent(downloaded: int, total: int): (q: real)
    requires total > 0
    ensures downloaded >= 0 ==> q >= 0.0
    ensures downloaded >= total ==> q >= 100.0
  {
    Recommendation.QuotientFacts(downloaded as real, total as real);
    var f := downloaded as real / total as real;
    f * 100.0
  }

  /** More bytes never show less progress. */
  lemma ProgressMonotone(d1: int, d2: int, total: Option<int>)
    requires d1 <= d2
    ensures ProgressPct(d1, total) <= ProgressPct(d2, total)
  {
    if total.Some? && total.value > 0 {
      var t := total.value as real;
      assert d1 as real / t <= d2 as real / t by { DivMonotone(d1 as real, d2 as real, t); }
    }
  }

  lemma DivMonotone(a: real, b: real, t: real)
    requires a <= b && t >= 1.0
    ensures a / t <= b / t
  {
    assert b / t - a / t == (b - a) / t;
    Recommendation.QuotientFacts(b - a, t);
  }

  /** The entry of a download in flight after `downloaded` bytes. */
  function Downloading(modelId: string, total: Option<int>, downloaded: int): (p: DownloadProgress)
    ensures p.status == "downloading" && p.bytesDownloaded == downloaded && p.bytesTotal == total
    ensures downloaded >= 0 ==> 0.0 <= p.progressPct <= 100.0
  {
    DownloadProgress(modelId, "downloading", ProgressPct(downloaded, total), downloaded, total, None, None)
  }

  /** The entry of a finished file of `size` bytes at `path`. */
  function Completed(modelId: string, size: nat, path: string): (p: DownloadProgress)
    ensures p.status == "completed" && p.progressPct == 100.0
    ensures p.bytesDownloaded == size && p.bytesTotal == Some(size) && p.filePath == Some(path)
  {
    DownloadProgress(modelId, "completed", 100.0, size, Some(size), None, Some(path))
  }

  /** The entry of a failed download: progress and bytes reset, the error's text kept. */
  function Failed(modelId: string, error: AppError): (p: DownloadProgress)
    ensures p.status == "failed" && p.progressPct == 0.0 && p.bytesDownloaded == 0
    ensures p.bytesTotal.None? && p.errorMessage == Some(Display(error)) && p.filePath.None?
  {
    DownloadProgress(modelId, "failed", 0.0, 0, None, Some(Display(error)), None)
  }

  /** Where the download of `model` is stored: the file named from its URL in `modelsDir`. */
  function FinalPath(modelsDir: string, model: Model, url: string): string {
    modelsDir + "/" + NormalizeFilename(url, model.name + Gguf)
  }

  function Sum(s: seq<nat>): nat {
    if |s| == 0 then 0 else Sum(s[..|s| - 1]) + s[|s| - 1]
  }

  /** A persisted download row: the latest one per model is what progress falls back on. */
  datatype DownloadRow = DownloadRow(status: string, progressPct: real, bytesDownloaded: int,
                                     bytesTotal: Option<int>, errorMessage: Option<string>)

  /** An entry fit to be filed under `id`: its own model, a known status and a percentage. */
  predicate FitEntry(id: string, p: DownloadProgress) {
    p.modelId == id && KnownStatus(p.status) && 0.0 <= p.progressPct <= 100.0
  }

  /** Every entry of the map is fit to be filed under its key. */
  predicate Filed(m: map<string, DownloadProgress>) {
    forall id :: id in m ==> FitEntry(id, m[id])
  }

  /** Filing a fit entry keeps the map filed. */
  lemma FileKeepsValid(m: map<string, DownloadProgress>, id: string, p: DownloadProgress)
    requires Filed(m) && FitEntry(id, p)
    ensures Filed(m[id := p])
  {
  }

  /**
   * What starting the download of `model` answers and leaves in the
   * tracker: an entry in flight is reported as is, a model without a URL
   * is refused, a file already on disk completes at once, anything else
   * is queued; a failure to persist the queued row (`rowWriteFailure`) is
   * returned with the entry left queued.
   */
  function StartOutcome(entries: map<string, DownloadProgress>, model: Model, modelsDir: string,
                        fileExists: string -> bool, sizeOf: string -> nat, rowWriteFailure: Option<AppError>)
    : (o: (Result<DownloadHandle>, map<string, DownloadProgress>))
    ensures o.0.Ok? ==> o.0.value.modelId == model.id && model.id in o.1
    ensures o.0.Ok? ==> o.0.value.status == o.1[model.id].status
                        || (o.0.value.status == "already_downloaded" && o.1[model.id].status == "completed")
    ensures o.0.Err? ==> (model.downloadUrl.None? && o.1 == entries)
                         || (rowWriteFailure.Some? && o.0.error == rowWriteFailure.value
                             && o.1 == entries[model.id := TrackerEntry(model.id, "queued")])
  {
    if model.id in entries && InFlight(entries[model.id]) then
      (Ok(DownloadHandle(model.id, entries[model.id].status)), entries)
    else if model.downloadUrl.None? then
      (Err(Validation("download_url", "Model " + model.displayName + " does not have a download URL")), entries)
    else
      var path := FinalPath(modelsDir, model, model.downloadUrl.value);
      if fileExists(path) then
        (Ok(DownloadHandle(model.id, "already_downloaded")), entries[model.id := Completed(model.id, sizeOf(path), path)])
      else
        var queued := entries[model.id := TrackerEntry(model.id, "queued")];
        if rowWriteFailure.Some? then (Err(rowWriteFailure.value), queued)
        else (Ok(DownloadHandle(model.id, "queued")), queued)
  }

  /** Starting a download keeps every entry fit to be filed. */
  lemma StartOutcomeFiled(entries: map<string, DownloadProgress>, model: Model, modelsDir: string,
                          fileExists: string -> bool, sizeOf: string -> nat, rowWriteFailure: Option<AppError>)
    requires Filed(entries)
    ensures Filed(StartOutcome(entries, model, modelsDir, fileExists, sizeOf, rowWriteFailure).1)
  {
    if !(model.id in entries && InFlight(entries[model.id])) && model.downloadUrl.Some? {
      var path := FinalPath(modelsDir, model, model.downloadUrl.value);
      if fileExists(path) {
        FileKeepsValid(entries, model.id, Completed(model.id, sizeOf(path), path));
      } else {
        FileKeepsValid(entries, model.id, TrackerEntry(model.id, "queued"));
      }
    }
  }

  /** The in-memory tracker: one entry per canonical model id. */
  class DownloadTracker {
    var entries: map<string, DownloadProgress>

    /** Each entry is filed under its own model and has a known status and a percentage. */
    predicate Valid()
      reads this
    {
      Filed(entries)
    }

    constructor()
      ensures Valid() && entries == map[]
    {
      entries := map[];
    }

    /**
     * `start_model_download` once the model is resolved: an entry in
     * flight is reported as is; a model without a URL is refused; a file
     * already on disk completes at once; otherwise the download is queued,
     * and a failure to persist its row is returned with the entry queued.
     */
    method Start(model: Model, modelsDir: string, fileExists: string -> bool, sizeOf: string -> nat,
                 rowWriteFailure: Option<AppError>)
      returns (r: Result<DownloadHandle>)
      requires Valid()
      modifies this
      ensures Valid()
      ensures old(model.id in entries && InFlight(entries[model.id]))
              ==> r == Ok(DownloadHandle(model.id, old(entries[model.id].status))) && entries == old(entries)
      ensures !old(model.id in entries && InFlight(entries[model.id])) && model.downloadUrl.None?
              ==> r == Err(Validation("download_url", "Model " + model.displayName + " does not have a download URL"))
                  && entries == old(entries)
      ensures !old(model.id in entries && InFlight(entries[model.id])) && model.downloadUrl.Some?
              && fileExists(FinalPath(modelsDir, model, model.downloadUrl.value))
              ==> (var path := FinalPath(modelsDir, model, model.downloadUrl.value);
                   r == Ok(DownloadHandle(model.id, "already_downloaded"))
                   && entries == old(entries)[model.id := Completed(model.id, sizeOf(path), path)])
      ensures !old(model.id in entries && InFlight(entries[model.id])) && model.downloadUrl.Some?
              && !fileExists(FinalPath(modelsDir, model, model.downloadUrl.value))
              ==> r == (if rowWriteFailure.Some? then Err(rowWriteFailure.value) else Ok(DownloadHandle(model.id, "queued")))
                  && entries == old(entries)[model.id := TrackerEntry(model.id, "queued")]
      ensures (r, entries) == StartOutcome(old(entries), model, modelsDir, fileExists, sizeOf, rowWriteFailure)
    {
      var id := model.id;
      if id in entries && InFlight(entries[id]) {
        return Ok(DownloadHandle(id, entries[id].status));
      }
      if model.downloadUrl.None? {
        return Err(Validation("download_url", "Model " + model.displayName + " does not have a download URL"));
      }
      var path := FinalPath(modelsDir, model, model.downloadUrl.value);
      if fileExists(path) {
        var done := Completed(id, sizeOf(path), path);
        FileKeepsValid(entries, id, done);
        entries := entries[id := done];
        return Ok(DownloadHandle(id, "already_downloaded"));
      }
      var queued := TrackerEntry(id, "queued");
      FileKeepsValid(entries, id, queued);
      entries := entries[id := queued];
      if rowWriteFailure.Some? {
        return Err(rowWriteFailure.value);
      }
      r := Ok(DownloadHandle(id, "queued"));
    }

    /**
     * The spawned transfer, given what the network delivers: a failure
     * before the body, the chunk lengths received, a failure after them,
     * and the size of the finished file.  The tracker shows each chunk,
     * then the completed file, or the failure.  `downloaded` is the byte
     * count the last progress entry reported.
     */
    method Transfer(id: string, requestFailure: Option<AppError>, total: Option<int>, chunks: seq<nat>,
                    streamFailure: Option<AppError>, path: string, size: nat)
      returns (downloaded: nat)
      requires Valid()
      modifies this
      ensures Valid()
      ensures requestFailure.Some? ==> downloaded == 0 && entries == old(entries)[id := Failed(id, requestFailure.value)]
      ensures requestFailure.None? ==> downloaded == Sum(chunks)
      ensures requestFailure.None? && streamFailure.Some? ==> entries == old(entries)[id := Failed(id, streamFailure.value)]
      ensures requestFailure.None? && streamFailure.None? ==> entries == old(entries)[id := Completed(id, size, path)]
    {
      if requestFailure.Some? {
        FileKeepsValid(entries, id, Failed(id, requestFailure.value));
        entries := entries[id := Failed(id, requestFailure.value)];
        return 0;
      }
      var start := TrackerEntry(id, "downloading");
      assert start.(bytesTotal := total) == Downloading(id, total, 0);
      FileKeepsValid(entries, id, start.(bytesTotal := total));
      entries := entries[id := start.(bytesTotal := total)];
      downloaded := 0;
      var i := 0;
      while i < |chunks|
        invariant i <= |chunks|
        invariant downloaded == Sum(chunks[..i])
        invariant Valid()
        invariant entries == old(entries)[id := Downloading(id, total, downloaded)]
      {
        assert chunks[..i + 1][..i] == chunks[..i];
        downloaded := downloaded + chunks[i];
        FileKeepsValid(entries, id, Downloading(id, total, downloaded));
        entries := entries[id := Downloading(id, total, downloaded)];
        i := i + 1;
      }
      assert chunks[..i] == chunks;
      if streamFailure.Some? {
        FileKeepsValid(entries, id, Failed(id, streamFailure.value));
        entries := entries[id := Failed(id, streamFailure.value)];
      } else {
        FileKeepsValid(entries, id, Completed(id, size, path));
        entries := entries[id := Completed(id, size, path)];
      }
    }

    /**
     * `get_download_progress` for a resolved model: the tracker entry,
     * else the latest persisted row, else completed for a downloaded
     * model, else not started.
     */
    function Progress(model: Model, latestRow: Option<DownloadRow>): (r: DownloadProgress)
      reads this
      ensures model.id in entries ==> r == entries[model.id]
      ensures model.id !in entries && latestRow.Some? ==>
        r == DownloadProgress(model.id, latestRow.value.status, latestRow.value.progressPct,
                              latestRow.value.bytesDownloaded, latestRow.value.bytesTotal,
                              latestRow.value.errorMessage, model.filePath)
      ensures model.id !in entries && latestRow.None? && IsDownloaded(model) ==>
        r.status == "completed" && r.progressPct == 100.0 && r.filePath == model.filePath
        && r.bytesTotal == (if model.fileSizeMb.Some? then Some(model.fileSizeMb.value * 1024 * 1024) else None)
        && r.bytesDownloaded == (if model.fileSizeMb.Some? then model.fileSizeMb.value * 1024 * 1024 else 0)
      ensures model.id !in entries && latestRow.None? && !IsDownloaded(model) ==>
        r == TrackerEntry(model.id, "not_started")
    {
      if model.id in entries then entries[model.id]
      else if latestRow.Some? then
        var row := latestRow.value;
        DownloadProgress(model.id, row.status, row.progressPct, row.bytesDownloaded, row.bytesTotal, row.errorMessage, model.filePath)
      else if model.isDownloaded == 1 then
        var bytes := if model.fileSizeMb.Some? then Some(model.fileSizeMb.value * 1024 * 1024) else None;
        DownloadProgress(model.id, "completed", 100.0, if bytes.Some? then bytes.value else 0, bytes, None, model.filePath)
      else TrackerEntry(model.id, "not_started")
    }
  }

  // ---------------------------------------------------------------------
  // run_nlp_setup
  // ---------------------------------------------------------------------

  datatype NlpSetupResult = NlpSetupResult(targetModelId: string, targetModelName: string,
                                           downloadStatus: string, embeddingReady: bool, rerankerReady: bool)

  /**
   * `run_nlp_setup`: record the three stage-B checkpoints, pick the
   * target model and start its download.
   */
  /** The three stage updates before the download: vectors at 10, routing at 20, download at 30. */
  method AdvanceNlpStages(store: Setup.SetupStore, userId: Option<string>)
    modifies store
    ensures userId in store.rows && store.rows[userId].status == "running"
    ensures store.rows[userId].currentStage == "stage_b_model_download" && store.rows[userId].progressPct == 30.0
    ensures forall u :: u in old(store.rows) && u != userId ==> u in store.rows && store.rows[u] == old(store.rows)[u]
    ensures userId in old(store.rows) ==>
      store.rows[userId].selectedBundle == old(store.rows[userId].selectedBundle)
      && store.rows[userId].hardwareProfileId == old(store.rows[userId].hardwareProfileId)
  {
    ghost var before := store.rows;
    var s1 := store.UpdateStage(userId, "stage_b_core_vectors", 10.0);
    assert userId in before ==>
      s1.selectedBundle == before[userId].selectedBundle && s1.hardwareProfileId == before[userId].hardwareProfileId;
    var s2 := store.UpdateStage(userId, "stage_b_neural_routing", 20.0);
    assert s2.selectedBundle == s1.selectedBundle && s2.hardwareProfileId == s1.hardwareProfileId;
    var s := store.UpdateStage(userId, "stage_b_model_download", 30.0);
    assert s.selectedBundle == s2.selectedBundle && s.hardwareProfileId == s2.hardwareProfileId;
    assert store.rows == before[userId := s];
  }

  method RunNlpSetup(store: Setup.SetupStore, tracker: DownloadTracker, userId: Option<string>,
                     requested: Option<string>, seedFailure: Option<AppError>,
                     installed: Result<seq<Model>>, catalog: Result<seq<Model>>,
                     modelsDir: string, fileExists: string -> bool, sizeOf: string -> nat,
                     rowWriteFailure: Option<AppError>)
    returns (r: Result<NlpSetupResult>)
    requires tracker.Valid()
    modifies store, tracker
    ensures tracker.Valid()
    ensures seedFailure.Some? ==>
      r == Err(seedFailure.value) && store.rows == old(store.rows) && tracker.entries == old(tracker.entries)
    ensures seedFailure.None? ==>
      && userId in store.rows && store.rows[userId].status == "running"
      && store.rows[userId].currentStage == "stage_b_model_download" && store.rows[userId].progressPct == 30.0
    ensures forall u :: u in old(store.rows) && u != userId ==> u in store.rows && store.rows[u] == old(store.rows)[u]
    ensures seedFailure.None? && userId in old(store.rows) ==>
      store.rows[userId].selectedBundle == old(store.rows[userId].selectedBundle)
      && store.rows[userId].hardwareProfileId == old(store.rows[userId].hardwareProfileId)
    ensures seedFailure.None? && NlpTargetRead(requested, installed, catalog).Err? ==>
      r == Err(NlpTargetRead(requested, installed, catalog).error) && tracker.entries == old(tracker.entries)
    ensures r.Ok? ==> (seedFailure.None? && NlpTargetRead(requested, installed, catalog).Ok?
      && r.value.targetModelId == NlpTargetRead(requested, installed, catalog).value.id
      && r.value.targetModelName == NlpTargetRead(requested, installed, catalog).value.displayName
      && r.value.embeddingReady && r.value.rerankerReady)
    ensures seedFailure.None? && NlpTargetRead(requested, installed, catalog).Ok? ==>
      var target := NlpTargetRead(requested, installed, catalog).value;
      var o := StartOutcome(old(tracker.entries), target, modelsDir, fileExists, sizeOf, rowWriteFailure);
      && tracker.entries == o.1
      && (o.0.Err? ==> r == Err(o.0.error))
      && (o.0.Ok? ==> r == Ok(NlpSetupResult(target.id, target.displayName, o.0.value.status, true, true)))
  {
    if seedFailure.Some? {
      return Err(seedFailure.value);
    }
    AdvanceNlpStages(store, userId);
    var target := NlpTargetRead(requested, installed, catalog);
    if target.Err? {
      return Err(target.error);
    }
    var handle := tracker.Start(target.value, modelsDir, fileExists, sizeOf, rowWriteFailure);
    if handle.Err? {
      return Err(handle.error);
    }
    r := Ok(NlpSetupResult(target.value.id, target.value.displayName, handle.value.status, true, true));
  }
}
