/**
 * The integration commands' decision logic: path checks for the Spotify
 * MCP server, the package scripts it offers and which of them runs, the
 * error text of a failed command, the audio events a tool call emits and
 * the `expiresAt` field of the stored Spotify configuration.  Errors here
 * are plain message strings.
 */
module IntegrationCommands {
  import opened Common
  import LocalCommands

  datatype Checked<T> = Accepted(value: T) | Rejected(message: string)

  // ---------------------------------------------------------------------
  // resolve_directory / resolve_file
  // ---------------------------------------------------------------------

  /** What the filesystem holds at a path. */
  datatype PathKind = Missing | Directory | RegularFile | OtherKind

  /** `resolve_directory`: a non-blank path naming an existing directory. */
  function ResolveDirectory(path: string, fieldName: string, kindOf: string -> PathKind): (r: Checked<string>)
    ensures IsBlank(path) ==> r == Rejected(fieldName + " is required")
    ensures r.Accepted? <==> !IsBlank(path) && kindOf(Trim(path)) == Directory
    ensures r.Accepted? ==> r.value == Trim(path)
  {
    var normalized := Trim(path);
    if |normalized| == 0 then Rejected(fieldName + " is required")
    else if kindOf(normalized) == Missing then Rejected(fieldName + " does not exist: " + normalized)
    else if kindOf(normalized) != Directory then Rejected(fieldName + " must be a directory: " + normalized)
    else Accepted(normalized)
  }

  /** `resolve_file`: a non-blank path naming an existing regular file. */
  function ResolveFile(path: string, fieldName: string, kindOf: string -> PathKind): (r: Checked<string>)
    ensures IsBlank(path) ==> r == Rejected(fieldName + " is required")
    ensures r.Accepted? <==> !IsBlank(path) && kindOf(Trim(path)) == RegularFile
    ensures r.Accepted? ==> r.value == Trim(path)
  {
    var normalized := Trim(path);
    if |normalized| == 0 then Rejected(fieldName + " is required")
    else if kindOf(normalized) == Missing then Rejected(fieldName + " does not exist: " + normalized)
    else if kindOf(normalized) != RegularFile then Rejected(fieldName + " must be a file: " + normalized)
    else Accepted(normalized)
  }

  /** Whitespace around a path does not change what it resolves to. */
  lemma ResolveDirectoryIgnoresPadding(path: string, fieldName: string, kindOf: string -> PathKind)
    ensures ResolveDirectory(Trim(path), fieldName, kindOf) == ResolveDirectory(path, fieldName, kindOf)
  {
    TrimIdempotent(path);
  }

  // ---------------------------------------------------------------------
  // read_npm_scripts / find_script
  // ---------------------------------------------------------------------

  /** What reading `package.json` under the server root gives. */
  datatype PackageJson =
    | NoPackageFile
    | Unreadable(readError: string)
    | Malformed(parseError: string)
    | WithoutScripts
    | WithScripts(scriptNames: seq<string>)

  /** `read_npm_scripts`: the names of the `scripts` object, sorted. */
  function ReadNpmScripts(serverRoot: string, package: PackageJson): (r: Checked<seq<string>>)
    ensures r.Accepted? <==> package.WithScripts?
    ensures package.NoPackageFile? ==> r == Rejected("package.json not found in serverRoot: " + serverRoot)
    ensures package.WithoutScripts? ==> r == Rejected("package.json does not include a scripts object")
    ensures r.Accepted? ==> (StrictlySorted(r.value)
      && forall name :: name in r.value <==> name in package.scriptNames)
  {
    var packagePath := serverRoot + "/package.json";
    match package
    case NoPackageFile => Rejected("package.json not found in serverRoot: " + serverRoot)
    case Unreadable(e) => Rejected("Failed to read " + packagePath + ": " + e)
    case Malformed(e) => Rejected("Invalid package.json format in " + packagePath + ": " + e)
    case WithoutScripts => Rejected("package.json does not include a scripts object")
    case WithScripts(names) => Accepted(SortDedup(names))
  }

  /** `find_script`: the first candidate, in candidate order, that is one of the scripts. */
  function FindScript(scripts: seq<string>, candidates: seq<string>): (r: Option<string>)
    ensures r.None? <==> forall i :: 0 <= i < |candidates| ==> candidates[i] !in scripts
    ensures r.Some? ==> r.value in scripts && r.value in candidates
    ensures r.Some? ==> exists k :: (0 <= k < |candidates| && candidates[k] == r.value
      && forall i :: 0 <= i < k ==> candidates[i] !in scripts)
  {
    if |candidates| == 0 then None
    else if candidates[0] in scripts then Some(candidates[0])
    else
      var rest := FindScript(scripts, candidates[1..]);
      assert forall i :: 1 <= i < |candidates| ==> candidates[i] == candidates[1..][i - 1];
      if rest.Some? then
        var k :| 0 <= k < |candidates[1..]| && candidates[1..][k] == rest.value
          && forall i :: 0 <= i < k ==> candidates[1..][i] !in scripts;
        assert candidates[k + 1] == rest.value;
        rest
      else rest
  }

  /** The order of the scripts does not matter, only what they are. */
  lemma {:induction false} FindScriptOrderFree(s1: seq<string>, s2: seq<string>, candidates: seq<string>)
    requires forall x :: x in s1 <==> x in s2
    ensures FindScript(s1, candidates) == FindScript(s2, candidates)
  {
    if |candidates| > 0 && candidates[0] !in s1 {
      FindScriptOrderFree(s1, s2, candidates[1..]);
    }
  }

  /** Sorting the script names does not change which candidate is found. */
  lemma SortedScriptsFindTheSame(root: string, package: PackageJson, candidates: seq<string>)
    ensures ReadNpmScripts(root, package).Accepted? ==>
      FindScript(ReadNpmScripts(root, package).value, candidates) == FindScript(package.scriptNames, candidates)
  {
    if package.WithScripts? {
      FindScriptOrderFree(ReadNpmScripts(root, package).value, package.scriptNames, candidates);
    }
  }

  const BuildScripts := ["build", "spotify:build"]
  const OAuthScripts := ["oauth", "auth", "spotify:oauth", "spotify:auth", "login"]
  const ToolScripts := ["tool", "call-tool", "spotify:tool", "mcp:tool", "run-tool"]

  /** The script `build_spotify_mcp` runs, or the error listing what is available. */
  function BuildScript(scripts: seq<string>): (r: Checked<string>)
    ensures r.Accepted? <==> "build" in scripts || "spotify:build" in scripts
    ensures "build" in scripts ==> r == Accepted("build")
    ensures r.Rejected? ==> (r.message ==
      "No build script found. Expected one of [build, spotify:build]. Available scripts: " + Join(scripts, ", "))
  {
    assert BuildScripts[0] == "build" && BuildScripts[1] == "spotify:build";
    match FindScript(scripts, BuildScripts)
    case Some(s) => Accepted(s)
    case None => Rejected("No build script found. Expected one of [build, spotify:build]. Available scripts: " + Join(scripts, ", "))
  }

  /** The script `run_spotify_oauth` runs, or the error listing what is available. */
  function OAuthScript(scripts: seq<string>): (r: Checked<string>)
    ensures r.Accepted? <==> exists i :: 0 <= i < |OAuthScripts| && OAuthScripts[i] in scripts
    ensures r.Accepted? ==> r.value in OAuthScripts && r.value in scripts
    ensures "oauth" in scripts ==> r == Accepted("oauth")
  {
    match FindScript(scripts, OAuthScripts)
    case Some(s) => Accepted(s)
    case None =>
      Rejected("No OAuth script found. Expected one of [oauth, auth, spotify:oauth, spotify:auth, login]. Available scripts: "
               + Join(scripts, ", "))
  }

  // ---------------------------------------------------------------------
  // run_command_output
  // ---------------------------------------------------------------------

  /** How a child process ended, as the runtime reports it. */
  datatype ProcessResult =
    | TimedOut
    | SpawnFailed(spawnError: string)
    | Exited(success: bool, stdout: string, stderr: string, statusText: string)

  /** The detail of a failed command: its stderr, else its stdout, else the exit status. */
  function FailureDetail(stdout: string, stderr: string, statusText: string): (d: string)
    ensures !IsBlank(stderr) ==> d == Trim(stderr)
    ensures IsBlank(stderr) && !IsBlank(stdout) ==> d == Trim(stdout)
    ensures IsBlank(stderr) && IsBlank(stdout) ==> d == "Exit status: " + statusText
    ensures |d| > 0
  {
    var out := Trim(stdout);
    var err := Trim(stderr);
    if |err| > 0 then err else if |out| > 0 then out else "Exit status: " + statusText
  }

  /** `run_command_output`: the trimmed stdout on success, else why it failed. */
  function RunCommandOutput(result: ProcessResult, timeoutSeconds: nat): (r: Checked<string>)
    ensures result.TimedOut? ==> r == Rejected("Command timed out after " + NatToString(timeoutSeconds) + " seconds")
    ensures result.SpawnFailed? ==> r == Rejected("Failed to execute command: " + result.spawnError)
    ensures result.Exited? && result.success ==> r == Accepted(Trim(result.stdout))
    ensures result.Exited? && !result.success ==>
      r == Rejected(FailureDetail(result.stdout, result.stderr, result.statusText))
    ensures r.Rejected? ==> |r.message| > 0
  {
    match result
    case TimedOut => Rejected("Command timed out after " + NatToString(timeoutSeconds) + " seconds")
    case SpawnFailed(e) => Rejected("Failed to execute command: " + e)
    case Exited(success, stdout, stderr, statusText) =>
      if !success then Rejected(FailureDetail(stdout, stderr, statusText))
      else Accepted(Trim(stdout))
  }

  // ---------------------------------------------------------------------
  // maybe_emit_audio_event / run_spotify_tool
  // ---------------------------------------------------------------------

  /** The action an audio-control event carries for a tool, if any. */
  function AudioAction(tool: string): (a: Option<string>)
    ensures a == Some("play") <==> tool == "resumePlayback" || tool == "playMusic"
    ensures a == Some("pause") <==> tool == "pausePlayback"
    ensures a == Some("next") <==> tool == "skipToNext"
    ensures a == Some("prev") <==> tool == "skipToPrevious"
    ensures a.None? <==> tool !in ["resumePlayback", "playMusic", "pausePlayback", "skipToNext", "skipToPrevious"]
  {
    if tool == "resumePlayback" || tool == "playMusic" then Some("play")
    else if tool == "pausePlayback" then Some("pause")
    else if tool == "skipToNext" then Some("next")
    else if tool == "skipToPrevious" then Some("prev")
    else None
  }

  /** How `run_spotify_tool` runs a tool. */
  datatype ToolRun =
    | NpmScript(script: string, tool: string, argsJson: string)
    | NodeEntry(entry: string, tool: string, argsJson: string)

  /**
   * The plan of `run_spotify_tool`: a checked server root and a non-blank
   * tool, then a tool runner script when the package offers one, else
   * the built entry point when it exists.
   */
  function PlanSpotifyTool(serverRoot: string, tool: string, argsJson: string, kindOf: string -> PathKind,
                           package: PackageJson): (r: Checked<ToolRun>)
    ensures ResolveDirectory(serverRoot, "serverRoot", kindOf).Rejected? ==>
      r == Rejected(ResolveDirectory(serverRoot, "serverRoot", kindOf).message)
    ensures ResolveDirectory(serverRoot, "serverRoot", kindOf).Accepted? && IsBlank(tool) ==>
      r == Rejected("tool is required")
    ensures r.Accepted? && r.value.NpmScript? ==> (package.WithScripts?
      && r.value.script in ToolScripts && r.value.script in package.scriptNames)
    ensures r.Accepted? && r.value.NodeEntry? ==>
      !(package.WithScripts? && FindScript(package.scriptNames, ToolScripts).Some?)
    ensures r.Accepted? ==> !IsBlank(tool) && r.value.tool == Trim(tool)
  {
    match ResolveDirectory(serverRoot, "serverRoot", kindOf)
    case Rejected(m) => Rejected(m)
    case Accepted(root) =>
      var toolName := Trim(tool);
      if |toolName| == 0 then Rejected("tool is required")
      else
        var scripts := ReadNpmScripts(root, package);
        SortedScriptsFindTheSame(root, package, ToolScripts);
        var script := if scripts.Accepted? then FindScript(scripts.value, ToolScripts) else None;
        if script.Some? then Accepted(NpmScript(script.value, toolName, argsJson))
        else
          var entry := root + "/build/index.js";
          if kindOf(entry) == Missing then
            Rejected("No tool runner script found and fallback entry is missing: " + entry + ". Run build_spotify_mcp first.")
          else Accepted(NodeEntry(entry, toolName, argsJson))
  }

  // ---------------------------------------------------------------------
  // parse_expires_at
  // ---------------------------------------------------------------------

  const U64Max: int := 0xFFFF_FFFF_FFFF_FFFF

  /** A JSON number as serde keeps it: a non-negative or negative integer, or a float. */
  datatype JsonNumber = PosInt(u: nat) | NegInt(i: int) | Float(f: real)

  datatype Json = JNull | JBool(b: bool) | JNumber(n: JsonNumber) | JString(s: string) | JArray | JObject

  predicate AllDigits(d: string) { forall i :: 0 <= i < |d| ==> IsDigit(d[i]) }

  /** `str::parse::<u64>`: an optional '+', then one or more digits whose value fits. */
  function ParseU64(t: string): (r: Option<nat>)
    ensures r.Some? ==> r.value <= U64Max
  {
    var digits := if |t| > 0 && t[0] == '+' then t[1..] else t;
    if |digits| > 0 && AllDigits(digits) && LocalCommands.DigitsValue(digits) <= U64Max
    then Some(LocalCommands.DigitsValue(digits))
    else None
  }

  /** `parse_expires_at`: an unsigned number, or the trimmed text of a string parsed as one. */
  function ParseExpiresAt(value: Option<Json>): (r: Option<nat>)
    ensures value.None? ==> r.None?
    ensures value.Some? && value.value.JNumber? && value.value.n.PosInt? ==> r == Some(value.value.n.u)
    ensures value.Some? && value.value.JNumber? && value.value.n.NegInt? && value.value.n.i < 0 ==> r.None?
    ensures value.Some? && value.value.JString? ==> r == ParseU64(Trim(value.value.s))
    ensures value.Some? && !value.value.JNumber? && !value.value.JString? ==> r.None?
  {
    match value
    case None => None
    case Some(JNumber(PosInt(u))) => Some(u)
    case Some(JNumber(NegInt(i))) => if i >= 0 then Some(i) else None
    case Some(JString(text)) => ParseU64(Trim(text))
    case Some(_) => None
  }

  /** A stored timestamp written as decimal text, with any padding, is read back. */
  lemma ExpiresAtFromText(n: nat, pad: string)
    requires n <= U64Max
    requires forall i :: 0 <= i < |pad| ==> IsWs(pad[i])
    ensures ParseExpiresAt(Some(JString(pad + NatToString(n) + pad))) == Some(n)
  {
    var d := NatToString(n);
    TrimAround(pad, d);
    LocalCommands.DigitsValueOfNatToString(n);
  }

  /** Trimming whitespace padding recovers a word that has none at its ends. */
  lemma TrimAround(pad: string, w: string)
    requires forall i :: 0 <= i < |pad| ==> IsWs(pad[i])
    requires |w| > 0 && !IsWs(w[0]) && !IsWs(w[|w| - 1])
    ensures Trim(pad + w + pad) == w
  {
    AppendAssoc(pad, w, pad);
    TrimStartOfPadded(pad, w + pad);
    TrimEndOfPadded(w, pad);
  }

  lemma {:induction false} TrimStartOfPadded(pad: string, rest: string)
    requires forall i :: 0 <= i < |pad| ==> IsWs(pad[i])
    requires |rest| > 0 && !IsWs(rest[0])
    ensures TrimStart(pad + rest) == rest
  {
    if |pad| > 0 {
      assert (pad + rest)[1..] == pad[1..] + rest;
      TrimStartOfPadded(pad[1..], rest);
    } else {
      assert pad + rest == rest;
    }
  }

  lemma {:induction false} TrimEndOfPadded(w: string, pad: string)
    requires forall i :: 0 <= i < |pad| ==> IsWs(pad[i])
    requires |w| > 0 && !IsWs(w[|w| - 1])
    ensures TrimEnd(w + pad) == w
  {
    if |pad| > 0 {
      assert (w + pad)[..|w + pad| - 1] == w + pad[..|pad| - 1];
      TrimEndOfPadded(w, pad[..|pad| - 1]);
    } else {
      assert w + pad == w;
    }
  }
}
