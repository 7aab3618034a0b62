/**
 * The MCP service: a per-server circuit breaker and connection pool in
 * front of tool calls, the health rules, the routing of a query to MCP
 * servers, and the eviction of idle pooled connections.
 */
module McpService {
  import opened Common
  import opened Models
  import Errors
  import Intent

  /** A pooled connection and when it was last used. */
  datatype McpClient = McpClient(mcp: Mcp, lastUsedAt: nat)

  /** A breaker entry: error count, when it (re)opened, and its state name. */
  datatype Breaker = Breaker(errors: nat, openedAt: nat, state: string)

  /** The three breaker state names. */
  const Open := "open"
  const HalfOpen := "half-open"
  const Closed := "closed"

  /** The breaker rejects while open with at least 5 errors and opened under 30 s ago. */
  predicate Rejects(breakers: map<string, Breaker>, id: string, now: nat)
  {
    id in breakers && breakers[id].state == Open && breakers[id].errors >= 5
    && Elapsed(now, breakers[id].openedAt) < 30
  }

  /**
   * The breaker table after a check that did not reject: an open entry
   * with at least 5 errors becomes half-open, stamped now, keeping its
   * count; anything else stays as it was.
   */
  function AfterCheck(breakers: map<string, Breaker>, id: string, now: nat): (r: map<string, Breaker>)
    requires !Rejects(breakers, id, now)
    ensures r.Keys == breakers.Keys
    ensures forall k :: k in breakers && k != id ==> r[k] == breakers[k]
    ensures id in breakers && breakers[id].state == Open && breakers[id].errors >= 5 ==>
      r[id] == Breaker(breakers[id].errors, now, HalfOpen) && Elapsed(now, breakers[id].openedAt) >= 30
    ensures id in breakers && !(breakers[id].state == Open && breakers[id].errors >= 5) ==> r[id] == breakers[id]
  {
    if id in breakers && breakers[id].state == Open && breakers[id].errors >= 5 then
      breakers[id := Breaker(breakers[id].errors, now, HalfOpen)]
    else breakers
  }

  /** Whether no breaker entry is open. */
  predicate NoneOpen(breakers: map<string, Breaker>)
  {
    forall k :: k in breakers ==> breakers[k].state != Open
  }

  /** With no open entry the breaker never rejects, and a check changes nothing. */
  lemma NoneOpenNeverRejects(breakers: map<string, Breaker>, id: string, now: nat)
    requires NoneOpen(breakers)
    ensures !Rejects(breakers, id, now) && AfterCheck(breakers, id, now) == breakers
  {
  }

  /** What the process runner reported for a stdio tool call. */
  datatype ProcessOutcome =
    | Exited(success: bool, stdout: string, stderr: string)
    | SpawnFailed(msg: string)
    | TimedOut

  datatype ToolResult = ToolResult(mcpId: string, toolName: string, output: string, latencyMs: nat, success: bool, error: Option<string>)

  /** The lower-case hexadecimal digit of `d`. */
  function HexDigit(d: nat): (c: char)
    requires d < 16
    ensures HexValue(c) == Some(d)
  {
    if d < 10 then ('0' as int + d) as char else ('a' as int + d - 10) as char
  }

  /** The value of a hexadecimal digit, either case. */
  function HexValue(c: char): (v: Option<nat>)
    ensures v.Some? ==> v.value < 16
  {
    if '0' <= c <= '9' then Some(c as int - '0' as int)
    else if 'a' <= c <= 'f' then Some(c as int - 'a' as int + 10)
    else if 'A' <= c <= 'F' then Some(c as int - 'A' as int + 10)
    else None
  }

  /**
   * How a JSON string writer spells one character: quote and backslash
   * escaped, backspace, form feed, newline, carriage return and tab by
   * their short escapes, any other control character below U+0020 as
   * `\u00` and two lower-case hex digits, everything else as itself.
   */
  function EscapeChar(c: char): (e: string)
    ensures 1 <= |e| <= 6
    ensures |e| == 1 <==> (c != '"' && c != '\\' && c as int >= 0x20)
    ensures |e| == 1 ==> e == [c]
  {
    if c == '"' then "\\\""
    else if c == '\\' then "\\\\"
    else if c as int == 0x08 then "\\b"
    else if c as int == 0x0C then "\\f"
    else if c == '\n' then "\\n"
    else if c == '\r' then "\\r"
    else if c == '\t' then "\\t"
    else if c as int < 0x20 then "\\u00" + [HexDigit(c as int / 16), HexDigit(c as int % 16)]
    else [c]
  }

  /** The body of a JSON string literal for `s`. */
  function Escape(s: string): (t: string)
    ensures |t| >= |s|
  {
    if s == [] then [] else EscapeChar(s[0]) + Escape(s[1..])
  }

  /** `c` followed by the decoded rest, if the rest decodes. */
  function Prepend(c: char, rest: Option<string>): Option<string>
  {
    if rest.Some? then Some([c] + rest.value) else None
  }

  /**
   * Reads the body of a JSON string literal back: every escape JSON
   * defines for these characters is decoded; a bare quote, a bare control
   * character or an unknown escape is rejected.
   */
  function Unescape(t: string): (r: Option<string>)
    decreases |t|
  {
    if t == [] then Some([])
    else if t[0] == '"' || t[0] as int < 0x20 then None
    else if t[0] != '\\' then Prepend(t[0], Unescape(t[1..]))
    else if |t| < 2 then None
    else if t[1] == '"' then Prepend('"', Unescape(t[2..]))
    else if t[1] == '\\' then Prepend('\\', Unescape(t[2..]))
    else if t[1] == '/' then Prepend('/', Unescape(t[2..]))
    else if t[1] == 'b' then Prepend(0x08 as char, Unescape(t[2..]))
    else if t[1] == 'f' then Prepend(0x0C as char, Unescape(t[2..]))
    else if t[1] == 'n' then Prepend('\n', Unescape(t[2..]))
    else if t[1] == 'r' then Prepend('\r', Unescape(t[2..]))
    else if t[1] == 't' then Prepend('\t', Unescape(t[2..]))
    else if t[1] == 'u' && |t| >= 6 && t[2] == '0' && t[3] == '0'
            && HexValue(t[4]).Some? && HexValue(t[5]).Some? then
      Prepend((HexValue(t[4]).value * 16 + HexValue(t[5]).value) as char, Unescape(t[6..]))
    else None
  }

  /** Decoding one escaped character and then the rest. */
  lemma UnescapeChar(c: char, rest: string)
    ensures Unescape(EscapeChar(c) + rest) == Prepend(c, Unescape(rest))
  {
    var e := EscapeChar(c);
    var t := e + rest;
    if |e| == 1 {
      assert t[1..] == rest;
    } else if |e| == 2 {
      assert t[2..] == rest;
    } else {
      var hi, lo := c as int / 16, c as int % 16;
      assert e == "\\u00" + [HexDigit(hi), HexDigit(lo)];
      assert t[4] == HexDigit(hi) && t[5] == HexDigit(lo);
      assert t[6..] == rest;
      assert hi * 16 + lo == c as int;
    }
  }

  /** Every string survives being written as a JSON string body and read back. */
  lemma {:induction false} EscapeRoundTrip(s: string)
    ensures Unescape(Escape(s)) == Some(s)
  {
    if s != [] {
      EscapeRoundTrip(s[1..]);
      UnescapeChar(s[0], Escape(s[1..]));
      assert [s[0]] + s[1..] == s;
    }
  }

  /** A string without quotes, backslashes or control characters is written as itself. */
  lemma {:induction false} EscapePlain(s: string)
    requires forall i :: 0 <= i < |s| ==> s[i] != '"' && s[i] != '\\' && s[i] as int >= 0x20
    ensures Escape(s) == s
  {
    if s != [] {
      EscapePlain(s[1..]);
      assert [s[0]] + s[1..] == s;
    }
  }

  /** A JSON string literal. */
  function JsonString(s: string): string
  {
    "\"" + Escape(s) + "\""
  }

  /** The builtin tool's JSON answer, keys in serialisation order, `args` already serialised. */
  function BuiltinOutput(toolName: string, args: string): string
  {
    "{\"args\":" + args + ",\"message\":\"builtin tool executed\",\"status\":\"ok\",\"tool\":"
      + JsonString(toolName) + "}"
  }

  /**
   * The output of a call on a connected MCP, by MCP type: builtin answers
   * at once; stdio needs a command, a run that starts, finishes in time and
   * succeeds; any other type is unsupported.
   */
  function ToolOutput(mcp: Mcp, id: string, toolName: string, args: string, process: ProcessOutcome)
    : (r: Errors.Result<string>)
    ensures r.Err? ==> r.error.McpError? && r.error.mcpId == id
    ensures mcp.mcpType == "builtin" ==> r == Errors.Ok(BuiltinOutput(toolName, args))
    ensures mcp.mcpType == "stdio" ==> (r.Ok? <==> mcp.command.Some? && process.Exited? && process.success)
    ensures mcp.mcpType != "builtin" && mcp.mcpType != "stdio" ==>
      r == Errors.Err(Errors.McpError(id, "Unsupported MCP type: " + mcp.mcpType))
  {
    if mcp.mcpType == "builtin" then Errors.Ok(BuiltinOutput(toolName, args))
    else if mcp.mcpType == "stdio" then
      if mcp.command.None? then Errors.Err(Errors.McpError(id, "stdio MCP missing command"))
      else match process
        case SpawnFailed(msg) => Errors.Err(Errors.McpError(id, msg))
        case TimedOut => Errors.Err(Errors.McpError(id, "Tool call timed out after 30 seconds"))
        case Exited(ok, out, err) =>
          if !ok then Errors.Err(Errors.McpError(id, "Tool failed: " + err)) else Errors.Ok(out)
    else Errors.Err(Errors.McpError(id, "Unsupported MCP type: " + mcp.mcpType))
  }

  /** The pool without the entries idle for longer than `idleTtl`. */
  function WithoutIdle(pool: map<string, McpClient>, idleTtl: nat, now: nat): (r: map<string, McpClient>)
    ensures forall k :: k in r <==> k in pool && Elapsed(now, pool[k].lastUsedAt) <= idleTtl
    ensures forall k :: k in r ==> r[k] == pool[k]
  {
    map k | k in pool && Elapsed(now, pool[k].lastUsedAt) <= idleTtl :: pool[k]
  }

  /**
   * What connecting to `id` answers once the breaker lets the call
   * through: the pooled row, else the lookup's failure, else the looked-up
   * row (or the connection-state write's failure), else NotFound.
   */
  function Connection(pool: map<string, McpClient>, id: string, repo: map<string, Mcp>,
                      lookupFailure: Option<Errors.AppError>, stateWriteFailure: Option<Errors.AppError>)
    : Errors.Result<Mcp>
  {
    if id in pool then Errors.Ok(pool[id].mcp)
    else if lookupFailure.Some? then Errors.Err(lookupFailure.value)
    else if id !in repo then Errors.Err(Errors.NotFound("mcp", id))
    else if stateWriteFailure.Some? then Errors.Err(stateWriteFailure.value)
    else Errors.Ok(repo[id])
  }

  /** The pool after connecting to `id`: a hit is refreshed, a looked-up row is pooled. */
  function PoolAfterConnect(pool: map<string, McpClient>, id: string, repo: map<string, Mcp>,
                            lookupFailure: Option<Errors.AppError>, now: nat): map<string, McpClient>
  {
    if id in pool then pool[id := McpClient(pool[id].mcp, now)]
    else if lookupFailure.None? && id in repo then pool[id := McpClient(repo[id], now)]
    else pool
  }

  class McpService {
    var pool: map<string, McpClient>
    var breaker: map<string, Breaker>

    /** Nothing in this service ever opens a breaker. */
    predicate Valid()
      reads this
    {
      NoneOpen(breaker)
    }

    constructor()
      ensures pool == map[] && breaker == map[] && Valid()
    {
      pool := map[];
      breaker := map[];
    }

    /**
     * `ensure_connected` against the MCP rows `repo`: the breaker check,
     * then a pool hit (refreshing its use time, without a lookup), else a
     * lookup that pools the row, else NotFound.  `lookupFailure` is an
     * error of the row lookup; `stateWriteFailure` one of the
     * connection-state write that follows pooling, returned with the
     * connection already pooled.
     */
    method EnsureConnected(id: string, repo: map<string, Mcp>, lookupFailure: Option<Errors.AppError>,
                           stateWriteFailure: Option<Errors.AppError>, now: nat) returns (r: Errors.Result<Mcp>)
      modifies this
      ensures Rejects(old(breaker), id, now) ==>
        r == Errors.Err(Errors.McpError(id, "Circuit breaker open")) && pool == old(pool) && breaker == old(breaker)
      ensures !Rejects(old(breaker), id, now) ==> (
        && breaker == AfterCheck(old(breaker), id, now)
        && (id in old(pool) ==> r == Errors.Ok(old(pool)[id].mcp) && pool == old(pool)[id := McpClient(old(pool)[id].mcp, now)])
        && (id !in old(pool) && lookupFailure.Some? ==> r == Errors.Err(lookupFailure.value) && pool == old(pool))
        && (id !in old(pool) && lookupFailure.None? && id in repo ==>
              pool == old(pool)[id := McpClient(repo[id], now)]
              && r == (if stateWriteFailure.Some? then Errors.Err(stateWriteFailure.value) else Errors.Ok(repo[id])))
        && (id !in old(pool) && lookupFailure.None? && id !in repo ==>
              r == Errors.Err(Errors.NotFound("mcp", id)) && pool == old(pool)))
      ensures !Rejects(old(breaker), id, now) ==>
        r == Connection(old(pool), id, repo, lookupFailure, stateWriteFailure)
        && pool == PoolAfterConnect(old(pool), id, repo, lookupFailure, now)
      ensures old(Valid()) ==> Valid()
    {
      if id in breaker {
        var state := breaker[id];
        if state.state == Open && state.errors >= 5 {
          if Elapsed(now, state.openedAt) < 30 {
            return Errors.Err(Errors.McpError(id, "Circuit breaker open"));
          }
          breaker := breaker[id := Breaker(state.errors, now, HalfOpen)];
        }
      }
      if id in pool {
        var client := pool[id];
        pool := pool[id := McpClient(client.mcp, now)];
        return Errors.Ok(client.mcp);
      }
      if lookupFailure.Some? {
        return Errors.Err(lookupFailure.value);
      }
      if id !in repo {
        return Errors.Err(Errors.NotFound("mcp", id));
      }
      var mcp := repo[id];
      pool := pool[id := McpClient(mcp, now)];
      if stateWriteFailure.Some? {
        return Errors.Err(stateWriteFailure.value);
      }
      r := Errors.Ok(mcp);
    }

    /**
     * `call_tool`: connect (the lookup and connection-state outcomes are
     * those of `EnsureConnected`), run the tool by MCP type, and on success
     * close the breaker with a zero count. No path opens the breaker or counts an
     * error, so the breaker never rejects the call.
     */
    method CallTool(id: string, toolName: string, args: string, userId: string, repo: map<string, Mcp>,
                    lookupFailure: Option<Errors.AppError>, stateWriteFailure: Option<Errors.AppError>,
                    process: ProcessOutcome, latencyMs: nat, now: nat)
      returns (r: Errors.Result<ToolResult>)
      requires Valid()
      modifies this
      ensures Valid()
      ensures pool == PoolAfterConnect(old(pool), id, repo, lookupFailure, now)
      ensures var c := Connection(old(pool), id, repo, lookupFailure, stateWriteFailure);
        && (c.Err? ==> r == Errors.Err(c.error))
        && (c.Ok? ==> var out := ToolOutput(c.value, id, toolName, args, process);
              && (r.Ok? <==> out.Ok?)
              && (out.Err? ==> r == Errors.Err(out.error))
              && (out.Ok? ==> r.value.output == out.value))
      ensures r.Ok? ==> r.value.mcpId == id && r.value.toolName == toolName && r.value.success
                        && r.value.error.None? && r.value.latencyMs == latencyMs
      ensures r.Ok? ==> breaker == old(breaker)[id := Breaker(0, now, Closed)]
      ensures r.Err? ==> breaker == old(breaker)
    {
      NoneOpenNeverRejects(breaker, id, now);
      var connected := EnsureConnected(id, repo, lookupFailure, stateWriteFailure, now);
      if connected.Err? {
        return Errors.Err(connected.error);
      }
      var out := ToolOutput(connected.value, id, toolName, args, process);
      if out.Err? {
        return Errors.Err(out.error);
      }
      breaker := breaker[id := Breaker(0, now, Closed)];
      r := Errors.Ok(ToolResult(id, toolName, out.value, latencyMs, true, None));
    }

    /**
     * `cleanup_idle_connections`: collect the ids idle for longer than
     * `idleTtl`, then remove them.
     */
    method CleanupIdleConnections(idleTtl: nat, now: nat)
      modifies this
      ensures pool == WithoutIdle(old(pool), idleTtl, now)
      ensures breaker == old(breaker)
    {
      var removeIds: set<string> := {};
      var pending := pool.Keys;
      while pending != {}
        invariant pending <= pool.Keys && unchanged(this)
        invariant forall k :: k in removeIds <==> k in pool && k !in pending && Elapsed(now, pool[k].lastUsedAt) > idleTtl
        decreases pending
      {
        var k :| k in pending;
        if Elapsed(now, pool[k].lastUsedAt) > idleTtl {
          removeIds := removeIds + {k};
        }
        pending := pending - {k};
      }
      pool := pool - removeIds;
    }
  }

  /** `health_check_all`'s rule for one MCP. */
  function HealthOf(mcp: Mcp): (h: McpHealthStatus)
    ensures h.mcpId == mcp.id
    ensures h.healthStatus == "healthy" <==> mcp.mcpType == "builtin" || (mcp.mcpType == "stdio" && mcp.command.Some?)
    ensures h.healthStatus == "down" <==> mcp.mcpType == "stdio" && mcp.command.None?
    ensures h.healthStatus == "down" <==> h.lastError == Some("Missing command")
    ensures h.healthStatus == "unknown" <==> mcp.mcpType != "builtin" && mcp.mcpType != "stdio"
  {
    if mcp.mcpType == "builtin" then McpHealthStatus(mcp.id, "healthy", None)
    else if mcp.mcpType == "stdio" then
      if mcp.command.Some? then McpHealthStatus(mcp.id, "healthy", None)
      else McpHealthStatus(mcp.id, "down", Some("Missing command"))
    else McpHealthStatus(mcp.id, "unknown", None)
  }

  /** The statuses of the active MCPs, in list order. */
  function HealthOfActive(mcps: seq<Mcp>): (hs: seq<McpHealthStatus>)
    ensures |hs| <= |mcps|
  {
    if |mcps| == 0 then []
    else HealthOfActive(mcps[..|mcps| - 1]) + (if mcps[|mcps| - 1].isActive == 0 then [] else [HealthOf(mcps[|mcps| - 1])])
  }

  /** Every reported status belongs to an active MCP and follows the rules. */
  lemma {:induction false} HealthOfActiveSound(mcps: seq<Mcp>)
    ensures forall h :: h in HealthOfActive(mcps) ==>
      exists k :: 0 <= k < |mcps| && mcps[k].isActive != 0 && h == HealthOf(mcps[k])
  {
    if |mcps| > 0 {
      var init := mcps[..|mcps| - 1];
      HealthOfActiveSound(init);
      forall h | h in HealthOfActive(mcps)
        ensures exists k :: 0 <= k < |mcps| && mcps[k].isActive != 0 && h == HealthOf(mcps[k])
      {
        if h in HealthOfActive(init) {
          var k :| 0 <= k < |init| && init[k].isActive != 0 && h == HealthOf(init[k]);
          assert mcps[k] == init[k];
        }
      }
    }
  }

  /**
   * `health_check_all` over the outcome `listed` of listing the MCPs: a
   * listing error is returned, otherwise the active MCPs' statuses.
   */
  method HealthCheckAll(listed: Errors.Result<seq<Mcp>>) returns (r: Errors.Result<seq<McpHealthStatus>>)
    ensures listed.Err? ==> r == Errors.Err(listed.error)
    ensures listed.Ok? ==> r == Errors.Ok(HealthOfActive(listed.value))
  {
    if listed.Err? {
      return Errors.Err(listed.error);
    }
    var mcps := listed.value;
    var statuses := [];
    var i := 0;
    while i < |mcps|
      invariant 0 <= i <= |mcps|
      invariant statuses == HealthOfActive(mcps[..i])
    {
      assert mcps[..i + 1][..i] == mcps[..i];
      var mcp := mcps[i];
      if mcp.isActive == 0 {
        i := i + 1;
        continue;
      }
      statuses := statuses + [HealthOf(mcp)];
      i := i + 1;
    }
    assert mcps[..|mcps|] == mcps;
    r := Errors.Ok(statuses);
  }

  /** Whether routing picks this active MCP for the query and intent. */
  predicate Routed(q: string, intentName: string, mcp: Mcp)
  {
    Intent.Needed(q, mcp) || mcp.isBuiltin == 1 || (intentName == "Search" && mcp.category == "data")
  }

  /** The active MCPs, in list order. */
  function Active(mcps: seq<Mcp>): (r: seq<Mcp>)
    ensures forall m :: m in r <==> m in mcps && m.isActive == 1
  {
    if |mcps| == 0 then []
    else Active(mcps[..|mcps| - 1]) + (if mcps[|mcps| - 1].isActive == 1 then [mcps[|mcps| - 1]] else [])
  }

  /**
   * `route_mcps_for_query`: among the active MCPs, the predicted ones,
   * every builtin, and for a Search intent every "data" one; sorted and
   * without duplicates. `listed` is the outcome of listing the MCPs; its
   * error is returned.
   */
  method RouteMcpsForQuery(query: string, intent: Intent.Intent, listed: Errors.Result<seq<Mcp>>)
    returns (r: Errors.Result<seq<string>>)
    ensures listed.Err? ==> r == Errors.Err(listed.error)
    ensures listed.Ok? ==> r.Ok? && StrictlySorted(r.value)
    ensures listed.Ok? ==> forall y :: y in r.value <==>
      exists m :: m in listed.value && m.isActive == 1 && Routed(Lower(query), intent.name, m) && m.id == y
  {
    if listed.Err? {
      return Errors.Err(listed.error);
    }
    var mcps := listed.value;
    var active := Active(mcps);
    var predicted := Intent.PredictNeededMcps(query, active);
    var picked := predicted;
    var i := 0;
    while i < |active|
      invariant 0 <= i <= |active|
      invariant forall y :: y in picked <==> (y in predicted ||
        exists k :: 0 <= k < i && (active[k].isBuiltin == 1 || (intent.name == "Search" && active[k].category == "data")) && active[k].id == y)
    {
      var mcp := active[i];
      if mcp.isBuiltin == 1 {
        picked := picked + [mcp.id];
      }
      if intent.name == "Search" && mcp.category == "data" {
        picked := picked + [mcp.id];
      }
      i := i + 1;
    }
    var selected := SortDedup(picked);
    forall y | y in selected
      ensures exists m :: m in mcps && m.isActive == 1 && Routed(Lower(query), intent.name, m) && m.id == y
    {
      if y in predicted {
        var k :| 0 <= k < |active| && Intent.Needed(Lower(query), active[k]) && active[k].id == y;
        assert active[k] in mcps;
      } else {
        var k :| 0 <= k < |active| && (active[k].isBuiltin == 1 || (intent.name == "Search" && active[k].category == "data")) && active[k].id == y;
        assert active[k] in mcps;
      }
    }
    forall y | exists m :: m in mcps && m.isActive == 1 && Routed(Lower(query), intent.name, m) && m.id == y
      ensures y in selected
    {
      var m :| m in mcps && m.isActive == 1 && Routed(Lower(query), intent.name, m) && m.id == y;
      assert m in active;
      var k :| 0 <= k < |active| && active[k] == m;
      if !Intent.Needed(Lower(query), m) {
        assert y in picked;
      }
    }
    r := Errors.Ok(selected);
  }
}
