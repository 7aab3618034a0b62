/**
 * The intent service: a keyword ladder naming the query's intent, the
 * entities (urls, file paths, numbers) found in its tokens, the temporal
 * phrase it mentions, and the MCP servers it is predicted to need.
 */
module Intent {
  import opened Common
  import opened Models

  datatype Intent = Intent(name: string, confidence: real)

  /** One rung of the intent ladder: the keywords that select it. */
  datatype IntentRule = IntentRule(name: string, confidence: real, keywords: seq<string>)

  /** The ladder, in the order it is tried. */
  const IntentLadder: seq<IntentRule> := [
    IntentRule("Database", 0.93, ["sql", "database"]),
    IntentRule("Code", 0.9, ["code", "rust", "bug"]),
    IntentRule("Search", 0.86, ["find", "search", "look up"]),
    IntentRule("Memory", 0.88, ["remember", "memory"]),
    IntentRule("Calendar", 0.82, ["calendar", "meeting"]),
    IntentRule("Task", 0.82, ["task", "todo"])
  ]

  predicate Hits(q: string, rule: IntentRule) { ContainsAny(q, rule.keywords) }

  /**
   * `classify_intent`: the first rung of the ladder any of whose keywords
   * occurs in the lowercased query, else Chat at 0.7.
   */
  function ClassifyIntent(query: string): (r: Intent)
    ensures var q := Lower(query);
      || (exists i :: 0 <= i < |IntentLadder| && Hits(q, IntentLadder[i])
            && (forall j :: 0 <= j < i ==> !Hits(q, IntentLadder[j]))
            && r == Intent(IntentLadder[i].name, IntentLadder[i].confidence))
      || ((forall i :: 0 <= i < |IntentLadder| ==> !Hits(q, IntentLadder[i])) && r == Intent("Chat", 0.7))
  {
    match FirstHit(Lower(query), IntentLadder)
    case Some(i) => Intent(IntentLadder[i].name, IntentLadder[i].confidence)
    case None => Intent("Chat", 0.7)
  }

  /** The index of the first rule that hits, if any. */
  function FirstHit(q: string, rules: seq<IntentRule>): (r: Option<nat>)
    ensures r.Some? ==> r.value < |rules| && Hits(q, rules[r.value]) && forall j :: 0 <= j < r.value ==> !Hits(q, rules[j])
    ensures r.None? ==> forall j :: 0 <= j < |rules| ==> !Hits(q, rules[j])
  {
    if |rules| == 0 then None
    else if Hits(q, rules[0]) then Some(0)
    else
      var rest := FirstHit(q, rules[1..]);
      if rest.Some? then Some(rest.value + 1) else None
  }

  /** Matching is by substring: "barcode" names the Code intent. */
  lemma BarcodeIsCode()
    ensures ClassifyIntent("barcode") == Intent("Code", 0.9)
  {
    var q := Lower("barcode");
    assert q == "barcode";
    assert OccursAt(q, "code", 3);
    assert !Contains(q, "sql") by {
      forall i | 0 <= i <= |q| - 3 ensures !OccursAt(q, "sql", i) {
        assert q[i] != 's';
      }
    }
    assert !Contains(q, "database") by {
      assert |q| < |"database"|;
    }
    assert IntentLadder[0].keywords == ["sql", "database"];
    assert !Hits(q, IntentLadder[0]) by {
      forall k | 0 <= k < 2 ensures !Contains(q, IntentLadder[0].keywords[k]) {
      }
    }
    assert Hits(q, IntentLadder[1]) by {
      assert Contains(q, IntentLadder[1].keywords[0]);
    }
    assert FirstHit(q, IntentLadder) == Some(1);
  }

  // ---------------------------------------------------------------------
  // Entities
  // ---------------------------------------------------------------------

  datatype Entity = Entity(kind: string, value: string)

  predicate IsPunct(c: char) { c == ',' || c == '.' || c == ';' }

  function TrimPunctStart(s: string): (r: string)
    ensures |r| <= |s| && r == s[|s| - |r|..]
    ensures |r| > 0 ==> !IsPunct(r[0])
    ensures forall i :: 0 <= i < |s| - |r| ==> IsPunct(s[i])
  {
    if |s| > 0 && IsPunct(s[0]) then TrimPunctStart(s[1..]) else s
  }

  function TrimPunctEnd(s: string): (r: string)
    ensures |r| <= |s| && r == s[..|r|]
    ensures |r| > 0 ==> !IsPunct(r[|r| - 1])
    ensures forall i :: |r| <= i < |s| ==> IsPunct(s[i])
  {
    if |s| > 0 && IsPunct(s[|s| - 1]) then TrimPunctEnd(s[..|s| - 1]) else s
  }

  /** `trim_matches([',', '.', ';'])`: no such character left at either end. */
  function TrimPunct(s: string): (r: string)
    ensures |r| > 0 ==> !IsPunct(r[0]) && !IsPunct(r[|r| - 1])
    ensures exists a, b :: 0 <= a <= b <= |s| && r == s[a..b]
                           && (forall i :: 0 <= i < a ==> IsPunct(s[i]))
                           && (forall i :: b <= i < |s| ==> IsPunct(s[i]))
  {
    var t := TrimPunctStart(s);
    var r := TrimPunctEnd(t);
    var a := |s| - |t|;
    assert r == s[a..a + |r|];
    assert forall i :: a + |r| <= i < |s| ==> s[i] == t[i - a];
    r
  }

  predicate IsUrl(t: string) { StartsWith(t, "http://") || StartsWith(t, "https://") }

  predicate IsPath(t: string) { Contains(t, ":\\") || StartsWith(t, "/") }

  predicate IsNumber(t: string) { (forall i :: 0 <= i < |t| ==> IsDigit(t[i])) && |t| >= 4 }

  /** What one token yields: a url, a file path and a number, each independently. */
  function TokenEntities(t: string): seq<Entity>
  {
    (if IsUrl(t) then [Entity("url", t)] else [])
    + (if IsPath(t) then [Entity("file_path", TrimPunct(t))] else [])
    + (if IsNumber(t) then [Entity("number", t)] else [])
  }

  /** The entities of a token list, in token order. */
  function Entities(ts: seq<string>): seq<Entity>
  {
    if |ts| == 0 then [] else Entities(ts[..|ts| - 1]) + TokenEntities(ts[|ts| - 1])
  }

  /** `extract_entities` over the whitespace-split tokens of the query. */
  method ExtractEntities(query: string) returns (entities: seq<Entity>)
    ensures entities == Entities(SplitWs(query))
  {
    var tokens := SplitWs(query);
    entities := [];
    var i := 0;
    while i < |tokens|
      invariant 0 <= i <= |tokens|
      invariant entities == Entities(tokens[..i])
    {
      assert tokens[..i + 1][..i] == tokens[..i];
      var token := tokens[i];
      ghost var before := entities;
      var url: seq<Entity> := if IsUrl(token) then [Entity("url", token)] else [];
      var path: seq<Entity> := if IsPath(token) then [Entity("file_path", TrimPunct(token))] else [];
      var number: seq<Entity> := if IsNumber(token) then [Entity("number", token)] else [];
      entities := entities + url + path + number;
      assert entities == before + TokenEntities(token) by {
        AppendAssoc(before, url, path);
        AppendAssoc(before, url + path, number);
      }
      i := i + 1;
    }
    assert tokens[..|tokens|] == tokens;
  }

  /** What an entity of each kind is: a url token, a trimmed path, or a long digit run. */
  predicate EntityShape(e: Entity)
  {
    || (e.kind == "url" && IsUrl(e.value))
    || (e.kind == "file_path" && (|e.value| > 0 ==> !IsPunct(e.value[0]) && !IsPunct(e.value[|e.value| - 1])))
    || (e.kind == "number" && IsNumber(e.value))
  }

  lemma {:induction false} EntitiesShaped(ts: seq<string>)
    ensures forall k :: 0 <= k < |Entities(ts)| ==> EntityShape(Entities(ts)[k])
  {
    if |ts| > 0 {
      EntitiesShaped(ts[..|ts| - 1]);
    }
  }

  /** One token can yield two entities: a url that also looks like a Windows path. */
  lemma UrlAndPathFromOneToken()
    ensures |TokenEntities("http://c:\\x")| == 2
  {
    var t := "http://c:\\x";
    assert StartsWith(t, "http://");
    assert OccursAt(t, ":\\", 8);
    assert !IsDigit(t[0]);
  }

  // ---------------------------------------------------------------------
  // Temporal phrase
  // ---------------------------------------------------------------------

  /** `detect_temporal_context`'s phrase: yesterday, then last week, then today. */
  function TemporalPhrase(query: string): (r: Option<string>)
    ensures var q := Lower(query);
      && (r == Some("yesterday") <==> Contains(q, "yesterday"))
      && (r == Some("last week") <==> !Contains(q, "yesterday") && Contains(q, "last week"))
      && (r == Some("today") <==> !Contains(q, "yesterday") && !Contains(q, "last week") && Contains(q, "today"))
      && (r.None? <==> !Contains(q, "yesterday") && !Contains(q, "last week") && !Contains(q, "today"))
  {
    var q := Lower(query);
    if Contains(q, "yesterday") then Some("yesterday")
    else if Contains(q, "last week") then Some("last week")
    else if Contains(q, "today") then Some("today")
    else None
  }

  // ---------------------------------------------------------------------
  // MCP prediction
  // ---------------------------------------------------------------------

  /** Whether the query needs this MCP: system, builtin, or a named match. */
  predicate Needed(q: string, mcp: Mcp)
  {
    var name := Lower(mcp.name);
    var category := Lower(mcp.category);
    || category == "system" || mcp.isBuiltin == 1
    || (Contains(q, "calendar") && (Contains(name, "calendar") || Contains(name, "google")))
    || (Contains(q, "spotify") && Contains(name, "spotify"))
    || (Contains(q, "git") && Contains(name, "git"))
    || (Contains(q, "file") && Contains(category, "system"))
  }

  /** The ids of the needed MCPs, in list order. */
  function NeededIds(q: string, mcps: seq<Mcp>): (ids: seq<string>)
    ensures forall y :: y in ids <==> exists k :: 0 <= k < |mcps| && Needed(q, mcps[k]) && mcps[k].id == y
  {
    if |mcps| == 0 then []
    else
      var rest := NeededIds(q, mcps[..|mcps| - 1]);
      var m := mcps[|mcps| - 1];
      assert forall k :: 0 <= k < |mcps| - 1 ==> mcps[..|mcps| - 1][k] == mcps[k];
      rest + (if Needed(q, m) then [m.id] else [])
  }

  /**
   * `predict_needed_mcps`: the needed ids, sorted and without duplicates;
   * every system-category or builtin MCP is among them.
   */
  method PredictNeededMcps(query: string, userMcps: seq<Mcp>) returns (chosen: seq<string>)
    ensures StrictlySorted(chosen)
    ensures forall y :: y in chosen <==> exists k :: 0 <= k < |userMcps| && Needed(Lower(query), userMcps[k]) && userMcps[k].id == y
    ensures forall k :: 0 <= k < |userMcps| && (Lower(userMcps[k].category) == "system" || userMcps[k].isBuiltin == 1) ==>
      userMcps[k].id in chosen
  {
    var q := Lower(query);
    var picked: seq<string> := [];
    var i := 0;
    while i < |userMcps|
      invariant 0 <= i <= |userMcps|
      invariant picked == NeededIds(q, userMcps[..i])
    {
      assert userMcps[..i + 1][..i] == userMcps[..i];
      var mcp := userMcps[i];
      var name := Lower(mcp.name);
      var category := Lower(mcp.category);
      if category == "system" || mcp.isBuiltin == 1 {
        picked := picked + [mcp.id];
        i := i + 1;
        continue;
      }
      if Contains(q, "calendar") && (Contains(name, "calendar") || Contains(name, "google")) {
        picked := picked + [mcp.id];
      } else if Contains(q, "spotify") && Contains(name, "spotify") {
        picked := picked + [mcp.id];
      } else if Contains(q, "git") && Contains(name, "git") {
        picked := picked + [mcp.id];
      } else if Contains(q, "file") && Contains(category, "system") {
        picked := picked + [mcp.id];
      }
      i := i + 1;
    }
    assert userMcps[..|userMcps|] == userMcps;
    chosen := SortDedup(picked);
  }
}
