/**
 * The text side of the local commands: whitespace normalisation, the
 * first-number scan, the spoken audio-command parser, the plain-text
 * search-result scraper, and the choice of an installed model.
 */
module LocalCommands {
  import opened Common
  import opened Models

  // ---------------------------------------------------------------------
  // normalize_spaces
  // ---------------------------------------------------------------------

  /** `split_whitespace().join(" ")`. */
  function NormalizeSpaces(input: string): string {
    Join(SplitWs(input), " ")
  }

  /** No whitespace at either end; every whitespace is one space between two non-spaces. */
  predicate SingleSpaced(r: string) {
    && (|r| > 0 ==> !IsWs(r[0]) && !IsWs(r[|r| - 1]))
    && (forall i :: 0 <= i < |r| && IsWs(r[i]) ==> r[i] == ' ' && 0 < i < |r| - 1 && !IsWs(r[i + 1]))
  }

  lemma {:induction false} JoinWordsSingleSpaced(ws: seq<string>)
    requires forall k :: 0 <= k < |ws| ==> IsWord(ws[k])
    ensures SingleSpaced(Join(ws, " "))
    ensures |ws| > 0 ==> |Join(ws, " ")| > 0
  {
    if |ws| > 1 {
      JoinWordsSingleSpaced(ws[1..]);
      var w := ws[0];
      var tail := Join(ws[1..], " ");
      var r := Join(ws, " ");
      assert r == w + " " + tail;
      forall i | 0 <= i < |r| && IsWs(r[i])
        ensures r[i] == ' ' && 0 < i < |r| - 1 && !IsWs(r[i + 1])
      {
        if i > |w| {
          assert r[i] == tail[i - |w| - 1];
          assert r[i + 1] == tail[i - |w|];
        } else if i == |w| {
          assert r[i + 1] == tail[0];
        }
      }
      assert r[0] == w[0];
      assert r[|r| - 1] == tail[|tail| - 1];
    }
  }

  /** The normalised text is single-spaced. */
  lemma NormalizeSpacesShape(input: string)
    ensures SingleSpaced(NormalizeSpaces(input))
  {
    JoinWordsSingleSpaced(SplitWs(input));
  }

  /** Normalising twice is normalising once. */
  lemma NormalizeSpacesIdempotent(input: string)
    ensures NormalizeSpaces(NormalizeSpaces(input)) == NormalizeSpaces(input)
  {
    SplitWsOfJoin(SplitWs(input));
  }

  lemma {:induction false} SplitWsOfBlank(s: string)
    requires forall i :: 0 <= i < |s| ==> IsWs(s[i])
    ensures SplitWs(s) == []
  {
    if |s| > 0 {
      SplitWsOfBlank(s[1..]);
    }
  }

  // ---------------------------------------------------------------------
  // extract_first_number
  // ---------------------------------------------------------------------

  const I64Max: int := 0x7FFF_FFFF_FFFF_FFFF

  /** `skip_while(!is_ascii_digit)`. */
  function SkipNonDigits(s: string): (r: string)
    ensures |r| <= |s| && r == s[|s| - |r|..]
    ensures |r| > 0 ==> IsDigit(r[0])
    ensures forall i :: 0 <= i < |s| - |r| ==> !IsDigit(s[i])
  {
    if |s| > 0 && !IsDigit(s[0]) then
      var r := SkipNonDigits(s[1..]);
      assert forall i :: 1 <= i < |s| - |r| ==> s[i] == s[1..][i - 1];
      r
    else s
  }

  /** `take_while(is_ascii_digit)`. */
  function TakeDigits(s: string): (r: string)
    ensures |r| <= |s| && r == s[..|r|]
    ensures forall i :: 0 <= i < |r| ==> IsDigit(r[i])
    ensures |r| < |s| ==> !IsDigit(s[|r|])
  {
    if |s| > 0 && IsDigit(s[0]) then [s[0]] + TakeDigits(s[1..]) else []
  }

  /** The value of a decimal digit string. */
  function DigitsValue(d: string): nat
    requires forall i :: 0 <= i < |d| ==> IsDigit(d[i])
  {
    if |d| == 0 then 0
    else
      assert IsDigit(d[|d| - 1]);
      10 * DigitsValue(d[..|d| - 1]) + (d[|d| - 1] as int - '0' as int)
  }

  /** `extract_first_number`: the first run of digits, if it fits an `i64`. */
  function ExtractFirstNumber(input: string): (r: Option<int>)
    ensures var digits := TakeDigits(SkipNonDigits(input));
      r.Some? <==> |digits| > 0 && DigitsValue(digits) <= I64Max
    ensures r.Some? ==> 0 <= r.value <= I64Max
  {
    var digits := TakeDigits(SkipNonDigits(input));
    if |digits| == 0 then None
    else
      var v := DigitsValue(digits);
      if v <= I64Max then Some(v) else None
  }

  lemma {:induction false} DigitsValueOfNatToString(n: nat)
    ensures DigitsValue(NatToString(n)) == n
  {
    if n >= 10 {
      var s := NatToString(n);
      assert s[..|s| - 1] == NatToString(n / 10);
      DigitsValueOfNatToString(n / 10);
    }
  }

  lemma {:induction false} SkipNonDigitsPastPrefix(p: string, x: string)
    requires forall i :: 0 <= i < |p| ==> !IsDigit(p[i])
    requires |x| > 0 && IsDigit(x[0])
    ensures SkipNonDigits(p + x) == x
  {
    if |p| > 0 {
      assert (p + x)[1..] == p[1..] + x;
      SkipNonDigitsPastPrefix(p[1..], x);
    } else {
      assert p + x == x;
    }
  }

  lemma {:induction false} TakeDigitsOfRun(d: string, rest: string)
    requires forall i :: 0 <= i < |d| ==> IsDigit(d[i])
    requires |rest| == 0 || !IsDigit(rest[0])
    ensures TakeDigits(d + rest) == d
  {
    if |d| > 0 {
      assert (d + rest)[1..] == d[1..] + rest;
      TakeDigitsOfRun(d[1..], rest);
    } else {
      assert d + rest == rest;
    }
  }

  /** A number written after digit-free text and before a non-digit is read back. */
  lemma ExtractWrittenNumber(p: string, n: nat, rest: string)
    requires forall i :: 0 <= i < |p| ==> !IsDigit(p[i])
    requires |rest| == 0 || !IsDigit(rest[0])
    requires n <= I64Max
    ensures ExtractFirstNumber(p + NatToString(n) + rest) == Some(n)
  {
    var d := NatToString(n);
    AppendAssoc(p, d, rest);
    SkipNonDigitsPastPrefix(p, d + rest);
    TakeDigitsOfRun(d, rest);
    DigitsValueOfNatToString(n);
  }

  // ---------------------------------------------------------------------
  // parse_audio_intent
  // ---------------------------------------------------------------------

  datatype AudioIntent =
    | Play(query: Option<string>, mediaType: string)
    | Queue(queued: string)
    | VolumeSet(value: int)
    | VolumeAdjust(adjustment: int)
    | Pause
    | Stop
    | Next
    | Prev

  const AudioKeywords: seq<string> := ["spotify", "music", "song", "track", "playlist", "album", "artist", "queue", "volume"]
  const PausePhrases: seq<string> := ["pause", "pause music", "pause spotify"]
  const StopPhrases: seq<string> := ["stop", "stop music", "stop spotify"]
  const NextPhrases: seq<string> := ["next", "next song", "skip", "skip song"]
  const PrevPhrases: seq<string> := ["previous", "previous song", "prev", "back song"]

  /** `strip_prefix`. */
  function StripPrefix(s: string, p: string): (r: Option<string>)
    ensures r.Some? <==> StartsWith(s, p)
    ensures r.Some? ==> s == p + r.value
  {
    if StartsWith(s, p) then
      assert s == s[..|p|] + s[|p|..];
      Some(s[|p|..])
    else None
  }

  /** `replace(pat, "")`: every non-overlapping occurrence, left to right, removed. */
  function RemoveAll(s: string, pat: string): (r: string)
    requires |pat| > 0
    ensures |r| <= |s|
    decreases |s|
  {
    if |s| == 0 then s
    else if StartsWith(s, pat) then RemoveAll(s[|pat|..], pat)
    else [s[0]] + RemoveAll(s[1..], pat)
  }

  /** The command text the ladder inspects. */
  function Normalized(input: string): string {
    Trim(Lower(NormalizeSpaces(input)))
  }

  function OrElse<T>(a: Option<T>, b: Option<T>): (r: Option<T>)
    ensures a.Some? ==> r == a
    ensures a.None? ==> r == b
  {
    if a.Some? then a else b
  }

  /** Relative and absolute volume commands. */
  function VolumeStep(t: string): (r: Option<AudioIntent>)
    ensures (Contains(t, "volume up") || t == "increase volume") ==> r == Some(VolumeAdjust(10))
    ensures !(Contains(t, "volume up") || t == "increase volume") && (Contains(t, "volume down") || t == "decrease volume")
            ==> r == Some(VolumeAdjust(-10))
    ensures r.Some? ==> r.value.VolumeAdjust? || r.value.VolumeSet?
    ensures r.Some? && r.value.VolumeSet? ==> 0 <= r.value.value <= 100
  {
    if Contains(t, "volume up") || t == "increase volume" then Some(VolumeAdjust(10))
    else if Contains(t, "volume down") || t == "decrease volume" then Some(VolumeAdjust(-10))
    else
      var setValue := if Contains(t, "volume") && Contains(t, "set") then ExtractFirstNumber(t) else None;
      if setValue.Some? then Some(VolumeSet(Clamp(setValue.value, 0, 100)))
      else
        var rest := StripPrefix(t, "volume ");
        var prefixed := if rest.Some? then ExtractFirstNumber(rest.value) else None;
        if prefixed.Some? then Some(VolumeSet(Clamp(prefixed.value, 0, 100))) else None
  }

  /** `queue <q>` and `add <q> to queue`. */
  function QueueStep(t: string): (r: Option<AudioIntent>)
    ensures r.Some? ==> r.value.Queue? && |r.value.queued| > 0
    ensures r.Some? ==> StartsWith(t, "queue ") || (StartsWith(t, "add ") && Contains(t, " queue"))
  {
    if StartsWith(t, "queue ") || (StartsWith(t, "add ") && Contains(t, " queue")) then
      var stripped := OrElse(StripPrefix(t, "queue "), StripPrefix(t, "add "));
      var query := Trim(RemoveAll(if stripped.Some? then stripped.value else "", " to queue"));
      if |query| > 0 then Some(Queue(query)) else None
    else None
  }

  /** Pause, stop, next and previous, each from its exact phrases only. */
  function TransportStep(t: string): (r: Option<AudioIntent>)
    ensures r == Some(Pause) <==> t in PausePhrases
    ensures r == Some(Stop) <==> t in StopPhrases && t !in PausePhrases
    ensures r == Some(Next) <==> t in NextPhrases && t !in PausePhrases && t !in StopPhrases
    ensures r == Some(Prev) <==> t in PrevPhrases && t !in PausePhrases && t !in StopPhrases && t !in NextPhrases
    ensures r.None? <==> t !in PausePhrases + StopPhrases + NextPhrases + PrevPhrases
  {
    if t in PausePhrases then Some(Pause)
    else if t in StopPhrases then Some(Stop)
    else if t in NextPhrases then Some(Next)
    else if t in PrevPhrases then Some(Prev)
    else None
  }

  /** `<kind> <query>` with a non-empty query selects that media type. */
  function MediaOf(rest: string, kind: string): (r: Option<AudioIntent>)
    ensures r.Some? ==> r.value.Play? && r.value.mediaType == kind && r.value.query.Some? && |r.value.query.value| > 0
    ensures r.Some? <==> StartsWith(rest, kind + " ") && |Trim(rest[|kind| + 1..])| > 0
    ensures r.Some? ==> r.value.query.value == Trim(rest[|kind| + 1..])
  {
    var value := StripPrefix(rest, kind + " ");
    if value.Some? && |Trim(value.value)| > 0 then Some(Play(Some(Trim(value.value)), kind)) else None
  }

  /** Play, start or resume, with an optional media-typed query. */
  function PlayStep(t: string): (r: Option<AudioIntent>)
    ensures r.Some? <==> (StartsWith(t, "play ")
                          || (StartsWith(t, "resume") && ContainsAny(t, AudioKeywords))
                          || (StartsWith(t, "start ") && ContainsAny(t, AudioKeywords)))
    ensures r.Some? ==> r.value.Play?
    ensures r.Some? && r.value.mediaType != "track" ==> r.value.query.Some? && |r.value.query.value| > 0
    ensures r.Some? ==> r.value.mediaType in ["track", "playlist", "album", "artist"]
  {
    var keyword := ContainsAny(t, AudioKeywords);
    if StartsWith(t, "play ") || (StartsWith(t, "resume") && keyword) || (StartsWith(t, "start ") && keyword) then
      if t == "play" || t == "resume" || t == "start music" then Some(Play(None, "track"))
      else
        var stripped := OrElse(StripPrefix(t, "play "), OrElse(StripPrefix(t, "start "), StripPrefix(t, "resume ")));
        Some(PlayOf(Trim(if stripped.Some? then stripped.value else "")))
    else None
  }

  /** What is left after the play verb: nothing, a media-typed query, or a track query. */
  function PlayOf(rest: string): (r: AudioIntent)
    ensures r.Play? && r.mediaType in ["track", "playlist", "album", "artist"]
    ensures r.mediaType != "track" ==> r.query.Some? && |r.query.value| > 0
    ensures |rest| == 0 ==> r == Play(None, "track")
  {
    if |rest| == 0 then Play(None, "track")
    else
      var media := OrElse(MediaOf(rest, "playlist"), OrElse(MediaOf(rest, "album"), MediaOf(rest, "artist")));
      if media.Some? then media.value else Play(Some(rest), "track")
  }

  /** `parse_audio_intent`: volume, queue, transport, then play, on the normalised text. */
  function ParseAudioIntent(input: string): (r: Option<AudioIntent>)
    ensures var t := Normalized(input);
      && (|t| == 0 ==> r.None?)
      && (|t| > 0 && (Contains(t, "volume up") || t == "increase volume") ==> r == Some(VolumeAdjust(10)))
    ensures r.Some? && r.value.VolumeSet? ==> 0 <= r.value.value <= 100
    ensures r == Some(Pause) ==> Normalized(input) in PausePhrases
    ensures r == Some(Stop) ==> Normalized(input) in StopPhrases
    ensures r == Some(Next) ==> Normalized(input) in NextPhrases
    ensures r == Some(Prev) ==> Normalized(input) in PrevPhrases
    ensures r.Some? && r.value.Queue? ==> |r.value.queued| > 0
    ensures r.Some? && r.value.Play? && r.value.mediaType != "track" ==> r.value.query.Some? && |r.value.query.value| > 0
  {
    var t := Normalized(input);
    if |t| == 0 then None
    else
      var volume := VolumeStep(t);
      if volume.Some? then volume
      else
        var queue := QueueStep(t);
        if queue.Some? then queue
        else
          var transport := TransportStep(t);
          if transport.Some? then transport else PlayStep(t)
  }

  /** Blank input is no command. */
  lemma BlankIsNoCommand(input: string)
    requires IsBlank(input)
    ensures ParseAudioIntent(input) == None
  {
    BlankIffAllWs(input);
    SplitWsOfBlank(input);
  }

  /** A single lower-case word is its own normalised form. */
  lemma NormalizedWord(w: string)
    requires IsWord(w)
    requires forall i :: 0 <= i < |w| ==> !('A' <= w[i] <= 'Z')
    ensures Normalized(w) == w
  {
    SplitWsOfJoin([w]);
    assert Lower(w) == w;
    assert TrimStart(w) == w;
    assert TrimEnd(w) == w;
  }

  /** "play" alone is no command: playing needs "play " or an audio keyword. */
  lemma PlayAloneIsNoCommand()
    ensures ParseAudioIntent("play") == None
  {
    NormalizedWord("play");
    PlayStepsDecline();
  }

  lemma PlayStepsDecline()
    ensures VolumeStep("play") == None && QueueStep("play") == None
    ensures TransportStep("play") == None && PlayStep("play") == None
  {
    var t := "play";
    assert !Contains(t, "volume up") && !Contains(t, "volume down") && !Contains(t, "volume");
    assert StripPrefix(t, "volume ") == None;
    assert !StartsWith(t, "queue ");
    assert t[..4][0] != "add "[0];
    assert !StartsWith(t, "play ") && !StartsWith(t, "resume") && !StartsWith(t, "start ");
  }

  /** "resume" alone is no command either. */
  lemma ResumeAloneIsNoCommand()
    ensures ParseAudioIntent("resume") == None
  {
    NormalizedWord("resume");
    ResumeHasNoKeyword();
    ResumeStepsDecline();
  }

  lemma ResumeHasNoKeyword()
    ensures !ContainsAny("resume", AudioKeywords)
  {
    var t := "resume";
    NoWindowMatches(t, "music", 0);
    NoWindowMatches(t, "song", 1);
    NoWindowMatches(t, "track", 0);
    NoWindowMatches(t, "album", 0);
    NoWindowMatches(t, "artist", 0);
    NoWindowMatches(t, "queue", 0);
    NoWindowMatches(t, "volume", 0);
    forall k | 0 <= k < |AudioKeywords| ensures !Contains(t, AudioKeywords[k]) {
    }
  }

  lemma ResumeStepsDecline()
    requires !ContainsAny("resume", AudioKeywords)
    ensures VolumeStep("resume") == None && QueueStep("resume") == None
    ensures TransportStep("resume") == None && PlayStep("resume") == None
  {
    var t := "resume";
    assert !Contains(t, "volume up") && !Contains(t, "volume down");
    assert AudioKeywords[8] == "volume";
    assert StripPrefix(t, "volume ") == None;
    assert t[..6][0] != "queue "[0] && t[..4][0] != "add "[0];
    assert t[..5][0] != "play "[0] && t[..6][0] != "start "[0];
  }

  /** `sub` does not occur when every window differs from it at one fixed offset. */
  lemma NoWindowMatches(s: string, sub: string, k: nat)
    requires k < |sub|
    requires forall j :: k <= j <= |s| - |sub| + k ==> s[j] != sub[k]
    ensures !Contains(s, sub)
  {
    forall i | 0 <= i <= |s| - |sub| ensures !OccursAt(s, sub, i) {
      assert s[i..i + |sub|][k] == s[i + k];
    }
  }

  // ---------------------------------------------------------------------
  // parse_search_result (text path)
  // ---------------------------------------------------------------------

  /** `str::find`: the first occurrence of `pat`. */
  function Find(s: string, pat: string): (r: Option<nat>)
    requires |pat| > 0
    ensures r.Some? ==> OccursAt(s, pat, r.value) && forall j :: 0 <= j < r.value ==> !OccursAt(s, pat, j)
    ensures r.None? ==> !Contains(s, pat)
    decreases |s|
  {
    if |s| < |pat| then None
    else if s[..|pat|] == pat then Some(0)
    else
      var k := Find(s[1..], pat);
      OccursShift(s, pat);
      assert !OccursAt(s, pat, 0);
      if k.Some? then Some(k.value + 1) else None
  }

  /** Windows of `s[1..]` are the windows of `s` one place later. */
  lemma OccursShift(s: string, pat: string)
    requires |s| > 0
    ensures forall j :: 1 <= j ==> (OccursAt(s, pat, j) <==> OccursAt(s[1..], pat, j - 1))
  {
    forall j | 1 <= j ensures OccursAt(s, pat, j) <==> OccursAt(s[1..], pat, j - 1) {
      if j - 1 <= |s| - 1 - |pat| {
        assert s[1..][j - 1..j - 1 + |pat|] == s[j..j + |pat|];
      }
    }
  }

  /** A window of a prefix is a window of the whole. */
  lemma OccursInPrefix(s: string, n: nat, pat: string)
    requires n <= |s|
    ensures forall k :: OccursAt(s[..n], pat, k) ==> OccursAt(s, pat, k)
  {
    forall k | OccursAt(s[..n], pat, k) ensures OccursAt(s, pat, k) {
      assert s[..n][k..k + |pat|] == s[k..k + |pat|];
    }
  }

  /** An occurrence with none before it is the one `find` reports. */
  lemma FindIsFirst(s: string, pat: string, k: nat)
    requires |pat| > 0 && OccursAt(s, pat, k)
    requires forall j :: 0 <= j < k ==> !OccursAt(s, pat, j)
    ensures Find(s, pat) == Some(k)
  {
    var r := Find(s, pat);
    assert r.Some?;
  }

  /** `take_while(is_ascii_alphanumeric)`. */
  function TakeAlnum(s: string): (r: string)
    ensures |r| <= |s| && r == s[..|r|]
    ensures forall i :: 0 <= i < |r| ==> IsAlnum(r[i])
    ensures |r| < |s| ==> !IsAlnum(s[|r|])
  {
    if |s| > 0 && IsAlnum(s[0]) then [s[0]] + TakeAlnum(s[1..]) else []
  }

  /** What the scraper reads from a search result. */
  datatype SearchHit = SearchHit(id: Option<string>, title: Option<string>, artist: Option<string>)

  /** `text.split("ID:").nth(1)`: after the first marker, up to the next one. */
  function SecondPiece(text: string, marker: string): (r: Option<string>)
    requires |marker| > 0
    ensures r.Some? <==> Contains(text, marker)
    ensures r.Some? ==> !Contains(r.value, marker)
  {
    match Find(text, marker)
    case None => None
    case Some(i) =>
      var rest := text[i + |marker|..];
      match Find(rest, marker)
      case None => Some(rest)
      case Some(j) =>
        OccursInPrefix(rest, j, marker);
        Some(rest[..j])
  }

  /** The id: the alphanumeric run that starts the second piece. */
  function IdOf(text: string): (r: Option<string>)
    ensures r.Some? ==> |r.value| > 0 && forall i :: 0 <= i < |r.value| ==> IsAlnum(r.value[i])
    ensures r.Some? ==> Contains(text, "ID:")
  {
    var piece := SecondPiece(text, "ID:");
    if piece.None? then None
    else
      var id := TakeAlnum(TrimStart(piece.value));
      if |id| > 0 then Some(id) else None
  }

  /** Nothing before the first quote is a quote. */
  lemma NoQuoteBeforeFirst(tail: string, endQuote: nat)
    requires Find(tail, "\"") == Some(endQuote)
    ensures '"' !in tail[..endQuote]
  {
    forall i | 0 <= i < endQuote ensures tail[i] != '"' {
      assert !OccursAt(tail, "\"", i);
      assert tail[i..i + 1] == [tail[i]];
    }
  }

  /** The title: the trimmed text before the closing quote, if any. */
  function TitleBefore(tail: string, endQuote: nat): (r: Option<string>)
    requires endQuote <= |tail| && '"' !in tail[..endQuote]
    ensures r.Some? ==> |r.value| > 0 && Trim(r.value) == r.value && '"' !in r.value
  {
    var parsedTitle := Trim(tail[..endQuote]);
    TrimKeepsChars(tail[..endQuote]);
    TrimIdempotent(tail[..endQuote]);
    if |parsedTitle| > 0 then Some(parsedTitle) else None
  }

  /** The artist: after " by ", up to " (" or the end, trimmed. */
  function ArtistAfter(afterTitle: string): (r: Option<string>)
    ensures r.Some? ==> |r.value| > 0 && Trim(r.value) == r.value
  {
    match Find(afterTitle, " by ")
    case None => None
    case Some(byIndex) =>
      var afterBy := afterTitle[byIndex + 4..];
      var found := Find(afterBy, " (");
      var artistEnd := if found.Some? then found.value else |afterBy|;
      var parsedArtist := Trim(afterBy[..artistEnd]);
      TrimIdempotent(afterBy[..artistEnd]);
      if |parsedArtist| > 0 then Some(parsedArtist) else None
  }

  /** The title between `1. "` and the next quote, and the artist after it. */
  function TitleAndArtist(text: string): (r: (Option<string>, Option<string>))
    ensures r.0.Some? ==> |r.0.value| > 0 && Trim(r.0.value) == r.0.value && '"' !in r.0.value
    ensures r.1.Some? ==> |r.1.value| > 0 && Trim(r.1.value) == r.1.value
    ensures (r.0.Some? || r.1.Some?) ==> Contains(text, "1. \"")
  {
    match Find(text, "1. \"")
    case None => (None, None)
    case Some(start) =>
      var tail := text[start + 4..];
      match Find(tail, "\"")
      case None => (None, None)
      case Some(endQuote) =>
        NoQuoteBeforeFirst(tail, endQuote);
        (TitleBefore(tail, endQuote), ArtistAfter(tail[endQuote + 1..]))
  }

  /**
   * `parse_search_result`; `payloadText` is the first content row's text
   * when the raw answer is a tool-result JSON document.
   */
  function ParseSearchResult(raw: string, payloadText: Option<string>): (r: SearchHit)
    ensures r.id.Some? ==> |r.id.value| > 0 && forall i :: 0 <= i < |r.id.value| ==> IsAlnum(r.id.value[i])
    ensures r.title.Some? ==> |r.title.value| > 0 && '"' !in r.title.value
  {
    var text := if payloadText.Some? then payloadText.value else raw;
    var ta := TitleAndArtist(text);
    SearchHit(IdOf(text), ta.0, ta.1)
  }

  /** A result line as the search tool writes it. */
  function SearchLine(title: string, artist: string, more: string): string {
    "1. \"" + title + "\" by " + artist + " (" + more
  }

  /** The scraper reads back the title and artist of a written result line. */
  lemma ScrapesWrittenLine(title: string, artist: string, more: string)
    requires |title| > 0 && Trim(title) == title && '"' !in title
    requires |artist| > 0 && Trim(artist) == artist && !Contains(artist, " (")
    ensures TitleAndArtist(SearchLine(title, artist, more)) == (Some(title), Some(artist))
  {
    var afterTitle := " by " + artist + " (" + more;
    var tail := title + "\"" + afterTitle;
    LineOpensWithMarker(title, artist, more, tail);
    QuoteClosesTitle(title, afterTitle);
    assert tail[|title| + 1..] == afterTitle;
    ArtistReadBack(artist, more);
  }

  lemma LineOpensWithMarker(title: string, artist: string, more: string, tail: string)
    requires tail == title + "\"" + (" by " + artist + " (" + more)
    ensures Find(SearchLine(title, artist, more), "1. \"") == Some(0)
    ensures SearchLine(title, artist, more)[4..] == tail
  {
    var text := SearchLine(title, artist, more);
    assert text == "1. \"" + tail;
    assert text[0..4] == "1. \"";
    FindIsFirst(text, "1. \"", 0);
  }

  lemma QuoteClosesTitle(title: string, afterTitle: string)
    requires |title| > 0 && Trim(title) == title && '"' !in title
    ensures Find(title + "\"" + afterTitle, "\"") == Some(|title|)
    ensures TitleBefore(title + "\"" + afterTitle, |title|) == Some(title)
  {
    var tail := title + "\"" + afterTitle;
    forall j | 0 <= j < |title| ensures !OccursAt(tail, "\"", j) {
      assert tail[j] == title[j];
      assert tail[j..j + 1][0] == tail[j];
    }
    assert tail[|title|..|title| + 1] == "\"";
    FindIsFirst(tail, "\"", |title|);
    assert tail[..|title|] == title;
  }

  lemma ArtistReadBack(artist: string, more: string)
    requires |artist| > 0 && Trim(artist) == artist && !Contains(artist, " (")
    ensures ArtistAfter(" by " + artist + " (" + more) == Some(artist)
  {
    var afterBy := artist + " (" + more;
    assert " by " + artist + " (" + more == " by " + afterBy;
    LeadingBy(afterBy);
    ParenAfterArtist(artist, more);
  }

  /** A text opening with " by " has its first " by " at 0. */
  lemma LeadingBy(rest: string)
    ensures Find(" by " + rest, " by ") == Some(0)
    ensures (" by " + rest)[4..] == rest
  {
    var s := " by " + rest;
    assert s[0..4] == " by ";
    FindIsFirst(s, " by ", 0);
  }

  /** The first " (" after an artist free of it is the one written after the artist. */
  lemma ParenAfterArtist(artist: string, more: string)
    requires |artist| > 0 && !Contains(artist, " (")
    ensures Find(artist + " (" + more, " (") == Some(|artist|)
    ensures (artist + " (" + more)[..|artist|] == artist
  {
    var afterBy := artist + " (" + more;
    forall j | 0 <= j < |artist| ensures !OccursAt(afterBy, " (", j) {
      NoParenAt(artist, more, j);
    }
    assert afterBy[|artist|..|artist| + 2] == " (";
    FindIsFirst(afterBy, " (", |artist|);
    assert afterBy[..|artist|] == artist;
  }

  lemma NoParenAt(artist: string, more: string, j: nat)
    requires j < |artist| && !Contains(artist, " (")
    ensures !OccursAt(artist + " (" + more, " (", j)
  {
    var afterBy := artist + " (" + more;
    if j < |artist| - 1 {
      assert afterBy[j..j + 2] == artist[j..j + 2];
      assert !OccursAt(artist, " (", j);
    } else {
      assert afterBy[j + 1] == ' ';
      assert afterBy[j..j + 2][1] == afterBy[j + 1];
    }
  }

  lemma {:induction false} TakeAlnumOfRun(id: string, rest: string)
    requires forall i :: 0 <= i < |id| ==> IsAlnum(id[i])
    requires |rest| == 0 || !IsAlnum(rest[0])
    ensures TakeAlnum(id + rest) == id
  {
    if |id| > 0 {
      assert (id + rest)[1..] == id[1..] + rest;
      TakeAlnumOfRun(id[1..], rest);
    } else {
      assert id + rest == rest;
    }
  }

  /** The scraper reads back an id written after the first "ID:" marker. */
  lemma ScrapesWrittenId(pre: string, id: string, post: string)
    requires !Contains(pre, "ID:")
    requires |id| > 0 && forall i :: 0 <= i < |id| ==> IsAlnum(id[i])
    requires |post| == 0 || !IsAlnum(post[0])
    requires !Contains(id + post, "ID:")
    ensures IdOf(pre + "ID: " + id + post) == Some(id)
  {
    var rest := " " + (id + post);
    var text := pre + "ID:" + rest;
    assert pre + "ID: " + id + post == text;
    MarkerAfterFreePrefix(pre, rest);
    SpaceThenFree(id + post);
    OnlyMarkerPiece(text, |pre|, rest);
    SpacedRunReadBack(id, post);
  }

  /** After the space that follows the marker, the alphanumeric run is read whole. */
  lemma SpacedRunReadBack(id: string, post: string)
    requires |id| > 0 && forall i :: 0 <= i < |id| ==> IsAlnum(id[i])
    requires |post| == 0 || !IsAlnum(post[0])
    ensures TakeAlnum(TrimStart(" " + (id + post))) == id
  {
    assert (id + post)[0] == id[0];
    TrimStartOfSpaced(id + post);
    TakeAlnumOfRun(id, post);
  }

  lemma TrimStartOfSpaced(s: string)
    requires |s| > 0 && !IsWs(s[0])
    ensures TrimStart(" " + s) == s
  {
    assert (" " + s)[1..] == s;
  }

  /** With one marker, the second piece is all that follows it. */
  lemma OnlyMarkerPiece(text: string, k: nat, rest: string)
    requires Find(text, "ID:") == Some(k) && k + 3 <= |text| && text[k + 3..] == rest
    requires !Contains(rest, "ID:")
    ensures SecondPiece(text, "ID:") == Some(rest)
  {
    var marker := "ID:";
    assert |marker| == 3;
    assert text[k + |marker|..] == rest;
    assert Find(rest, marker).None?;
  }

  /** After a prefix without the marker, the first marker is the written one. */
  lemma MarkerAfterFreePrefix(pre: string, rest: string)
    requires !Contains(pre, "ID:")
    ensures Find(pre + "ID:" + rest, "ID:") == Some(|pre|)
    ensures (pre + "ID:" + rest)[|pre| + 3..] == rest
  {
    var text := pre + "ID:" + rest;
    forall j | 0 <= j < |pre| ensures !OccursAt(text, "ID:", j) {
      if j + 3 <= |pre| {
        assert text[j..j + 3] == pre[j..j + 3];
        assert !OccursAt(pre, "ID:", j);
      } else if j + 2 == |pre| {
        assert text[j..j + 3][2] == text[j + 2] == 'I';
      } else {
        assert text[j..j + 3][1] == text[j + 1] == 'I';
      }
    }
    assert text[|pre|..|pre| + 3] == "ID:";
    FindIsFirst(text, "ID:", |pre|);
  }

  /** A space in front of marker-free text adds no marker. */
  lemma SpaceThenFree(s: string)
    requires !Contains(s, "ID:")
    ensures !Contains(" " + s, "ID:")
  {
    var rest := " " + s;
    OccursShift(rest, "ID:");
    assert rest[1..] == s;
    if |rest| >= 3 {
      assert rest[0..3][0] == ' ';
    }
  }

  // ---------------------------------------------------------------------
  // resolve_installed_model and the load check
  // ---------------------------------------------------------------------

  const NothingInstalled := "No local model is installed. Download a model first in the Models window."
  const EmptyModelName := "Model name is empty."

  datatype Resolution = Resolved(model: Model) | Refused(message: string)

  /**
   * The head of `installed` after a stable sort by display name: the
   * first model whose display name no other model's precedes.
   */
  function FirstByDisplayName(ms: seq<Model>): (r: nat)
    requires |ms| > 0
    ensures r < |ms|
    ensures forall j :: 0 <= j < |ms| ==> !LexLess(ms[j].displayName, ms[r].displayName)
    ensures forall j :: 0 <= j < r ==> LexLess(ms[r].displayName, ms[j].displayName)
  {
    if |ms| == 1 then
      LexIrreflexive(ms[0].displayName);
      0
    else
      var k := 1 + FirstByDisplayName(ms[1..]);
      assert forall j :: 1 <= j < |ms| ==> ms[j] == ms[1..][j - 1];
      FirstByDisplayNameStep(ms, k);
      if LexLess(ms[k].displayName, ms[0].displayName) then k else 0
  }

  lemma FirstByDisplayNameStep(ms: seq<Model>, k: nat)
    requires 1 <= k < |ms|
    requires forall j :: 1 <= j < |ms| ==> !LexLess(ms[j].displayName, ms[k].displayName)
    ensures LexLess(ms[k].displayName, ms[0].displayName) ==> !LexLess(ms[0].displayName, ms[k].displayName)
    ensures !LexLess(ms[k].displayName, ms[0].displayName) ==>
              forall j :: 0 <= j < |ms| ==> !LexLess(ms[j].displayName, ms[0].displayName)
  {
    var a := ms[k].displayName;
    var b := ms[0].displayName;
    if LexLess(a, b) && LexLess(b, a) {
      LexTransitive(a, b, a);
      LexIrreflexive(a);
    }
    if !LexLess(a, b) {
      forall j | 0 <= j < |ms| ensures !LexLess(ms[j].displayName, b) {
        var c := ms[j].displayName;
        if j == 0 {
          LexIrreflexive(b);
        } else if LexLess(c, b) {
          LexTotal(a, c);
          if LexLess(a, c) {
            LexTransitive(a, c, b);
          }
        }
      }
    }
  }

  /** Model `i` is the first installed model flagged default. */
  predicate FirstDefaultAt(installed: seq<Model>, i: nat) {
    i < |installed| && IsDefault(installed[i]) && forall j :: 0 <= j < i ==> !IsDefault(installed[j])
  }

  /** `resolve_installed_model`. */
  function ResolveInstalledModel(installed: seq<Model>, requested: Option<string>): (r: Resolution)
    ensures |installed| == 0 ==> r == Refused(NothingInstalled)
    ensures r.Resolved? ==> r.model in installed
    ensures |installed| > 0 && requested.Some? && |Trim(requested.value)| == 0 ==> r == Refused(EmptyModelName)
    ensures r.Resolved? && requested.Some? ==> (var n := Trim(requested.value);
      r.model.id == n || EqIgnoreCase(r.model.name, n) || EqIgnoreCase(r.model.displayName, n))
    ensures (requested.Some? && |Trim(requested.value)| > 0
             && exists m :: m in installed && m.id == Trim(requested.value))
            ==> r.Resolved? && r.model.id == Trim(requested.value)
    ensures r.Refused? && |installed| > 0 && requested.Some? && |Trim(requested.value)| > 0 ==>
      (var n := Trim(requested.value);
       forall m :: m in installed ==> m.id != n && !EqIgnoreCase(m.name, n) && !EqIgnoreCase(m.displayName, n))
    ensures |installed| > 0 && requested.None? ==> r.Resolved?
    ensures requested.None? && (exists m :: m in installed && IsDefault(m)) ==> r.Resolved? && IsDefault(r.model)
    ensures requested.None? && r.Resolved? && !IsDefault(r.model) ==>
      forall m :: m in installed ==> !LexLess(m.displayName, r.model.displayName)
  {
    if |installed| == 0 then Refused(NothingInstalled)
    else if requested.Some? then
      var n := Trim(requested.value);
      if |n| == 0 then Refused(EmptyModelName)
      else
        var byId := FirstWhere(installed, (m: Model) => m.id == n);
        var byName := FirstWhere(installed, (m: Model) => EqIgnoreCase(m.name, n));
        var byDisplay := FirstWhere(installed, (m: Model) => EqIgnoreCase(m.displayName, n));
        if byId.Some? then Resolved(installed[byId.value])
        else if byName.Some? then Resolved(installed[byName.value])
        else if byDisplay.Some? then Resolved(installed[byDisplay.value])
        else Refused("Model '" + n + "' is not installed locally. Download it in the Models window first.")
    else
      var default := FirstWhere(installed, (m: Model) => IsDefault(m));
      if default.Some? then Resolved(installed[default.value])
      else Resolved(installed[FirstByDisplayName(installed)])
  }
  /** With no id match, a name match wins over a display-name match. */
  lemma NameBeatsDisplayName(installed: seq<Model>, requested: string, k: nat)
    requires |Trim(requested)| > 0
    requires forall m :: m in installed ==> m.id != Trim(requested)
    requires k < |installed| && EqIgnoreCase(installed[k].name, Trim(requested))
    ensures var r := ResolveInstalledModel(installed, Some(requested));
      r.Resolved? && EqIgnoreCase(r.model.name, Trim(requested))
  {
  }

  /** With no name requested, the first model flagged default is the one resolved. */
  lemma NoNameTakesFirstDefault(installed: seq<Model>, i: nat)
    requires FirstDefaultAt(installed, i)
    ensures ResolveInstalledModel(installed, None) == Resolved(installed[i])
  {
    var d := FirstWhere(installed, (m: Model) => IsDefault(m));
    assert d.Some?;
  }


  /** What `ensure_model_loaded` does with a resolved model. */
  datatype LoadPlan = NoLocalPath(message: string) | AlreadyLoaded | LoadFrom(path: string)

  /** The trimmed, non-blank GGUF path of a model, if it has one. */
  function LocalPath(m: Model): (r: Option<string>)
    ensures r.Some? ==> |r.value| > 0
  {
    if m.filePath.Some? && |Trim(m.filePath.value)| > 0 then Some(Trim(m.filePath.value)) else None
  }

  /** `needs_load`: loading is needed unless the active model has this very path. */
  function PlanLoad(m: Model, activePath: Option<string>): (r: LoadPlan)
    ensures r.NoLocalPath? <==> LocalPath(m).None?
    ensures r.AlreadyLoaded? <==> LocalPath(m).Some? && activePath == LocalPath(m)
    ensures r.LoadFrom? ==> LocalPath(m) == Some(r.path) && activePath != Some(r.path)
  {
    match LocalPath(m)
    case None =>
      NoLocalPath("Model '" + m.displayName + "' is marked installed but has no local GGUF path.")
    case Some(path) =>
      if activePath.Some? && activePath.value == path then AlreadyLoaded else LoadFrom(path)
  }
}
