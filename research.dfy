/** The research workflow's deterministic parts: joining and parsing topics,
    and the runner that picks the report out of the crew's terminal output,
    falling back to the intermediate task artifacts. */
module Research {
  import opened Wrappers
  import opened Json
  import opened PyText

  // ---------------------------------------------------------------------
  // Topics
  // ---------------------------------------------------------------------

  /** The topics text placed in the hashtag prompt: `", ".join(topics)`. */
  function JoinTopics(topics: seq<string>): string {
    Join(topics, ", ")
  }

  /** The command line's topic list: `[t.strip() for t in text.split(",") if t.strip()]`. */
  function ParseTopics(text: string): (r: seq<string>)
    ensures forall i :: 0 <= i < |r| ==> r[i] != [] && Stripped(r[i]) && ',' !in r[i]
  {
    CleanTokensAvoid(Split(text, ','), ',');
    CleanTokens(Split(text, ','))
  }

  /** A topic the parser can produce: non-blank, trimmed, comma-free. */
  predicate WellFormedTopic(t: string) {
    t != [] && Stripped(t) && ',' !in t
  }

  /** Each topic after the first, preceded by the space that `", "` puts before it. */
  function Spaced(ts: seq<string>): (r: seq<string>)
    ensures |r| == |ts|
    ensures forall i :: 0 <= i < |ts| ==> r[i] == " " + ts[i]
  {
    seq(|ts|, i requires 0 <= i < |ts| => " " + ts[i])
  }

  lemma {:induction false} SplitJoinedTopics(ts: seq<string>)
    requires |ts| >= 1
    requires forall i :: 0 <= i < |ts| ==> ',' !in ts[i]
    ensures Split(JoinTopics(ts), ',') == [ts[0]] + Spaced(ts[1..])
    decreases |ts|
  {
    if |ts| == 1 {
      SplitNoSeparator(ts[0], ',');
    } else {
      var tail := JoinTopics(ts[1..]);
      assert JoinTopics(ts) == ts[0] + [','] + ([' '] + tail);
      SplitAtSeparator(ts[0], ',', [' '] + tail);
      SplitJoinedTopics(ts[1..]);
      var rest := Split(tail, ',');
      assert rest == [ts[1]] + Spaced(ts[2..]);
      assert ([' '] + tail)[1..] == tail;
      assert Split([' '] + tail, ',') == [[' '] + rest[0]] + rest[1..];
      assert ts[1..][1..] == ts[2..];
      assert [[' '] + rest[0]] + rest[1..] == Spaced(ts[1..]);
    }
  }

  lemma {:induction false} CleanSpaced(ts: seq<string>)
    requires forall i :: 0 <= i < |ts| ==> ts[i] != [] && Stripped(ts[i])
    ensures CleanTokens(Spaced(ts)) == ts
    decreases |ts|
  {
    if ts != [] {
      var sp := Spaced(ts);
      CleanTokensCons(sp);
      StripSpacePrefix(ts[0]);
      assert sp[1..] == Spaced(ts[1..]);
      CleanSpaced(ts[1..]);
      assert [ts[0]] + ts[1..] == ts;
    }
  }

  /** Parsing the joined topics gives back exactly the topics, in order. */
  lemma TopicsRoundTrip(ts: seq<string>)
    requires forall i :: 0 <= i < |ts| ==> WellFormedTopic(ts[i])
    ensures ParseTopics(JoinTopics(ts)) == ts
  {
    if ts == [] {
      assert Split("", ',') == [""];
      assert CleanTokens([""]) == [] by { CleanTokensCons([""]); }
    } else {
      SplitJoinedTopics(ts);
      CleanTokensAppend([ts[0]], Spaced(ts[1..]));
      assert CleanTokens([ts[0]]) == [ts[0]] by { CleanTokensOfClean([ts[0]]); }
      CleanSpaced(ts[1..]);
      assert [ts[0]] + ts[1..] == ts;
    }
  }

  /** Re-parsing the joined result of a parse changes nothing. */
  lemma ParseJoinParse(text: string)
    ensures ParseTopics(JoinTopics(ParseTopics(text))) == ParseTopics(text)
  {
    TopicsRoundTrip(ParseTopics(text));
  }

  // ---------------------------------------------------------------------
  // The runner
  // ---------------------------------------------------------------------

  /** A Python value the runner inspects: a string, a dict, or anything else. */
  datatype PyObject = PyStr(s: string) | PyDict(fields: map<string, Value>) | PyOther

  /** The crew's `artifacts` attribute: absent (or raising), present but not a
      dict, or a dict whose entries are listed in iteration order. */
  datatype Artifacts = NoArtifacts | NotADict | ArtifactDict(entries: seq<(string, PyObject)>)

  /** `json.loads` restricted to the dict results the runner uses; `None`
      stands for a parse error. */
  type JsonParser = string -> Option<map<string, Value>>

  const ErrorRecord: map<string, Value> := map["error" := Str("Could not parse crew output")]

  /** The parsed terminal output: a string is parsed, a dict is taken as it
      is, anything else gives nothing. */
  function ParseTerminal(raw: PyObject, parse: JsonParser): Option<map<string, Value>>
  {
    match raw
    case PyStr(s) => parse(s)
    case PyDict(m) => Some(m)
    case PyOther => None
  }

  /** The terminal output is accepted as the report when it parsed to a dict holding `results`. */
  predicate Accepted(parsed: Option<map<string, Value>>) {
    parsed.Some? && "results" in parsed.value
  }

  /** The entries the fallback scans; a missing or non-dict container scans nothing. */
  function ArtifactEntries(artifacts: Artifacts): seq<(string, PyObject)> {
    if artifacts.ArtifactDict? then artifacts.entries else []
  }

  /** The `hashtags` an artifact value offers: only a string that parses to a
      dict holding `hashtags` offers any. */
  function HashtagsOf(v: PyObject, parse: JsonParser): Option<Value>
  {
    if v.PyStr? then
      var maybe := parse(v.s);
      if maybe.Some? && "hashtags" in maybe.value then Some(maybe.value["hashtags"]) else None
    else None
  }

  /** The `hashtags` of the first artifact, in iteration order, that offers any. */
  function FirstHashtags(entries: seq<(string, PyObject)>, parse: JsonParser): Option<Value>
    decreases |entries|
  {
    if entries == [] then None
    else if HashtagsOf(entries[0].1, parse).Some? then HashtagsOf(entries[0].1, parse)
    else FirstHashtags(entries[1..], parse)
  }

  /** The fallback dict: the parsed keys, plus the found `hashtags` unless one is already there. */
  function Gather(base: map<string, Value>, found: Option<Value>): (r: map<string, Value>)
    ensures forall k :: k in base ==> k in r && r[k] == base[k]
    ensures r.Keys <= base.Keys + {"hashtags"}
    ensures "hashtags" !in base && found.Some? ==> "hashtags" in r && r["hashtags"] == found.value
    ensures found.None? ==> r == base
  {
    if found.Some? && "hashtags" !in base then base["hashtags" := found.value] else base
  }

  /** What `run_search_query_agent` returns for a terminal output and the
      crew's artifacts. */
  function RunnerResult(raw: PyObject, artifacts: Artifacts, parse: JsonParser): (out: map<string, Value>)
    ensures out != map[]
  {
    assert "error" in ErrorRecord;
    var parsed := ParseTerminal(raw, parse);
    if Accepted(parsed) then parsed.value
    else
      var base := if parsed.Some? then parsed.value else map[];
      var gathered := Gather(base, FirstHashtags(ArtifactEntries(artifacts), parse));
      if gathered == map[] then ErrorRecord else gathered
  }

  lemma {:induction false} FirstHashtagsSnoc(entries: seq<(string, PyObject)>, e: (string, PyObject), parse: JsonParser)
    ensures FirstHashtags(entries + [e], parse) ==
            if FirstHashtags(entries, parse).Some? then FirstHashtags(entries, parse) else HashtagsOf(e.1, parse)
    decreases |entries|
  {
    var all := entries + [e];
    if entries == [] {
      assert all == [e] && all[1..] == [];
    } else {
      assert all[0] == entries[0];
      assert all[1..] == entries[1..] + [e];
      FirstHashtagsSnoc(entries[1..], e, parse);
    }
  }

  /** The artifact scan: for each value in iteration order, a string that
      parses to a dict with `hashtags` sets `hashtags` unless it is already set. */
  method ScanArtifacts(output0: map<string, Value>, entries: seq<(string, PyObject)>, parse: JsonParser)
    returns (output: map<string, Value>)
    ensures output == Gather(output0, FirstHashtags(entries, parse))
  {
    output := output0;
    for i := 0 to |entries|
      invariant output == Gather(output0, FirstHashtags(entries[..i], parse))
    {
      assert entries[..i + 1] == entries[..i] + [entries[i]];
      FirstHashtagsSnoc(entries[..i], entries[i], parse);
      var v := entries[i].1;
      if v.PyStr? {
        var maybe := parse(v.s);
        if maybe.Some? && maybe.value != map[] && "hashtags" in maybe.value && "hashtags" !in output {
          output := output["hashtags" := maybe.value["hashtags"]];
        }
      }
    }
    assert entries[..|entries|] == entries;
  }

  /** `run_search_query_agent` after `kickoff` has produced `raw`. */
  method RunSearchQuery(raw: PyObject, artifacts: Artifacts, parse: JsonParser)
    returns (result: map<string, Value>)
    ensures result == RunnerResult(raw, artifacts, parse)
    ensures result != map[]
  {
    var parsed: Option<map<string, Value>> := None;
    if raw.PyStr? {
      parsed := parse(raw.s);
    } else if raw.PyDict? {
      parsed := Some(raw.fields);
    }
    if parsed.None? || parsed.value == map[] || "results" !in parsed.value {
      var output: map<string, Value> := map[];
      if parsed.Some? && parsed.value != map[] {
        output := output + parsed.value;
      }
      assert output == if parsed.Some? then parsed.value else map[];
      if artifacts.ArtifactDict? && artifacts.entries != [] {
        output := ScanArtifacts(output, artifacts.entries, parse);
      }
      assert output == Gather(if parsed.Some? then parsed.value else map[],
                              FirstHashtags(ArtifactEntries(artifacts), parse));
      if output == map[] {
        return ErrorRecord;
      }
      return output;
    }
    return parsed.value;
  }

  // ---------------------------------------------------------------------
  // Properties of the runner
  // ---------------------------------------------------------------------

  /** A terminal string that parses to a dict with `results` is returned unchanged. */
  lemma ParsedTextWithResultsIsReturned(s: string, artifacts: Artifacts, parse: JsonParser)
    requires parse(s).Some? && "results" in parse(s).value
    ensures RunnerResult(PyStr(s), artifacts, parse) == parse(s).value
  {
  }

  /** A terminal dict with `results` is returned unchanged. */
  lemma DictWithResultsIsReturned(m: map<string, Value>, artifacts: Artifacts, parse: JsonParser)
    requires "results" in m
    ensures RunnerResult(PyDict(m), artifacts, parse) == m
  {
  }

  /** With nothing, or only an empty dict, parsed from the terminal output, the
      result is the first artifact's `hashtags` alone, or the error record when
      no artifact offers any. */
  lemma UnparsedTerminalFallsBack(raw: PyObject, artifacts: Artifacts, parse: JsonParser)
    requires ParseTerminal(raw, parse).None? || ParseTerminal(raw, parse).value == map[]
    ensures RunnerResult(raw, artifacts, parse) ==
            match FirstHashtags(ArtifactEntries(artifacts), parse)
            case Some(h) => map["hashtags" := h]
            case None => ErrorRecord
  {
  }

  /** The fallback keeps every key/value pair of a non-empty parsed dict, and
      adds at most `hashtags`, taken from the first artifact that offers it. */
  lemma FallbackKeepsParsed(raw: PyObject, artifacts: Artifacts, parse: JsonParser)
    requires ParseTerminal(raw, parse).Some?
    requires ParseTerminal(raw, parse).value != map[]
    requires !Accepted(ParseTerminal(raw, parse))
    ensures var m, out := ParseTerminal(raw, parse).value, RunnerResult(raw, artifacts, parse);
            && (forall k :: k in m ==> k in out && out[k] == m[k])
            && out.Keys <= m.Keys + {"hashtags"}
            && ("hashtags" !in m && FirstHashtags(ArtifactEntries(artifacts), parse).Some? ==>
                  out["hashtags"] == FirstHashtags(ArtifactEntries(artifacts), parse).value)
    ensures FirstHashtags(ArtifactEntries(artifacts), parse).None? ==>
              RunnerResult(raw, artifacts, parse) == ParseTerminal(raw, parse).value
  {
  }

  /** Artifacts that are missing or not a dict contribute nothing. */
  lemma MissingArtifactsContributeNothing(raw: PyObject, artifacts: Artifacts, parse: JsonParser)
    requires !artifacts.ArtifactDict?
    ensures RunnerResult(raw, artifacts, parse) == RunnerResult(raw, ArtifactDict([]), parse)
  {
  }

  /** The error record is returned exactly when nothing was gathered, unless
      the terminal output itself is that record. */
  lemma ErrorRecordOnlyWhenNothingGathered(raw: PyObject, artifacts: Artifacts, parse: JsonParser)
    ensures var parsed := ParseTerminal(raw, parse);
            var nothing := (parsed.None? || parsed.value == map[])
                           && FirstHashtags(ArtifactEntries(artifacts), parse).None?;
            (nothing ==> RunnerResult(raw, artifacts, parse) == ErrorRecord)
            && (RunnerResult(raw, artifacts, parse) == ErrorRecord ==> nothing || parsed == Some(ErrorRecord))
  {
  }

  // ---------------------------------------------------------------------
  // Properties of the artifact scan
  // ---------------------------------------------------------------------

  /** What `FirstHashtags` finds is offered by some artifact, and no earlier artifact offers any. */
  lemma {:induction false} FirstHashtagsWitness(entries: seq<(string, PyObject)>, parse: JsonParser)
    returns (i: nat)
    requires FirstHashtags(entries, parse).Some?
    ensures i < |entries| && HashtagsOf(entries[i].1, parse) == FirstHashtags(entries, parse)
    ensures forall j :: 0 <= j < i ==> HashtagsOf(entries[j].1, parse).None?
    decreases |entries|
  {
    if HashtagsOf(entries[0].1, parse).Some? {
      i := 0;
    } else {
      var k := FirstHashtagsWitness(entries[1..], parse);
      i := k + 1;
      assert forall j :: 1 <= j < i ==> entries[j] == entries[1..][j - 1];
    }
  }

  /** The first artifact that offers `hashtags` is the one taken. */
  lemma {:induction false} FirstOfferIsTaken(entries: seq<(string, PyObject)>, parse: JsonParser, i: nat)
    requires i < |entries| && HashtagsOf(entries[i].1, parse).Some?
    requires forall j :: 0 <= j < i ==> HashtagsOf(entries[j].1, parse).None?
    ensures FirstHashtags(entries, parse) == HashtagsOf(entries[i].1, parse)
    decreases i
  {
    if i > 0 {
      assert forall j :: 0 <= j < i - 1 ==> entries[1..][j] == entries[j + 1];
      FirstOfferIsTaken(entries[1..], parse, i - 1);
    }
  }

  /** Later artifacts never overwrite the `hashtags` already taken. */
  lemma {:induction false} LaterArtifactsNeverOverwrite(first: seq<(string, PyObject)>, later: seq<(string, PyObject)>, parse: JsonParser)
    requires FirstHashtags(first, parse).Some?
    ensures FirstHashtags(first + later, parse) == FirstHashtags(first, parse)
    decreases |first|
  {
    var all := first + later;
    assert all[0] == first[0];
    if HashtagsOf(first[0].1, parse).None? {
      assert all[1..] == first[1..] + later;
      LaterArtifactsNeverOverwrite(first[1..], later, parse);
    }
  }

  /** An artifact value that is not a string is skipped wherever it stands. */
  lemma {:induction false} NonStringArtifactIsSkipped(before: seq<(string, PyObject)>, key: string, v: PyObject,
                                                      after: seq<(string, PyObject)>, parse: JsonParser)
    requires !v.PyStr?
    ensures FirstHashtags(before + [(key, v)] + after, parse) == FirstHashtags(before + after, parse)
    decreases |before|
  {
    var with, without := before + [(key, v)] + after, before + after;
    if before == [] {
      assert with[0] == (key, v) && with[1..] == after && without == after;
    } else {
      assert with[0] == before[0] && without[0] == before[0];
      assert with[1..] == before[1..] + [(key, v)] + after;
      assert without[1..] == before[1..] + after;
      NonStringArtifactIsSkipped(before[1..], key, v, after, parse);
    }
  }
}
