/** The TikTok hashtag scrape tool: the input schema with its hashtag
    normaliser and page-size bound, the scrape call over an abstract actor
    backend, the agent-facing tool entry point, and the command line's
    hashtag parsing. */
module ScrapeTool {
  import opened Wrappers
  import opened Json
  import opened PyText

  // ---------------------------------------------------------------------
  // Input schema
  // ---------------------------------------------------------------------

  /** The raw `hashtags` argument handed to the validator before any
      coercion: a comma-separated string, a list (its elements taken as
      strings), or any other Python value. */
  datatype HashtagArg = TextArg(text: string) | ListArg(items: seq<string>) | OtherArg

  /** A validation failure of one schema field. */
  datatype InputError =
    | HashtagsNotListOrString
    | ResultsPerPageOutOfRange(given: int)

  const MinResultsPerPage: int := 1
  const MaxResultsPerPage: int := 50
  const DefaultResultsPerPage: int := 10

  /** A hashtag with no `#` left at its front (the empty string qualifies). */
  predicate NoLeadingHash(t: string) {
    t == [] || t[0] != '#'
  }

  /** `[str(h).strip().lstrip("#") for h in v if str(h).strip()]`. */
  function NormalizeList(v: seq<string>): (r: seq<string>)
    ensures |r| <= |v|
    ensures forall i :: 0 <= i < |r| ==> NoLeadingHash(r[i])
  {
    if v == [] then [] else NormalizeOne(v[0]) + NormalizeList(v[1..])
  }

  /** What the list pass keeps of one element. */
  function NormalizeOne(h: string): (r: seq<string>)
    ensures |r| <= 1 && forall i :: 0 <= i < |r| ==> NoLeadingHash(r[i])
  {
    if Strip(h) == [] then [] else [LStripHash(Strip(h))]
  }

  /** The `hashtags` validator: a string is first cut into trimmed, non-blank
      comma-separated tokens, then a list is trimmed and stripped of leading
      `#`; anything else is rejected. */
  function NormalizeHashtags(v: HashtagArg): (r: Result<seq<string>, InputError>)
    ensures r.Failure? <==> v.OtherArg?
    ensures r.Failure? ==> r.error == HashtagsNotListOrString
    ensures r.Success? ==> forall i :: 0 <= i < |r.value| ==> NoLeadingHash(r.value[i])
  {
    match v
    case TextArg(s) => Success(NormalizeList(CleanTokens(Split(s, ','))))
    case ListArg(items) => Success(NormalizeList(items))
    case OtherArg => Failure(HashtagsNotListOrString)
  }

  /** The `results_per_page` field: 10 when omitted, otherwise accepted only within 1..50. */
  function ResultsPerPage(given: Option<int>): (r: Result<int, InputError>)
    ensures r.Success? <==> given.None? || MinResultsPerPage <= given.value <= MaxResultsPerPage
    ensures given.None? ==> r == Success(DefaultResultsPerPage)
    ensures given.Some? && r.Success? ==> r.value == given.value
    ensures r.Failure? ==> r.error == ResultsPerPageOutOfRange(given.value)
  {
    match given
    case None => Success(DefaultResultsPerPage)
    case Some(n) =>
      if MinResultsPerPage <= n && n <= MaxResultsPerPage then Success(n)
      else Failure(ResultsPerPageOutOfRange(n))
  }

  /** The validated tool arguments. */
  datatype ScrapeInput = ScrapeInput(hashtags: seq<string>, resultsPerPage: int)

  /** Validation of both fields, reporting every failing field in declaration order. */
  function ValidateScrapeInput(hashtags: HashtagArg, resultsPerPage: Option<int>)
    : (r: Result<ScrapeInput, seq<InputError>>)
    ensures r.Success? <==> !hashtags.OtherArg? && ResultsPerPage(resultsPerPage).Success?
    ensures r.Success? ==>
              && r.value.hashtags == NormalizeHashtags(hashtags).value
              && r.value.resultsPerPage == ResultsPerPage(resultsPerPage).value
              && MinResultsPerPage <= r.value.resultsPerPage <= MaxResultsPerPage
    ensures r.Failure? ==> 1 <= |r.error| <= 2
    ensures r.Failure? ==>
              |r.error| == (if hashtags.OtherArg? then 1 else 0)
                           + (if ResultsPerPage(resultsPerPage).Failure? then 1 else 0)
    ensures r.Failure? ==> (HashtagsNotListOrString in r.error <==> hashtags.OtherArg?)
    ensures r.Failure? && hashtags.OtherArg? ==> r.error[0] == HashtagsNotListOrString
    ensures r.Failure? ==>
              ((exists i :: 0 <= i < |r.error| && r.error[i].ResultsPerPageOutOfRange?)
               <==> ResultsPerPage(resultsPerPage).Failure?)
    ensures r.Failure? && ResultsPerPage(resultsPerPage).Failure? ==>
              ResultsPerPage(resultsPerPage).error in r.error
  {
    var h := NormalizeHashtags(hashtags);
    var n := ResultsPerPage(resultsPerPage);
    if h.Success? && n.Success? then Success(ScrapeInput(h.value, n.value))
    else
      var errors := (if h.Failure? then [h.error] else []) + (if n.Failure? then [n.error] else []);
      assert n.Failure? ==> errors[|errors| - 1] == n.error;
      Failure(errors)
  }

  // ---------------------------------------------------------------------
  // Properties of the hashtag normaliser
  // ---------------------------------------------------------------------

  lemma NormalizeListCons(v: seq<string>)
    requires v != []
    ensures NormalizeList(v) == NormalizeOne(v[0]) + NormalizeList(v[1..])
  {
  }

  /** Normalisation works element by element: it distributes over
      concatenation, so the output keeps the input's order. */
  lemma {:induction false} NormalizeListAppend(v: seq<string>, w: seq<string>)
    ensures NormalizeList(v + w) == NormalizeList(v) + NormalizeList(w)
    decreases |v|
  {
    if v == [] {
      assert v + w == w;
    } else {
      var vw := v + w;
      assert vw[0] == v[0];
      assert vw[1..] == v[1..] + w;
      NormalizeListCons(vw);
      NormalizeListAppend(v[1..], w);
    }
  }

  /** One element yields nothing when blank, else its trimmed, `#`-stripped form. */
  lemma NormalizeListSingle(h: string)
    ensures NormalizeList([h]) == if Strip(h) == [] then [] else [LStripHash(Strip(h))]
  {
    assert [h][1..] == [];
  }

  /** Exactly one output per non-blank input element, in order: the output
      is the trimmed non-blank elements with their leading `#` removed. */
  lemma {:induction false} NormalizeListIsStripOfTokens(v: seq<string>)
    ensures |NormalizeList(v)| == |CleanTokens(v)|
    ensures forall i :: 0 <= i < |CleanTokens(v)| ==>
              NormalizeList(v)[i] == LStripHash(CleanTokens(v)[i])
    decreases |v|
  {
    if v != [] {
      NormalizeListCons(v);
      CleanTokensCons(v);
      NormalizeListIsStripOfTokens(v[1..]);
      LStripHashPairwiseAppend(NormalizeOne(v[0]), CleanOne(v[0]), NormalizeList(v[1..]), CleanTokens(v[1..]));
    }
  }

  lemma LStripHashPairwiseAppend(n: seq<string>, c: seq<string>, nr: seq<string>, cr: seq<string>)
    requires |n| == |c| && |nr| == |cr|
    requires forall i :: 0 <= i < |c| ==> n[i] == LStripHash(c[i])
    requires forall i :: 0 <= i < |cr| ==> nr[i] == LStripHash(cr[i])
    ensures |n + nr| == |c + cr|
    ensures forall i :: 0 <= i < |c + cr| ==> (n + nr)[i] == LStripHash((c + cr)[i])
  {
  }

  /** The output is empty exactly when every element is blank. */
  lemma {:induction false} NormalizeListEmpty(v: seq<string>)
    ensures NormalizeList(v) == [] <==> forall i :: 0 <= i < |v| ==> Strip(v[i]) == []
    decreases |v|
  {
    if v != [] {
      NormalizeListCons(v);
      NormalizeListEmpty(v[1..]);
      assert forall i :: 1 <= i < |v| ==> v[1..][i - 1] == v[i];
    }
  }

  /** Trimming before the list pass changes nothing, because `strip` is idempotent. */
  lemma {:induction false} NormalizeListOfCleanTokens(v: seq<string>)
    ensures NormalizeList(CleanTokens(v)) == NormalizeList(v)
    decreases |v|
  {
    if v != [] {
      NormalizeListOfCleanTokens(v[1..]);
      var h := Strip(v[0]);
      StripIdempotent(v[0]);
      NormalizeListAppend(CleanOne(v[0]), CleanTokens(v[1..]));
      if h != [] {
        NormalizeListSingle(h);
      }
    }
  }

  /** A token that trims to `#` characters only, such as `" # "`, survives as
      an empty hashtag rather than being dropped. */
  lemma HashOnlyTokenBecomesEmpty(h: string)
    requires ',' !in h
    requires Strip(h) != [] && forall k :: 0 <= k < |Strip(h)| ==> Strip(h)[k] == '#'
    ensures NormalizeHashtags(TextArg(h)) == Success([""])
  {
    SplitNoSeparator(h, ',');
    LStripHashRemovesOnlyHashes(Strip(h));
    NormalizeListSingle(h);
    assert CliHashtags(h) == NormalizeList([h]);
  }

  /** Whitespace after a leading `#` is kept: `"# cats"` gives `" cats"`,
      because trimming happens before the `#` is stripped. */
  lemma SpaceAfterHashIsKept(w: string)
    requires ',' !in w && w != [] && Stripped(w)
    ensures NormalizeHashtags(TextArg("# " + w)) == Success([" " + w])
  {
    var s := "# " + w;
    assert ',' !in s;
    SplitNoSeparator(s, ',');
    HashSpaceWord(w);
    assert CliHashtags(s) == NormalizeList([s]);
  }

  lemma HashSpaceWord(w: string)
    requires w != [] && Stripped(w)
    ensures NormalizeList(["# " + w]) == [" " + w]
  {
    var s := "# " + w;
    assert s[|s| - 1] == w[|w| - 1];
    StripOfStripped(s);
    assert s[0] == '#' && s[1] == ' ';
    assert HashRunFrom(s, 0) == 1;
    assert s[1..] == " " + w;
    NormalizeListSingle(s);
  }

  /** Normalising twice is not the same as normalising once: the second pass
      trims the space the first pass exposed. */
  lemma NormalizeNotIdempotent(w: string)
    requires w != [] && Stripped(w) && w[0] != '#'
    ensures NormalizeList(NormalizeList(["# " + w])) == [w]
    ensures NormalizeList(NormalizeList(["# " + w])) != NormalizeList(["# " + w])
  {
    HashSpaceWord(w);
    StripSpacePrefix(w);
    NormalizeListSingle(" " + w);
    assert |w| != |" " + w|;
  }

  // ---------------------------------------------------------------------
  // The scrape call
  // ---------------------------------------------------------------------

  /** The actor the tool runs. */
  const ActorId: string := "GdWCkxBtKWOsKjdch"

  /** The actor's request body. */
  datatype RunInput = RunInput(
    hashtags: seq<string>,
    resultsPerPage: int,
    profileScrapeSections: seq<string>,
    profileSorting: string,
    excludePinnedPosts: bool,
    searchSection: string,
    maxProfilesPerQuery: int,
    scrapeRelatedVideos: bool,
    shouldDownloadVideos: bool,
    shouldDownloadCovers: bool,
    shouldDownloadSubtitles: bool,
    shouldDownloadSlideshowImages: bool,
    shouldDownloadAvatars: bool,
    shouldDownloadMusicCovers: bool,
    proxyCountryCode: string)

  /** The request body: the two arguments as given, every other field fixed. */
  function BuildRunInput(hashtags: seq<string>, resultsPerPage: int): (r: RunInput)
    ensures r.hashtags == hashtags && r.resultsPerPage == resultsPerPage
  {
    RunInput(
      hashtags := hashtags,
      resultsPerPage := resultsPerPage,
      profileScrapeSections := ["videos"],
      profileSorting := "latest",
      excludePinnedPosts := false,
      searchSection := "",
      maxProfilesPerQuery := 10,
      scrapeRelatedVideos := false,
      shouldDownloadVideos := false,
      shouldDownloadCovers := false,
      shouldDownloadSubtitles := true,
      shouldDownloadSlideshowImages := false,
      shouldDownloadAvatars := false,
      shouldDownloadMusicCovers := false,
      proxyCountryCode := "None")
  }

  /** Only the hashtags and the page size depend on the arguments: two request
      bodies differ in nothing else. */
  lemma RunInputFlagsAreConstant(h1: seq<string>, n1: int, h2: seq<string>, n2: int)
    ensures BuildRunInput(h1, n1).(hashtags := h2, resultsPerPage := n2) == BuildRunInput(h2, n2)
  {
  }

  /** What the backend does with the call: it raises, or it finishes with a
      dataset whose items iterate in the given order. */
  datatype ActorReply =
    | ActorError(message: string)
    | Finished(datasetId: string, items: seq<Value>)

  /** The externally visible steps of one scrape, in the order they happen. */
  datatype Effect =
    | ClientCreated(token: string)
    | ActorCalled(actorId: string, input: RunInput)
    | DatasetRead(datasetId: string)
    | ResultWritten(result: map<string, Value>)

  datatype ToolError =
    | InvalidArguments(errors: seq<InputError>)
    | MissingToken
    | BackendFailed(message: string)

  /** Python truthiness of the environment token: absent and empty both fail. */
  predicate HasToken(token: Option<string>) {
    token.Some? && token.value != ""
  }

  /** The scrape function's whole behaviour: what it returns and which
      effects it performs, for a given token and backend reply. */
  predicate ScrapeContract(hashtags: seq<string>, resultsPerPage: int, writeToFile: bool,
                           token: Option<string>, reply: ActorReply,
                           outcome: Result<map<string, Value>, ToolError>, effects: seq<Effect>)
  {
    if !HasToken(token) then
      outcome == Failure(MissingToken) && effects == []
    else
      var called := [ClientCreated(token.value), ActorCalled(ActorId, BuildRunInput(hashtags, resultsPerPage))];
      match reply
      case ActorError(message) =>
        outcome == Failure(BackendFailed(message)) && effects == called
      case Finished(datasetId, items) =>
        && outcome.Success?
        && outcome.value.Keys == {"data"}
        && outcome.value["data"] == Array(items)
        && effects == called + [DatasetRead(datasetId)]
                      + (if writeToFile then [ResultWritten(outcome.value)] else [])
  }

  /** `tiktok_scrape_tool`: check the token, build the request, call the actor,
      then append the dataset's items one by one to `data`. */
  method ScrapeHashtags(hashtags: seq<string>, resultsPerPage: int, writeToFile: bool,
                        token: Option<string>, reply: ActorReply)
    returns (outcome: Result<map<string, Value>, ToolError>, effects: seq<Effect>)
    ensures ScrapeContract(hashtags, resultsPerPage, writeToFile, token, reply, outcome, effects)
  {
    if !HasToken(token) {
      return Failure(MissingToken), [];
    }
    effects := [ClientCreated(token.value)];
    var runInput := BuildRunInput(hashtags, resultsPerPage);
    effects := effects + [ActorCalled(ActorId, runInput)];
    if reply.ActorError? {
      return Failure(BackendFailed(reply.message)), effects;
    }
    effects := effects + [DatasetRead(reply.datasetId)];
    var items := reply.items;
    var res: map<string, Value> := map["data" := Array([])];
    for i := 0 to |items|
      invariant res == map["data" := Array(items[..i])]
    {
      assert items[..i + 1] == items[..i] + [items[i]];
      res := res["data" := Array(res["data"].elems + [items[i]])];
    }
    assert items[..|items|] == items;
    if writeToFile {
      effects := effects + [ResultWritten(res)];
    }
    outcome := Success(res);
  }

  /** A missing or empty token stops the scrape before any client exists or
      any actor is called. */
  lemma MissingTokenHasNoEffects(hashtags: seq<string>, resultsPerPage: int, writeToFile: bool,
                                 token: Option<string>, reply: ActorReply,
                                 outcome: Result<map<string, Value>, ToolError>, effects: seq<Effect>)
    requires ScrapeContract(hashtags, resultsPerPage, writeToFile, token, reply, outcome, effects)
    requires token.None? || token.value == ""
    ensures outcome == Failure(MissingToken)
    ensures forall i :: 0 <= i < |effects| ==> !effects[i].ClientCreated? && !effects[i].ActorCalled?
  {
  }

  /** A successful scrape returns exactly the dataset's items, in iteration order. */
  lemma ScrapeReturnsAllItems(hashtags: seq<string>, resultsPerPage: int, writeToFile: bool,
                              token: Option<string>, datasetId: string, items: seq<Value>,
                              outcome: Result<map<string, Value>, ToolError>, effects: seq<Effect>)
    requires ScrapeContract(hashtags, resultsPerPage, writeToFile, token, Finished(datasetId, items), outcome, effects)
    requires HasToken(token)
    ensures outcome.Success? && outcome.value == map["data" := Array(items)]
    ensures |outcome.value["data"].elems| == |items|
  {
    assert outcome.value.Keys == {"data"};
  }

  /** No result file is written unless the caller asks for it. */
  lemma NoFileUnlessRequested(hashtags: seq<string>, resultsPerPage: int,
                              token: Option<string>, reply: ActorReply,
                              outcome: Result<map<string, Value>, ToolError>, effects: seq<Effect>)
    requires ScrapeContract(hashtags, resultsPerPage, false, token, reply, outcome, effects)
    ensures forall i :: 0 <= i < |effects| ==> !effects[i].ResultWritten?
  {
  }

  /** `TikTokHashtagScrapeTool._run`: the scrape, never writing a file. */
  method RunTool(hashtags: seq<string>, resultsPerPage: int, token: Option<string>, reply: ActorReply)
    returns (outcome: Result<map<string, Value>, ToolError>, effects: seq<Effect>)
    ensures ScrapeContract(hashtags, resultsPerPage, false, token, reply, outcome, effects)
    ensures forall i :: 0 <= i < |effects| ==> !effects[i].ResultWritten?
  {
    outcome, effects := ScrapeHashtags(hashtags, resultsPerPage, false, token, reply);
    NoFileUnlessRequested(hashtags, resultsPerPage, token, reply, outcome, effects);
  }

  /** The tool as the agent invokes it: arguments are validated against the
      input schema first, and only valid arguments reach `_run`. */
  method InvokeWithSchema(hashtags: HashtagArg, resultsPerPage: Option<int>,
                          token: Option<string>, reply: ActorReply)
    returns (outcome: Result<map<string, Value>, ToolError>, effects: seq<Effect>)
    ensures ValidateScrapeInput(hashtags, resultsPerPage).Failure? ==>
              outcome == Failure(InvalidArguments(ValidateScrapeInput(hashtags, resultsPerPage).error))
              && effects == []
    ensures ValidateScrapeInput(hashtags, resultsPerPage).Success? ==>
              var input := ValidateScrapeInput(hashtags, resultsPerPage).value;
              ScrapeContract(input.hashtags, input.resultsPerPage, false, token, reply, outcome, effects)
  {
    var validated := ValidateScrapeInput(hashtags, resultsPerPage);
    if validated.Failure? {
      return Failure(InvalidArguments(validated.error)), [];
    }
    outcome, effects := RunTool(validated.value.hashtags, validated.value.resultsPerPage, token, reply);
  }

  /** An out-of-range page size is rejected before any backend call. */
  lemma OutOfRangePageSizeIsRejected(hashtags: HashtagArg, n: int)
    requires n < MinResultsPerPage || n > MaxResultsPerPage
    ensures ValidateScrapeInput(hashtags, Some(n)).Failure?
    ensures ResultsPerPageOutOfRange(n) in ValidateScrapeInput(hashtags, Some(n)).error
  {
  }

  // ---------------------------------------------------------------------
  // Command line
  // ---------------------------------------------------------------------

  /** The command line's hashtag list:
      `[h.strip().lstrip("#") for h in text.split(",") if h.strip()]`. */
  function CliHashtags(text: string): (r: seq<string>)
    ensures forall i :: 0 <= i < |r| ==> NoLeadingHash(r[i])
    ensures Success(r) == NormalizeHashtags(TextArg(text))
  {
    NormalizeListOfCleanTokens(Split(text, ','));
    NormalizeList(Split(text, ','))
  }

  const EmptyHashtagsMessage: string := "Error: --hashtags must contain at least one value."

  /** The command line refuses a hashtag list that comes out empty, which
      happens exactly when every comma-separated piece is blank. */
  function CliParseHashtags(text: string): (r: Result<seq<string>, string>)
    ensures r.Failure? <==> forall i :: 0 <= i < |Split(text, ',')| ==> Strip(Split(text, ',')[i]) == []
    ensures r.Failure? ==> r.error == EmptyHashtagsMessage
    ensures r.Success? ==> r.value != [] && Success(r.value) == NormalizeHashtags(TextArg(text))
  {
    var hashtags := CliHashtags(text);
    assert hashtags == NormalizeList(Split(text, ','));
    NormalizeListEmpty(Split(text, ','));
    if hashtags == [] then Failure(EmptyHashtagsMessage) else Success(hashtags)
  }
}
