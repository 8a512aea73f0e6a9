# TikTok market research agent: a verified model of its deterministic core

The repository drives an LLM agent. The agent turns a business's trending topics into
TikTok hashtags, scrapes TikTok for those hashtags through a hosted scraping actor,
and reports the videos it found. Around the agent framework there are three pieces of
deterministic logic, and this project models each of them and proves properties about it:

1. **Hashtag normalisation** (`pytext.dfy`, `scrape_tool.dfy`). The tool's input
   schema runs a validator over `hashtags`, and the command-line parser does the same.
   - A comma-separated string is split on `,`. Each piece is trimmed and blank pieces are dropped.
   - Each element of the resulting list is trimmed again and loses all its leading `#` characters.
   - Any other value is rejected.
   - The schema also bounds `results_per_page` to 1..50, with default 10.
   - The command line refuses an empty hashtag list.

   The model keeps the code's quirks and proves them:
   - a token made only of `#`, such as `" # "`, survives as the empty hashtag `""`;
   - `"# cats"` becomes `" cats"`, because trimming happens before the `#` is removed;
   - normalising twice is different from normalising once.
2. **Scrape-result collection** (`scrape_tool.dfy`). `tiktok_scrape_tool` is an
   imperative method.
   - It first checks the token. An absent or empty token stops it before any client
     is created or any actor is called.
   - It then builds the actor's request body from the two arguments and a set of
     constant flags.
   - It then appends the dataset's items one by one to `res["data"]`.

   The Apify client is abstracted away. The backend's answer is a parameter: either an
   error, or a dataset id with the items it yields in order. Every observable step goes
   into an effect trace that the method returns: client created, actor called, dataset
   read, result file written. `_run` is the same scrape and never writes a file.
   `InvokeWithSchema` puts the schema in front of `_run`, as the agent framework does
   when it calls the tool.
3. **Runner selection and fallback** (`research.dfy`). `run_search_query_agent` works
   in four steps:
   - It parses the crew's terminal output. A string goes through `json.loads`, a dict
     is used as it is, and anything else is ignored.
   - If the result is a dict holding `results`, it returns that dict.
   - Otherwise it builds a fresh dict. It copies in the parsed keys, then scans the
     crew's artifacts in iteration order and takes `hashtags` from the first one that
     offers it, never overwriting.
   - If that dict is still empty, it returns the fixed error record
     `{"error": "Could not parse crew output"}`.

   `json.loads` is a parameter, a total function `string -> Option<map<string, Value>>`,
   where `None` stands for a parse error. The artifacts are a sequence of (key, value)
   pairs, so their iteration order is explicit. Topic joining (`", ".join`) and the
   command line's topic parsing are modelled as well. For topics the command line
   produces (non-empty, trimmed, comma-free), parsing the joined topics gives back the
   topics.

`wrappers.dfy` holds `Option` and `Result`, and `json.dfy` holds the JSON value type.
`pytext.dfy` models the Python `str` operations the core uses, with Python's own
semantics:
- `strip()` removes exactly the characters for which `str.isspace()` holds;
- `lstrip("#")`;
- `split(",")`, where the empty string gives `[""]`;
- `sep.join(parts)`.

Normalisation is easily read as "blank hashtags removed, `#` stripped". The code does
not behave that way in the two cases above, and the model follows the code:
it proves that those cases keep `""` and `" cats"`. It does not state that the output
is blank-free or that normalisation is idempotent.

## Model

| member | source | states |
|---|---|---|
| ScrapeTool.NormalizeHashtags | src/tools/tiktok_scrape_tool.py:24-31 | fails exactly when the argument is neither a string nor a list, with the "must be a list or comma-separated string" error; on success no element starts with `#` |
| ScrapeTool.NormalizeList | src/tools/tiktok_scrape_tool.py:29-30 | the list pass yields at most as many elements as it is given, none starting with `#` |
| ScrapeTool.NormalizeListIsStripOfTokens | src/tools/tiktok_scrape_tool.py:30 | one output per non-blank element, in order: element i of the output is the i-th trimmed non-blank element with its leading `#` removed |
| ScrapeTool.NormalizeListAppend | src/tools/tiktok_scrape_tool.py:30 | the list pass distributes over concatenation, so the input order is kept |
| ScrapeTool.NormalizeListEmpty | src/tools/tiktok_scrape_tool.py:30 | the output is empty exactly when every element trims to nothing |
| ScrapeTool.NormalizeListOfCleanTokens | src/tools/tiktok_scrape_tool.py:27-30 | trimming and dropping blanks before the list pass changes nothing, so the string path equals the list pass over the raw split |
| ScrapeTool.HashOnlyTokenBecomesEmpty | src/tools/tiktok_scrape_tool.py:28-30 | a comma-free token that trims to `#` characters only yields the single empty hashtag `""` |
| ScrapeTool.SpaceAfterHashIsKept | src/tools/tiktok_scrape_tool.py:28-30 | `"# " + w`, for a trimmed, comma-free, non-blank `w`, yields `" " + w`: the space after the `#` survives |
| ScrapeTool.NormalizeNotIdempotent | src/tools/tiktok_scrape_tool.py:30 | a second normalisation pass trims the space the first exposed, so the two passes differ |
| ScrapeTool.ResultsPerPage | src/tools/tiktok_scrape_tool.py:20-22 | accepted exactly when omitted or within 1..50; the default is 10; an accepted value passes unchanged; a rejected value is reported |
| ScrapeTool.ValidateScrapeInput | src/tools/tiktok_scrape_tool.py:14-31 | validation succeeds exactly when both fields are valid, giving the normalised hashtags and the given page size, or 10 when omitted (so within 1..50); on failure exactly one error per failing field comes back, in field order: the hashtags error, first, exactly when the hashtags argument is neither a string nor a list, and the page-size error, naming the given value, exactly when the page size is out of range |
| ScrapeTool.OutOfRangePageSizeIsRejected | src/tools/tiktok_scrape_tool.py:20-22 | a page size below 1 or above 50 fails validation, and the error names that value |
| ScrapeTool.BuildRunInput | src/tools/tiktok_scrape_tool.py:58-74 | the request body carries `hashtags` and `resultsPerPage` unchanged from the arguments |
| ScrapeTool.RunInputFlagsAreConstant | src/tools/tiktok_scrape_tool.py:58-74 | two request bodies differ only in `hashtags` and `resultsPerPage`; every other field is a constant |
| ScrapeTool.ScrapeHashtags | src/tools/tiktok_scrape_tool.py:34-88 | without a token it fails with no effects. An actor error fails after the client is created and the actor called. A finished run returns `{"data": items}` with the items in dataset order, and the trace is client, call, dataset read and, only when requested, the result file |
| ScrapeTool.MissingTokenHasNoEffects | src/tools/tiktok_scrape_tool.py:48-55 | an absent or empty token fails before any client is created or actor called |
| ScrapeTool.ScrapeReturnsAllItems | src/tools/tiktok_scrape_tool.py:80-82 | a successful scrape returns exactly the dataset's items under the single key `data`, with the same count |
| ScrapeTool.NoFileUnlessRequested | src/tools/tiktok_scrape_tool.py:84-86 | when `write_to_file` is false, no result file is written |
| ScrapeTool.RunTool | src/tools/tiktok_scrape_tool.py:101-106 | `_run` is the scrape with `write_to_file=False` and never writes a file |
| ScrapeTool.InvokeWithSchema | src/tools/tiktok_scrape_tool.py:99-106 | invalid arguments fail with their field errors and no effects; valid ones run `_run` on the validated values |
| ScrapeTool.CliHashtags | src/tools/tiktok_scrape_tool.py:147 | the command line's list has no element starting with `#`, and it equals what the validator gives for the same text |
| ScrapeTool.CliParseHashtags | src/tools/tiktok_scrape_tool.py:147-150 | fails with "--hashtags must contain at least one value" exactly when every comma-separated piece is blank; otherwise a non-empty list equal to the validator's |
| PyText.Strip | src/tools/tiktok_scrape_tool.py:28 | `str.strip()`: the result begins and ends with a non-whitespace character, or is empty |
| PyText.StripBounds | src/tools/tiktok_scrape_tool.py:28 | `strip()` returns the slice of the text between a whitespace-only prefix and a whitespace-only suffix; together with `Strip`'s ends-not-whitespace clause this pins it to the text with its leading and trailing whitespace removed. It is empty exactly when the text is all whitespace |
| PyText.StripIdempotent | src/tools/tiktok_scrape_tool.py:28-30 | stripping twice is the same as stripping once |
| PyText.LStripHash | src/tools/tiktok_scrape_tool.py:30 | `lstrip("#")`: the result is no longer than its input and does not start with `#` |
| PyText.LStripHashRemovesOnlyHashes | src/tools/tiktok_scrape_tool.py:30 | `lstrip("#")` removes a prefix of `#` characters and keeps the rest of the text intact |
| PyText.Split | src/tools/tiktok_scrape_tool.py:28 | `split(",")` gives at least one piece and no piece contains the separator |
| PyText.JoinSplit | src/tools/tiktok_scrape_tool.py:28 | joining the pieces of a split with the separator gives back the text |
| PyText.SplitJoin | src/tools/tiktok_scrape_tool.py:28 | the inverse of `JoinSplit` for `split(",")`: splitting the one-character-separator join of one or more separator-free pieces gives back the pieces |
| PyText.CleanTokens | src/tools/tiktok_scrape_tool.py:28 | the comprehension `[x.strip() for x in xs if x.strip()]` keeps at most as many elements as it is given, each non-empty and trimmed |
| PyText.CleanTokensAppend | src/tools/tiktok_scrape_tool.py:28 | the comprehension distributes over concatenation, so order is kept |
| PyText.CleanTokensOfClean | src/tools/tiktok_scrape_tool.py:28 | elements that are already trimmed and non-blank pass through unchanged |
| Research.ParseTopics | src/workflows/tiktok_research.py:191 | every parsed topic is non-empty, trimmed and free of commas |
| Research.SplitJoinedTopics | src/workflows/tiktok_research.py:37 | splitting the `", "`-joined topics on `,` gives the first topic, then each later topic preceded by one space |
| Research.TopicsRoundTrip | src/workflows/tiktok_research.py:191 | parsing the `", "`-joined well-formed topics gives back exactly the topics, in order |
| Research.ParseJoinParse | src/workflows/tiktok_research.py:191 | re-parsing the joined parse of any text gives the same topics |
| Research.Gather | src/workflows/tiktok_research.py:153-161 | the fallback dict keeps every parsed pair and adds at most `hashtags`. It adds the found value only when the parsed dict has none, and adds nothing when nothing was found |
| Research.RunnerResult | src/workflows/tiktok_research.py:139-164 | the runner's selection and fallback: the terminal output is first turned into `parsed` by `ParseTerminal` (a string is parsed, a dict taken as it is, anything else gives nothing); the result is never an empty dict |
| Research.ScanArtifacts | src/workflows/tiktok_research.py:156-161 | the artifact loop leaves the dict it started from, plus the `hashtags` of the first artifact that offers any, unless `hashtags` was already there |
| Research.RunSearchQuery | src/workflows/tiktok_research.py:139-164 | the runner's imperative body returns the result the selection-and-fallback definition prescribes, and never an empty dict |
| Research.ParsedTextWithResultsIsReturned | src/workflows/tiktok_research.py:139-164 | a terminal string that parses to a dict holding `results` is returned unchanged |
| Research.DictWithResultsIsReturned | src/workflows/tiktok_research.py:139-164 | a terminal dict holding `results` is returned unchanged |
| Research.UnparsedTerminalFallsBack | src/workflows/tiktok_research.py:139-162 | with nothing, or only an empty dict, parsed (the `not parsed` test), the result is the first offered `hashtags` alone, or the error record when no artifact offers any |
| Research.FallbackKeepsParsed | src/workflows/tiktok_research.py:153-161 | on the fallback path the output contains every pair of a non-empty parsed dict, adds at most `hashtags`, adds it only when the parsed dict has none, taking the first artifact's offer, and returns the parsed dict unchanged when no artifact offers any |
| Research.MissingArtifactsContributeNothing | src/workflows/tiktok_research.py:148-156 | a missing or non-dict artifacts container gives the same result as an empty one |
| Research.ErrorRecordOnlyWhenNothingGathered | src/workflows/tiktok_research.py:162 | the error record is returned when nothing was parsed or offered, and only then, unless the terminal output was that very record |
| Research.FirstHashtagsWitness | src/workflows/tiktok_research.py:157-161 | the `hashtags` found come from some artifact, and no earlier artifact offers any; an artifact offers `hashtags` (`HashtagsOf`) when it is a string that parses to a dict holding `hashtags` |
| Research.FirstOfferIsTaken | src/workflows/tiktok_research.py:157-161 | the first artifact in iteration order that offers `hashtags` is the one taken |
| Research.LaterArtifactsNeverOverwrite | src/workflows/tiktok_research.py:160-161 | artifacts after the first offer do not change the `hashtags` taken |
| Research.NonStringArtifactIsSkipped | src/workflows/tiktok_research.py:158 | an artifact value that is not a string contributes nothing, wherever it stands |

## Left out

- ScrapeTool.NormalizeHashtags: list elements are taken to be strings. The `str(h)` conversion of non-string elements is not modelled, because it would need Python's string conversion of arbitrary objects.
- The pydantic framework itself is not modelled. This includes the "field required" error for a missing `hashtags` and the coercion of `results_per_page` from other types. Only the validator and the numeric bound are modelled.
- The Apify client, the actor run and dataset pagination are network I/O. They are modelled as a given `ActorReply`, so a failure partway through the dataset iteration is not modelled.
- The content and formatting of `result.json` (`json.dump` with indentation) are left out. Writing it is recorded only as an effect in the trace.
- Reading `APIFY_API_TOKEN` from the environment becomes a parameter. `load_dotenv`, the command line's `--apify-token` override, argparse, stderr printing and `sys.exit` are process plumbing (src/tools/tiktok_scrape_tool.py:109-159 and src/workflows/tiktok_research.py:167-195). They are left out; only the two list parses and the empty-hashtag error are modelled.
- `json.loads` is a parameter. JSON results that are not dicts (lists, scalars) are outside the parser's type, because the `in` checks on them depend on Python's semantics for those types. JSON floating-point numbers are not modelled.
- `create_search_query_crew` (src/workflows/tiktok_research.py:13-112) is left out apart from its topic join. That covers the agent and task configuration, the prompt texts and the LLM client. `crew.kickoff()` is a call into the agent framework and the LLM, so its result is a parameter. The rules the prompts give the LLM (how many hashtags, the top videos, the summaries) are not enforced by any code.
- src/agents/tiktok_researcher.py is not part of this model: it holds agent configuration only.
- Printing the runner's result as JSON is output formatting and is left out.
- ScrapeTool.ScrapeHashtags and ScrapeTool.RunTool take every argument explicitly: the defaults `results_per_page=10` and `write_to_file=False` of `tiktok_scrape_tool` (src/tools/tiktok_scrape_tool.py:35) and `results_per_page=10` of `_run` (line 102) are not modelled, nor are `_run`'s ignored extra keyword arguments. Every caller in the source passes these arguments explicitly, and `InvokeWithSchema` gets the default page size from the schema.
