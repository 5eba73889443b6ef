# deep-research-py in Dafny

A Dafny model of the core of deep-research-py, a recursive "deep research" pipeline. It has three parts.

- **The research scheduler** (`deep_research_py/deep_research.py`).
  - It asks a language model to plan search queries, then searches each query.
  - It asks the model for learnings and follow-up questions about the results.
  - It recurses with a decayed breadth and one less depth.
  - It merges the branches' learnings and visited URLs without duplicates.
  - It appends a sources section to the final report.
- **The model clients** (`deep_research_py/llm_query.py`).
  - The Gemini client keeps a model cursor across calls.
  - On a raise it moves the cursor one model forward, cyclically, and retries, at most three attempts per call.
  - It strips Markdown code fences from the reply and decodes it as JSON.
  - The Ollama client makes one chat call and decodes the reply the same way.
- **The search front end** (`deep_research_py/data_acquisition/services.py`).
  - `SearchService` fixes its backend at construction and sets its scraping manager up lazily.
  - It turns every answer into the Firecrawl response format `{"data": [...]}`.
  - The Firecrawl wrapper normalises the SDK's answers into the same format.

Files:

- `wrappers.dfy`: `Option` and `Result`.
- `seqs.dfy`: small facts about sequence concatenation.
- `text.dfy`: the Python string operations the core uses: `strip`, `replace`, `" ".join` and `str(int)`.
  - It also defines `Split`, the inverse of joining with a separator, which is used to read the sources section back.
- `json.dfy`: Python values as `json.loads` returns them, their truthiness, dict subscripts, and the exceptions the core raises.
- `llm_query.dfy`: fence stripping, the Ollama client and the Gemini client.
  - The Gemini client is a class whose `modelIdx` field the query methods update.
  - `Failover` is the function that specifies them: the replies, the requests sent and the final cursor.
- `services.dfy`: the Firecrawl normalisation and the manager's response formatting.
  - `SearchService` is a class whose `initialized` flag the lifecycle methods update.
  - A ghost `log` records its setup and teardown calls.
- `deep_research.dfy`: query planning, learning extraction, the mutually recursive scheduler and the report's sources section.

The language model, the search backend, `trim_prompt` and `json.loads` are function-typed parameters.

- The scheduler's oracles are told which call in the research tree they answer (a `Site` or a `Path`). Two calls with equal arguments may therefore get different answers.
- Prompts reach the model in a structured form (`Prompt`). `Render` writes their exact text from the string constants in `deep_research.dfy`: `PlanPrompt` gives a planning prompt and `LearnPrompt` a learning one.
- The query of a deeper call is a `Topic`. `TopicText` writes it with `NextQuery`.

`Research` returns the call tree's shape (`Trace`) beside the learnings and URLs. This lets the nesting bound and the breadth decay be stated.

`FreshClientAllFail` (`llm_query.dfy`), and `SetupOnce` and `FirecrawlNeverSetsUp` (`services.dfy`), are scenario methods. They give no guarantee of their own (no `ensures`), but their asserts verify. They check:

- the three-failure run on a fresh Gemini client, and where the next call starts;
- the manager's setup, teardown and setup again;
- that a Firecrawl-backed service never touches a manager.

## Model

| member | source | states |
|---|---|---|
| DeepResearch.PyPrefix | deep_research_py/deep_research.py:73 | `xs[:n]` is a prefix of `xs`; its length is `min(n, len)` for `n >= 0`, and `len + n` (at least 0) for negative `n` |
| DeepResearch.Dedup | deep_research_py/deep_research.py:308-312 | `list(set(xs))` has no duplicates and holds exactly the elements of `xs` |
| DeepResearch.PlanBaseOpens | deep_research_py/deep_research.py:40 | the planning prompt opens with its fixed instructions, whatever the query and the number of queries |
| DeepResearch.PlanBaseCloses | deep_research_py/deep_research.py:40 | the planning prompt without learnings closes with the query inside its `<prompt>` tag |
| DeepResearch.PlanPrompt | deep_research_py/deep_research.py:40-43 | the planning prompt extends the base prompt. It is the base prompt iff there are no prior learnings |
| DeepResearch.WithLearnings | deep_research_py/deep_research.py:40-43 | the planning prompt starts with the base prompt. With no learnings it is the base prompt. Otherwise the note and the space-joined learnings follow the base |
| DeepResearch.QueryItems | deep_research_py/deep_research.py:65-72 | iterating `queries`: a list yields its elements; an empty dict or an empty string yields nothing; every other value raises, a non-empty string or dict at its first `q["query"]` |
| DeepResearch.SerpItem | deep_research_py/deep_research.py:65-72 | a kept item has a non-empty query and research goal |
| DeepResearch.SerpItemReads | deep_research_py/deep_research.py:66-71 | covers five points: `query` is always read; `research_goal` only when `query` is truthy; a falsy `query` drops the item whatever `research_goal` is; the item is kept iff both are truthy, carrying exactly their values; a dict without `query` raises KeyError |
| DeepResearch.FilterQueries | deep_research_py/deep_research.py:65-72 | the filtered list is no longer than the reply's list, and every kept query has both fields non-empty |
| DeepResearch.FilterQueriesOkIff | deep_research_py/deep_research.py:65-72 | the comprehension raises iff some item raises |
| DeepResearch.FilterQueriesAppend | deep_research_py/deep_research.py:65-72 | filtering works item by item and keeps provider order: filtering `a + b` is filtering `a`, then `b` |
| DeepResearch.FilterQueriesSound | deep_research_py/deep_research.py:65-72 | every kept query is the reading of some item of the reply (nothing invented) |
| DeepResearch.FilterQueriesOne | deep_research_py/deep_research.py:65-72 | a single item is kept iff both fields are truthy |
| DeepResearch.PlannedItems | deep_research_py/deep_research.py:59-63 | model errors propagate; a reply without `queries` raises KeyError; once `reply["queries"]` is read, the items are exactly what iterating it yields (`QueryItems`) |
| DeepResearch.GenerateSerpQueries | deep_research_py/deep_research.py:31-73 | the call succeeds iff planning and filtering succeed, and then the result is the filtered planned items cut to `num_queries`. It is never longer than `num_queries` and never padded, and every query has both fields non-empty |
| DeepResearch.HasContent | deep_research_py/deep_research.py:89 | `item.get("content")` is truthy iff the result has a `content` key whose string is non-empty |
| DeepResearch.Contents | deep_research_py/deep_research.py:86-90 | one trimmed content per result at most |
| DeepResearch.ContentsSkip | deep_research_py/deep_research.py:86-90 | a result without content contributes nothing wherever it stands |
| DeepResearch.ContentsAppend | deep_research_py/deep_research.py:86-90 | the contents of `a + b` are those of `a` followed by those of `b` (order kept) |
| DeepResearch.ContentsSound | deep_research_py/deep_research.py:86-90 | every content in the prompt is the content, trimmed to 25000, of some result that has content |
| DeepResearch.ContentsOne | deep_research_py/deep_research.py:86-90 | a single result contributes its content trimmed to 25000 iff its content is non-empty |
| DeepResearch.ContentsBlock | deep_research_py/deep_research.py:93 | the block is empty iff there are no contents, and each content adds at least 21 characters |
| DeepResearch.ContentsBlockOne | deep_research_py/deep_research.py:93 | a single content becomes `<content>`, a line break, the content, a line break and `</content>`; with `ContentsBlockAppend` this fixes the whole block |
| DeepResearch.ContentsBlockAppend | deep_research_py/deep_research.py:93 | the block of two lists of contents is the block of the first followed by the block of the second |
| DeepResearch.LearnPromptOpens | deep_research_py/deep_research.py:95-96 | the learning prompt opens with its fixed instructions and the query inside its `<query>` tag |
| DeepResearch.LearnPromptCloses | deep_research_py/deep_research.py:95-102 | the learning prompt closes with the block of contents and the closing `</contents>` tag |
| DeepResearch.LearnQuestion | deep_research_py/deep_research.py:86-102 | the learning request carries the query and both counts unchanged, and its contents are exactly the trimmed non-empty contents of the results (`Contents`) |
| DeepResearch.LearnQuestionSkipsEmpty | deep_research_py/deep_research.py:86-102 | the learning prompt is unchanged by results that have no content |
| DeepResearch.StringPrefix | deep_research_py/deep_research.py:122-127 | `response[key][:n]` succeeds only on a dict holding a list under `key`, and always does when the slice holds only strings. The result has the slice's length and is, element by element, the list's strings. A missing key raises KeyError |
| DeepResearch.Chars | deep_research_py/deep_research.py:291 | iterating a string yields its characters, one one-character string each, in order |
| DeepResearch.TextPrefix | deep_research_py/deep_research.py:124-126 | a string under `key` slices to its first `n` characters and always succeeds; any other value reads as `StringPrefix` reads it |
| DeepResearch.TextFollowUps | deep_research_py/deep_research.py:124-126 | a reply whose follow-up questions are the string `"Q?"`, cut to one, yields the one question `"Q"` |
| DeepResearch.ProcessSerpResult | deep_research_py/deep_research.py:77-127 | the call succeeds iff the model answers and both readings succeed. The learnings and follow-up questions are then `response["learnings"][:num_learnings]` and `response["followUpQuestions"][:num_follow_up_questions]` of the model's reply to the learning prompt; follow-up questions given as one string are its characters |
| DeepResearch.NewUrls | deep_research_py/deep_research.py:264-266 | new URLs are all non-empty, one per result at most |
| DeepResearch.NewUrlsSound | deep_research_py/deep_research.py:264-266 | every collected URL is the `url` of some result (nothing invented) |
| DeepResearch.NewUrlsOne | deep_research_py/deep_research.py:264-266 | a single result contributes its URL iff it has a non-empty one |
| DeepResearch.NewUrlsComplete | deep_research_py/deep_research.py:264-266 | every result's non-empty URL is collected |
| DeepResearch.NewUrlsAppend | deep_research_py/deep_research.py:264-266 | URLs are collected in result order: those of `a + b` are those of `a`, then `b` |
| DeepResearch.Decay | deep_research_py/deep_research.py:269 | `max(1, breadth // 2)` is at least 1, never above the breadth when the breadth is at least 1, and at most half the breadth when the breadth is at least 2 |
| DeepResearch.DecayHalves | deep_research_py/deep_research.py:269 | for a breadth of at least 2 the halved breadth is floor division: `breadth <= 2 * Decay(breadth) + 1`, together with `2 * Decay(breadth) <= breadth` |
| DeepResearch.DecayFromFour | deep_research_py/deep_research.py:269 | a breadth of 4 goes to 2, then to 1, and a breadth of 1 stays at 1 |
| DeepResearch.NextQuery | deep_research_py/deep_research.py:289-292 | the follow-up query has no leading or trailing whitespace; its text is fixed by `NextQueryText`, `NextQueryCarriesGoal` and `NextQueryDirections` |
| DeepResearch.NextQueryText | deep_research_py/deep_research.py:289-292 | `.strip()` removes only the line break and indent before the goal line, so the query is the goal head followed by the right-stripped rest: a space, the joined questions, the closing line break |
| DeepResearch.NextQueryCarriesGoal | deep_research_py/deep_research.py:289-292 | the query opens with "Previous research goal: ", the goal, a line break, the twelve-space indent and "Follow-up research directions:" |
| DeepResearch.NextQueryDirections | deep_research_py/deep_research.py:289-292 | when the space-joined follow-up questions are non-empty and trimmed, the query is exactly the goal head, one space and the joined questions |
| DeepResearch.NextQueryHeadEdges | deep_research_py/deep_research.py:289-292 | the goal head is non-empty and neither starts nor ends with whitespace, whatever the goal |
| DeepResearch.BreakIsSpace | deep_research_py/deep_research.py:289-292 | the line break and indent between the lines of the template are all whitespace |
| DeepResearch.HeightBound | deep_research_py/deep_research.py:284-302 | a well-formed call tree nests no deeper than `max(depth, 1)` calls |
| DeepResearch.MaxHeightBound | deep_research_py/deep_research.py:284-302 | sibling calls at depth `d` nest no deeper than `max(d, 1)` |
| DeepResearch.AllLearnings | deep_research_py/deep_research.py:308-310 | a learning is in the flattened list iff some branch returned it |
| DeepResearch.AllUrls | deep_research_py/deep_research.py:312 | a URL is in the flattened list iff some branch returned it |
| DeepResearch.Research | deep_research_py/deep_research.py:231-314 | covers four points: the call succeeds once planning and every branch succeed; the merged learnings and URLs have no duplicates; they are exactly those of the branches processed for the planned queries; the call tree is well formed (deeper calls only below depth 2, with the decayed breadth and one less depth, no more than `breadth` of them) |
| DeepResearch.ProcessAll | deep_research_py/deep_research.py:306 | one branch per planned query, in order, each the outcome of `process_query` on that query; it succeeds once every query's branch succeeds |
| DeepResearch.ProcessQuery | deep_research_py/deep_research.py:259-304 | a branch succeeds iff the search, the extraction and, when `depth > 1`, the deeper call succeed. It recurses iff `depth > 1`, and its deeper call has the decayed breadth and one less depth and is well formed |
| DeepResearch.ShallowCallsDoNotRecurse | deep_research_py/deep_research.py:284 | a call entered with depth at most 1 makes no deeper call |
| DeepResearch.ResearchNesting | deep_research_py/deep_research.py:284-302 | the recursion under a call of depth `d >= 1` nests at most `d` calls deep |
| DeepResearch.TerminalBranch | deep_research_py/deep_research.py:280-304 | a branch below depth 2 returns the parent's learnings followed by the extracted ones, and the parent's URLs followed by the new URLs |
| DeepResearch.TerminalBranchExtends | deep_research_py/deep_research.py:280-281 | such a branch keeps the parent's learnings and URLs as prefixes and adds only non-empty URLs |
| DeepResearch.DeepBranch | deep_research_py/deep_research.py:284-302 | a branch at depth 2 or more returns the recursive call on the follow-up query, with the decayed breadth, one less depth and the extended learnings and URLs |
| DeepResearch.SourceLines | deep_research_py/deep_research.py:222 | one `- url` line per visited URL, in order |
| DeepResearch.SourcesSection | deep_research_py/deep_research.py:221-223 | the section starts with the `## Sources` heading and is only the heading when there are no URLs |
| DeepResearch.SourceLinesUnbroken | deep_research_py/deep_research.py:222 | a bullet line holds no line break when its URL holds none |
| DeepResearch.SourcesSectionLines | deep_research_py/deep_research.py:221-223 | splitting the section after its heading at line breaks gives back exactly the bullet lines |
| DeepResearch.WriteFinalReport | deep_research_py/deep_research.py:211-224 | the report is the reply's `reportMarkdown` (`""` when absent) followed by the sources section; a reply that is not a dict, or whose `reportMarkdown` is not a string, raises; an error from the model propagates |
| DeepResearch.ReportIgnoresLearnings | deep_research_py/deep_research.py:211-224 | the report does not depend on the learnings passed in |
| JsonValues.Truthy | deep_research_py/deep_research.py:71 | exactly `None`, `False`, `0`, `""`, `[]` and `{}` are falsy |
| JsonValues.Subscript | deep_research_py/deep_research.py:67 | `v[key]` succeeds iff `v` is a dict with `key`, giving its value; a dict without it raises KeyError |
| JsonValues.StringItems | deep_research_py/deep_research.py:123-126 | a list reads as a list of strings iff all its elements are strings, element by element |
| JsonValues.Get | deep_research_py/deep_research.py:218 | `d.get(key, default)` is the value under `key` when the dict has it and the default otherwise; `getattr` with a default reads an SDK object's attribute map the same way |
| Text.StripLeft | deep_research_py/llm_query.py:57 | the result is a suffix of the input with only whitespace removed, and does not start with whitespace |
| Text.StripRight | deep_research_py/llm_query.py:57 | the result is a prefix of the input with only whitespace removed, and does not end with whitespace |
| Text.Strip | deep_research_py/llm_query.py:57 | `str.strip()` leaves no leading or trailing whitespace and never lengthens |
| Text.StripTrimmed | deep_research_py/llm_query.py:57 | stripping a stripped string changes nothing |
| Text.StripLeftPast | deep_research_py/deep_research.py:289-292 | `lstrip` removes a whitespace prefix and stops at the first non-whitespace character |
| Text.StripRightPast | deep_research_py/deep_research.py:289-292 | `rstrip` of a text after a part that ends in non-whitespace keeps that part whole and strips only the text |
| Text.StripRightStep | deep_research_py/llm_query.py:57 | `rstrip` drops a trailing whitespace character and goes on with the rest |
| Text.StripRightStops | deep_research_py/llm_query.py:57 | `rstrip` of a string that does not end in whitespace is the string itself |
| Text.StripAround | deep_research_py/deep_research.py:289-292 | `strip` of whitespace, then a part with non-whitespace at both ends, then a tail, is the part followed by the right-stripped tail |
| Text.StripRightSpace | deep_research_py/deep_research.py:289-292 | `rstrip` of a whitespace-only string is empty |
| Text.ReplaceAll | deep_research_py/llm_query.py:57 | replacing by a replacement no longer than the pattern never lengthens; a string shorter than the pattern is unchanged |
| Text.ReplaceSplit | deep_research_py/llm_query.py:57 | replacing in a text whose first `i` characters start no occurrence keeps those characters and replaces in the rest |
| Text.ReplaceBefore | deep_research_py/llm_query.py:57 | a text in which no occurrence starts is kept as it is, and the replacing goes on after it |
| Text.ReplaceFirst | deep_research_py/llm_query.py:57 | at the first occurrence of the pattern, the result is the text before it, then the replacement, then the replaced rest |
| Text.ReplaceAtStart | deep_research_py/llm_query.py:57 | a string that opens with the pattern gets the replacement in its place |
| Text.ReplacePastStart | deep_research_py/llm_query.py:57 | a string that does not open with the pattern keeps its first character |
| Text.ReplaceLeading | deep_research_py/llm_query.py:57 | a pattern that occurs only at the front of a string is replaced there and nowhere else |
| Text.ReplaceTrailing | deep_research_py/llm_query.py:57 | a pattern that occurs only at the end of a string is replaced there and nowhere else |
| Text.ReplaceAbsent | deep_research_py/llm_query.py:57 | `replace` leaves a string without the pattern unchanged |
| Text.Join | deep_research_py/deep_research.py:43 | joining one string gives it back; joining none gives "" |
| Text.Split | deep_research_py/deep_research.py:221-223 | splitting gives at least one piece |
| Text.SplitNoSeparator | deep_research_py/deep_research.py:221-223 | a string without the separator splits into itself |
| Text.SplitAtFirst | deep_research_py/deep_research.py:221-223 | splitting at the first separator gives the text before it, then the split of the rest |
| Text.SplitJoin | deep_research_py/deep_research.py:221-223 | joining pieces without the separator and splitting again gives the pieces back |
| Text.NatToString | deep_research_py/deep_research.py:40 | `str(n)` is a non-empty string of decimal digits whose value is `n`, with no leading zero unless `n` is 0 |
| Text.IntToString | deep_research_py/deep_research.py:40 | `str(n)` is the digits of `n` for `n >= 0`, and a minus sign before the digits of `-n` otherwise |
| LlmQuery.StripFences | deep_research_py/llm_query.py:57 | the stripped reply holds no code fence and has no leading or trailing whitespace |
| LlmQuery.StripKeepsFenceFree | deep_research_py/llm_query.py:57 | stripping whitespace cannot create a fence |
| LlmQuery.OccursFence | deep_research_py/llm_query.py:57 | an occurrence of "```json" is an occurrence of a fence |
| LlmQuery.FenceFreeInfix | deep_research_py/llm_query.py:57 | a slice of a fence-free string is fence free |
| LlmQuery.RemovingKeepsNoLeadingTick | deep_research_py/llm_query.py:57 | removing fences from a string that does not start with a backtick leaves one that does not |
| LlmQuery.RemovingKeepsNoLeadingPair | deep_research_py/llm_query.py:57 | removing fences from a string that does not start with two backticks leaves one that does not |
| LlmQuery.RemovingFencesLeavesNone | deep_research_py/llm_query.py:57 | `replace("```", "")` leaves no fence, though removing one can join two halves |
| LlmQuery.StripFencesFixpoint | deep_research_py/llm_query.py:57 | a stripped, fence-free reply passes through unchanged |
| LlmQuery.StripFencesIdempotent | deep_research_py/llm_query.py:57 | cleaning a reply twice is cleaning it once |
| LlmQuery.NoFenceBefore | deep_research_py/llm_query.py:57 | no fence starts inside a fence-free text that does not end with a backtick, even with the closing fence after it |
| LlmQuery.DropOpeningFence | deep_research_py/llm_query.py:57 | the first `replace` removes the opening "```json" of a fenced reply and keeps the rest |
| LlmQuery.DropClosingFence | deep_research_py/llm_query.py:57 | the second `replace` removes the closing "```" and keeps the text before it |
| LlmQuery.StripFencesPayload | deep_research_py/llm_query.py:57 | the text between "```json" and "```" is kept: a fence-free payload not ending with a backtick comes out stripped, and nothing else is removed |
| LlmQuery.StripFencesExample | deep_research_py/llm_query.py:57 | the reply "```json", line break, `{}`, line break, "```" cleans to `{}` |
| LlmQuery.SystemGiven | deep_research_py/llm_query.py:35 | a system prompt is sent iff one is given and it is truthy |
| LlmQuery.MakeRequest | deep_research_py/llm_query.py:32-47 | a request goes to the model at the cursor; its contents are the user prompt followed by one newline; it carries a system instruction iff a truthy system prompt is given, and then that prompt |
| LlmQuery.Decode | deep_research_py/llm_query.py:59-64 | decoding succeeds iff `json.loads` does, with its value; otherwise JSONDecodeError is re-raised |
| LlmQuery.Ollama.Messages | deep_research_py/llm_query.py:108-112 | the system message comes first and only when a truthy system prompt is given; the user message is last |
| LlmQuery.Ollama.QueryJson | deep_research_py/llm_query.py:107-126 | the call succeeds iff the chat answers and its fence-stripped content parses, and then the result is that parsed value; a raising chat raises; otherwise decoding fails |
| LlmQuery.OllamaSingleCall | deep_research_py/llm_query.py:114 | the result depends only on the one chat call made with this model and these messages |
| LlmQuery.Advance | deep_research_py/llm_query.py:49 | the advanced cursor is a valid model index |
| LlmQuery.Rotated | deep_research_py/llm_query.py:49 | a cursor advanced any number of times is a valid model index |
| LlmQuery.RotateStep | deep_research_py/llm_query.py:49 | advancing once, then `i - 1` times, is advancing `i` times |
| LlmQuery.RotatedZero | deep_research_py/llm_query.py:49 | advancing zero times leaves the cursor |
| LlmQuery.Failover | deep_research_py/llm_query.py:32-55 | a call from attempt `k` sends between 1 and `3 - k` requests and leaves a valid cursor |
| LlmQuery.JsonOutcome | deep_research_py/llm_query.py:51-66 | the error re-raised after the last failed attempt is the outcome iff no attempt succeeded |
| LlmQuery.JsonOutcomeDecodes | deep_research_py/llm_query.py:57-66 | once an attempt succeeded, the result is the decoded fence-stripped text, and JSONDecodeError otherwise |
| LlmQuery.FailoverRotates | deep_research_py/llm_query.py:37-55 | the i-th request goes to the model `i` steps after the starting cursor, cyclically, with the same prompt and system instruction |
| LlmQuery.FailoverEnds | deep_research_py/llm_query.py:48-55 | every request but the last raised, and the last succeeded or was attempt 2. The cursor stays on a success and moves past a failure |
| LlmQuery.EndedAfterFailure | deep_research_py/llm_query.py:48-55 | a raise followed by a properly ended retry is a properly ended call |
| LlmQuery.FailoverGivesUpIff | deep_research_py/llm_query.py:48-55 | the call gives up iff all `3 - k` attempts raise on the rotated models; never a fourth request |
| LlmQuery.QueryOutcome | deep_research_py/llm_query.py:91-100 | `query` returns the raw reply when its first attempt succeeds; after a failure it returns what `query_json` returns on the retry |
| LlmQuery.QueryAfterFailure | deep_research_py/llm_query.py:91-98 | after a raise, `query` delegates to `query_json` from the next model and attempt |
| LlmQuery.QueryLastStep | deep_research_py/llm_query.py:77-100 | on a success or at attempt 2, `query` sends one request and returns the reply or re-raises |
| LlmQuery.Gemini.constructor | deep_research_py/llm_query.py:12-22 | a new client starts at model 0 |
| LlmQuery.Gemini.QueryJson | deep_research_py/llm_query.py:25-66 | the result, the requests sent and the new cursor are those of `Failover`, decoded by `JsonOutcome` |
| LlmQuery.Gemini.Query | deep_research_py/llm_query.py:68-100 | the result, the requests sent and the new cursor are those of `Failover`, read by `QueryOutcome` |
| Services.HitItem | deep_research_py/data_acquisition/services.py:83-92 | a formatted hit has exactly `url`, `title` and `content`; the content is the scraped text for a scraped URL and "" otherwise |
| Services.FormatHits | deep_research_py/data_acquisition/services.py:81-94 | one formatted item per hit, in order |
| Services.ManagerResponse | deep_research_py/data_acquisition/services.py:68-100 | any raise turns into `{"data": []}`; otherwise the data are the formatted hits, in order |
| Services.Or | deep_research_py/data_acquisition/services.py:140-143 | `a or b` is `a` when `a` is truthy and `b` otherwise |
| Services.ObjectItem | deep_research_py/data_acquisition/services.py:137-145 | a non-dict SDK item becomes a dict of exactly `url`, `content` (`markdown or content`) and `title`. The title is the `title` attribute when that is truthy, else `metadata.get("title", "")`. Normalising raises exactly when the title is falsy and `metadata` is not a dict |
| Services.NormalItem | deep_research_py/data_acquisition/services.py:132-145 | a dict item is kept as it is; any other object is normalised by `ObjectItem` |
| Services.FirecrawlResponse | deep_research_py/data_acquisition/services.py:113-156 | a dict holding `data` is returned as it is, and any other dict gives `{"data": []}`. A list gives its items normalised one by one, in order. An SDK raise, an answer of another type, or a raise while normalising gives `{"data": []}` |
| Services.FirecrawlSearch | deep_research_py/data_acquisition/services.py:109-156 | the search returns the normalisation of the SDK's answer to the query |
| Services.FirecrawlKeepsDicts | deep_research_py/data_acquisition/services.py:129-134 | a list of dicts passes through unchanged as the data |
| Services.SearchService.constructor | deep_research_py/data_acquisition/services.py:24-47 | the service type is the argument, else `DEFAULT_SCRAPER`, else `playwright_ddgs`; Firecrawl is used iff the type is `firecrawl`; nothing is set up yet |
| Services.SearchService.EnsureInitialized | deep_research_py/data_acquisition/services.py:49-53 | the manager is set up exactly when it exists and is not yet set up; `initialized` becomes true iff that setup completes |
| Services.SearchService.Cleanup | deep_research_py/data_acquisition/services.py:55-59 | the manager is torn down exactly when it exists and is set up; `initialized` becomes false iff that teardown completes |
| Services.SearchService.Search | deep_research_py/data_acquisition/services.py:61-100 | the lazy setup runs first and its raise is the only one that escapes. The answer is the Firecrawl normalisation or the manager's formatted response |

## Left out

- The language model, the search backend, `trim_prompt`, `json.loads` and the Gemini SDK's `generate_content` are parameters (oracles). Their behaviour is not modelled.
  - `DuckDuckGoService`, the search the scheduler actually uses, is not defined in `services.py`. It is not part of this model.
  - Its answer is a search oracle, and an error from it propagates.
- `prompt.py` (the system prompt, here the `system` parameter), `scraper.py`, `feedback_local.py` and `SearchAndScrapeManager` are not part of this model. The manager appears only through its answers.
- `get_predicted_facilities_local`, and the report prompt of `write_final_report_local` (lines 186-197), are not modelled.
  - That prompt is built from the learnings but never sent. The model sends `prompt` itself, as the code does.
- Concurrency (`async`, `run_in_executor`), `tqdm`, `print` and `logger` output are left out. So are the environment reads other than `DEFAULT_SCRAPER` (a constructor parameter) and the module-level `search_service` instance.
- Python dicts and lists are modelled as JSON values. JSON numbers are integers: floating point is not modelled.
- Search-result documents are dicts of strings.
- Firecrawl SDK objects are attribute maps. A scraped page without a `.text` attribute, and the unused `**kwargs` and `timeout`, are not modelled.
- `Gemini.query` returns the SDK's raw response object. The model returns the response's text in its place.
- A request records the model as its index in the model list (`GeminiModels`), not its name.
- The `JSONDecodeError` handler in `write_final_report_local` can never catch anything, so it is absent. The raising paths it does not catch are modelled as errors.
- `list(set(...))` has no fixed order in Python. `Dedup` keeps the first occurrence of each element: one possible order. `Research` states only the set and the absence of duplicates.
- Text.Strip: states that the result is trimmed and no longer, not that it is the input with its outer whitespace removed; `StripLeft` and `StripRight` state the prefix and suffix halves.
- LlmQuery.Gemini.QueryJson: requires `attemptIdx <= 2`. A larger starting index would never reach the give-up test and would retry without bound, and no caller passes one.
- LlmQuery.Gemini.Query: requires `attemptIdx <= 2`, for the same reason.
- DeepResearch.ProcessSerpResult: a learning or follow-up question that is not a string raises a `WrongType` error when it is read. Python would carry it along and fail later, or join it differently.
  - `learnings` given as one string is an error, as in Python, whose `learnings + ...` at line 280 raises on a list plus a string.
  - `followUpQuestions` given as one string is read as its characters, as Python's slice and `" ".join` read it.
- LlmQuery.Ollama.QueryJson: the `stream` argument is not modelled. Every caller passes the default `False`; with `True`, `chat` would return an iterator of chunks, and `response["message"]` would raise.
- LlmQuery.Gemini.QueryJson: a reply without text (the SDK's `.text` is `None`) is not modelled. There `.replace` raises AttributeError outside the `try`, so the call neither retries nor moves the cursor; a `GenReply` is either a raise or a text. `stream` is passed on to the retries but never used.
- LlmQuery.Gemini.Query: a first-attempt reply is returned whole, text or not. After a raise the call continues in `query_json`, where the missing-text reply is not modelled, as above.
- DeepResearch.SerpItem: a truthy `query` or `research_goal` that is not a string is a `WrongType` error here. Python would build the `SerpQuery` with it.
- DeepResearch.WriteFinalReport: a `reportMarkdown` that is not a string is a `WrongType` error. In Python the concatenation would fail too, with a different message.
- An item without a `query` key raises KeyError; it is not filtered out.
- New URLs are collected from the results' `url` field, whether or not a result has content.
- Gemini has four models in its list, and three attempts are made per call.
