# Chat AI agent backend: tool loop, dispatcher and bio store

This project is a Dafny model of the orchestration core of a portfolio chat backend. The backend is a FastAPI service: a `/chat` route forwards the visitor's message to a language model and lets the model call tools. The tools are a small JSON "bio" document kept on disk, and read-only GitHub queries.

The model covers:

- **`chat`** (`app/main.py`).
  - It rejects the request when no API key is configured.
  - It seeds the message list with the system rules, the history and the trimmed user text.
  - It then runs at most four hops. Each hop checks the clock, calls the model, and then either returns the stripped text or runs every requested tool call in order.
  - Each tool call appends an assistant/tool message pair.
  - It ends with 408 on timeout, 502 on a model error, 500 when a tool call's arguments do not decode, or 500 when the loop does not converge.
- **`execute_tool`** (`app/main.py`): the if-chain over the fourteen tool names.
  - It reads the arguments (`args.get`, `args[...]`) and applies the defaults: `update or {}`, `per_page or 30`, `get("state", "all")`.
  - Every exception becomes `{"error": str(e)}`, and an unknown name gives `{"error": "unknown tool <name>"}`.
- **The bio store** (`tools.py`):
  - `_read_json`: a missing file reads as `{}`;
  - `bio_get`: the whole document, or a projection on the requested keys;
  - `bio_set`: a shallow `dict.update` merge, written back, answered with `{ok, updated_keys}`.
- **The pure parts of the GitHub wrappers** (`tools.py`):
  - the `owner_repo.split("/", 1)` unpacking;
  - the search query with its optional `repo:` qualifier;
  - the conditional commit parameters;
  - the author filter over pull requests, with its `continue`/`append` loop.
- **`trim_user_text`** (`constraints.py`), with Python's `str.strip`.

## Modelling decisions

- JSON values after `json.loads` are the `Json.Json` datatype.
  - A Python dict is an association list, because insertion order is observable: it shows in `updated_keys` and in the order of request parameters.
  - `Put` is `d[k] = v` and `Update` is `d.update(u)`.
  - Decoded JSON objects have distinct keys, which is what the merge lemmas require of `u`.
- Exceptions are `Result.Fail(text)`, carrying the text `str(e)` would give. Modelled texts:
  - the `KeyError` of `args["k"]`: `'k'`;
  - the `AttributeError` of `.get`/`.split` on a non-dict or non-string;
  - the unpacking error of a split without a slash;
  - "not iterable" and "unhashable" errors.

  Values outside the tools' JSON schema, which Python would coerce or keep as non-string dict keys, make the model fail where Python succeeds. The cases are listed under "Left out".
- The `tools.py` shown defines no `analyze_my_contributions`, `fetch_website_content` or `get_professional_profile`. So `T.<name>` raises `AttributeError` before any argument is read, and `execute_tool` answers `{"error": "module 'tools' has no attribute '<name>'"}`. The model does exactly that: these three tools always fail.
- The GitHub HTTP layer and the tool executions behind it are one oracle: `gh: Request -> Result<Json>`.
  - `Request` holds exactly what is sent.
  - The oracle answers with the decoded response or the text of the exception raised.
  - Pull-request answers are then filtered by the modelled loop.
- The model, the clock and `json.loads` are fields of `Chat.Environment`:
  - `llm(hop, messages)` is the response to each hop;
  - `elapsed(hop)` is `time.time() - t0` read before hop `hop`;
  - `decode(text)` is `json.loads`, with `None` for a decode error;
  - also `hasClient`, `REQUEST_TIMEOUT_SECONDS` and the system rules text.
- The loop functions (`CallStep`, `DispatchTurn`, `HopStep`, `Hops`) take the tool executor as a parameter.
  - Their lemmas hold for every executor.
  - `ChatSpec` and `Chat.HandleChat` use `execute_tool`, i.e. `Dispatcher.Dispatch`, over the bio file.
- The state the source mutates is imperative here:
  - The bio file is the class `Tools.BioFile` (field `file`; `None` when the file does not exist).
  - `bio_set`, `execute_tool` and `chat` are methods that change it.
  - The `messages` list, the history copy, the tool-call loop, the commit parameter assignments and the pull-request loop are loops or assignments, each proved equal to a recursive function that defines it.
- A JSON decode error inside `chat` is not caught by `execute_tool`'s `try`, because decoding happens before the call. It escapes the route and FastAPI answers 500 "Internal Server Error". The tool calls already made in that hop keep their effects on the bio file.

`app/main.py` has no per-request tool-call budget, no argument-size ceiling, no history or token guards and no rate limiting, and its hop limit is four. The model has none of these either.

## Model

| member | source | states |
|---|---|---|
| Json.Or | app/main.py:270 | `a or b` is `a` when `a` is truthy and `b` otherwise |
| Json.Lookup | tools.py:40 | `d.get(k)` finds a value exactly when `k` is a key of `d` |
| Json.Put | tools.py:111-114 | `d[k] = v` keeps an existing key in place and appends a new one; `k` then maps to `v` and every other lookup is unchanged |
| Json.PutNew | tools.py:111-114 | assigning a key that is not present appends exactly that entry |
| Json.Update | tools.py:44 | `d.update(u)` as one `d[k] = v` per entry of `u`, in order; no contract of its own, its meaning is stated by the four `Update*` lemmas below |
| Json.UpdateLookup | tools.py:44 | after `d.update(u)` a key of `u` has `u`'s value and any other key keeps `d`'s |
| Json.UpdateKeys | tools.py:44 | `d.update(u)` removes no key, and the old keys keep their order ahead of the new ones |
| Json.UpdateKeySet | tools.py:44 | the keys after the update are exactly the keys of `d` and of `u` |
| Json.UpdateDistinct | tools.py:44 | an update never duplicates a key |
| Json.UpdateIdempotent | tools.py:44 | updating twice with the same object leaves what updating once left |
| Json.PyGet | app/main.py:268 | `args.get(k)` on an object is the value or null; on anything else it fails |
| Json.PyGetOr | app/main.py:296 | `args.get(k, default)` gives the default only for a missing key; a present null stays null |
| Json.PyIndex | app/main.py:274 | `args[k]` succeeds exactly for a key of an object, with its value; a missing key fails with the KeyError text `'k'` |
| Json.PyIter | tools.py:166 | `for x in j` visits the items of a list, the keys of a dict, the characters of a string, and fails on other types |
| Constraints.Strip | constraints.py:32 | the result is the input slice from the first to the last non-space character; it is empty exactly for all-space input |
| Constraints.StripIdempotent | constraints.py:32 | stripping twice equals stripping once |
| Constraints.PyPrefix | constraints.py:34 | `s[:m]` is the prefix of length `m` clamped to `s`, counted from the end for negative `m` |
| Constraints.TrimUserText | constraints.py:31-35 | a stripped text within the bound is returned as is; a longer one is cut to `max_chars` characters followed by " …[truncated]" (negative bounds follow slicing) |
| Constraints.SuffixLength | constraints.py:34 | the truncation suffix is 13 characters long |
| Constraints.TrimLength | constraints.py:33-35 | with a non-negative bound the result has at most `max_chars + 13` characters: exactly the stripped length when no cut is needed, exactly `max_chars + 13` otherwise |
| Constraints.TrimShape | constraints.py:32-34 | the result is a prefix of the stripped text, plus the suffix exactly when a cut happened; it has no leading space when the input contains a non-space and the bound is positive |
| Constraints.TrimIdempotent | constraints.py:32-35 | trimming a text that needed no cut a second time changes nothing |
| Tools.ReadJson | tools.py:24-28 | a missing bio file reads as the empty object, an existing one as its contents |
| Tools.KeysToRead | tools.py:40 | a list of key strings is read as exactly those keys, in order |
| Tools.BioGet | tools.py:36-40 | with no or empty `keys` the whole document is returned |
| Tools.Project | tools.py:40 | the dict comprehension `{k: data.get(k) for k in keys}`, one assignment per key in order; stated by ProjectDistinct and ProjectSpec |
| Tools.ProjectDistinct | tools.py:40 | the projection holds each requested key once |
| Tools.ProjectSpec | tools.py:40 | the projection's keys are exactly the requested ones, each with the stored value or null |
| Tools.BioGetKeys | tools.py:36-40 | `bio_get(names)` answers an object whose keys are exactly `names`, once each, with the stored value or null |
| Tools.UpdatePairs | tools.py:44 | the pairs `dict.update` takes from a list or string argument, element by element, with the ValueError and TypeError texts for a bad element; no contract of its own |
| Tools.BioSet | tools.py:42-46 | the call succeeds exactly for an object update: it writes `data.update(u)` and reports `{ok: true, updated_keys: keys of u}`; a falsy non-object (null, `[]`, `""`, 0, false) writes the document back unchanged and then raises the AttributeError of `.keys()`; a call that writes nothing always raises |
| Tools.BioSetMerges | tools.py:43-45 | shallow merge: every key of the update takes its new value, every other key keeps its old one, no key is lost, and the old keys stay first in order |
| Tools.BioSetIdempotent | tools.py:43-46 | applying the same update twice writes the same document and reports the same keys as applying it once |
| Tools.BioSetAccumulates | tools.py:42-45 | a key set by one update and not named by the next survives the second update |
| Tools.BioFile.Read | tools.py:24-28 | reading the file object gives `_read_json`'s value for its state |
| Tools.BioFile.Set | tools.py:42-46 | the method returns `bio_set`'s result and leaves the file holding the merged document, or unchanged when nothing was written |
| Tools.FirstSlash | tools.py:80 | the index found holds the first `/` of the string; none is found exactly when there is no `/` |
| Tools.SplitOwnerRepo | tools.py:80 | splitting succeeds exactly when the text holds a `/`; the owner has no `/` and owner + "/" + repo is the input; otherwise the unpacking error |
| Tools.SplitArg | tools.py:109 | a non-string `owner_repo` fails with the AttributeError of `.split` |
| Tools.SearchQuery | tools.py:68-70 | the query is `q` without a repo and `q + " repo:" + repo` with one |
| Tools.SearchQueryExtends | tools.py:68-70 | the query starts with `q`, equals `q` exactly when the repo is empty, and otherwise adds only the `repo:` qualifier |
| Tools.AddGiven | tools.py:111-114 | the sequence of `if v: params[k] = v` assignments; stated by AddGivenLookup, AddGivenOrder and AddGivenPrefix |
| Tools.CommitParamsOf | tools.py:110-114 | `per_page` followed by the four conditional assignments; stated by CommitParamGiven, CommitParamsLookup and CommitParamsOrder |
| Tools.CommitParamGiven | tools.py:111-114 | each of author, path, since and until is sent exactly when given, with its value |
| Tools.CommitParamsLookup | tools.py:110-114 | the commit params start with `per_page` and hold author, path, since and until exactly when given (truthy), with the given value |
| Tools.CommitParamsOrder | tools.py:110-114 | no other parameter is present, and the keys are inserted in the order per_page, author, path, since, until |
| Tools.AddGivenLookup | tools.py:111-114 | after the conditional assignments an assigned key holds its value when given and is absent otherwise; the starting keys are untouched |
| Tools.AddGivenOrder | tools.py:111-114 | the conditional assignments keep the parameters in insertion order |
| Tools.CommitParams | tools.py:110-114 | the method's `if v: params[k] = v` sequence builds exactly the specified parameters |
| Tools.PrLogin | tools.py:167 | `(pr.get("user") or {}).get("login")`; no contract of its own |
| Tools.PrSkipped | tools.py:167-168 | the `continue` test: skip only when an author is given and the login differs; no contract of its own |
| Tools.PullStep | tools.py:167-175 | one pass of the loop body; stated by PullStepRaises, PullStepReadable and PullStepUser |
| Tools.PullsByAuthor | tools.py:165-176 | the loop over the pulls, in order, stopping at the first exception; stated by PullsByAuthorFilters, PullsByAuthorUser and PullsFailureSticks |
| Tools.PrSummary | tools.py:169-175 | a summary exists only when the pull's login can be read, and its `user` is that login |
| Tools.PullStepRaises | tools.py:166-175 | the loop body raises exactly on a pull whose login cannot be read while an author is given, or whose summary fields cannot be read while it is kept |
| Tools.PullStepReadable | tools.py:167-175 | on a readable pull the loop body appends its summary exactly when it is kept, and otherwise `continue`s |
| Tools.PullStepUser | tools.py:167-175 | with an author given, a pass of the loop body appends only a summary whose `user` is that author |
| Tools.Authored | tools.py:166-168 | the reference filter keeps exactly the pulls whose login equals the author, and all of them without an author |
| Tools.PullsByAuthorFilters | tools.py:165-176 | the loop succeeds exactly when every pull is readable, and then yields the summaries of the reference-filtered pulls, in their original order |
| Tools.PullsByAuthorRaises | tools.py:165-176 | the loop raises exactly when some pull is unreadable |
| Tools.PullsByAuthorKeeps | tools.py:165-176 | on readable pulls the loop yields the summaries of exactly the reference-filtered pulls, in order |
| Tools.PullsByAuthorUser | tools.py:167-173 | whenever the loop succeeds with an author given, every summary it returns names that author as its user, for any list of pulls |
| Tools.PullsFailureSticks | tools.py:166-175 | an exception on one pull ends the whole loop with that exception |
| Tools.FilterPullRequests | tools.py:165-176 | the `continue`/`append` loop computes exactly the specified filter, including its failures |
| Dispatcher.ErrorObject | app/main.py:311-313 | an error answer is an object whose `error` is the message |
| Dispatcher.Outcome | app/main.py:312-313 | a tool's value passes through; an exception becomes `{"error": str(e)}` |
| Dispatcher.Prepare | app/main.py:271-304 | the request a GitHub tool sends, after reading its arguments in the source's order; stated by RequestsNeedObject, MissingOwnerRepo, OwnerRepoWithoutSlash and the `*RequestSpec` lemmas |
| Dispatcher.ListReposRequest | app/main.py:271-272 | `github_list_repos(args.get("user"))` up to its request; no contract of its own |
| Dispatcher.SearchRequest | app/main.py:273-274 | `args["q"]`, `args.get("repo")` and the query; stated by SearchRequestSpec |
| Dispatcher.GetFileRequest | app/main.py:275-276 | `args["owner_repo"]`, `args["path"]`, `args.get("ref")`; stated by MissingOwnerRepo |
| Dispatcher.ReadmeRequest | app/main.py:277-278 | `args["owner_repo"]`, `args.get("ref")` and the split; stated by MissingOwnerRepo and OwnerRepoWithoutSlash |
| Dispatcher.CommitsRequest | app/main.py:279-289 | the commits arguments, `per_page or 30`, the split and the parameters; stated by CommitsRequestSpec |
| Dispatcher.CommitRequest | app/main.py:290-291 | `args["owner_repo"]`, `args["sha"]` and the split; stated by MissingOwnerRepo and OwnerRepoWithoutSlash |
| Dispatcher.PullsRequest | app/main.py:292-300 | `get("state", "all")`, `per_page or 30`, the split and the parameters; stated by PullsRequestSpec |
| Dispatcher.PullRequest | app/main.py:301-302 | `args["owner_repo"]`, `args["number"]`; stated by MissingOwnerRepo |
| Dispatcher.BlameRequest | app/main.py:303-304 | `args["owner_repo"]`, `args["path"]`, `args.get("ref")`; stated by MissingOwnerRepo |
| Dispatcher.PullsAnswer | tools.py:164-176 | iterating GitHub's answer through the author filter; stated by PullsAnswerFilters |
| Dispatcher.PullsCall | app/main.py:292-300 | the pulls request, GitHub's answer and the filter; stated by PullsFiltered and ListPullsTool |
| Dispatcher.GitHubCall | app/main.py:271-304 | a GitHub tool's request and answer; stated by NonObjectArguments, PullsFiltered and ListCommitsTool |
| Dispatcher.BioSetTool | app/main.py:269-270 | `bio_set(args.get("update") or {})` over the stored document, with the file written whenever `bio_set` writes; stated by BioSetDispatch, BioSetWithoutUpdate and SetTool |
| Dispatcher.Dispatch | app/main.py:265-313 | only `bio_set` can change the bio document |
| Dispatcher.ToolNamesClassified | app/main.py:267-310 | every recognised name is a bio tool, a GitHub tool or one of the three missing tools |
| Dispatcher.UnknownTool | app/main.py:311 | an unrecognised name answers exactly `{"error": "unknown tool <name>"}` and changes nothing |
| Dispatcher.MissingToolError | app/main.py:305-310 | the three tools `tools.py` lacks always answer with the AttributeError object, whatever their arguments |
| Dispatcher.NonObjectArguments | app/main.py:266-313 | arguments that are not an object make every implemented tool answer an error object, never raise, and write nothing |
| Dispatcher.PrepareNonObject | app/main.py:271-304 | a GitHub tool fails on non-object arguments before anything is sent |
| Dispatcher.RequestsNeedObject | app/main.py:271-304 | each GitHub tool's argument reading fails on non-object arguments |
| Dispatcher.MissingOwnerRepo | app/main.py:275-304 | a tool that needs `owner_repo` answers the KeyError object `'owner_repo'` when it is missing |
| Dispatcher.OwnerRepoWithoutSlash | tools.py:80 | an `owner_repo` without a slash answers the unpacking error for readme, commits, commit and pulls, before any request |
| Dispatcher.CommitsRequestSpec | app/main.py:279-289 | the commits request splits `owner_repo`, sends `per_page` (30 when absent or falsy) and each filter exactly when given |
| Dispatcher.PullsRequestSpec | app/main.py:292-300 | the pulls request sends `state` ("all" only when the key is absent) and `per_page` (30 when absent or falsy) |
| Dispatcher.PullsAnswerFilters | tools.py:164-176 | a list answer succeeds exactly when every pull is readable, and then becomes the summaries of the pulls by the author, in order |
| Dispatcher.PullsFiltered | tools.py:157-176 | for any list GitHub returns, `github_list_pull_requests` answers the summaries of exactly the author's pulls, in order, when every pull is readable, and an error object otherwise; it writes nothing |
| Dispatcher.SearchRequestSpec | app/main.py:273-274 | the search request carries `q`, with the `repo:` qualifier only when a repo is given |
| Dispatcher.BioSetDispatch | app/main.py:269-270 | `bio_set` with an object merges it into the stored (or empty) document, writes it and reports its keys |
| Dispatcher.BioSetWithoutUpdate | app/main.py:270 | an absent or falsy `update` is replaced by `{}`: the document is written back unchanged and no keys are reported |
| Dispatcher.BioGetAll | app/main.py:267-268 | `bio_get` without keys answers the whole document, `{}` when the file is missing |
| Dispatcher.ExecuteTool | app/main.py:265-313 | the dispatcher over the bio file returns `Dispatch`'s answer and leaves the file in `Dispatch`'s state |
| Dispatcher.SetTool | app/main.py:269-270 | the `bio_set` branch over the file object returns what `BioSetTool` gives and leaves the file in its state |
| Dispatcher.ListCommitsTool | tools.py:105-116 | the commits tool, building its parameters step by step, answers what the specified request gets |
| Dispatcher.ListPullsTool | tools.py:157-176 | the pulls tool with its filtering loop answers what `PullsCall` gives, turned into an error object on an exception |
| Chat.Seed | app/main.py:322-328 | the initial message list; stated by SeedShape |
| Chat.CallStep | app/main.py:353-367 | one tool call: decode its arguments (abort on failure), run the tool on the current file, append the record and the result; stated by the `Turn*` lemmas |
| Chat.DispatchTurn | app/main.py:352-367 | the inner loop over a response's tool calls, in order; stated by TurnAppends, TurnPaired, TurnAbortIff and TurnAbortSticks |
| Chat.HopStep | app/main.py:332-372 | one hop: the clock test, the model call and its three outcomes; stated by HopStepReply |
| Chat.Hops | app/main.py:331-375 | the hop loop from a given hop; stated by HopsBound, TimeoutBeforeEveryCall, TimeoutStops, ReplyOnlyFromFinal, HopsTranscript, NonConvergence and HopsOutcomes |
| Chat.ChatSpec | app/main.py:317-375 | the route: the key check, then the hop loop from the seed with `execute_tool`; stated by MissingClient, TimeoutFirst, FirstResponseFinal and HandleChat |
| Chat.ArgumentsText | app/main.py:354 | empty tool arguments are read as `"{}"`, other text as is |
| Chat.HistoryMessages | app/main.py:326-327 | the history is copied message by message, in order, with role and content |
| Chat.SeedShape | app/main.py:322-328 | the conversation starts with the system rules, then the history in order, then the trimmed user text as a user message |
| Chat.SeedMessages | app/main.py:322-328 | the appending loop builds exactly that seed |
| Chat.TurnAppends | app/main.py:352-367 | a round of `k` decodable calls appends exactly `2k` messages after the unchanged earlier ones: per call, in order, its assistant record, then the tool message with its id, its name and the dispatcher's value on the document left by the calls before |
| Chat.TurnPaired | app/main.py:352-367 | any round, even an aborted one, leaves the earlier messages unchanged and appends only assistant/tool pairs with matching ids |
| Chat.TurnAbortIff | app/main.py:354-355 | a round aborts exactly when one of its calls' arguments does not decode |
| Chat.TurnAbortSticks | app/main.py:352-356 | once a call's arguments fail to decode, the round ends there: the later calls add no message and change no file |
| Chat.RunToolCalls | app/main.py:352-367 | the inner loop computes exactly the specified round, over the bio file |
| Chat.HopsBound | app/main.py:331 | a request makes at most four model calls |
| Chat.TimeoutBeforeEveryCall | app/main.py:331-336 | every model call made was preceded by a clock reading within the limit |
| Chat.TimeoutStops | app/main.py:332-333 | a 408 happens at a hop below four whose clock reading exceeded the limit, before that hop's model call |
| Chat.HopStepReply | app/main.py:351-372 | a hop that replies made one call, on the list it was given, and that call returned no tool calls |
| Chat.ReplyOnlyFromFinal | app/main.py:351-372 | the only success is a response without tool calls, and the reply is its content (`""` for null) stripped |
| Chat.HopsTranscript | app/main.py:325-368 | the message list only grows: what a hop starts from stays, followed by assistant/tool pairs |
| Chat.NonConvergence | app/main.py:331-375 | if every response asks for tools, the arguments of every requested call decode and time stays within the limit, the request fails with "Tool loop did not converge" after exactly four model calls |
| Chat.HopsOutcomes | app/main.py:331-375 | the loop ends only with a reply, 408, a 502 "OpenAI error: …", 500 "Internal Server Error" or 500 "Tool loop did not converge" |
| Chat.FirstResponseFinal | app/main.py:336-372 | a first response without tool calls is the reply after one call, with the document untouched |
| Chat.MissingClient | app/main.py:318-319 | without an API key the route answers 500 before any model call, and touches nothing |
| Chat.TimeoutFirst | app/main.py:331-333 | a clock over the limit before the first hop gives 408 with no model call |
| Chat.HandleChat | app/main.py:317-375 | the route, with its loops over the history, the hops and the tool calls, answers what `ChatSpec` gives and leaves the bio file in the state `ChatSpec` gives |

## Left out

- HTTP and network work: the GitHub REST calls and their result mapping, `raise_for_status`, base64 decoding and the GraphQL client. The `gh` oracle supplies their answers.
- File I/O of `_read_json`/`_write_json`: the file is the `file` field of `Tools.BioFile`.
- JSON serialization by `json_dumps`: the model keeps the JSON value, not its text.
- FastAPI, CORS, pydantic validation and `HTTPException` plumbing: outcomes are the `ChatResult` datatype.
- The OpenAI client, its parameters (model, temperature, `max_tokens`) and the tool schemas: only the oracle's responses and the tool names matter.
- The wall clock: read through the `elapsed` oracle.
- The `SYSTEM_RULES` prose: a string parameter of the environment.
- `main.py`, an alternative chat app (streaming or plain completions, no tools): it is not part of this core.
- Floating-point numbers in JSON: `Json` has integers only.
- Concurrency between requests: one request at a time.
- `github_list_repos`'s fallback to the `GITHUB_USER` variable and its own early return: `github_list_repos` is modelled only up to the request the dispatcher builds.
- Chat.Environment: `elapsed` is any function of the hop; the model does not assume the clock is monotonic, and needs no such assumption.
- Tools.BioGet: a `keys` list holding a non-string (say `[1]`) fails in the model, while `bio_get` answers `{1: None}`; model dicts have string keys only.
- Tools.SearchQuery: a truthy non-string `repo` (say 5) or a non-string `q` fails in the model with a fixed message, while Python's `+=` and f-string would build `"x repo:5"` or raise their own errors; formatting of non-string values is not modelled.
- Tools.BioSet: a list of pairs whose keys are not strings (say `[[1, 2]]`) fails in the model without writing, while Python merges key 1, writes the file and only then raises on `.keys()`, so the bio file differs from the model's in that case.
- Chat.Response: it has no case for an exception of the client other than `OpenAIError`, or for an empty `choices` list; in both the route raises and answers 500, which the model does not produce.
- Tools.BioSetMerges: stated for updates with distinct keys, which every decoded JSON object has.
