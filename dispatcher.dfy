/**
 * `execute_tool(name, args)` of `app/main.py`: an if-chain over the tool name that
 * reads the decoded arguments, runs the tool and turns every exception into
 * `{"error": str(e)}`.  The result is the JSON value `json_dumps` serializes; the
 * serialization itself is not modelled.
 *
 * GitHub calls are the oracle `gh`: it receives the `Request` built locally and
 * answers with the tool's value or the text of the exception the HTTP layer raised.
 */
module Dispatcher {
  import opened Json
  import opened Tools

  /** The names `execute_tool` recognizes, in the order of its if-chain. */
  const ToolNames: seq<string> := [
    "bio_get", "bio_set", "github_list_repos", "github_search_code", "github_get_file",
    "github_get_readme", "github_list_commits", "github_get_commit", "github_list_pull_requests",
    "github_get_pull_request", "github_blame_file", "analyze_my_contributions",
    "fetch_website_content", "get_professional_profile"
  ]

  /** Tools that are dispatched to a function `tools.py` does not define. */
  predicate MissingTool(name: string) {
    name == "analyze_my_contributions" || name == "fetch_website_content" || name == "get_professional_profile"
  }

  /** Tools whose first argument is `args["owner_repo"]`. */
  predicate OwnerRepoTool(name: string) {
    name == "github_get_file" || name == "github_get_readme" || name == "github_list_commits"
    || name == "github_get_commit" || name == "github_list_pull_requests"
    || name == "github_get_pull_request" || name == "github_blame_file"
  }

  /** Tools answered by the GitHub oracle. */
  predicate GitHubTool(name: string) {
    name == "github_list_repos" || name == "github_search_code" || OwnerRepoTool(name)
  }

  /** `args.get(key)` on an object: null when the key is absent. */
  function Arg(args: Json, key: string): Json
    requires args.Obj?
  {
    Lookup(args.fields, key).GetOr(Null)
  }

  function ErrorObject(message: string): (j: Json)
    ensures j.Obj? && Lookup(j.fields, "error") == Some(Str(message))
  {
    Obj([("error", Str(message))])
  }

  /** The `try`/`except Exception` around the chain: a raised exception becomes an error object. */
  function Outcome(r: Result<Json>): (j: Json)
    ensures r.Ok? ==> j == r.value
    ensures r.Fail? ==> j == ErrorObject(r.message)
  {
    match r
    case Ok(v) => v
    case Fail(m) => ErrorObject(m)
  }

  /** The local argument handling of a GitHub tool, up to the request it sends. */
  function Prepare(name: string, args: Json): Result<Request>
    requires GitHubTool(name)
  {
    if name == "github_list_repos" then ListReposRequest(args)
    else if name == "github_search_code" then SearchRequest(args)
    else if name == "github_get_file" then GetFileRequest(args)
    else if name == "github_get_readme" then ReadmeRequest(args)
    else if name == "github_list_commits" then CommitsRequest(args)
    else if name == "github_get_commit" then CommitRequest(args)
    else if name == "github_list_pull_requests" then PullsRequest(args)
    else if name == "github_get_pull_request" then PullRequest(args)
    else BlameRequest(args)
  }

  function ListReposRequest(args: Json): Result<Request> {
    var user :- PyGet(args, "user");
    Ok(ListRepos(user))
  }

  function SearchRequest(args: Json): Result<Request> {
    var q :- PyIndex(args, "q");
    var repo :- PyGet(args, "repo");
    var query :- SearchQuery(q, repo);
    Ok(SearchCode(query))
  }

  function GetFileRequest(args: Json): Result<Request> {
    var ownerRepo :- PyIndex(args, "owner_repo");
    var path :- PyIndex(args, "path");
    var ref :- PyGet(args, "ref");
    Ok(GetFile(ownerRepo, path, ref))
  }

  function ReadmeRequest(args: Json): Result<Request> {
    var ownerRepo :- PyIndex(args, "owner_repo");
    var ref :- PyGet(args, "ref");
    var names :- SplitArg(ownerRepo);
    Ok(GetReadme(names.0, names.1, ref))
  }

  function CommitsRequest(args: Json): Result<Request> {
    var ownerRepo :- PyIndex(args, "owner_repo");
    var author :- PyGet(args, "author");
    var path :- PyGet(args, "path");
    var since :- PyGet(args, "since");
    var until :- PyGet(args, "until");
    var perPage :- PyGet(args, "per_page");
    var names :- SplitArg(ownerRepo);
    Ok(ListCommits(names.0, names.1, CommitParamsOf(Or(perPage, Int(30)), author, path, since, until)))
  }

  function CommitRequest(args: Json): Result<Request> {
    var ownerRepo :- PyIndex(args, "owner_repo");
    var sha :- PyIndex(args, "sha");
    var names :- SplitArg(ownerRepo);
    Ok(GetCommit(names.0, names.1, sha))
  }

  function PullsRequest(args: Json): Result<Request> {
    var ownerRepo :- PyIndex(args, "owner_repo");
    var state :- PyGetOr(args, "state", Str("all"));
    var author :- PyGet(args, "author");
    var perPage :- PyGet(args, "per_page");
    var names :- SplitArg(ownerRepo);
    Ok(ListPulls(names.0, names.1, [("state", state), ("per_page", Or(perPage, Int(30)))]))
  }

  function PullRequest(args: Json): Result<Request> {
    var ownerRepo :- PyIndex(args, "owner_repo");
    var number :- PyIndex(args, "number");
    var names :- SplitArg(ownerRepo);
    Ok(GetPull(names.0, names.1, number))
  }

  function BlameRequest(args: Json): Result<Request> {
    var ownerRepo :- PyIndex(args, "owner_repo");
    var path :- PyIndex(args, "path");
    var ref :- PyGet(args, "ref");
    var names :- SplitArg(ownerRepo);
    Ok(Blame(names.0, names.1, path, ref))
  }

  /** The summaries `github_list_pull_requests` returns for the decoded API answer. */
  function PullsAnswer(answer: Json, author: Json): Result<Json> {
    var prs :- PyIter(answer);
    var out :- PullsByAuthor(prs, author);
    Ok(Arr(out))
  }

  /** A GitHub tool: the prepared request, the oracle's answer, and the pull filter. */
  function GitHubCall(name: string, args: Json, gh: Request -> Result<Json>): Result<Json>
    requires GitHubTool(name)
  {
    if name == "github_list_pull_requests" then PullsCall(args, gh)
    else
      var request :- Prepare(name, args);
      gh(request)
  }

  /** `github_list_pull_requests`: the request, the answer, then the author filter. */
  function PullsCall(args: Json, gh: Request -> Result<Json>): Result<Json> {
    var request :- PullsRequest(args);
    var answer :- gh(request);
    var author :- PyGet(args, "author");
    PullsAnswer(answer, author)
  }

  /** `execute_tool`'s value and the bio document afterwards (`None`: still no file). */
  datatype Dispatched = Dispatched(result: Json, file: Option<Dict>)

  /** The `bio_set` branch: `T.bio_set(args.get("update") or {})`. */
  function BioSetTool(args: Json, file: Option<Dict>): Dispatched {
    match PyGet(args, "update")
    case Fail(m) => Dispatched(ErrorObject(m), file)
    case Ok(update) =>
      var e := BioSet(ReadJson(file), Or(update, Obj([])));
      Dispatched(Outcome(e.result), if e.written.Some? then e.written else file)
  }

  /** `execute_tool(name, args)` with the bio document `file` on disk. */
  function Dispatch(name: string, args: Json, file: Option<Dict>, gh: Request -> Result<Json>): (d: Dispatched)
    ensures name != "bio_set" ==> d.file == file
  {
    if name == "bio_get" then
      Dispatched(Outcome(var keys :- PyGet(args, "keys"); BioGet(ReadJson(file), keys)), file)
    else if name == "bio_set" then BioSetTool(args, file)
    else if GitHubTool(name) then
      Dispatched(Outcome(GitHubCall(name, args, gh)), file)
    else if MissingTool(name) then
      Dispatched(ErrorObject("module 'tools' has no attribute '" + name + "'"), file)
    else
      Dispatched(ErrorObject("unknown tool " + name), file)
  }

  // ----- properties -----

  lemma ToolNamesClassified(name: string)
    ensures name in ToolNames <==> name == "bio_get" || name == "bio_set" || GitHubTool(name) || MissingTool(name)
  {
  }

  /** A name outside the table yields `{"error": "unknown tool <name>"}` and touches nothing. */
  lemma UnknownTool(name: string, args: Json, file: Option<Dict>, gh: Request -> Result<Json>)
    requires name !in ToolNames
    ensures Dispatch(name, args, file, gh) == Dispatched(ErrorObject("unknown tool " + name), file)
  {
    ToolNamesClassified(name);
  }

  /** The three tools `tools.py` lacks always answer with the attribute error, whatever the arguments. */
  lemma MissingToolError(name: string, args: Json, file: Option<Dict>, gh: Request -> Result<Json>)
    requires MissingTool(name)
    ensures Dispatch(name, args, file, gh) == Dispatched(ErrorObject("module 'tools' has no attribute '" + name + "'"), file)
  {
  }

  /**
   * Arguments that did not decode to an object make every implemented tool answer with an
   * error object, and nothing is written.
   */
  lemma NonObjectArguments(name: string, args: Json, file: Option<Dict>, gh: Request -> Result<Json>)
    requires !args.Obj?
    requires name == "bio_get" || name == "bio_set" || GitHubTool(name)
    ensures var d := Dispatch(name, args, file, gh);
      d.file == file && d.result.Obj? && Lookup(d.result.fields, "error").Some?
  {
    if GitHubTool(name) {
      PrepareNonObject(name, args);
    }
  }

  /** Every GitHub tool reads its arguments before sending anything, so it fails on a non-object. */
  lemma {:induction false} PrepareNonObject(name: string, args: Json)
    requires !args.Obj? && GitHubTool(name)
    ensures Prepare(name, args).Fail?
  {
    RequestsNeedObject(args);
  }

  lemma RequestsNeedObject(args: Json)
    requires !args.Obj?
    ensures ListReposRequest(args).Fail? && SearchRequest(args).Fail? && GetFileRequest(args).Fail?
    ensures ReadmeRequest(args).Fail? && CommitsRequest(args).Fail? && CommitRequest(args).Fail?
    ensures PullsRequest(args).Fail? && PullRequest(args).Fail? && BlameRequest(args).Fail?
  {
  }

  /** A tool that needs `owner_repo` fails with the KeyError `'owner_repo'` when it is missing. */
  lemma MissingOwnerRepo(name: string, args: Json, file: Option<Dict>, gh: Request -> Result<Json>)
    requires OwnerRepoTool(name) && args.Obj? && "owner_repo" !in Keys(args.fields)
    ensures Dispatch(name, args, file, gh) == Dispatched(ErrorObject("'owner_repo'"), file)
  {
    assert PyIndex(args, "owner_repo") == Fail("'owner_repo'");
  }

  /** An `owner_repo` without a slash fails in the unpacking of the split, before any request. */
  lemma OwnerRepoWithoutSlash(name: string, args: Json, s: string, file: Option<Dict>, gh: Request -> Result<Json>)
    requires name == "github_get_readme" || name == "github_list_commits" || name == "github_get_commit"
      || name == "github_list_pull_requests"
    requires args.Obj? && Lookup(args.fields, "owner_repo") == Some(Str(s)) && '/' !in s
    requires name == "github_get_commit" ==> "sha" in Keys(args.fields)
    ensures Dispatch(name, args, file, gh) ==
      Dispatched(ErrorObject("not enough values to unpack (expected 2, got 1)"), file)
  {
  }

  /**
   * `github_list_commits` sends `owner` and `repo` split at the first slash, `per_page`
   * defaulting to 30 when absent or falsy, and each optional filter exactly when given.
   */
  lemma CommitsRequestSpec(args: Json, s: string)
    requires args.Obj? && Lookup(args.fields, "owner_repo") == Some(Str(s)) && '/' in s
    ensures var r := CommitsRequest(args);
      var perPage := Arg(args, "per_page");
      && r.Ok? && r.value.ListCommits?
      && r.value.owner + "/" + r.value.repo == s && '/' !in r.value.owner
      && |r.value.params| >= 1
      && r.value.params[0] == ("per_page", if Truthy(perPage) then perPage else Int(30))
      && Lookup(r.value.params, "author") == Given(Arg(args, "author"))
      && Lookup(r.value.params, "path") == Given(Arg(args, "path"))
      && Lookup(r.value.params, "since") == Given(Arg(args, "since"))
      && Lookup(r.value.params, "until") == Given(Arg(args, "until"))
  {
    CommitParamsLookup(Or(Arg(args, "per_page"), Int(30)), Arg(args, "author"), Arg(args, "path"),
      Arg(args, "since"), Arg(args, "until"));
  }

  /**
   * `github_list_pull_requests` sends `state` (the argument when the key is present, even
   * when null, and "all" only when it is absent) and `per_page` (30 when absent or falsy).
   */
  lemma PullsRequestSpec(args: Json, s: string)
    requires args.Obj? && Lookup(args.fields, "owner_repo") == Some(Str(s)) && '/' in s
    ensures var r := PullsRequest(args);
      var perPage := Arg(args, "per_page");
      && r.Ok? && r.value.ListPulls?
      && r.value.owner + "/" + r.value.repo == s
      && r.value.params == [
        ("state", if "state" in Keys(args.fields) then Lookup(args.fields, "state").value else Str("all")),
        ("per_page", if Truthy(perPage) then perPage else Int(30))]
  {
  }

  /**
   * When GitHub answers with a list of pulls, the tool returns, in order, the summaries of
   * exactly the pulls by `author` (all of them without an author) when every pull is
   * readable, and an error object otherwise; it never writes the bio file.
   */
  lemma PullsFiltered(args: Json, s: string, prs: seq<Json>, file: Option<Dict>, gh: Request -> Result<Json>)
    requires args.Obj? && Lookup(args.fields, "owner_repo") == Some(Str(s)) && '/' in s
    requires PullsRequest(args).Ok? && gh(PullsRequest(args).value) == Ok(Arr(prs))
    ensures var author := Arg(args, "author");
      var d := Dispatch("github_list_pull_requests", args, file, gh);
      && d.file == file
      && (AllReadable(prs, author) ==>
        AllWellFormed(Authored(prs, author)) && d.result == Arr(Summaries(Authored(prs, author))))
      && (!AllReadable(prs, author) ==> d.result.Obj? && Lookup(d.result.fields, "error").Some?)
  {
    PullsRequestSpec(args, s);
    PullsAnswerFilters(prs, Arg(args, "author"));
    assert GitHubCall("github_list_pull_requests", args, gh) == PullsAnswer(Arr(prs), Arg(args, "author"));
  }

  /**
   * A list answer succeeds exactly when every pull is readable, and then becomes the
   * summaries of the pulls by `author`, in order.
   */
  lemma PullsAnswerFilters(prs: seq<Json>, author: Json)
    ensures PullsAnswer(Arr(prs), author).Ok? <==> AllReadable(prs, author)
    ensures AllReadable(prs, author) ==>
      && AllWellFormed(Authored(prs, author))
      && PullsAnswer(Arr(prs), author) == Ok(Arr(Summaries(Authored(prs, author))))
  {
    PullsByAuthorFilters(prs, author);
  }

  /** `github_search_code` adds the repo qualifier to the query only when a repo is given. */
  lemma SearchRequestSpec(args: Json, q: string)
    requires args.Obj? && Lookup(args.fields, "q") == Some(Str(q))
    ensures var repo := Arg(args, "repo");
      var r := SearchRequest(args);
      && (!Truthy(repo) ==> r == Ok(SearchCode(Str(q))))
      && (repo.Str? && repo.s != "" ==> r == Ok(SearchCode(Str(q + " repo:" + repo.s))))
  {
  }

  /**
   * `bio_set` with an object merges it into the stored document (an empty one when the
   * file does not exist), writes the result and reports the update's keys.
   */
  lemma BioSetDispatch(args: Json, u: Dict, file: Option<Dict>, gh: Request -> Result<Json>)
    requires args.Obj? && Lookup(args.fields, "update") == Some(Obj(u))
    ensures Dispatch("bio_set", args, file, gh) ==
      Dispatched(SetReceipt(u), Some(Update(ReadJson(file), u)))
  {
    assert PyGet(args, "update") == Ok(Obj(u));
    assert Or(Obj(u), Obj([])) == Obj(u);
  }

  /** `bio_set` without an update still writes the document back, creating it when missing. */
  lemma BioSetWithoutUpdate(args: Json, file: Option<Dict>, gh: Request -> Result<Json>)
    requires args.Obj? && !Truthy(Lookup(args.fields, "update").GetOr(Null))
    ensures Dispatch("bio_set", args, file, gh) == Dispatched(SetReceipt([]), Some(ReadJson(file)))
  {
  }

  /** `bio_get` without keys returns the whole document, the empty object when there is no file. */
  lemma BioGetAll(args: Json, file: Option<Dict>, gh: Request -> Result<Json>)
    requires args.Obj? && !Truthy(Lookup(args.fields, "keys").GetOr(Null))
    ensures Dispatch("bio_get", args, file, gh) == Dispatched(Obj(ReadJson(file)), file)
  {
  }

  // ----- the dispatcher over the bio file -----

  /** `execute_tool` run against the bio file on disk. */
  method ExecuteTool(bio: BioFile, name: string, args: Json, gh: Request -> Result<Json>) returns (result: Json)
    modifies bio
    ensures result == Dispatch(name, args, old(bio.file), gh).result
    ensures bio.file == Dispatch(name, args, old(bio.file), gh).file
  {
    if name == "bio_set" {
      result := SetTool(bio, args);
      return;
    }
    if name == "github_list_commits" {
      result := ListCommitsTool(args, gh);
      return;
    }
    if name == "github_list_pull_requests" {
      result := ListPullsTool(args, gh);
      return;
    }
    result := Dispatch(name, args, bio.file, gh).result;
  }

  /** The `bio_set` branch against the bio file. */
  method SetTool(bio: BioFile, args: Json) returns (result: Json)
    modifies bio
    ensures result == BioSetTool(args, old(bio.file)).result
    ensures bio.file == BioSetTool(args, old(bio.file)).file
  {
    var update := PyGet(args, "update");
    if update.Fail? {
      return ErrorObject(update.message);
    }
    var r := bio.Set(Or(update.value, Obj([])));
    return Outcome(r);
  }

  /** `github_list_commits`, building its parameters by conditional assignment. */
  method ListCommitsTool(args: Json, gh: Request -> Result<Json>) returns (result: Json)
    ensures result == Outcome(var request :- CommitsRequest(args); gh(request))
  {
    var ownerRepo := PyIndex(args, "owner_repo");
    if ownerRepo.Fail? {
      return ErrorObject(ownerRepo.message);
    }
    var author := Arg(args, "author");
    var path := Arg(args, "path");
    var since := Arg(args, "since");
    var until := Arg(args, "until");
    var perPage := Or(Arg(args, "per_page"), Int(30));
    var names := SplitArg(ownerRepo.value);
    if names.Fail? {
      return ErrorObject(names.message);
    }
    var params := CommitParams(perPage, author, path, since, until);
    result := Outcome(gh(ListCommits(names.value.0, names.value.1, params)));
  }

  /** `github_list_pull_requests`, filtering the answer with its `continue`/`append` loop. */
  method ListPullsTool(args: Json, gh: Request -> Result<Json>) returns (result: Json)
    ensures result == Outcome(PullsCall(args, gh))
  {
    var request := PullsRequest(args);
    if request.Fail? {
      return ErrorObject(request.message);
    }
    var answer := gh(request.value);
    if answer.Fail? {
      return ErrorObject(answer.message);
    }
    var author := Arg(args, "author");
    var prs := PyIter(answer.value);
    if prs.Fail? {
      return ErrorObject(prs.message);
    }
    var out := FilterPullRequests(prs.value, author);
    if out.Fail? {
      return ErrorObject(out.message);
    }
    result := Arr(out.value);
  }
}
