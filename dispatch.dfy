/**
 * The "call tool" handler (src/index.ts:224-428). Given a tool name and an
 * untyped argument bag it validates the arguments with the tool's type guard,
 * issues the tool's remote calls with defaults substituted, and builds the
 * response envelope.
 *
 * Every tool's body sits in a `try` whose `catch` re-throws whatever was
 * thrown as an InternalError "Failed to <operation>: <message>". That includes
 * the guard's own InvalidParams error, so a refused argument bag surfaces as
 * InternalError too; only an unknown name escapes as MethodNotFound.
 *
 * The functions here say what one request does (its response and the calls
 * it issues, given how the remote side answers); CallTool performs the same
 * steps on a FakeClient and is proved to agree with them.
 */
module Dispatch {
  import opened Wrappers
  import opened Json
  import opened Types
  import opened Remote
  import Base64
  import Utf8

  datatype ErrorCode = MethodNotFound | InvalidParams | InternalError

  /** A content item `{ type: "text", text: JSON.stringify(json, null, 2) }`. */
  datatype Content = Text(json: Value)

  /** The handler's outcome: a returned result, or the McpError it throws. */
  datatype Response = Result(content: seq<Content>) | Error(code: ErrorCode, message: string)

  /** One request: its response and the remote calls it issued, in order. */
  datatype Run = Run(response: Response, calls: seq<Call>)

  /**
   * How a tool's `try` block ends: with the `data` whose serialisation it
   * returns, or by throwing an error whose `message` is given.
   */
  type Attempt = Result<Value, string>

  /** An awaited remote call: its data, or the rejection's message thrown. */
  function Await(r: Reply): Attempt
  {
    match r
    case Data(d) => Success(d)
    case Rejected(m) => Failure(m)
  }

  /**
   * The `return` inside the `try`, and the `catch` around it, whose template
   * `Failed to <operation>: ${error.message}` is `prefix + message`.
   */
  function Finish(prefix: string, attempt: Attempt): Response
  {
    match attempt
    case Success(d) => Result([Text(d)])
    case Failure(m) => Error(InternalError, prefix + m)
  }

  /** `baseRef.data.object.sha`, which throws if `data` is null or `data.object` is undefined or null. */
  function ShaOf(data: Value): Result<Option<Value>, string>
  {
    match Member(Some(data), "object")
    case Failure(m) => Failure(m)
    case Success(obj) => Member(obj, "sha")
  }

  // The guards' error texts (src/index.ts:258, 290, 330, 364, 396).
  const INVALID_REPOSITORY := "Invalid arguments: name is required"
  const INVALID_BRANCH := "Invalid arguments: owner, repo, and branch are required"
  const INVALID_FILE := "Invalid arguments: owner, repo, path, content, message, and branch are required"
  const INVALID_ISSUE := "Invalid arguments: owner, repo, title, and body are required"
  const INVALID_PULL_REQUEST := "Invalid arguments: owner, repo, title, body, and head are required"

  // The calls each tool issues, from its validated arguments.

  /** `args?.per_page ?? 30` and `args?.page ?? 1`, unvalidated. */
  function ListCall(a: ListRepositoriesArgs): Call
  {
    ListForAuthenticatedUser(Nullish(a.perPage, Num(30.0)), Nullish(a.page, Num(1.0)))
  }

  function CreateRepositoryCall(a: CreateRepositoryArgs): Call
  {
    CreateForAuthenticatedUser(a.name, a.description, a.private.GetOr(false), a.autoInit.GetOr(true))
  }

  function GetRefCall(a: CreateBranchArgs): Call
  {
    GetRef(a.owner, a.repo, "heads/" + a.from.GetOr("main"))
  }

  function CreateRefCall(a: CreateBranchArgs, sha: Option<Value>): Call
  {
    CreateRef(a.owner, a.repo, "refs/heads/" + a.branch, sha)
  }

  /** `Buffer.from(content).toString('base64')`: Base64 of the UTF-8 bytes. */
  function FileCall(a: CreateFileArgs): Call
  {
    CreateOrUpdateFileContents(a.owner, a.repo, a.path, a.message, Base64.Encode(Utf8.Encode(a.content)), a.branch)
  }

  function IssueCall(a: CreateIssueArgs): Call
  {
    CreateIssue(a.owner, a.repo, a.title, a.body)
  }

  /** `base ?? "main"`: the guard has made `base` a string, so the fallback never applies. */
  function PullCall(a: CreatePullRequestArgs): Call
  {
    CreatePull(a.owner, a.repo, a.title, a.body, a.head, a.base)
  }

  // What each tool does, given the remote side's answers.

  function ListRepositories(args: Value, respond: Call -> Reply): (r: Run)
    ensures |r.calls| == 1 && r.calls[0].ListForAuthenticatedUser?
    ensures r.response.Error? <==> respond(r.calls[0]).Rejected?
    ensures r.response.Error? ==> r.response.code == InternalError
    ensures r.response.Result? ==>
      r.calls != [] && respond(r.calls[|r.calls| - 1]).Data? && r.response.content == [Text(respond(r.calls[|r.calls| - 1]).data)]
    ensures r.calls != [] && respond(r.calls[|r.calls| - 1]).Rejected? ==>
      r.response == Error(InternalError, "Failed to list repositories: " + respond(r.calls[|r.calls| - 1]).message)
  {
    var c := ListCall(AsListRepositoriesArgs(args));
    Run(Finish("Failed to list repositories: ", Await(respond(c))), [c])
  }

  function CreateRepository(args: Value, respond: Call -> Reply): (r: Run)
    ensures |r.calls| <= 1
    ensures r.calls == [] <==> !IsCreateRepositoryArgs(args)
    ensures r.calls != [] ==> r.calls[0].CreateForAuthenticatedUser?
    ensures r.response.Error? ==> r.response.code == InternalError
    ensures r.response.Result? ==>
      r.calls != [] && respond(r.calls[|r.calls| - 1]).Data? && r.response.content == [Text(respond(r.calls[|r.calls| - 1]).data)]
    ensures r.calls != [] && respond(r.calls[|r.calls| - 1]).Rejected? ==>
      r.response == Error(InternalError, "Failed to create repository: " + respond(r.calls[|r.calls| - 1]).message)
  {
    if !IsCreateRepositoryArgs(args) then Run(Finish("Failed to create repository: ", Failure(INVALID_REPOSITORY)), [])
    else
      var c := CreateRepositoryCall(AsCreateRepositoryArgs(args));
      Run(Finish("Failed to create repository: ", Await(respond(c))), [c])
  }

  function CreateBranch(args: Value, respond: Call -> Reply): (r: Run)
    ensures |r.calls| <= 2
    ensures r.calls == [] <==> !IsCreateBranchArgs(args)
    ensures r.calls != [] ==> r.calls[0].GetRef?
    ensures |r.calls| == 2 ==> r.calls[1].CreateRef?
    ensures r.response.Error? ==> r.response.code == InternalError
    ensures r.response.Result? ==>
      r.calls != [] && respond(r.calls[|r.calls| - 1]).Data? && r.response.content == [Text(respond(r.calls[|r.calls| - 1]).data)]
    ensures r.calls != [] && respond(r.calls[|r.calls| - 1]).Rejected? ==>
      r.response == Error(InternalError, "Failed to create branch: " + respond(r.calls[|r.calls| - 1]).message)
  {
    if !IsCreateBranchArgs(args) then Run(Finish("Failed to create branch: ", Failure(INVALID_BRANCH)), [])
    else
      var a := AsCreateBranchArgs(args);
      var g := GetRefCall(a);
      match respond(g)
      case Rejected(m) => Run(Finish("Failed to create branch: ", Failure(m)), [g])
      case Data(d) =>
        match ShaOf(d)
        case Failure(m) => Run(Finish("Failed to create branch: ", Failure(m)), [g])
        case Success(sha) =>
          var c := CreateRefCall(a, sha);
          Run(Finish("Failed to create branch: ", Await(respond(c))), [g, c])
  }

  function CreateFile(args: Value, respond: Call -> Reply): (r: Run)
    ensures |r.calls| <= 1
    ensures r.calls == [] <==> !IsCreateFileArgs(args)
    ensures r.calls != [] ==> r.calls[0].CreateOrUpdateFileContents?
    ensures r.response.Error? ==> r.response.code == InternalError
    ensures r.response.Result? ==>
      r.calls != [] && respond(r.calls[|r.calls| - 1]).Data? && r.response.content == [Text(respond(r.calls[|r.calls| - 1]).data)]
    ensures r.calls != [] && respond(r.calls[|r.calls| - 1]).Rejected? ==>
      r.response == Error(InternalError, "Failed to create file: " + respond(r.calls[|r.calls| - 1]).message)
  {
    if !IsCreateFileArgs(args) then Run(Finish("Failed to create file: ", Failure(INVALID_FILE)), [])
    else
      var c := FileCall(AsCreateFileArgs(args));
      Run(Finish("Failed to create file: ", Await(respond(c))), [c])
  }

  function CreateIssueTool(args: Value, respond: Call -> Reply): (r: Run)
    ensures |r.calls| <= 1
    ensures r.calls == [] <==> !IsCreateIssueArgs(args)
    ensures r.calls != [] ==> r.calls[0].CreateIssue?
    ensures r.response.Error? ==> r.response.code == InternalError
    ensures r.response.Result? ==>
      r.calls != [] && respond(r.calls[|r.calls| - 1]).Data? && r.response.content == [Text(respond(r.calls[|r.calls| - 1]).data)]
    ensures r.calls != [] && respond(r.calls[|r.calls| - 1]).Rejected? ==>
      r.response == Error(InternalError, "Failed to create issue: " + respond(r.calls[|r.calls| - 1]).message)
  {
    if !IsCreateIssueArgs(args) then Run(Finish("Failed to create issue: ", Failure(INVALID_ISSUE)), [])
    else
      var c := IssueCall(AsCreateIssueArgs(args));
      Run(Finish("Failed to create issue: ", Await(respond(c))), [c])
  }

  function CreatePullRequest(args: Value, respond: Call -> Reply): (r: Run)
    ensures |r.calls| <= 1
    ensures r.calls == [] <==> !IsCreatePullRequestArgs(args)
    ensures r.calls != [] ==> r.calls[0].CreatePull?
    ensures r.response.Error? ==> r.response.code == InternalError
    ensures r.response.Result? ==>
      r.calls != [] && respond(r.calls[|r.calls| - 1]).Data? && r.response.content == [Text(respond(r.calls[|r.calls| - 1]).data)]
    ensures r.calls != [] && respond(r.calls[|r.calls| - 1]).Rejected? ==>
      r.response == Error(InternalError, "Failed to create pull request: " + respond(r.calls[|r.calls| - 1]).message)
  {
    if !IsCreatePullRequestArgs(args) then Run(Finish("Failed to create pull request: ", Failure(INVALID_PULL_REQUEST)), [])
    else
      var c := PullCall(AsCreatePullRequestArgs(args));
      Run(Finish("Failed to create pull request: ", Await(respond(c))), [c])
  }

  /** The `switch` on the tool name. */
  function Handle(name: string, args: Value, respond: Call -> Reply): (r: Run)
    ensures |r.calls| <= 2
    ensures r.response.Error? && r.response.code == MethodNotFound ==> r.calls == []
    ensures r.response.Error? ==> r.response.code != InvalidParams
    ensures |r.calls| == 2 ==> name == "create_branch" && r.calls[0].GetRef? && r.calls[1].CreateRef?
    ensures r.response.Result? ==>
      r.calls != [] && respond(r.calls[|r.calls| - 1]).Data?
      && r.response.content == [Text(respond(r.calls[|r.calls| - 1]).data)]
  {
    if name == "list_repositories" then ListRepositories(args, respond)
    else if name == "create_repository" then CreateRepository(args, respond)
    else if name == "create_branch" then CreateBranch(args, respond)
    else if name == "create_file" then CreateFile(args, respond)
    else if name == "create_issue" then CreateIssueTool(args, respond)
    else if name == "create_pull_request" then CreatePullRequest(args, respond)
    else Run(Error(MethodNotFound, "Unknown tool"), [])
  }

  // The handler, step by step, on a client whose calls are logged.

  /** The list_repositories case: no validation, one call. */
  method ListRepositoriesSteps(client: FakeClient, args: Value) returns (response: Response)
    modifies client
    ensures response == ListRepositories(args, client.respond).response
    ensures client.calls == old(client.calls) + ListRepositories(args, client.respond).calls
  {
    var reply := client.Issue(ListCall(AsListRepositoriesArgs(args)));
    response := Finish("Failed to list repositories: ", Await(reply));
  }

  /** The create_repository case. */
  method CreateRepositorySteps(client: FakeClient, args: Value) returns (response: Response)
    modifies client
    ensures response == CreateRepository(args, client.respond).response
    ensures client.calls == old(client.calls) + CreateRepository(args, client.respond).calls
  {
    var attempt: Attempt;
    if !IsCreateRepositoryArgs(args) {
      attempt := Failure(INVALID_REPOSITORY);
    } else {
      var reply := client.Issue(CreateRepositoryCall(AsCreateRepositoryArgs(args)));
      attempt := Await(reply);
    }
    response := Finish("Failed to create repository: ", attempt);
  }

  /**
   * The create_branch case: two awaited calls in sequence, the second fed
   * with the SHA read from the first reply.
   */
  method CreateBranchSteps(client: FakeClient, args: Value) returns (response: Response)
    modifies client
    ensures response == CreateBranch(args, client.respond).response
    ensures client.calls == old(client.calls) + CreateBranch(args, client.respond).calls
  {
    var attempt: Attempt;
    if !IsCreateBranchArgs(args) {
      attempt := Failure(INVALID_BRANCH);
    } else {
      var a := AsCreateBranchArgs(args);
      var baseRef := client.Issue(GetRefCall(a));
      if baseRef.Rejected? {
        attempt := Failure(baseRef.message);
      } else {
        var sha := ShaOf(baseRef.data);
        if sha.Failure? {
          attempt := Failure(sha.error);
        } else {
          var reply := client.Issue(CreateRefCall(a, sha.value));
          attempt := Await(reply);
        }
      }
    }
    response := Finish("Failed to create branch: ", attempt);
  }

  /** The create_file case. */
  method CreateFileSteps(client: FakeClient, args: Value) returns (response: Response)
    modifies client
    ensures response == CreateFile(args, client.respond).response
    ensures client.calls == old(client.calls) + CreateFile(args, client.respond).calls
  {
    var attempt: Attempt;
    if !IsCreateFileArgs(args) {
      attempt := Failure(INVALID_FILE);
    } else {
      var reply := client.Issue(FileCall(AsCreateFileArgs(args)));
      attempt := Await(reply);
    }
    response := Finish("Failed to create file: ", attempt);
  }

  /** The create_issue case. */
  method CreateIssueToolSteps(client: FakeClient, args: Value) returns (response: Response)
    modifies client
    ensures response == CreateIssueTool(args, client.respond).response
    ensures client.calls == old(client.calls) + CreateIssueTool(args, client.respond).calls
  {
    var attempt: Attempt;
    if !IsCreateIssueArgs(args) {
      attempt := Failure(INVALID_ISSUE);
    } else {
      var reply := client.Issue(IssueCall(AsCreateIssueArgs(args)));
      attempt := Await(reply);
    }
    response := Finish("Failed to create issue: ", attempt);
  }

  /** The create_pull_request case. */
  method CreatePullRequestSteps(client: FakeClient, args: Value) returns (response: Response)
    modifies client
    ensures response == CreatePullRequest(args, client.respond).response
    ensures client.calls == old(client.calls) + CreatePullRequest(args, client.respond).calls
  {
    var attempt: Attempt;
    if !IsCreatePullRequestArgs(args) {
      attempt := Failure(INVALID_PULL_REQUEST);
    } else {
      var reply := client.Issue(PullCall(AsCreatePullRequestArgs(args)));
      attempt := Await(reply);
    }
    response := Finish("Failed to create pull request: ", attempt);
  }

  /** The `switch` on the tool name, on a client whose calls are logged. */
  method CallTool(client: FakeClient, name: string, args: Value) returns (response: Response)
    modifies client
    ensures response == Handle(name, args, client.respond).response
    ensures client.calls == old(client.calls) + Handle(name, args, client.respond).calls
  {
    if name == "list_repositories" {
      response := ListRepositoriesSteps(client, args);
    } else if name == "create_repository" {
      response := CreateRepositorySteps(client, args);
    } else if name == "create_branch" {
      response := CreateBranchSteps(client, args);
    } else if name == "create_file" {
      response := CreateFileSteps(client, args);
    } else if name == "create_issue" {
      response := CreateIssueToolSteps(client, args);
    } else if name == "create_pull_request" {
      response := CreatePullRequestSteps(client, args);
    } else {
      response := Error(MethodNotFound, "Unknown tool");
    }
  }
}
