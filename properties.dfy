/**
 * What one "call tool" request does, stated over Dispatch.Handle: which names
 * are answered, when calls are issued and with which parameters, in which
 * order, and how replies become the response envelope.
 */
module DispatchProperties {
  import opened Wrappers
  import opened Json
  import opened Types
  import opened Catalog
  import opened Remote
  import opened Dispatch
  import Base64
  import Utf8

  /** The fixed start of each tool's catch message, "Failed to <operation>: ". */
  function FailurePrefix(name: string): string
  {
    if name == "list_repositories" then "Failed to list repositories: "
    else if name == "create_repository" then "Failed to create repository: "
    else if name == "create_branch" then "Failed to create branch: "
    else if name == "create_file" then "Failed to create file: "
    else if name == "create_issue" then "Failed to create issue: "
    else "Failed to create pull request: "
  }

  /** The guard the dispatcher applies for a guarded tool. */
  predicate Accepts(name: string, args: Value)
  {
    if name == "create_repository" then IsCreateRepositoryArgs(args)
    else if name == "create_branch" then IsCreateBranchArgs(args)
    else if name == "create_file" then IsCreateFileArgs(args)
    else if name == "create_issue" then IsCreateIssueArgs(args)
    else IsCreatePullRequestArgs(args)
  }

  /** The text each guarded tool throws when its guard refuses. */
  function InvalidText(name: string): string
  {
    if name == "create_repository" then INVALID_REPOSITORY
    else if name == "create_branch" then INVALID_BRANCH
    else if name == "create_file" then INVALID_FILE
    else if name == "create_issue" then INVALID_ISSUE
    else INVALID_PULL_REQUEST
  }

  predicate IsGuarded(name: string)
  {
    name in ["create_repository", "create_branch", "create_file", "create_issue", "create_pull_request"]
  }

  /**
   * Exactly the names the catalog advertises are served; any other name is
   * answered MethodNotFound "Unknown tool" without a remote call.
   */
  lemma UnknownNameIsMethodNotFound(name: string, args: Value, respond: Call -> Reply)
    ensures Find(name).None? <==> Handle(name, args, respond).response == Error(MethodNotFound, "Unknown tool")
    ensures Find(name).None? ==> Handle(name, args, respond).calls == []
  {
    AdvertisedNames(name);
    if Find(name).Some? {
      KnownNameErrorsAreInternal(name, args, respond);
    }
  }

  /** A served name never answers MethodNotFound, and no request ever answers InvalidParams. */
  lemma KnownNameErrorsAreInternal(name: string, args: Value, respond: Call -> Reply)
    requires Find(name).Some?
    ensures var r := Handle(name, args, respond).response;
      r.Error? ==> r.code == InternalError
  {
    AdvertisedNames(name);
  }

  /**
   * A guarded tool issues no remote call exactly when its guard refuses, and
   * then fails with InternalError "Failed to <operation>: Invalid arguments: ...",
   * the guard's InvalidParams having been re-wrapped by the catch.
   */
  lemma RefusedArgumentsIssueNoCall(name: string, args: Value, respond: Call -> Reply)
    requires IsGuarded(name)
    ensures Handle(name, args, respond).calls == [] <==> !Accepts(name, args)
    ensures !Accepts(name, args) ==>
      Handle(name, args, respond).response == Error(InternalError, FailurePrefix(name) + InvalidText(name))
  {
    if name == "create_repository" {
      assert Handle(name, args, respond) == CreateRepository(args, respond);
    } else if name == "create_branch" {
      assert Handle(name, args, respond) == CreateBranch(args, respond);
    } else if name == "create_file" {
      assert Handle(name, args, respond) == CreateFile(args, respond);
    } else if name == "create_issue" {
      assert Handle(name, args, respond) == CreateIssueTool(args, respond);
    } else {
      assert Handle(name, args, respond) == CreatePullRequest(args, respond);
    }
  }

  /** The repository example: `{}` is refused with this exact message. */
  lemma EmptyCreateRepositoryRefused(respond: Call -> Reply)
    ensures Handle("create_repository", Obj(map[]), respond) ==
      Run(Error(InternalError, "Failed to create repository: " + "Invalid arguments: name is required"), [])
  {
    assert Handle("create_repository", Obj(map[]), respond) == CreateRepository(Obj(map[]), respond);
    assert !IsCreateRepositoryArgs(Obj(map[]));
  }

  /**
   * list_repositories validates nothing and issues exactly one call; `per_page`
   * and `page` take the catalog's defaults when absent or null, and are passed
   * through unchanged otherwise (so 0, or even a string, is forwarded).
   */
  lemma ListRepositoriesDefaults(args: Value, respond: Call -> Reply)
    ensures var calls := Handle("list_repositories", args, respond).calls;
      && |calls| == 1 && calls[0].ListForAuthenticatedUser?
      && (Field(args, "per_page") in {None, Some(Null)} ==> Some(calls[0].perPage) == DefaultOf(LIST_REPOSITORIES, "per_page"))
      && (Field(args, "page") in {None, Some(Null)} ==> Some(calls[0].page) == DefaultOf(LIST_REPOSITORIES, "page"))
      && (Field(args, "per_page") !in {None, Some(Null)} ==> Some(calls[0].perPage) == Field(args, "per_page"))
      && (Field(args, "page") !in {None, Some(Null)} ==> Some(calls[0].page) == Field(args, "page"))
  {
  }

  lemma ListRepositoriesExamples(respond: Call -> Reply)
    ensures Handle("list_repositories", Obj(map[]), respond).calls == [ListForAuthenticatedUser(Num(30.0), Num(1.0))]
    ensures Handle("list_repositories", Obj(map["per_page" := Num(0.0), "page" := Null]), respond).calls
      == [ListForAuthenticatedUser(Num(0.0), Num(1.0))]
  {
  }

  /**
   * create_repository forwards `name` and `description` as given and
   * substitutes the catalog's defaults (`private` false, `auto_init` true) only
   * for absent fields; an explicit `auto_init: false` stays false.
   */
  lemma CreateRepositoryCallFields(m: map<string, Value>, respond: Call -> Reply)
    requires IsCreateRepositoryArgs(Obj(m))
    ensures var calls := Handle("create_repository", Obj(m), respond).calls;
      && |calls| == 1 && calls[0].CreateForAuthenticatedUser?
      && Str(calls[0].name) == m["name"]
      && (calls[0].description.Some? <==> "description" in m)
      && ("description" in m ==> Str(calls[0].description.value) == m["description"])
      && ("private" in m ==> Bool(calls[0].private) == m["private"])
      && ("private" !in m ==> Some(Bool(calls[0].private)) == DefaultOf(CREATE_REPOSITORY, "private"))
      && ("auto_init" in m ==> Bool(calls[0].autoInit) == m["auto_init"])
      && ("auto_init" !in m ==> Some(Bool(calls[0].autoInit)) == DefaultOf(CREATE_REPOSITORY, "auto_init"))
  {
  }

  /**
   * create_branch first resolves `heads/<from>` (`from` defaulting to the
   * catalog's "main"); only if that call succeeds and its data holds an
   * `object` does it issue create-ref on `refs/heads/<branch>` in the same
   * repository, with the SHA read from the first reply.
   */
  lemma CreateBranchCallOrder(m: map<string, Value>, respond: Call -> Reply)
    requires IsCreateBranchArgs(Obj(m))
    ensures var calls := Handle("create_branch", Obj(m), respond).calls;
      var from := if "from" in m then m["from"] else DefaultOf(CREATE_BRANCH, "from").value;
      && 1 <= |calls| <= 2
      && calls[0] == GetRef(m["owner"].s, m["repo"].s, "heads/" + from.s)
      && (|calls| == 2 <==> respond(calls[0]).Data? && ShaOf(respond(calls[0]).data).Success?)
      && (|calls| == 2 ==>
            calls[1] == CreateRef(m["owner"].s, m["repo"].s, "refs/heads/" + m["branch"].s,
                                  ShaOf(respond(calls[0]).data).value))
  {
  }

  /** When get-ref fails, create-ref is never issued and the failure is reported. */
  lemma CreateBranchGetRefFails(args: Value, respond: Call -> Reply)
    requires IsCreateBranchArgs(args)
    ensures var r := Handle("create_branch", args, respond);
      respond(r.calls[0]).Rejected? ==>
        r == Run(Error(InternalError, "Failed to create branch: " + respond(r.calls[0]).message), [r.calls[0]])
  {
  }

  /** A get-ref reply whose `object.sha` is a string passes that string on. */
  lemma CreateBranchUsesSha(args: Value, respond: Call -> Reply, sha: string, rest: map<string, Value>, obj: map<string, Value>)
    requires IsCreateBranchArgs(args)
    requires respond(Handle("create_branch", args, respond).calls[0]) == Data(Obj(rest["object" := Obj(obj["sha" := Str(sha)])]))
    ensures var calls := Handle("create_branch", args, respond).calls;
      |calls| == 2 && calls[1].sha == Some(Str(sha))
  {
  }

  /** Reading `object.sha` off data that has no `object` throws V8's TypeError. */
  lemma ShaOfWithoutObject(rest: map<string, Value>)
    requires "object" !in rest
    ensures ShaOf(Obj(rest)) == Failure("Cannot read properties of undefined (reading 'sha')")
  {
    assert Member(Some(Obj(rest)), "object") == Success(None);
    assert "Cannot read properties of undefined (reading '" + "sha" + "')"
      == "Cannot read properties of undefined (reading 'sha')";
  }

  /** A get-ref reply without an `object` makes the SHA read throw, before create-ref. */
  lemma CreateBranchMissingObject(args: Value, respond: Call -> Reply, rest: map<string, Value>)
    requires IsCreateBranchArgs(args)
    requires "object" !in rest
    requires respond(Handle("create_branch", args, respond).calls[0]) == Data(Obj(rest))
    ensures var r := Handle("create_branch", args, respond);
      && |r.calls| == 1
      && r.response == Error(InternalError, "Failed to create branch: " + "Cannot read properties of undefined (reading 'sha')")
  {
    ShaOfWithoutObject(rest);
  }

  /**
   * create_file forwards owner, repo, path, message and branch unchanged and
   * the content as Base64 of its UTF-8 bytes; decoding both layers recovers
   * the caller's text, so no content is lost.
   */
  lemma CreateFileCallFields(m: map<string, Value>, respond: Call -> Reply)
    requires IsCreateFileArgs(Obj(m))
    ensures var calls := Handle("create_file", Obj(m), respond).calls;
      && |calls| == 1 && calls[0].CreateOrUpdateFileContents?
      && Str(calls[0].owner) == m["owner"] && Str(calls[0].repo) == m["repo"]
      && Str(calls[0].path) == m["path"] && Str(calls[0].message) == m["message"]
      && Str(calls[0].branch) == m["branch"]
      && Base64.Decode(calls[0].content) == Some(Utf8.Encode(m["content"].s))
      && Utf8.Decode(Utf8.Encode(m["content"].s)) == Some(m["content"].s)
  {
    var content := m["content"].s;
    Base64.DecodeEncode(Utf8.Encode(content));
    Utf8.DecodeEncode(content);
  }

  /** The worked example: "hello" is sent as "aGVsbG8=". */
  lemma CreateFileHelloExample()
    ensures Base64.Encode(Utf8.Encode("hello")) == "aGVsbG8="
  {
    Utf8.EncodeAscii("hello");
    var bytes := [104, 101, 108, 108, 111];
    assert Utf8.Encode("hello") == bytes;
    assert bytes[3..] == [108, 111];
    var symbols := [Base64.Digit(26), Base64.Digit(6), Base64.Digit(21), Base64.Digit(44),
                    Base64.Digit(27), Base64.Digit(6), Base64.Digit(60), Base64.Pad];
    assert Base64.Symbols(bytes) == symbols;
    var text := Base64.RenderAll(symbols);
    assert forall i :: 0 <= i < 8 ==> text[i] == "aGVsbG8="[i];
  }

  /** create_issue forwards its four fields unchanged. */
  lemma CreateIssueCallFields(m: map<string, Value>, respond: Call -> Reply)
    requires IsCreateIssueArgs(Obj(m))
    ensures Handle("create_issue", Obj(m), respond).calls ==
      [CreateIssue(m["owner"].s, m["repo"].s, m["title"].s, m["body"].s)]
  {
  }

  /**
   * create_pull_request forwards `base` as given: the guard has already
   * demanded it, so the "main" fallback is never used.
   */
  lemma CreatePullRequestCallFields(m: map<string, Value>, respond: Call -> Reply)
    requires IsCreatePullRequestArgs(Obj(m))
    ensures Handle("create_pull_request", Obj(m), respond).calls ==
      [CreatePull(m["owner"].s, m["repo"].s, m["title"].s, m["body"].s, m["head"].s, m["base"].s)]
  {
  }

  /** A pull request without `base`, as the schema permits, is refused and nothing is sent. */
  lemma PullRequestWithoutBaseRefused(respond: Call -> Reply)
    ensures var args := Obj(map["owner" := Str("o"), "repo" := Str("r"), "title" := Str("t"),
                                "body" := Str("b"), "head" := Str("feature")]);
      Handle("create_pull_request", args, respond) ==
        Run(Error(InternalError, "Failed to create pull request: " + INVALID_PULL_REQUEST), [])
  {
  }

  /**
   * The envelope's failure side (its result side is a postcondition of
   * Handle): a rejected last call surfaces as InternalError
   * "Failed to <operation>: " followed by the rejection's message.
   */
  lemma RejectionIsWrapped(name: string, args: Value, respond: Call -> Reply)
    ensures var r := Handle(name, args, respond);
      r.calls != [] && respond(r.calls[|r.calls| - 1]).Rejected? ==>
        r.response == Error(InternalError, FailurePrefix(name) + respond(r.calls[|r.calls| - 1]).message)
  {
    if name == "list_repositories" {
      assert Handle(name, args, respond) == ListRepositories(args, respond);
    } else if name == "create_repository" {
      assert Handle(name, args, respond) == CreateRepository(args, respond);
    } else if name == "create_branch" {
      assert Handle(name, args, respond) == CreateBranch(args, respond);
    } else if name == "create_file" {
      assert Handle(name, args, respond) == CreateFile(args, respond);
    } else if name == "create_issue" {
      assert Handle(name, args, respond) == CreateIssueTool(args, respond);
    } else if name == "create_pull_request" {
      assert Handle(name, args, respond) == CreatePullRequest(args, respond);
    } else {
      assert Handle(name, args, respond) == Run(Error(MethodNotFound, "Unknown tool"), []);
    }
  }
}
