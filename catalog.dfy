/**
 * The static tool catalog the server advertises on "list tools"
 * (src/index.ts:49-221): six tools, each with its declared properties (JSON
 * type and default) and its list of required properties. Human-readable
 * descriptions are not modelled.
 *
 * The lemmas at the end compare each input schema with the type guard that
 * the dispatcher applies to the same tool (src/types.ts).
 */
module Catalog {
  import opened Wrappers
  import opened Json
  import opened Types

  datatype Kind = StringKind | NumberKind | BooleanKind

  datatype Property = Property(name: string, kind: Kind, default: Option<Value>)

  datatype Tool = Tool(name: string, properties: seq<Property>, required: seq<string>)

  const LIST_REPOSITORIES := Tool("list_repositories",
    [Property("per_page", NumberKind, Some(Num(30.0))),
     Property("page", NumberKind, Some(Num(1.0)))],
    [])

  const CREATE_REPOSITORY := Tool("create_repository",
    [Property("name", StringKind, None),
     Property("description", StringKind, None),
     Property("private", BooleanKind, Some(Bool(false))),
     Property("auto_init", BooleanKind, Some(Bool(true)))],
    ["name"])

  const CREATE_BRANCH := Tool("create_branch",
    [Property("owner", StringKind, None),
     Property("repo", StringKind, None),
     Property("branch", StringKind, None),
     Property("from", StringKind, Some(Str("main")))],
    ["owner", "repo", "branch"])

  const CREATE_FILE := Tool("create_file",
    [Property("owner", StringKind, None),
     Property("repo", StringKind, None),
     Property("path", StringKind, None),
     Property("content", StringKind, None),
     Property("message", StringKind, None),
     Property("branch", StringKind, None)],
    ["owner", "repo", "path", "content", "message", "branch"])

  const CREATE_ISSUE := Tool("create_issue",
    [Property("owner", StringKind, None),
     Property("repo", StringKind, None),
     Property("title", StringKind, None),
     Property("body", StringKind, None)],
    ["owner", "repo", "title", "body"])

  const CREATE_PULL_REQUEST := Tool("create_pull_request",
    [Property("owner", StringKind, None),
     Property("repo", StringKind, None),
     Property("title", StringKind, None),
     Property("body", StringKind, None),
     Property("head", StringKind, None),
     Property("base", StringKind, Some(Str("main")))],
    ["owner", "repo", "title", "body", "head"])

  /** The "list tools" response, the same on every call. */
  const TOOLS: seq<Tool> :=
    [LIST_REPOSITORIES, CREATE_REPOSITORY, CREATE_BRANCH, CREATE_FILE, CREATE_ISSUE, CREATE_PULL_REQUEST]

  /** The catalog entry with the given name, if any. */
  function Find(name: string): (r: Option<Tool>)
    ensures r.Some? <==> exists i :: 0 <= i < |TOOLS| && TOOLS[i].name == name
    ensures r.Some? ==> r.value in TOOLS && r.value.name == name
  {
    FindIn(TOOLS, name)
  }

  function FindIn(tools: seq<Tool>, name: string): (r: Option<Tool>)
    ensures r.Some? <==> exists i :: 0 <= i < |tools| && tools[i].name == name
    ensures r.Some? ==> r.value in tools && r.value.name == name
  {
    if tools == [] then None
    else if tools[0].name == name then Some(tools[0])
    else FindIn(tools[1..], name)
  }

  /** The declared default of a property, if the tool declares the property and a default for it. */
  function DefaultOf(t: Tool, key: string): Option<Value>
  {
    DefaultIn(t.properties, key)
  }

  function DefaultIn(props: seq<Property>, key: string): Option<Value>
  {
    if props == [] then None
    else if props[0].name == key then props[0].default
    else DefaultIn(props[1..], key)
  }

  predicate HasKind(v: Value, k: Kind)
  {
    match k
    case StringKind => v.Str?
    case NumberKind => v.Num?
    case BooleanKind => v.Bool?
  }

  /**
   * An argument map conforms to a tool's input schema when every required
   * property is present and every declared property that is present has its
   * declared type. Undeclared properties are allowed.
   */
  predicate Conforms(m: map<string, Value>, t: Tool)
  {
    && (forall k :: k in t.required ==> k in m)
    && (forall p :: p in t.properties && p.name in m ==> HasKind(m[p.name], p.kind))
  }

  /** Tool names are unique, so a name picks at most one catalog entry. */
  lemma NamesUnique()
    ensures forall i, j :: 0 <= i < j < |TOOLS| ==> TOOLS[i].name != TOOLS[j].name
  {
  }

  /** The catalog advertises exactly these six names. */
  lemma AdvertisedNames(name: string)
    ensures Find(name).Some? <==>
      name in ["list_repositories", "create_repository", "create_branch",
               "create_file", "create_issue", "create_pull_request"]
  {
    var names := ["list_repositories", "create_repository", "create_branch",
                  "create_file", "create_issue", "create_pull_request"];
    assert |TOOLS| == |names| == 6;
    assert forall i :: 0 <= i < 6 ==> TOOLS[i].name == names[i];
    if name in names {
      var i :| 0 <= i < 6 && names[i] == name;
      assert TOOLS[i].name == name;
    }
  }

  // Schema and guard agree on create_repository, create_branch, create_file
  // and create_issue: the guard accepts an object exactly when it conforms to
  // the advertised input schema.

  lemma CreateRepositorySchemaIsGuard(m: map<string, Value>)
    ensures IsCreateRepositoryArgs(Obj(m)) <==> Conforms(m, CREATE_REPOSITORY)
  {
    CreateRepositorySchema(m);
  }

  /** What conforming to the create_repository schema amounts to. */
  lemma CreateRepositorySchema(m: map<string, Value>)
    ensures Conforms(m, CREATE_REPOSITORY) <==>
      && HasString(m, "name") && AbsentOrString(m, "description")
      && AbsentOrBool(m, "private") && AbsentOrBool(m, "auto_init")
  {
  }

  lemma CreateBranchSchemaIsGuard(m: map<string, Value>)
    ensures IsCreateBranchArgs(Obj(m)) <==> Conforms(m, CREATE_BRANCH)
  {
    CreateBranchSchema(m);
  }

  /** What conforming to the create_branch schema amounts to. */
  lemma CreateBranchSchema(m: map<string, Value>)
    ensures Conforms(m, CREATE_BRANCH) <==>
      && HasString(m, "owner") && HasString(m, "repo") && HasString(m, "branch")
      && AbsentOrString(m, "from")
  {
  }

  lemma CreateFileSchemaIsGuard(m: map<string, Value>)
    ensures IsCreateFileArgs(Obj(m)) <==> Conforms(m, CREATE_FILE)
  {
    CreateFileSchema(m);
  }

  /** What conforming to the create_file schema amounts to. */
  lemma CreateFileSchema(m: map<string, Value>)
    ensures Conforms(m, CREATE_FILE) <==>
      && HasString(m, "owner") && HasString(m, "repo") && HasString(m, "path")
      && HasString(m, "content") && HasString(m, "message") && HasString(m, "branch")
  {
  }

  lemma CreateIssueSchemaIsGuard(m: map<string, Value>)
    ensures IsCreateIssueArgs(Obj(m)) <==> Conforms(m, CREATE_ISSUE)
  {
    CreateIssueSchema(m);
  }

  /** What conforming to the create_issue schema amounts to. */
  lemma CreateIssueSchema(m: map<string, Value>)
    ensures Conforms(m, CREATE_ISSUE) <==>
      && HasString(m, "owner") && HasString(m, "repo") && HasString(m, "title")
      && HasString(m, "body")
  {
  }

  /**
   * For create_pull_request the guard demands one property more than the
   * schema: `base`, which the schema declares optional with default "main".
   */
  lemma PullRequestGuardAlsoRequiresBase(m: map<string, Value>)
    ensures IsCreatePullRequestArgs(Obj(m)) <==> Conforms(m, CREATE_PULL_REQUEST) && "base" in m
  {
    PullRequestSchema(m);
  }

  /** What conforming to the create_pull_request schema amounts to. */
  lemma PullRequestSchema(m: map<string, Value>)
    ensures Conforms(m, CREATE_PULL_REQUEST) <==>
      && HasString(m, "owner") && HasString(m, "repo") && HasString(m, "title")
      && HasString(m, "body") && HasString(m, "head") && AbsentOrString(m, "base")
  {
  }

  /** So an argument bag the schema allows, without `base`, is refused by the guard. */
  lemma PullRequestWithoutBaseConformsButIsRefused()
    ensures var m := map["owner" := Str("o"), "repo" := Str("r"), "title" := Str("t"),
                         "body" := Str("b"), "head" := Str("feature")];
      Conforms(m, CREATE_PULL_REQUEST) && !IsCreatePullRequestArgs(Obj(m))
  {
  }
}
