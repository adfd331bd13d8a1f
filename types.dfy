/**
 * The argument records of the six tools and the five runtime type guards
 * that narrow an untyped argument bag to one of them (src/types.ts).
 *
 * Each guard is written as the source writes it, over JavaScript's `!`,
 * `typeof` and property reads; its postcondition says what it accepts in
 * plain terms of the argument map: required keys present with a string,
 * optional keys absent or of their declared type. Only absence counts as
 * "not supplied": a present `null` is neither `undefined` nor a string.
 */
module Types {
  import opened Wrappers
  import opened Json

  // The argument records (src/types.ts:2-44). `?` fields are Options.

  /** Never produced by a guard: the server casts it without checking. */
  datatype ListRepositoriesArgs = ListRepositoriesArgs(perPage: Option<Value>, page: Option<Value>)

  datatype CreateRepositoryArgs = CreateRepositoryArgs(
    name: string, description: Option<string>, private: Option<bool>, autoInit: Option<bool>)

  datatype CreateBranchArgs = CreateBranchArgs(owner: string, repo: string, branch: string, from: Option<string>)

  datatype CreateFileArgs = CreateFileArgs(
    owner: string, repo: string, path: string, content: string, message: string, branch: string)

  datatype CreateIssueArgs = CreateIssueArgs(owner: string, repo: string, title: string, body: string)

  datatype CreatePullRequestArgs = CreatePullRequestArgs(
    owner: string, repo: string, title: string, body: string, head: string, base: string)

  // Plain statements about an argument map, used by the guards' contracts.

  predicate HasString(m: map<string, Value>, k: string) { k in m && m[k].Str? }
  predicate AbsentOrString(m: map<string, Value>, k: string) { k !in m || m[k].Str? }
  predicate AbsentOrBool(m: map<string, Value>, k: string) { k !in m || m[k].Bool? }

  // The shared parts of every guard, in the source's own operators.

  /** `!args || typeof args !== 'object'`: the early `return false`. */
  predicate NotObject(v: Value) { !Truthy(v) || TypeOf(v) != "object" }

  /** `typeof a.k === 'string'` */
  predicate IsStringField(v: Value, k: string) { TypeOfProp(Field(v, k)) == "string" }

  /** `a.k === undefined || typeof a.k === ty` */
  predicate UndefinedOr(v: Value, k: string, ty: string) { Field(v, k).None? || TypeOfProp(Field(v, k)) == ty }

  /** isCreateRepositoryArgs (src/types.ts:47-56) */
  predicate IsCreateRepositoryArgs(v: Value): (r: bool)
    ensures r <==>
      && v.Obj?
      && HasString(v.fields, "name")
      && AbsentOrString(v.fields, "description")
      && AbsentOrBool(v.fields, "private")
      && AbsentOrBool(v.fields, "auto_init")
  {
    if NotObject(v) then false
    else
      && IsStringField(v, "name")
      && UndefinedOr(v, "description", "string")
      && UndefinedOr(v, "private", "boolean")
      && UndefinedOr(v, "auto_init", "boolean")
  }

  /** isCreateBranchArgs (src/types.ts:58-67) */
  predicate IsCreateBranchArgs(v: Value): (r: bool)
    ensures r <==>
      && v.Obj?
      && HasString(v.fields, "owner")
      && HasString(v.fields, "repo")
      && HasString(v.fields, "branch")
      && AbsentOrString(v.fields, "from")
  {
    if NotObject(v) then false
    else
      && IsStringField(v, "owner")
      && IsStringField(v, "repo")
      && IsStringField(v, "branch")
      && UndefinedOr(v, "from", "string")
  }

  /** isCreateFileArgs (src/types.ts:69-80) */
  predicate IsCreateFileArgs(v: Value): (r: bool)
    ensures r <==>
      && v.Obj?
      && HasString(v.fields, "owner")
      && HasString(v.fields, "repo")
      && HasString(v.fields, "path")
      && HasString(v.fields, "content")
      && HasString(v.fields, "message")
      && HasString(v.fields, "branch")
  {
    if NotObject(v) then false
    else
      && IsStringField(v, "owner")
      && IsStringField(v, "repo")
      && IsStringField(v, "path")
      && IsStringField(v, "content")
      && IsStringField(v, "message")
      && IsStringField(v, "branch")
  }

  /** isCreateIssueArgs (src/types.ts:82-91) */
  predicate IsCreateIssueArgs(v: Value): (r: bool)
    ensures r <==>
      && v.Obj?
      && HasString(v.fields, "owner")
      && HasString(v.fields, "repo")
      && HasString(v.fields, "title")
      && HasString(v.fields, "body")
  {
    if NotObject(v) then false
    else
      && IsStringField(v, "owner")
      && IsStringField(v, "repo")
      && IsStringField(v, "title")
      && IsStringField(v, "body")
  }

  /** isCreatePullRequestArgs (src/types.ts:93-104): `base` is required here. */
  predicate IsCreatePullRequestArgs(v: Value): (r: bool)
    ensures r <==>
      && v.Obj?
      && HasString(v.fields, "owner")
      && HasString(v.fields, "repo")
      && HasString(v.fields, "title")
      && HasString(v.fields, "body")
      && HasString(v.fields, "head")
      && HasString(v.fields, "base")
  {
    if NotObject(v) then false
    else
      && IsStringField(v, "owner")
      && IsStringField(v, "repo")
      && IsStringField(v, "title")
      && IsStringField(v, "body")
      && IsStringField(v, "head")
      && IsStringField(v, "base")
  }

  // The narrowed views: what `args is T` lets the server read afterwards.

  function OptString(m: map<string, Value>, k: string): Option<string>
  {
    if k in m && m[k].Str? then Some(m[k].s) else None
  }

  function OptBool(m: map<string, Value>, k: string): Option<bool>
  {
    if k in m && m[k].Bool? then Some(m[k].b) else None
  }

  /** The unchecked cast `arguments as ListRepositoriesArgs | undefined`. */
  function AsListRepositoriesArgs(v: Value): ListRepositoriesArgs
  {
    ListRepositoriesArgs(Field(v, "per_page"), Field(v, "page"))
  }

  function AsCreateRepositoryArgs(v: Value): (a: CreateRepositoryArgs)
    requires IsCreateRepositoryArgs(v)
    ensures Str(a.name) == v.fields["name"]
    ensures a.description.Some? <==> "description" in v.fields
    ensures a.description.Some? ==> v.fields["description"] == Str(a.description.value)
    ensures a.private.Some? <==> "private" in v.fields
    ensures a.private.Some? ==> v.fields["private"] == Bool(a.private.value)
    ensures a.autoInit.Some? <==> "auto_init" in v.fields
    ensures a.autoInit.Some? ==> v.fields["auto_init"] == Bool(a.autoInit.value)
  {
    var m := v.fields;
    CreateRepositoryArgs(m["name"].s, OptString(m, "description"), OptBool(m, "private"), OptBool(m, "auto_init"))
  }

  function AsCreateBranchArgs(v: Value): (a: CreateBranchArgs)
    requires IsCreateBranchArgs(v)
    ensures Str(a.owner) == v.fields["owner"] && Str(a.repo) == v.fields["repo"]
    ensures Str(a.branch) == v.fields["branch"]
    ensures a.from.Some? <==> "from" in v.fields
    ensures a.from.Some? ==> v.fields["from"] == Str(a.from.value)
  {
    var m := v.fields;
    CreateBranchArgs(m["owner"].s, m["repo"].s, m["branch"].s, OptString(m, "from"))
  }

  function AsCreateFileArgs(v: Value): (a: CreateFileArgs)
    requires IsCreateFileArgs(v)
    ensures Str(a.owner) == v.fields["owner"] && Str(a.repo) == v.fields["repo"]
    ensures Str(a.path) == v.fields["path"] && Str(a.content) == v.fields["content"]
    ensures Str(a.message) == v.fields["message"] && Str(a.branch) == v.fields["branch"]
  {
    var m := v.fields;
    CreateFileArgs(m["owner"].s, m["repo"].s, m["path"].s, m["content"].s, m["message"].s, m["branch"].s)
  }

  function AsCreateIssueArgs(v: Value): (a: CreateIssueArgs)
    requires IsCreateIssueArgs(v)
    ensures Str(a.owner) == v.fields["owner"] && Str(a.repo) == v.fields["repo"]
    ensures Str(a.title) == v.fields["title"] && Str(a.body) == v.fields["body"]
  {
    var m := v.fields;
    CreateIssueArgs(m["owner"].s, m["repo"].s, m["title"].s, m["body"].s)
  }

  function AsCreatePullRequestArgs(v: Value): (a: CreatePullRequestArgs)
    requires IsCreatePullRequestArgs(v)
    ensures Str(a.owner) == v.fields["owner"] && Str(a.repo) == v.fields["repo"]
    ensures Str(a.title) == v.fields["title"] && Str(a.body) == v.fields["body"]
    ensures Str(a.head) == v.fields["head"] && Str(a.base) == v.fields["base"]
  {
    var m := v.fields;
    CreatePullRequestArgs(m["owner"].s, m["repo"].s, m["title"].s, m["body"].s, m["head"].s, m["base"].s)
  }

  // The records written back as JSON objects: every value of an interface
  // passes its guard and reads back as itself.

  function WithString(m: map<string, Value>, k: string, s: Option<string>): map<string, Value>
  {
    if s.Some? then m[k := Str(s.value)] else m
  }

  function WithBool(m: map<string, Value>, k: string, b: Option<bool>): map<string, Value>
  {
    if b.Some? then m[k := Bool(b.value)] else m
  }

  function CreateRepositoryValue(a: CreateRepositoryArgs): (v: Value)
    ensures IsCreateRepositoryArgs(v) && AsCreateRepositoryArgs(v) == a
  {
    Obj(WithBool(WithBool(WithString(map["name" := Str(a.name)], "description", a.description),
      "private", a.private), "auto_init", a.autoInit))
  }

  function CreateBranchValue(a: CreateBranchArgs): (v: Value)
    ensures IsCreateBranchArgs(v) && AsCreateBranchArgs(v) == a
  {
    Obj(WithString(map["owner" := Str(a.owner), "repo" := Str(a.repo), "branch" := Str(a.branch)], "from", a.from))
  }

  function CreateFileValue(a: CreateFileArgs): (v: Value)
    ensures IsCreateFileArgs(v) && AsCreateFileArgs(v) == a
  {
    Obj(map["owner" := Str(a.owner), "repo" := Str(a.repo), "path" := Str(a.path),
            "content" := Str(a.content), "message" := Str(a.message), "branch" := Str(a.branch)])
  }

  function CreateIssueValue(a: CreateIssueArgs): (v: Value)
    ensures IsCreateIssueArgs(v) && AsCreateIssueArgs(v) == a
  {
    Obj(map["owner" := Str(a.owner), "repo" := Str(a.repo), "title" := Str(a.title), "body" := Str(a.body)])
  }

  function CreatePullRequestValue(a: CreatePullRequestArgs): (v: Value)
    ensures IsCreatePullRequestArgs(v) && AsCreatePullRequestArgs(v) == a
  {
    Obj(map["owner" := Str(a.owner), "repo" := Str(a.repo), "title" := Str(a.title),
            "body" := Str(a.body), "head" := Str(a.head), "base" := Str(a.base)])
  }

  // What the guards look at.

  const CREATE_REPOSITORY_KEYS: set<string> := {"name", "description", "private", "auto_init"}
  const CREATE_BRANCH_KEYS: set<string> := {"owner", "repo", "branch", "from"}
  const CREATE_FILE_KEYS: set<string> := {"owner", "repo", "path", "content", "message", "branch"}
  const CREATE_ISSUE_KEYS: set<string> := {"owner", "repo", "title", "body"}
  const CREATE_PULL_REQUEST_KEYS: set<string> := {"owner", "repo", "title", "body", "head", "base"}

  /** No guard accepts anything but an object: null, booleans, numbers, strings and arrays are all refused. */
  lemma GuardsRejectNonObjects(v: Value)
    requires !v.Obj?
    ensures !IsCreateRepositoryArgs(v) && !IsCreateBranchArgs(v) && !IsCreateFileArgs(v)
    ensures !IsCreateIssueArgs(v) && !IsCreatePullRequestArgs(v)
  {
  }

  /** Setting or removing a key a guard does not name never changes its verdict. */
  lemma GuardsIgnoreOtherKeys(m: map<string, Value>, k: string, x: Value)
    ensures k !in CREATE_REPOSITORY_KEYS ==>
      IsCreateRepositoryArgs(Obj(m[k := x])) == IsCreateRepositoryArgs(Obj(m)) == IsCreateRepositoryArgs(Obj(m - {k}))
    ensures k !in CREATE_BRANCH_KEYS ==>
      IsCreateBranchArgs(Obj(m[k := x])) == IsCreateBranchArgs(Obj(m)) == IsCreateBranchArgs(Obj(m - {k}))
    ensures k !in CREATE_FILE_KEYS ==>
      IsCreateFileArgs(Obj(m[k := x])) == IsCreateFileArgs(Obj(m)) == IsCreateFileArgs(Obj(m - {k}))
    ensures k !in CREATE_ISSUE_KEYS ==>
      IsCreateIssueArgs(Obj(m[k := x])) == IsCreateIssueArgs(Obj(m)) == IsCreateIssueArgs(Obj(m - {k}))
    ensures k !in CREATE_PULL_REQUEST_KEYS ==>
      IsCreatePullRequestArgs(Obj(m[k := x])) == IsCreatePullRequestArgs(Obj(m)) == IsCreatePullRequestArgs(Obj(m - {k}))
  {
    if k !in CREATE_REPOSITORY_KEYS {
      CreateRepositoryIgnoresOtherKeys(m, k, x);
    }
    if k !in CREATE_BRANCH_KEYS {
      CreateBranchIgnoresOtherKeys(m, k, x);
    }
    if k !in CREATE_FILE_KEYS {
      CreateFileIgnoresOtherKeys(m, k, x);
    }
    if k !in CREATE_ISSUE_KEYS {
      CreateIssueIgnoresOtherKeys(m, k, x);
    }
    if k !in CREATE_PULL_REQUEST_KEYS {
      CreatePullRequestIgnoresOtherKeys(m, k, x);
    }
  }

  lemma CreateRepositoryIgnoresOtherKeys(m: map<string, Value>, k: string, x: Value)
    requires k !in CREATE_REPOSITORY_KEYS
    ensures IsCreateRepositoryArgs(Obj(m[k := x])) == IsCreateRepositoryArgs(Obj(m)) == IsCreateRepositoryArgs(Obj(m - {k}))
  {
  }

  lemma CreateBranchIgnoresOtherKeys(m: map<string, Value>, k: string, x: Value)
    requires k !in CREATE_BRANCH_KEYS
    ensures IsCreateBranchArgs(Obj(m[k := x])) == IsCreateBranchArgs(Obj(m)) == IsCreateBranchArgs(Obj(m - {k}))
  {
  }

  lemma CreateFileIgnoresOtherKeys(m: map<string, Value>, k: string, x: Value)
    requires k !in CREATE_FILE_KEYS
    ensures IsCreateFileArgs(Obj(m[k := x])) == IsCreateFileArgs(Obj(m)) == IsCreateFileArgs(Obj(m - {k}))
  {
  }

  lemma CreateIssueIgnoresOtherKeys(m: map<string, Value>, k: string, x: Value)
    requires k !in CREATE_ISSUE_KEYS
    ensures IsCreateIssueArgs(Obj(m[k := x])) == IsCreateIssueArgs(Obj(m)) == IsCreateIssueArgs(Obj(m - {k}))
  {
  }

  lemma CreatePullRequestIgnoresOtherKeys(m: map<string, Value>, k: string, x: Value)
    requires k !in CREATE_PULL_REQUEST_KEYS
    ensures IsCreatePullRequestArgs(Obj(m[k := x])) == IsCreatePullRequestArgs(Obj(m)) == IsCreatePullRequestArgs(Obj(m - {k}))
  {
  }

  /**
   * An optional field that is present counts as supplied: `null` or a value of
   * the wrong type makes the guard refuse, whatever the other fields hold.
   */
  lemma PresentOptionalMustBeTyped(m: map<string, Value>, x: Value)
    ensures !x.Str? ==> !IsCreateRepositoryArgs(Obj(m["description" := x]))
    ensures !x.Bool? ==> !IsCreateRepositoryArgs(Obj(m["private" := x]))
    ensures !x.Bool? ==> !IsCreateRepositoryArgs(Obj(m["auto_init" := x]))
    ensures !x.Str? ==> !IsCreateBranchArgs(Obj(m["from" := x]))
  {
  }

  /** An optional field can always be left out, and its absence is never the reason for a refusal. */
  lemma OptionalMayBeAbsent(m: map<string, Value>)
    ensures IsCreateRepositoryArgs(Obj(m)) ==>
      IsCreateRepositoryArgs(Obj(m - {"description"})) && IsCreateRepositoryArgs(Obj(m - {"private"}))
      && IsCreateRepositoryArgs(Obj(m - {"auto_init"}))
    ensures IsCreateBranchArgs(Obj(m)) ==> IsCreateBranchArgs(Obj(m - {"from"}))
  {
  }
}
