# GitHub MCP server: tool catalog, argument guards and call dispatch

This project models the core of a small Model Context Protocol server that
exposes six GitHub operations as "tools": `list_repositories`,
`create_repository`, `create_branch`, `create_file`, `create_issue` and
`create_pull_request`. It proves properties of that model in Dafny.

The model has three parts.

- **Argument guards** (`Types`, from `src/types.ts`). The five runtime type
  guards are written over a JSON `Value`, using JavaScript's `!`, `typeof`
  and property reads (`Json`). Each guard's contract says in plain terms
  which argument maps it accepts. Typed views (`As*Args`) and encoders
  (`*Value`) give a round trip between an argument record and an accepted map.
  The guards are predicates, so they cannot modify their input.
- **The catalog** (`Catalog`, from `src/index.ts:49-221`). This is the
  "list tools" answer: each tool's properties, with their JSON type and
  default, and its required list. Lemmas compare each schema with the guard
  the dispatcher applies to the same tool.
- **The "call tool" handler** (`Dispatch`, from `src/index.ts:224-428`).
  - `Handle(name, args, respond)` says what one request does, given how the
    remote side answers each call: the response (a result, or the error
    thrown) and the remote calls issued, in order.
  - `CallTool` performs the same steps on a `FakeClient` (`Remote`). That
    object logs every issued call in its `calls` field. `CallTool` is proved
    to return `Handle`'s response and to append exactly `Handle`'s calls.
  - `DispatchProperties` states what the handler does, tool by tool.
- **Content encoding** (`Utf8` and `Base64`). `create_file` sends its
  content as Base64 of its UTF-8 bytes.
  - `Utf8` encodes Unicode scalar values and decodes strictly, with
    overlong forms refused.
  - `Base64` is the codec of section 4 of RFC 4648, with `=` padding and
    strict decoding.
  - Both come with round-trip proofs. For Base64 the proofs cover both
    directions, and `DecodeIff` shows that decoding succeeds exactly on
    encoder outputs.

Where the code and the documented design differ, the model follows the code:

- **Refused arguments are InternalError, not InvalidParams.** Each guarded
  tool's guard throws `InvalidParams`, but it throws inside the same `try`
  whose `catch` re-throws every error as `InternalError` "Failed to
  <operation>: <message>". So a refused argument bag surfaces as
  InternalError (`RefusedArgumentsIssueNoCall`, `KnownNameErrorsAreInternal`).
  No request ever answers InvalidParams (`Dispatch.Handle`).
- **`create_pull_request` requires `base`.** The catalog declares `base`
  optional with default "main", but the guard requires a string `base`
  (`src/types.ts:102`). Arguments without `base` conform to the schema yet
  are refused, and the `?? "main"` fallback at `src/index.ts:406` is never
  reached (`PullRequestGuardAlsoRequiresBase`,
  `PullRequestWithoutBaseConformsButIsRefused`,
  `PullRequestWithoutBaseRefused`).

Modelling choices:

- **JavaScript `undefined`.** Neither JSON nor the argument map can hold a
  present `undefined`. An absent property is `None`, and an absent
  `arguments` behaves as `null` in every branch.
- **Error messages.** An error's message is the text passed to the
  `McpError` constructor.
- **The SHA read.** The read `baseRef.data.object.sha` is modelled with
  JavaScript's member access (`Json.Member`). It throws V8's TypeError text
  when `data` or `data.object` is undefined or null.

## Model

| member | source | states |
|---|---|---|
| Types.IsCreateRepositoryArgs | src/types.ts:47-56 | accepts exactly the objects whose `name` is a string, whose `description` is absent or a string, and whose `private` and `auto_init` are each absent or a boolean |
| Types.IsCreateBranchArgs | src/types.ts:58-67 | accepts exactly the objects whose `owner`, `repo` and `branch` are strings and whose `from` is absent or a string |
| Types.IsCreateFileArgs | src/types.ts:69-80 | accepts exactly the objects whose `owner`, `repo`, `path`, `content`, `message` and `branch` are all strings |
| Types.IsCreateIssueArgs | src/types.ts:82-91 | accepts exactly the objects whose `owner`, `repo`, `title` and `body` are strings |
| Types.IsCreatePullRequestArgs | src/types.ts:93-104 | accepts exactly the objects whose six fields, `base` included, are strings |
| Types.AsCreateRepositoryArgs | src/types.ts:7-12 | the typed view of an accepted map: `name` is the map's string, and each optional field is present exactly when its key is |
| Types.AsCreateBranchArgs | src/types.ts:14-19 | the typed view of an accepted map; `from` is present exactly when its key is |
| Types.AsCreateFileArgs | src/types.ts:21-28 | the typed view of an accepted map: each field is the map's string |
| Types.AsCreateIssueArgs | src/types.ts:30-35 | the typed view of an accepted map: each field is the map's string |
| Types.AsCreatePullRequestArgs | src/types.ts:37-44 | the typed view of an accepted map: each field is the map's string |
| Types.AsListRepositoriesArgs | src/index.ts:228 | the unchecked cast: no contract of its own; `DispatchProperties.ListRepositoriesDefaults` proves that the list call reads `per_page` and `page` from the argument bag as given |
| Types.CreateRepositoryValue | src/types.ts:7-12 | every record has a map that the guard accepts and whose typed view is that record |
| Types.CreateBranchValue | src/types.ts:14-19 | every record has a map that the guard accepts and whose typed view is that record |
| Types.CreateFileValue | src/types.ts:21-28 | every record has a map that the guard accepts and whose typed view is that record |
| Types.CreateIssueValue | src/types.ts:30-35 | every record has a map that the guard accepts and whose typed view is that record |
| Types.CreatePullRequestValue | src/types.ts:37-44 | every record has a map that the guard accepts and whose typed view is that record |
| Types.GuardsRejectNonObjects | src/types.ts:48 | no guard accepts null, a boolean, a number, a string or an array |
| Types.GuardsIgnoreOtherKeys | src/types.ts:47-104 | setting or removing a key that a guard does not name never changes that guard's verdict |
| Types.CreateRepositoryIgnoresOtherKeys | src/types.ts:47-56 | keys other than the four named ones do not affect the create-repository guard |
| Types.CreateBranchIgnoresOtherKeys | src/types.ts:58-67 | keys other than the four named ones do not affect the create-branch guard |
| Types.CreateFileIgnoresOtherKeys | src/types.ts:69-80 | keys other than the six named ones do not affect the create-file guard |
| Types.CreateIssueIgnoresOtherKeys | src/types.ts:82-91 | keys other than the four named ones do not affect the create-issue guard |
| Types.CreatePullRequestIgnoresOtherKeys | src/types.ts:93-104 | keys other than the six named ones do not affect the create-pull-request guard |
| Types.PresentOptionalMustBeTyped | src/types.ts:52-54 | a present optional field (`description`, `private`, `auto_init`, `from`) that is null or of the wrong type makes the guard refuse, whatever the other fields hold |
| Types.OptionalMayBeAbsent | src/types.ts:52-54 | removing an optional field from an accepted map keeps it accepted |
| Catalog.Find | src/index.ts:49-221 | a name is found exactly when some advertised tool has it, and the result is that tool |
| Catalog.TOOLS | src/index.ts:49-221 | the catalog constant; `Catalog.AdvertisedNames` and `Catalog.NamesUnique` prove it lists exactly the six tools, each name once |
| Catalog.Conforms | src/index.ts:54-218 | conformance to an input schema; the `*Schema` lemmas below spell out what it amounts to for each tool, and the `*SchemaIsGuard` lemmas compare it with the guards |
| Catalog.DefaultOf | src/index.ts:60-214 | a property's declared default; `DispatchProperties.ListRepositoriesDefaults` and `DispatchProperties.CreateRepositoryCallFields` prove that the handler substitutes exactly these defaults |
| Catalog.CreateRepositorySchema | src/index.ts:73-96 | conforming to the create_repository schema means a string `name`, `description` absent or a string, and `private` and `auto_init` absent or booleans |
| Catalog.CreateBranchSchema | src/index.ts:101-123 | conforming to the create_branch schema means string `owner`, `repo` and `branch`, and `from` absent or a string |
| Catalog.CreateFileSchema | src/index.ts:128-157 | conforming to the create_file schema means all six fields are strings |
| Catalog.CreateIssueSchema | src/index.ts:162-183 | conforming to the create_issue schema means all four fields are strings |
| Catalog.PullRequestSchema | src/index.ts:188-218 | conforming to the create_pull_request schema means five string fields and `base` absent or a string |
| Catalog.NamesUnique | src/index.ts:52-186 | no two advertised tools share a name |
| Catalog.AdvertisedNames | src/index.ts:52-186 | the catalog advertises exactly the six tool names |
| Catalog.CreateRepositorySchemaIsGuard | src/index.ts:73-96 | an argument map conforms to the create_repository schema exactly when the guard accepts it |
| Catalog.CreateBranchSchemaIsGuard | src/index.ts:101-123 | an argument map conforms to the create_branch schema exactly when the guard accepts it |
| Catalog.CreateFileSchemaIsGuard | src/index.ts:128-157 | an argument map conforms to the create_file schema exactly when the guard accepts it |
| Catalog.CreateIssueSchemaIsGuard | src/index.ts:162-183 | an argument map conforms to the create_issue schema exactly when the guard accepts it |
| Catalog.PullRequestGuardAlsoRequiresBase | src/index.ts:188-218 | the pull-request guard accepts exactly the conforming maps that also hold `base` |
| Catalog.PullRequestWithoutBaseConformsButIsRefused | src/index.ts:211-217 | a map without `base` that the schema allows is refused by the guard |
| Remote.FakeClient.Issue | src/index.ts:232-235 | issuing a call appends it to the log and returns the remote side's reply to it |
| Dispatch.Await | src/index.ts:232 | an awaited call: no contract of its own; `Dispatch.Handle` (result side) and `DispatchProperties.RejectionIsWrapped` prove that a reply's data becomes the result and a rejection's message reaches the error |
| Dispatch.ShaOf | src/index.ts:306 | the read `baseRef.data.object.sha`; `DispatchProperties.CreateBranchUsesSha` proves a string `object.sha` is read, and `DispatchProperties.ShaOfWithoutObject` that a missing `object` throws |
| Dispatch.ListCall | src/index.ts:229-235 | the list call; `DispatchProperties.ListRepositoriesDefaults` proves its `per_page` and `page` take the defaults exactly when absent or null |
| Dispatch.CreateRepositoryCall | src/index.ts:262-267 | the create call; `DispatchProperties.CreateRepositoryCallFields` proves what each field carries |
| Dispatch.GetRefCall | src/index.ts:295-299 | the get-ref call; `DispatchProperties.CreateBranchCallOrder` proves it targets `heads/<from or main>` in the caller's repository |
| Dispatch.CreateRefCall | src/index.ts:302-307 | the create-ref call; `DispatchProperties.CreateBranchCallOrder` proves it targets `refs/heads/<branch>` with the SHA from the first reply |
| Dispatch.FileCall | src/index.ts:334-341 | the file call; `DispatchProperties.CreateFileCallFields` proves five fields are forwarded and the content decodes back to the caller's text |
| Dispatch.IssueCall | src/index.ts:368-373 | the issue call; `DispatchProperties.CreateIssueCallFields` proves the four fields are forwarded |
| Dispatch.PullCall | src/index.ts:400-407 | the pull call; `DispatchProperties.CreatePullRequestCallFields` proves the six fields are forwarded, `base` as given |
| Dispatch.ListRepositories | src/index.ts:226-251 | exactly one list call; the response is an error exactly when that call is rejected, and the error is InternalError; a result is one text item holding the last reply's data, and a rejected last call gives InternalError "Failed to list repositories: " followed by its message |
| Dispatch.CreateRepository | src/index.ts:253-283 | at most one call, issued exactly when the guard accepts; every error is InternalError; a result is one text item holding the last reply's data, and a rejected last call gives InternalError "Failed to create repository: " followed by its message |
| Dispatch.CreateBranch | src/index.ts:285-323 | at most two calls, none exactly when the guard refuses; a get-ref comes first and a create-ref second; every error is InternalError; a result is one text item holding the last reply's data, and a rejected last call gives InternalError "Failed to create branch: " followed by its message |
| Dispatch.CreateFile | src/index.ts:325-357 | at most one call, issued exactly when the guard accepts; every error is InternalError; a result is one text item holding the last reply's data, and a rejected last call gives InternalError "Failed to create file: " followed by its message |
| Dispatch.CreateIssueTool | src/index.ts:359-389 | at most one call, issued exactly when the guard accepts; every error is InternalError; a result is one text item holding the last reply's data, and a rejected last call gives InternalError "Failed to create issue: " followed by its message |
| Dispatch.CreatePullRequest | src/index.ts:391-423 | at most one call, issued exactly when the guard accepts; every error is InternalError; a result is one text item holding the last reply's data, and a rejected last call gives InternalError "Failed to create pull request: " followed by its message |
| Dispatch.Handle | src/index.ts:224-428 | at most two calls; a MethodNotFound issues none; InvalidParams is never answered; two calls happen only for create_branch, a get-ref followed by a create-ref; a result holds exactly one text item, the data of the last call's successful reply |
| Dispatch.ListRepositoriesSteps | src/index.ts:226-251 | the list_repositories case on the logging client: returns `ListRepositories`' response and appends exactly its call |
| Dispatch.CreateRepositorySteps | src/index.ts:253-283 | the create_repository case on the logging client: returns `CreateRepository`'s response and appends exactly its calls |
| Dispatch.CreateBranchSteps | src/index.ts:285-323 | the create_branch case on the logging client: get-ref, the SHA read, then create-ref; returns `CreateBranch`'s response and appends exactly its calls, in order |
| Dispatch.CreateFileSteps | src/index.ts:325-357 | the create_file case on the logging client: returns `CreateFile`'s response and appends exactly its calls |
| Dispatch.CreateIssueToolSteps | src/index.ts:359-389 | the create_issue case on the logging client: returns `CreateIssueTool`'s response and appends exactly its calls |
| Dispatch.CreatePullRequestSteps | src/index.ts:391-423 | the create_pull_request case on the logging client: returns `CreatePullRequest`'s response and appends exactly its calls |
| Dispatch.CallTool | src/index.ts:224-428 | on a logging client, the handler returns `Handle`'s response and appends exactly `Handle`'s calls to the log, in order |
| DispatchProperties.UnknownNameIsMethodNotFound | src/index.ts:425-426 | the answer is MethodNotFound "Unknown tool" exactly when the name is not in the catalog, and then no call is issued |
| DispatchProperties.KnownNameErrorsAreInternal | src/index.ts:245-249 | every error a catalog tool answers is InternalError |
| DispatchProperties.RefusedArgumentsIssueNoCall | src/index.ts:255-260 | a guarded tool issues no call exactly when its guard refuses, and then answers InternalError "Failed to <operation>: " followed by the guard's text |
| DispatchProperties.EmptyCreateRepositoryRefused | src/index.ts:255-281 | `{}` for create_repository is answered "Failed to create repository: Invalid arguments: name is required", with no call |
| DispatchProperties.ListRepositoriesDefaults | src/index.ts:228-235 | one list call; `per_page` and `page` take the catalog defaults exactly when they are absent or null, and are otherwise forwarded unchanged |
| DispatchProperties.ListRepositoriesExamples | src/index.ts:229-230 | `{}` lists with 30 and 1, and `per_page: 0, page: null` lists with 0 and 1 |
| DispatchProperties.CreateRepositoryCallFields | src/index.ts:262-267 | one call, with `name` and `description` forwarded; `private` and `auto_init` fall back to the catalog defaults only when absent |
| DispatchProperties.CreateBranchCallOrder | src/index.ts:295-307 | get-ref on `heads/<from or main>` first; create-ref on `refs/heads/<branch>` follows exactly when get-ref succeeded and the SHA could be read, and it carries that SHA |
| DispatchProperties.CreateBranchGetRefFails | src/index.ts:295-321 | a rejected get-ref ends the request with "Failed to create branch: " and the rejection message, and no create-ref is issued |
| DispatchProperties.CreateBranchUsesSha | src/index.ts:306 | a string `object.sha` in the get-ref reply is the SHA sent to create-ref |
| DispatchProperties.ShaOfWithoutObject | src/index.ts:306 | reading `object.sha` from data without `object` throws the TypeError for reading `sha` of undefined |
| DispatchProperties.CreateBranchMissingObject | src/index.ts:306-321 | a get-ref reply without `object` ends the request before create-ref, with the TypeError text after the prefix |
| DispatchProperties.CreateFileCallFields | src/index.ts:334-341 | one call; owner, repo, path, message and branch are forwarded; the content decodes from Base64 and UTF-8 back to the caller's text |
| DispatchProperties.CreateFileHelloExample | src/index.ts:339 | "hello" is sent as "aGVsbG8=" |
| DispatchProperties.CreateIssueCallFields | src/index.ts:368-373 | exactly one issue call with the four fields forwarded |
| DispatchProperties.CreatePullRequestCallFields | src/index.ts:400-407 | exactly one pull call with the six fields forwarded, `base` as given |
| DispatchProperties.PullRequestWithoutBaseRefused | src/index.ts:393-421 | an argument bag without `base` is refused with the pull-request refusal text, and nothing is sent |
| DispatchProperties.RejectionIsWrapped | src/index.ts:245-249 | a rejected last call is answered InternalError with the operation's prefix followed by the rejection message |
| Utf8.EncodeChar | src/index.ts:339 | a character encodes to one to four bytes, and to its own code point in one byte exactly when it is ASCII |
| Utf8.Encode | src/index.ts:339 | the UTF-8 encoding of a string; `Utf8.DecodeEncode` proves it is undone by decoding, and `Utf8.EncodeAscii` that ASCII text is its own encoding |
| Utf8.DecodeFirst | src/index.ts:339 | a decoded character's length lies within the input |
| Utf8.DecodeFirstEncodeChar | src/index.ts:339 | the first character decoded from an encoding is the encoded character, with its length |
| Utf8.DecodeFirstTwo | src/index.ts:339 | the two-byte form decodes back to its character |
| Utf8.DecodeFirstThree | src/index.ts:339 | the three-byte form decodes back to its character |
| Utf8.DecodeFirstFour | src/index.ts:339 | the four-byte form decodes back to its character |
| Utf8.DecodeEncode | src/index.ts:339 | decoding a string's UTF-8 encoding gives the string back |
| Utf8.EncodeAscii | src/index.ts:339 | an ASCII string encodes to its own code points, one byte each |
| Base64.Symbols | src/index.ts:339 | a byte string becomes 4 symbols per started group of 3 bytes, with padding only in the last two places |
| Base64.SplitJoin | src/index.ts:339 | joining the sextets of three bytes gives the bytes back |
| Base64.JoinSplit | src/index.ts:339 | splitting the bytes joined from four sextets gives the sextets back |
| Base64.OctetsSymbols | src/index.ts:339 | the symbols of a byte string read back as that byte string |
| Base64.SymbolsOctets | src/index.ts:339 | a symbol string that reads as bytes is the symbol string of those bytes |
| Base64.CharOf | src/index.ts:339 | no sextet is rendered as the padding character |
| Base64.IndexOf | src/index.ts:339 | looking a character up in the alphabet inverts rendering |
| Base64.ReadRender | src/index.ts:339 | reading a rendered symbol gives the symbol back |
| Base64.RenderAll | src/index.ts:339 | rendering keeps the length and renders each symbol in place |
| Base64.ReadAllRenderAll | src/index.ts:339 | reading rendered symbols gives them back |
| Base64.RenderAllReadAll | src/index.ts:339 | a text that reads as symbols is their rendering |
| Base64.Encode | src/index.ts:339 | the output has length 4 times the number of started 3-byte groups, uses only the alphabet and `=`, and pads only at the end |
| Base64.DecodeEncode | src/index.ts:339 | decoding an encoding gives the bytes back |
| Base64.EncodeDecode | src/index.ts:339 | a text that decodes is the encoding of what it decodes to |
| Base64.DecodeIff | src/index.ts:339 | decoding yields a byte string exactly when the text is that byte string's encoding |

## Left out

- Process bootstrap (`src/index.ts:27-30`): reading `GITHUB_TOKEN` from the environment and refusing to start without it is not per-request logic.
- The Octokit client and HTTP (`src/index.ts:33`): every remote call is a `Call` value, and its outcome is the `respond` parameter of `Handle` and of `FakeClient`. Request encoding, authentication, status codes and Octokit's error text are not modelled; a rejection carries its message as given.
- The MCP server object, the stdio transport, `main` and process exit (`src/index.ts:36-46`, `src/index.ts:431-440`): transport and I/O.
- The SDK's request-schema validation before the handler runs: `Handle` takes the tool name and the argument bag as given.
- `JSON.stringify(data, null, 2)`: a result's text item holds the payload `Value` itself rather than its serialised text, so whitespace and key order are not modelled.
- `Dispatch.Handle`: an error's message is the text passed to the `McpError` constructor; the SDK's own "MCP error <code>: " prefix on `error.message` is not modelled.
- `Utf8.Encode`: a JavaScript string is UTF-16, and `Buffer.from` replaces lone surrogates with U+FFFD; the model's strings hold only Unicode scalar values, so that replacement does not arise.
- `async`/`await`: the calls of one request are strictly sequential and share no state, so there is no concurrency to model.
- Numbers are mathematical reals: NaN, infinities and floating-point rounding of `per_page` and `page` are not modelled (they are forwarded unchanged in any case).
- Properties inherited through the JavaScript prototype chain are not modelled: a property read sees only the object's own keys.
- The catalog's human-readable `description` texts are not modelled.
