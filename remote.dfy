/**
 * The remote GitHub API as the dispatcher uses it: the seven client
 * operations it issues (src/index.ts:232, 262, 295, 302, 334, 368, 400), their
 * outcome, and a fake client that answers from a given table and logs every
 * call it receives, in order.
 */
module Remote {
  import opened Wrappers
  import opened Json

  /** One client operation with the parameters the dispatcher passes to it. */
  datatype Call =
    | ListForAuthenticatedUser(perPage: Value, page: Value)
    | CreateForAuthenticatedUser(name: string, description: Option<string>, private: bool, autoInit: bool)
    | GetRef(owner: string, repo: string, ref: string)
    | CreateRef(owner: string, repo: string, ref: string, sha: Option<Value>)
    | CreateOrUpdateFileContents(owner: string, repo: string, path: string, message: string, content: string, branch: string)
    | CreateIssue(owner: string, repo: string, title: string, body: string)
    | CreatePull(owner: string, repo: string, title: string, body: string, head: string, base: string)

  /** What an awaited call gives back: the response's `data`, or a rejection carrying `error.message`. */
  datatype Reply = Data(data: Value) | Rejected(message: string)

  /** A client whose answers are fixed in advance and whose calls are recorded. */
  class FakeClient {
    /** The answer to each call. */
    const respond: Call -> Reply
    /** Every call issued so far, oldest first. */
    var calls: seq<Call>

    constructor (respond: Call -> Reply)
      ensures this.respond == respond && calls == []
    {
      this.respond := respond;
      calls := [];
    }

    /** Issue one call: it is appended to the log and answered from the table. */
    method Issue(c: Call) returns (r: Reply)
      modifies this
      ensures calls == old(calls) + [c]
      ensures r == respond(c)
    {
      calls := calls + [c];
      r := respond(c);
    }
  }
}
