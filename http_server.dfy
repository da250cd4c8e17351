/**
 * The administrative endpoint (`/config/add_account`): a request carrying
 * the shared API token and an account id adds that account to the
 * capacitor's allow-list.
 */
module HttpServer {
  import opened Capacitor

  datatype Response = BadRequest(body: string) | Forbidden(body: string) | Ok(body: string)

  /** What the parameter checks decide: add this account, or answer early with this response. */
  datatype Decision = Add(accountId: string) | Reject(response: Response)

  /** The confirmation text of a successful request. */
  function AddedBody(accountId: string): (body: string)
    ensures 9 + |accountId| < |body| && body[9..9 + |accountId|] == accountId
  {
    "Account '" + accountId + "' was added to the database"
  }

  /**
   * The early returns of `handle_post_add_account`, on the decoded query
   * string: `token` must be present, then equal the configured token, and
   * only then is `account_id` looked at.
   */
  function Validate(query: map<string, string>, apiToken: string): (d: Decision)
    ensures d.Add? <==> "token" in query && query["token"] == apiToken && "account_id" in query
    ensures d.Add? ==> d.accountId == query["account_id"]
    ensures d.Reject? ==> !d.response.Ok?
    ensures (d.Reject? && d.response.Forbidden?) <==> "token" in query && query["token"] != apiToken
    ensures (d.Reject? && d.response.BadRequest?) <==>
            "token" !in query || (query["token"] == apiToken && "account_id" !in query)
  {
    if "token" !in query then Reject(BadRequest("`token` is a required parameter"))
    else if query["token"] != apiToken then Reject(Forbidden("Api token did not match"))
    else if "account_id" !in query then Reject(BadRequest("`account_id` is a required parameter"))
    else Add(query["account_id"])
  }

  /**
   * `handle_post_add_account`: a rejected request leaves the allow-list and
   * the collection as they were; an accepted one adds the account once and
   * answers Ok, naming it.
   */
  method HandlePostAddAccount(cap: Capacitor, query: map<string, string>, apiToken: string)
    returns (response: Response)
    modifies cap
    ensures Validate(query, apiToken).Reject? ==>
              response == Validate(query, apiToken).response && cap.State() == old(cap.State())
    ensures Validate(query, apiToken).Add? ==>
              var accountId := Validate(query, apiToken).accountId;
              response == Ok(AddedBody(accountId)) && cap.State() == AddAccount(old(cap.State()), accountId)
  {
    match Validate(query, apiToken)
    case Reject(early) =>
      response := early;
    case Add(accountId) =>
      cap.AddAccountId(accountId);
      response := Ok(AddedBody(accountId));
  }
}
