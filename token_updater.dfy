/**
 * The token renewal loop: one client-credentials grant (section 4.4 of RFC 6749) against
 * the Microsoft identity platform per cycle, the token cell overwritten on success, and
 * the delay before the next cycle chosen from the outcome.
 *
 * The identity provider is a parameter `send`: what it answers to the request built here.
 * Transport failures, failed statuses and undecodable bodies all arrive as `Err`.
 */
module TokenUpdater {
  import opened Wrappers
  import opened State
  import Settings

  const TokenUrlPrefix: string := "https://login.microsoftonline.com/"
  const TokenUrlSuffix: string := "/oauth2/v2.0/token"
  const GraphScope: string := "https://graph.microsoft.com/.default"
  /** The fixed delay before retrying after a failed renewal. */
  const FailureRetryMillis: nat := 30 * 1000

  /** A form-encoded POST: the endpoint and the form fields in order. */
  datatype TokenRequest = TokenRequest(url: string, form: seq<(string, string)>)

  /** The decoded token response: lifetime in seconds and the bearer token. */
  datatype AuthToken = AuthToken(expiresIn: nat, accessToken: string)

  type IdentityProvider = TokenRequest -> Result<AuthToken, string>

  function TokenUrl(tenantId: string): string
  {
    TokenUrlPrefix + tenantId + TokenUrlSuffix
  }

  /** Reads the tenant back out of a token endpoint URL, if it is one. */
  function TenantOf(url: string): Option<string>
  {
    if |url| >= |TokenUrlPrefix| + |TokenUrlSuffix|
       && url[..|TokenUrlPrefix|] == TokenUrlPrefix
       && url[|url| - |TokenUrlSuffix|..] == TokenUrlSuffix
    then Some(url[|TokenUrlPrefix|..|url| - |TokenUrlSuffix|])
    else None
  }

  /** The endpoint URL names exactly the configured tenant. */
  lemma TokenUrlNamesTenant(tenantId: string)
    ensures TenantOf(TokenUrl(tenantId)) == Some(tenantId)
  {
    var url := TokenUrl(tenantId);
    assert url[..|TokenUrlPrefix|] == TokenUrlPrefix;
    assert url[|url| - |TokenUrlSuffix|..] == TokenUrlSuffix;
    assert url[|TokenUrlPrefix|..|url| - |TokenUrlSuffix|] == tenantId;
  }

  /** The value of the first form field called `name`. */
  function FormValue(form: seq<(string, string)>, name: string): Option<string>
  {
    if form == [] then None
    else if form[0].0 == name then Some(form[0].1)
    else FormValue(form[1..], name)
  }

  /**
   * The token request: a POST to the tenant's v2.0 token endpoint carrying the
   * client-credentials grant, the Graph default scope, the client id and the secret.
   */
  function TokenRequestFor(c: Settings.Credentials): (req: TokenRequest)
    ensures TenantOf(req.url) == Some(c.tenantId)
    ensures |req.form| == 4
    ensures FormValue(req.form, "grant_type") == Some("client_credentials")
    ensures FormValue(req.form, "scope") == Some(GraphScope)
    ensures FormValue(req.form, "client_id") == Some(c.clientId)
    ensures FormValue(req.form, "client_secret") == Some(c.clientSecret)
  {
    TokenUrlNamesTenant(c.tenantId);
    var form := [
      ("grant_type", "client_credentials"),
      ("scope", GraphScope),
      ("client_id", c.clientId),
      ("client_secret", c.clientSecret)];
    assert FormValue(form[2..], "client_id") == Some(c.clientId);
    assert FormValue(form[3..], "client_secret") == Some(c.clientSecret);
    assert FormValue(form[2..], "client_secret") == Some(c.clientSecret);
    TokenRequest(TokenUrl(c.tenantId), form)
  }

  /** What the renewal returns for a response: the lifetime, or the error. */
  function RenewalOutcome(response: Result<AuthToken, string>): Result<nat, string>
  {
    match response
    case Ok(t) => Ok(t.expiresIn)
    case Err(e) => Err(e)
  }

  /** The token cell after one renewal: replaced on success, untouched on failure. */
  function TokenAfter(token: string, response: Result<AuthToken, string>): string
  {
    if response.Ok? then response.value.accessToken else token
  }

  /**
   * The delay before the next renewal: 90 % of the token's lifetime after a success,
   * a fixed 30 seconds after a failure.
   */
  function NextRenewalDelayMillis(outcome: Result<nat, string>): (ms: nat)
    ensures outcome.Ok? ==> 10 * ms == 9 * (outcome.value * 1000)
    ensures outcome.Err? ==> ms == FailureRetryMillis
  {
    match outcome
    case Ok(expiresIn) => expiresIn * 900
    case Err(_) => FailureRetryMillis
  }

  /** Renewal is proactive: a token that lives at all is renewed before it expires. */
  lemma RenewsBeforeExpiry(expiresIn: nat)
    requires expiresIn > 0
    ensures NextRenewalDelayMillis(Ok(expiresIn)) < expiresIn * 1000
  {
  }

  /** A token valid for 1000 seconds is renewed after 900 seconds. */
  lemma RenewalAfterNineTenths()
    ensures NextRenewalDelayMillis(Ok(1000)) == 900 * 1000
  {
  }

  /**
   * `inner`: send the request and, only if a token came back, overwrite the token cell
   * with it; the lifetime or the error is returned. Nothing else changes.
   */
  method RenewToken(gs: GlobalState, send: IdentityProvider) returns (r: Result<nat, string>)
    modifies gs`azureApiToken
    ensures r == RenewalOutcome(send(TokenRequestFor(gs.settings.credentials)))
    ensures gs.azureApiToken == TokenAfter(old(gs.azureApiToken), send(TokenRequestFor(gs.settings.credentials)))
  {
    var response := send(TokenRequestFor(gs.settings.credentials));
    if response.Err? {
      return Err(response.error);
    }
    gs.azureApiToken := response.value.accessToken;
    r := Ok(response.value.expiresIn);
  }

  /** One turn of the renewal loop: renew, then choose the delay and the status label. */
  method TokenCycle(gs: GlobalState, send: IdentityProvider) returns (sleepMillis: nat, status: Status)
    modifies gs`azureApiToken
    ensures var response := send(TokenRequestFor(gs.settings.credentials));
      && gs.azureApiToken == TokenAfter(old(gs.azureApiToken), response)
      && sleepMillis == NextRenewalDelayMillis(RenewalOutcome(response))
      && status == (if response.Ok? then Success else Fail)
  {
    var result := RenewToken(gs, send);
    sleepMillis := NextRenewalDelayMillis(result);
    status := if result.Ok? then Success else Fail;
  }

  /** The responses the identity provider gives in successive cycles. */
  function Responses(c: Settings.Credentials, sends: seq<IdentityProvider>): (rs: seq<Result<AuthToken, string>>)
    ensures |rs| == |sends|
    ensures forall i :: 0 <= i < |sends| ==> rs[i] == sends[i](TokenRequestFor(c))
  {
    seq(|sends|, i requires 0 <= i < |sends| => sends[i](TokenRequestFor(c)))
  }

  /** The token cell after a run of renewals, one after another. */
  function TokenAfterAll(token: string, responses: seq<Result<AuthToken, string>>): string
  {
    if responses == [] then token
    else TokenAfter(TokenAfterAll(token, responses[..|responses| - 1]), responses[|responses| - 1])
  }

  /**
   * After any run of cycles the token is the one issued by the last successful renewal,
   * or the token from before the run if none succeeded: failures never clear it.
   */
  lemma {:induction false} TokenIsLastIssued(token: string, responses: seq<Result<AuthToken, string>>, j: int)
    requires -1 <= j < |responses|
    requires j >= 0 ==> responses[j].Ok?
    requires forall k :: j < k < |responses| ==> responses[k].Err?
    ensures TokenAfterAll(token, responses) == if j < 0 then token else responses[j].value.accessToken
  {
    if responses != [] {
      var n := |responses| - 1;
      if j < n {
        TokenIsLastIssued(token, responses[..n], j);
      }
    }
  }

  /**
   * The loop run for as many cycles as `sends` has entries: no outcome ends it, every
   * cycle is recorded with its status and delay, and the token is that of the whole run.
   */
  method RunTokenUpdater(gs: GlobalState, sends: seq<IdentityProvider>) returns (sleeps: seq<nat>, statuses: seq<Status>)
    modifies gs`azureApiToken
    ensures |sleeps| == |sends| && |statuses| == |sends|
    ensures var rs := Responses(gs.settings.credentials, sends);
      forall i :: 0 <= i < |sends| ==>
        && sleeps[i] == NextRenewalDelayMillis(RenewalOutcome(rs[i]))
        && (statuses[i] == Success <==> rs[i].Ok?)
        && statuses[i].Label() == (if rs[i].Ok? then "success" else "fail")
    ensures gs.azureApiToken == TokenAfterAll(old(gs.azureApiToken), Responses(gs.settings.credentials, sends))
  {
    ghost var rs := Responses(gs.settings.credentials, sends);
    sleeps, statuses := [], [];
    var i := 0;
    while i < |sends|
      invariant 0 <= i <= |sends|
      invariant |sleeps| == i && |statuses| == i
      invariant forall k :: 0 <= k < i ==>
        && sleeps[k] == NextRenewalDelayMillis(RenewalOutcome(rs[k]))
        && (statuses[k] == Success <==> rs[k].Ok?)
      invariant gs.azureApiToken == TokenAfterAll(old(gs.azureApiToken), rs[..i])
    {
      var sleepMillis, status := TokenCycle(gs, sends[i]);
      assert rs[..i + 1][..i] == rs[..i];
      sleeps, statuses := sleeps + [sleepMillis], statuses + [status];
      i := i + 1;
    }
    assert rs[..i] == rs;
  }
}
