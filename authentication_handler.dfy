/**
  Model of handlers/authenticationHandler/handler.go: an API-key gate whose token is set by
  configuration change notifications and starts out empty.
*/
module AuthenticationHandler {
  import Configuration

  const TokenKey: string := "ingestion.auth.token"
  const Scheme: string := "ApiKey "

  /** Pass the request to the next handler, or answer 401. */
  datatype Outcome = Next | Unauthorized

  /** The package-level token cell and the request check that reads it. */
  class Authenticator {
    var token: string

    /** The token is empty until the first configuration notification. */
    constructor ()
      ensures token == ""
    {
      token := "";
    }

    /** The change handler: the configured token, or "" when the key is absent. */
    method OnConfigurationChanged(c: Configuration.ConfigurationRoot)
      modifies this
      ensures token == if TokenKey in c then c[TokenKey] else ""
    {
      token := Configuration.GetStringValueOrDefault(c, TokenKey, "");
    }

    /**
      The request check: a request passes exactly when a token is set and the Authorization
      header is the scheme "ApiKey " followed by nothing but that token.
    */
    function Authenticate(authorization: string): (r: Outcome)
      reads this
      ensures r == Next <==>
                && token != ""
                && |authorization| > |Scheme|
                && authorization[..|Scheme|] == Scheme
                && authorization[|Scheme|..] == token
    {
      if token == "" then Unauthorized
      else if authorization == Scheme + token then Next
      else
        assert |authorization| >= |Scheme| ==> authorization == authorization[..|Scheme|] + authorization[|Scheme|..];
        Unauthorized
    }
  }

  /** No header passes a gate with no token, and the bare scheme passes no gate. */
  lemma EmptyTokenRejects(gate: Authenticator, authorization: string)
    ensures gate.token == "" ==> gate.Authenticate(authorization) == Unauthorized
    ensures gate.Authenticate(Scheme) == Unauthorized
  {
  }

  /** Before any configuration arrives every request is refused; after one, the configured key opens it. */
  method ConfigureThenAuthenticate(c: Configuration.ConfigurationRoot, authorization: string)
    returns (before: Outcome, after: Outcome)
    ensures before == Unauthorized
    ensures TokenKey in c && c[TokenKey] != "" ==> (after == Next <==> authorization == Scheme + c[TokenKey])
  {
    var gate := new Authenticator();
    before := gate.Authenticate(authorization);
    gate.OnConfigurationChanged(c);
    after := gate.Authenticate(authorization);
  }
}
