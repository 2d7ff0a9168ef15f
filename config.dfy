/**
 * The connector's configuration and its validation: an ordered chain of
 * local guards, then one connectivity probe through a fresh client.
 */
module Config {
  import opened Wrappers
  import opened Errors
  import opened AzureClient

  /** The operation the host opens the connector for. */
  datatype Operation = ReadOperation | WriteOperation | DeleteOperation

  datatype AzureADConfig = AzureADConfig(
    tenant: string,
    clientId: string,
    clientSecret: string,
    refreshToken: string,
    userPid: string,
    userEmail: string)

  /** The configuration a fresh plugin holds: every field empty. */
  const EmptyConfig: AzureADConfig := AzureADConfig("", "", "", "", "", "")

  function InvalidArgumentError(desc: string): Error {
    Status(InvalidArgument, desc)
  }

  /**
   * The local guards, in order: tenant, client id, client secret, then the
   * exclusivity of user PID and user email. The first that fails gives the error.
   */
  function GuardError(c: AzureADConfig): (r: Option<Error>)
    ensures r.None? <==>
      c.tenant != "" && c.clientId != "" && c.clientSecret != "" && (c.userPid == "" || c.userEmail == "")
    ensures r.Some? ==> r.value.Status? && r.value.code == InvalidArgument
    ensures c.tenant == "" ==> r == Some(InvalidArgumentError("no tenant was provided"))
    ensures c.tenant != "" && c.clientId == "" ==> r == Some(InvalidArgumentError("no client id was provided"))
    ensures c.tenant != "" && c.clientId != "" && c.clientSecret == "" ==>
      r == Some(InvalidArgumentError("no client secret was provided"))
    ensures c.tenant != "" && c.clientId != "" && c.clientSecret != "" && c.userPid != "" && c.userEmail != "" ==>
      r == Some(InvalidArgumentError("an user PID and an user email were provided; please specify only one"))
  {
    if c.tenant == "" then Some(InvalidArgumentError("no tenant was provided"))
    else if c.clientId == "" then Some(InvalidArgumentError("no client id was provided"))
    else if c.clientSecret == "" then Some(InvalidArgumentError("no client secret was provided"))
    else if c.userPid != "" && c.userEmail != "" then
      Some(InvalidArgumentError("an user PID and an user email were provided; please specify only one"))
    else None
  }

  /** The credential flow: the refresh-token flow when a refresh token is configured, the secret flow otherwise. */
  function CredentialsFor(c: AzureADConfig): (cred: Credentials)
    ensures cred.RefreshTokenCredential? <==> c.refreshToken != ""
    ensures cred.tenant == c.tenant && cred.clientId == c.clientId && cred.clientSecret == c.clientSecret
    ensures cred.RefreshTokenCredential? ==> cred.refreshToken == c.refreshToken
  {
    if c.refreshToken != "" then RefreshTokenCredential(c.tenant, c.clientId, c.clientSecret, c.refreshToken)
    else SecretCredential(c.tenant, c.clientId, c.clientSecret)
  }

  /** The outcome of Validate: the guards, then construction of the client, then the listing probe. */
  function ValidateResult(c: AzureADConfig, connect: Connector): Option<Error> {
    match GuardError(c)
    case Some(e) => Some(e)
    case None =>
      match connect(CredentialsFor(c))
      case Failure(e) => Some(Status(Internal, "failed to connect to AzureAD, " + ErrorText(e)))
      case Success(client) =>
        match ListExchange(client, "").response
        case Failure(msg) => Some(Status(Internal, "failed to retrieve users from AzureAD: " + msg))
        case Success(_) => None
  }

  /** The queries Validate sends: the one listing probe, and only when the guards and construction succeed. */
  function ProbeQueries(c: AzureADConfig, connect: Connector): seq<Query> {
    if GuardError(c).None? && connect(CredentialsFor(c)).Success? then
      ListExchange(connect(CredentialsFor(c)).value, "").queries
    else []
  }

  /**
   * Validate. The operation is accepted and ignored: the result depends on
   * the configuration and the directory alone.
   */
  method Validate(c: AzureADConfig, operation: Operation, connect: Connector)
    returns (err: Option<Error>, ghost sent: seq<Query>)
    ensures err == ValidateResult(c, connect)
    ensures sent == ProbeQueries(c, connect)
  {
    sent := [];
    if c.tenant == "" {
      return Some(Status(InvalidArgument, "no tenant was provided")), sent;
    }
    if c.clientId == "" {
      return Some(Status(InvalidArgument, "no client id was provided")), sent;
    }
    if c.clientSecret == "" {
      return Some(Status(InvalidArgument, "no client secret was provided")), sent;
    }
    if c.userPid != "" && c.userEmail != "" {
      return Some(Status(InvalidArgument, "an user PID and an user email were provided; please specify only one")), sent;
    }
    var client: Result<AzureADClient, Error>;
    if c.refreshToken != "" {
      client := connect(RefreshTokenCredential(c.tenant, c.clientId, c.clientSecret, c.refreshToken));
    } else {
      client := connect(SecretCredential(c.tenant, c.clientId, c.clientSecret));
    }
    if client.Failure? {
      return Some(Status(Internal, "failed to connect to AzureAD, " + ErrorText(client.error))), sent;
    }
    var response;
    response, sent := client.value.ListUsers();
    if response.Failure? {
      return Some(Status(Internal, "failed to retrieve users from AzureAD: " + response.error)), sent;
    }
    return None, sent;
  }

  /** Description: the constant text the host shows for this plugin. */
  function Description(c: AzureADConfig): (d: string)
    ensures d == "AzureAD plugin"
  {
    "AzureAD plugin"
  }

  /** A configuration that passes the guards never fails as an invalid argument: probe failures are Internal. */
  lemma PassedGuardsFailOnlyInternally(c: AzureADConfig, connect: Connector)
    requires GuardError(c).None?
    ensures ValidateResult(c, connect).Some? ==>
      ValidateResult(c, connect).value.Status? && ValidateResult(c, connect).value.code == Internal
    ensures ValidateResult(c, connect).None? <==>
      connect(CredentialsFor(c)).Success? && connect(CredentialsFor(c)).value.appClient(UsersQuery("")).Success?
  {
  }

  /** A guard failure is the whole result: no client is built and no probe is sent. */
  lemma GuardFailureIsFinal(c: AzureADConfig, connect: Connector)
    requires GuardError(c).Some?
    ensures ValidateResult(c, connect) == GuardError(c) && ProbeQueries(c, connect) == []
  {
  }

  /** Validation sends at most one query, and that query is the unfiltered listing. */
  lemma ProbeIsOneListing(c: AzureADConfig, connect: Connector)
    ensures |ProbeQueries(c, connect)| <= 1
    ensures forall q :: q in ProbeQueries(c, connect) ==> q == UsersQuery("")
  {
  }

  /** Both a user PID and a user email fail validation whatever the other fields, as soon as the credentials are present. */
  lemma PidAndEmailExclusive(c: AzureADConfig, connect: Connector)
    requires c.tenant != "" && c.clientId != "" && c.clientSecret != ""
    requires c.userPid != "" && c.userEmail != ""
    ensures ValidateResult(c, connect) ==
      Some(InvalidArgumentError("an user PID and an user email were provided; please specify only one"))
  {
  }

  /** The error text of an invalid-argument status, as `err.Error()` renders it. */
  lemma InvalidArgumentText(desc: string)
    ensures ErrorText(InvalidArgumentError(desc)) == "rpc error: code = InvalidArgument desc = " + desc
  {
  }

  /** The configurations of the guard tests and the descriptions they expect, whatever the directory. */
  lemma GuardScenarios(connect: Connector)
    ensures ValidateResult(AzureADConfig("", "id", "secret", "", "", ""), connect)
      == Some(InvalidArgumentError("no tenant was provided"))
    ensures ValidateResult(AzureADConfig("tenant", "", "secret", "", "", ""), connect)
      == Some(InvalidArgumentError("no client id was provided"))
    ensures ValidateResult(AzureADConfig("tenant", "id", "", "", "", ""), connect)
      == Some(InvalidArgumentError("no client secret was provided"))
    ensures ValidateResult(AzureADConfig("tenant", "id", "secret", "", "someID", "test@email.com"), connect)
      == Some(InvalidArgumentError("an user PID and an user email were provided; please specify only one"))
  {
  }

  /**
   * The first failing guard decides Validate's result, for every configuration and directory,
   * so the exclusivity of PID and email is reported only once the credentials are all present.
   */
  lemma GuardOrder(c: AzureADConfig, connect: Connector)
    ensures c.tenant == "" ==> ValidateResult(c, connect) == Some(InvalidArgumentError("no tenant was provided"))
    ensures c.tenant != "" && c.clientId == "" ==>
      ValidateResult(c, connect) == Some(InvalidArgumentError("no client id was provided"))
    ensures c.tenant != "" && c.clientId != "" && c.clientSecret == "" ==>
      ValidateResult(c, connect) == Some(InvalidArgumentError("no client secret was provided"))
  {
  }

  /** Several guards failing at once: an empty tenant with both PID and email reports the tenant. */
  lemma EarlierGuardWins(connect: Connector)
    ensures ValidateResult(AzureADConfig("", "", "", "", "someID", "test@email.com"), connect)
      == Some(InvalidArgumentError("no tenant was provided"))
  {
  }
}
