/**
 * The connector the host drives: Open, then Read until io.EOF, then Close.
 * Write and Delete are accepted and do nothing.
 */
module Srv {
  import opened Wrappers
  import opened Errors
  import opened Normalizer
  import opened AzureClient
  import opened Config

  /** The configuration the host passes to Open: this plugin's own, or one of another plugin's type. */
  datatype PluginConfig = AzureAD(config: AzureADConfig) | OtherConfig

  /** The statistics a connector may report on Close. */
  datatype Stats = Stats(received: int, created: int, errors: int)

  /** A record the connector can transform without a nil dereference. */
  predicate Loadable(e: Option<RemoteUser>) {
    e.Some? && Complete(e.value)
  }

  predicate AllLoadable(records: seq<Option<RemoteUser>>) {
    forall i :: 0 <= i < |records| ==> Loadable(records[i])
  }

  /** The canonical records of a batch, one per remote record and in the same order. */
  function TransformAll(records: seq<Option<RemoteUser>>): (users: seq<User>)
    requires AllLoadable(records)
    ensures |users| == |records|
    ensures forall i :: 0 <= i < |records| ==> users[i] == Transform(records[i].value)
  {
    if records == [] then []
    else TransformAll(records[..|records| - 1]) + [Transform(records[|records| - 1].value)]
  }

  /** Transforming a batch: a nil or incomplete record makes the runtime panic. */
  function LoadAll(records: seq<Option<RemoteUser>>): Result<seq<User>, Error> {
    if AllLoadable(records) then Success(TransformAll(records)) else Failure(Crash)
  }

  /** readByPID's outcome for the directory's answer: only the first record is looked at. */
  function PidResult(response: Response, id: string): Result<User, Error> {
    match response
    case Failure(text) => Failure(Remote(text))
    case Success(records) =>
      if |records| == 0 || records[0].None? then Failure(Message("failed to get user by pid " + id))
      else if !Complete(records[0].value) then Failure(Crash)
      else Success(Transform(records[0].value))
  }

  /** readByEmail's outcome for the directory's answer: every match, or an error when there is none. */
  function EmailResult(response: Response, email: string): Result<seq<User>, Error> {
    match response
    case Failure(text) => Failure(Remote(text))
    case Success(records) =>
      if |records| < 1 then Failure(Message("failed to get user by email " + email))
      else LoadAll(records)
  }

  /** The full listing's outcome for the directory's answer. */
  function ListResult(response: Response): Result<seq<User>, Error> {
    match response
    case Failure(text) => Failure(Remote(text))
    case Success(records) => LoadAll(records)
  }

  /** Neither a user PID nor a user email is configured: Read lists the whole directory. */
  predicate FullListing(c: AzureADConfig) {
    c.userPid == "" && c.userEmail == ""
  }

  /** The outcome of a Read that is not yet exhausted: by PID first, else by email, else the full listing. */
  function ReadResult(c: AzureADConfig, client: AzureADClient): Result<seq<User>, Error> {
    if c.userPid != "" then
      match PidResult(ListExchange(client, IdFilter(c.userPid)).response, c.userPid)
      case Success(user) => Success([user])
      case Failure(e) => Failure(e)
    else if c.userEmail != "" then EmailResult(EmailExchange(client, c.userEmail).response, c.userEmail)
    else ListResult(ListExchange(client, "").response)
  }

  /** AzureADPlugin: the connector's session state. */
  class AzureADPlugin {
    var config: AzureADConfig
    var azureClient: Option<AzureADClient>  // nil until Open builds one
    var page: int
    var finishedRead: bool
    var op: Option<Operation>               // None: the zero value before Open

    /** NewAzureADPlugin: an empty configuration and no client. */
    constructor ()
      ensures config == EmptyConfig && azureClient.None? && page == 0 && !finishedRead && op.None?
    {
      config := EmptyConfig;
      azureClient := None;
      page := 0;
      finishedRead := false;
      op := None;
    }

    /**
     * Open: stores the configuration and operation and resets the read state,
     * then builds a client with the secret credential; a failed build leaves
     * the previous client in place.
     */
    method Open(cfg: PluginConfig, operation: Operation, connect: Connector) returns (err: Option<Error>)
      modifies this
      ensures cfg.OtherConfig? ==> err == Some(Message("invalid config")) && unchanged(this)
      ensures cfg.AzureAD? ==>
        config == cfg.config && page == 0 && !finishedRead && op == Some(operation)
      ensures cfg.AzureAD? ==>
        var built := connect(SecretCredential(cfg.config.tenant, cfg.config.clientId, cfg.config.clientSecret));
        && (built.Failure? ==> err == Some(built.error) && azureClient == old(azureClient))
        && (built.Success? ==> err.None? && azureClient == Some(built.value))
    {
      if cfg.OtherConfig? {
        return Some(Message("invalid config"));
      }
      var c := cfg.config;
      config := c;
      page := 0;
      finishedRead := false;
      op := Some(operation);
      var built := connect(SecretCredential(c.tenant, c.clientId, c.clientSecret));
      if built.Failure? {
        return Some(built.error);
      }
      azureClient := Some(built.value);
      return None;
    }

    /**
     * Read: io.EOF once the read is finished; otherwise one lookup or listing.
     * Only a successful full listing finishes the read.
     */
    method Read() returns (r: Result<seq<User>, Error>)
      modifies this`finishedRead
      ensures old(finishedRead) ==> r == Failure(EOF) && finishedRead
      ensures !old(finishedRead) ==>
        r == if azureClient.None? then Failure(Crash) else ReadResult(config, azureClient.value)
      ensures !old(finishedRead) ==> (finishedRead <==> azureClient.Some? && FullListing(config) && r.Success?)
    {
      if finishedRead {
        return Failure(EOF);
      }
      if azureClient.None? {
        // every path below calls through the nil client
        return Failure(Crash);
      }
      if config.userPid != "" {
        var user := ReadByPid(config.userPid);
        if user.Failure? {
          return Failure(user.error);
        }
        return Success([user.value]);
      }
      if config.userEmail != "" {
        r := ReadByEmail(config.userEmail);
        return;
      }
      var response;
      ghost var sent;
      response, sent := azureClient.value.ListUsers();
      if response.Failure? {
        return Failure(Remote(response.error));
      }
      var records := response.value;
      var users: seq<User> := [];
      var i := 0;
      while i < |records|
        invariant 0 <= i <= |records|
        invariant forall j :: 0 <= j < i ==> Loadable(records[j])
        invariant |users| == i
        invariant forall j :: 0 <= j < i ==> users[j] == Transform(records[j].value)
      {
        if !Loadable(records[i]) {
          return Failure(Crash);
        }
        users := users + [Transform(records[i].value)];
        i := i + 1;
      }
      assert users == TransformAll(records);
      finishedRead := true;
      return Success(users);
    }

    /** readByPID: the lookup by id, wired to GetUserByID. */
    method ReadByPid(id: string) returns (r: Result<User, Error>)
      requires azureClient.Some?
      ensures r == PidResult(ListExchange(azureClient.value, IdFilter(id)).response, id)
    {
      var response;
      ghost var sent;
      response, sent := azureClient.value.GetUserByID(id);
      if response.Failure? {
        return Failure(Remote(response.error));
      }
      var records := response.value;
      if |records| > 0 {
        // the range loop returns on its first element
        if records[0].None? {
          return Failure(Message("failed to get user by pid " + id));
        }
        if !Complete(records[0].value) {
          return Failure(Crash);
        }
        return Success(Transform(records[0].value));
      }
      return Failure(Message("failed to get user by pid " + id));
    }

    /** readByEmail: the lookup by email, wired to GetUserByEmail. */
    method ReadByEmail(email: string) returns (r: Result<seq<User>, Error>)
      requires azureClient.Some?
      ensures r == EmailResult(EmailExchange(azureClient.value, email).response, email)
    {
      var response;
      ghost var sent;
      response, sent := azureClient.value.GetUserByEmail(email);
      if response.Failure? {
        return Failure(Remote(response.error));
      }
      var records := response.value;
      if |records| < 1 {
        return Failure(Message("failed to get user by email " + email));
      }
      var users: seq<User> := [];
      var i := 0;
      while i < |records|
        invariant 0 <= i <= |records|
        invariant forall j :: 0 <= j < i ==> Loadable(records[j])
        invariant |users| == i
        invariant forall j :: 0 <= j < i ==> users[j] == Transform(records[j].value)
      {
        if !Loadable(records[i]) {
          return Failure(Crash);
        }
        users := users + [Transform(records[i].value)];
        i := i + 1;
      }
      assert users == TransformAll(records);
      return Success(users);
    }

    /** Write: accepted and ignored. */
    method Write(user: User) returns (err: Option<Error>)
      ensures err.None?
    {
      return None;
    }

    /** Delete: accepted and ignored. */
    method Delete(userId: string) returns (err: Option<Error>)
      ensures err.None?
    {
      return None;
    }

    /** Close: no statistics and no error. */
    method Close() returns (stats: Option<Stats>, err: Option<Error>)
      ensures stats.None? && err.None?
    {
      return None, None;
    }
  }

  /** A Read that is not exhausted never answers io.EOF: the sentinel comes only from the finished flag. */
  lemma ReadResultNeverEof(c: AzureADConfig, client: AzureADClient)
    ensures ReadResult(c, client) != Failure(EOF)
  {
  }

  /** With a user PID configured the user email is never consulted. */
  lemma PidTakesPrecedence(c: AzureADConfig, client: AzureADClient)
    requires c.userPid != ""
    ensures ReadResult(c, client) == ReadResult(c.(userEmail := ""), client)
  {
  }

  /** A successful lookup by PID yields exactly the transformed first record the id query returned. */
  lemma PidLookupYieldsFirstRecord(c: AzureADConfig, client: AzureADClient)
    requires c.userPid != ""
    ensures var response := client.appClient(UsersQuery(IdFilter(c.userPid)));
      ReadResult(c, client).Success? <==>
        response.Success? && |response.value| > 0 && Loadable(response.value[0])
    ensures var response := client.appClient(UsersQuery(IdFilter(c.userPid)));
      ReadResult(c, client).Success? ==>
        ReadResult(c, client).value == [Transform(response.value[0].value)]
  {
  }

  /** An empty answer, or a nil first record, fails the lookup by PID with a message naming the id. */
  lemma PidNotFound(c: AzureADConfig, client: AzureADClient)
    requires c.userPid != ""
    requires var response := client.appClient(UsersQuery(IdFilter(c.userPid)));
      response.Success? && (response.value == [] || response.value[0].None?)
    ensures ReadResult(c, client) == Failure(Message("failed to get user by pid " + c.userPid))
  {
  }

  /** When neither the mail nor the principal name matches, the lookup by email fails with a message naming the email. */
  lemma EmailNotFound(c: AzureADConfig, client: AzureADClient)
    requires c.userPid == "" && c.userEmail != ""
    requires client.appClient(UsersQuery(MailFilter(c.userEmail))) == Success([])
    requires client.appClient(UsersQuery(PrincipalNameFilter(c.userEmail))) == Success([])
    ensures ReadResult(c, client) == Failure(Message("failed to get user by email " + c.userEmail))
  {
  }

  /** A successful full listing yields one transformed user per remote record, in the directory's order. */
  lemma ListingKeepsOrder(c: AzureADConfig, client: AzureADClient)
    requires FullListing(c)
    ensures var response := client.appClient(UsersQuery(""));
      ReadResult(c, client).Success? <==> response.Success? && AllLoadable(response.value)
    ensures var response := client.appClient(UsersQuery(""));
      ReadResult(c, client).Success? ==>
        |ReadResult(c, client).value| == |response.value| &&
        forall i :: 0 <= i < |response.value| ==> ReadResult(c, client).value[i] == Transform(response.value[i].value)
  {
  }

  /** A full listing, then io.EOF: the session the host drives for a plain read. */
  method ListingThenEof(c: AzureADConfig, connect: Connector)
    returns (first: Result<seq<User>, Error>, second: Result<seq<User>, Error>)
    requires FullListing(c)
    requires connect(SecretCredential(c.tenant, c.clientId, c.clientSecret)).Success?
    ensures first == ReadResult(c, connect(SecretCredential(c.tenant, c.clientId, c.clientSecret)).value)
    ensures first.Success? ==> second == Failure(EOF)
    ensures first.Failure? ==> second == first
  {
    var plugin := new AzureADPlugin();
    var err := plugin.Open(AzureAD(c), ReadOperation, connect);
    first := plugin.Read();
    second := plugin.Read();
  }

  /**
   * A lookup by PID or by email, read twice: the read is never finished, so
   * the second Read repeats the lookup instead of answering io.EOF.
   */
  method PointLookupDoesNotExhaust(c: AzureADConfig, connect: Connector)
    returns (first: Result<seq<User>, Error>, second: Result<seq<User>, Error>)
    requires !FullListing(c)
    requires connect(SecretCredential(c.tenant, c.clientId, c.clientSecret)).Success?
    ensures first == ReadResult(c, connect(SecretCredential(c.tenant, c.clientId, c.clientSecret)).value)
    ensures second == first && second != Failure(EOF)
  {
    var plugin := new AzureADPlugin();
    var err := plugin.Open(AzureAD(c), ReadOperation, connect);
    first := plugin.Read();
    second := plugin.Read();
    ReadResultNeverEof(c, connect(SecretCredential(c.tenant, c.clientId, c.clientSecret)).value);
  }
}
