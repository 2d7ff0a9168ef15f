/**
 * The directory query client: builds the OData queries for the user
 * collection and sequences them. The Graph endpoint is an oracle that
 * answers each query.
 */
module AzureClient {
  import opened Wrappers
  import opened Errors
  import opened Normalizer

  /** The fields every query selects. */
  const SelectFields: seq<string> :=
    ["displayName", "id", "mail", "createdDateTime", "mobilePhone", "userPrincipalName"]

  /** One GET on the user collection: a select list and a filter (empty for none). */
  datatype Query = Query(select: seq<string>, filter: string)

  /** The user collection returned, or the text of the directory's error; a record may be nil. */
  type Response = Result<seq<Option<RemoteUser>>, string>

  /** The Graph endpoint: the answer the directory gives to each query. */
  type Directory = Query -> Response

  /** What a client call observably does: the queries it sent, in order, and the response it returns. */
  datatype Exchange = Exchange(queries: seq<Query>, response: Response)

  /** Credentials the two client constructors take. */
  datatype Credentials =
    | SecretCredential(tenant: string, clientId: string, clientSecret: string)
    | RefreshTokenCredential(tenant: string, clientId: string, clientSecret: string, refreshToken: string)

  /** Client construction, left abstract: a client bound to a directory, or the construction error. */
  type Connector = Credentials -> Result<AzureADClient, Error>

  /** A `$filter` equality on a string property, with the value interpolated as is (no quote escaping). */
  function EqFilter(property: string, value: string): string {
    property + " eq '" + value + "'"
  }

  function IdFilter(id: string): string { EqFilter("id", id) }
  function MailFilter(email: string): string { EqFilter("mail", email) }
  function PrincipalNameFilter(email: string): string { EqFilter("userPrincipalName", email) }

  /** The query listUsers sends for a filter. */
  function UsersQuery(filter: string): (q: Query)
    ensures q.select == SelectFields && q.filter == filter
  {
    Query(SelectFields, filter)
  }

  /** Distinct values give distinct filters on the same property: each lookup targets one value. */
  lemma EqFilterInjective(property: string, v1: string, v2: string)
    requires EqFilter(property, v1) == EqFilter(property, v2)
    ensures v1 == v2
  {
    var prefix := property + " eq '";
    var f1, f2 := EqFilter(property, v1), EqFilter(property, v2);
    assert f1 == prefix + v1 + "'";
    assert |v1| == |v2|;
    assert v1 == f1[|prefix|..|prefix| + |v1|];
    assert v2 == f2[|prefix|..|prefix| + |v2|];
  }

  /** A quote in the id is not escaped: it closes the literal, and the rest of the id becomes filter syntax. */
  lemma QuoteInIdWidensFilter(a: string, b: string)
    ensures IdFilter(a + "' or id eq '" + b) == IdFilter(a) + " or " + IdFilter(b)
  {
  }

  /** The directory's answer to one query is returned as is. */
  function ListExchange(c: AzureADClient, filter: string): (x: Exchange)
    ensures |x.queries| == 1 && x.queries[0].select == SelectFields && x.queries[0].filter == filter
    ensures x.response == c.appClient(x.queries[0])
  {
    var q := UsersQuery(filter);
    Exchange([q], c.appClient(q))
  }

  /**
   * The lookup by email: a mail query, then a userPrincipalName query only
   * when the mail query succeeded with no user.
   */
  function EmailExchange(c: AzureADClient, email: string): (x: Exchange)
    ensures 1 <= |x.queries| <= 2
    ensures x.queries[0] == UsersQuery(MailFilter(email))
    ensures x.response == c.appClient(x.queries[|x.queries| - 1])
    ensures |x.queries| == 2 <==> c.appClient(x.queries[0]) == Success([])
    ensures |x.queries| == 2 ==> x.queries[1] == UsersQuery(PrincipalNameFilter(email))
  {
    var byMail := ListExchange(c, MailFilter(email));
    if byMail.response.Failure? then byMail
    else if |byMail.response.value| < 1 then
      Exchange(byMail.queries + ListExchange(c, PrincipalNameFilter(email)).queries,
               ListExchange(c, PrincipalNameFilter(email)).response)
    else byMail
  }

  /** AzureADClient: a client bound to the directory its credential reaches. */
  datatype AzureADClient = AzureADClient(appClient: Directory) {

    /** listUsers: one GET with the fixed select list and the given filter. */
    method QueryUsers(filter: string) returns (response: Response, ghost sent: seq<Query>)
      ensures response == ListExchange(this, filter).response
      ensures sent == ListExchange(this, filter).queries
    {
      var query := Query(SelectFields, filter);
      response := appClient(query);
      sent := [query];
    }

    /** ListUsers: the unfiltered listing. */
    method ListUsers() returns (response: Response, ghost sent: seq<Query>)
      ensures response == ListExchange(this, "").response
      ensures sent == ListExchange(this, "").queries
    {
      response, sent := QueryUsers("");
    }

    /** GetUserByID: the listing filtered on the id. */
    method GetUserByID(id: string) returns (response: Response, ghost sent: seq<Query>)
      ensures response == ListExchange(this, IdFilter(id)).response
      ensures sent == ListExchange(this, IdFilter(id)).queries
    {
      var filter := "id eq '" + id + "'";
      assert "id" + " eq '" == "id eq '";
      response, sent := QueryUsers(filter);
    }

    /** GetUserByEmail: by mail, falling back to the principal name when no user has that mail. */
    method GetUserByEmail(email: string) returns (response: Response, ghost sent: seq<Query>)
      ensures response == EmailExchange(this, email).response
      ensures sent == EmailExchange(this, email).queries
    {
      var filter := "mail eq '" + email + "'";
      assert "mail" + " eq '" == "mail eq '";
      response, sent := QueryUsers(filter);
      if response.Failure? {
        return;
      }
      if |response.value| < 1 {
        var fallback := "userPrincipalName eq '" + email + "'";
        assert "userPrincipalName" + " eq '" == "userPrincipalName eq '";
        ghost var first := sent;
        response, sent := QueryUsers(fallback);
        sent := first + sent;
        return;
      }
    }
  }

  /** The lookup by email finds a user by principal name only when no user has that mail. */
  lemma EmailFallbackFound(c: AzureADClient, email: string, found: RemoteUser)
    requires c.appClient(UsersQuery(MailFilter(email))) == Success([])
    requires c.appClient(UsersQuery(PrincipalNameFilter(email))) == Success([Some(found)])
    ensures EmailExchange(c, email).response == Success([Some(found)])
  {
  }
}
