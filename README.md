# AzureAD identity-provider connector, modelled in Dafny

This project models the user-retrieval and normalisation pipeline of the
AzureAD plugin for the Aserto identity-synchronisation host:

- the **normaliser** (`pkg/transform/transform.go`) that turns a Microsoft
  Graph user into the canonical `api.User` record with its identity map, and
  its inverse field copy `ToAzureAD`;
- the **directory query client** (`pkg/azureclient/azure.go`): the OData
  `$filter` strings (`eq` comparisons, OData Version 4.01 URL Conventions,
  section 5.1.1.1.1) with the value interpolated unescaped, the fixed select
  list, and the lookup by email that falls back from `mail` to
  `userPrincipalName`;
- the **configuration validation** (`pkg/config/config.go`): the ordered
  `InvalidArgument` guards, the choice of credential flow and the single
  connectivity probe, whose failures are `Internal`;
- the **connector state machine** (`pkg/srv/srv.go`): `Open`, `Read` with
  its three paths (by PID, by email, full listing) and the `finishedRead`
  flag that makes later reads answer `io.EOF`, and the no-op `Write`,
  `Delete` and `Close`.

The Graph endpoint is an oracle: a `Directory` is a function from a query
(select list and filter) to either a collection of possibly-nil user records
or an error text. Client construction is an oracle too (`Connector`, from
credentials to a client or an error). Because the oracle is a function, the
same query gets the same answer, which is what lets a second `Read` be
compared with the first.

Files: `wrappers.dfy` (Option, Result), `errors.dfy` (the error kinds and
their `Error()` text), `transform.dfy` (module `Normalizer`),
`azureclient.dfy`, `config.dfy`, `srv.dfy`.

Modelling choices:

- Go panics are an outcome, `Error.Crash`: a nil record in a listing, a
  record without id, display name or creation time reaching `Transform`, and
  `Read` before a successful `Open` (the nil client). `Transform` itself
  requires the three fields, since it dereferences them unconditionally.
- Each client method returns, besides the response, a ghost trace of the
  queries it sent; the pure functions `ListExchange` and `EmailExchange`
  specify both, and the methods are proved equal to them.
- `srv.go` calls `a.azureClient.GetUser(...)` (pkg/srv/srv.go:117 and
  pkg/srv/srv.go:135), which `azure.go` does not define. The model wires
  `readByPID` to `GetUserByID` and `readByEmail` to `GetUserByEmail`.
- The identity map is the chained update `m[id := PID][mail := EMAIL][phone := PHONE]`,
  so a later insert overwrites an earlier one on equal keys.

Where the code differs from what its tests or its design intend, the model
follows the code:

- The identity map is meant to hold one PID entry keyed by the id. In the
  code an EMAIL or PHONE insert with the same key replaces it (`Identities`
  states when the PID entry survives).
- A point lookup was meant to end the read: the tests expect `io.EOF` on
  the second read after a lookup by PID or email (pkg/srv/srv_test.go:80-82,
  133-135, 160-162). In the code only a successful full listing sets
  `finishedRead`. `PointLookupDoesNotExhaust` shows the second read
  repeating the lookup.
- PID and email together were meant to be refused whatever the other
  fields hold. In the code the exclusivity check is the last guard
  (pkg/config/config.go:48-50), so a missing tenant, client id or secret is
  reported first (`GuardOrder`, `EarlierGuardWins`).
- The query was meant to carry an ordering and a page-size cap. The code
  sends only `$select` and `$filter`.
- `Open` always builds the client with the secret credential, even when a
  refresh token is configured; only `Validate` uses the refresh-token flow.

## Model

| member | source | states |
|---|---|---|
| `Normalizer.Identities` | pkg/transform/transform.go:52-73 | keys are exactly the id plus the non-empty mail and phone; every source has provider "azuread" and is verified iff not PHONE; the phone key always holds PHONE; the mail key holds EMAIL unless the phone equals it; the PID entry survives iff the id equals neither non-empty mail nor phone |
| `Normalizer.Transform` | pkg/transform/transform.go:26-76 | requires id, display name and creation time present; copies id and display name verbatim; email is the mail or "" when absent; identities as above; empty attributes and applications, unset picture; created and updated time both the remote creation time |
| `Normalizer.ToAzureAD` | pkg/transform/transform.go:15-23 | sets exactly id, display name and mail from the user's id, display name and email; every other field is unset |
| `Normalizer.IdentityKeysExplained` | pkg/transform/transform.go:52-73 | a PID entry is keyed by the id (so at most one exists); an EMAIL entry is keyed by the email field, non-empty and not the phone; a PHONE entry is keyed by the non-empty phone |
| `Normalizer.IdentityCount` | pkg/transform/transform.go:52-73 | the identity map has at most three entries, and exactly one iff the non-empty mail and phone are all equal to the id |
| `Normalizer.RoundTripFromUser` | pkg/transform/transform.go:15-50 | Transform after ToAzureAD (with a creation time supplied) gives back id, display name and email |
| `Normalizer.RoundTripFromRemote` | pkg/transform/transform.go:15-50 | ToAzureAD after Transform gives back id and display name, the mail with absent turned into "", and drops phone, principal name and creation time |
| `Normalizer.ToAzureADIsIncomplete` | pkg/transform/transform.go:15-23 | ToAzureAD sets no creation time, so its result does not meet Transform's precondition |
| `Normalizer.TransformScenario` | pkg/transform/transform_test.go:23-32 | the test's user "1"/"Name" with mail "email", with no or an empty phone: id "1", display name "Name", email "email", identities exactly the PID and EMAIL entries |
| `AzureClient.UsersQuery` | pkg/azureclient/azure.go:78-82 | every query selects displayName, id, mail, createdDateTime, mobilePhone, userPrincipalName and carries the given filter |
| `AzureClient.EqFilterInjective` | pkg/azureclient/azure.go:57-75 | distinct values give distinct filters on the same property |
| `AzureClient.QuoteInIdWidensFilter` | pkg/azureclient/azure.go:57-60 | the id is not escaped: for all a, b the id `a' or id eq 'b` gives the disjunction of the id filters for a and b |
| `AzureClient.ListExchange` | pkg/azureclient/azure.go:78-88 | one query with the fixed select list and the given filter; the directory's answer to it is returned |
| `AzureClient.EmailExchange` | pkg/azureclient/azure.go:62-76 | the mail query comes first; a second, userPrincipalName, query is sent iff the mail query succeeded with no user; the answer to the last query sent is returned |
| `AzureClient.EmailFallbackFound` | pkg/azureclient/azure.go:70-74 | no user by mail and one by principal name: the lookup returns that user |
| `AzureClient.AzureADClient.QueryUsers` | pkg/azureclient/azure.go:78-88 | sends exactly the query ListExchange describes and returns its answer |
| `AzureClient.AzureADClient.ListUsers` | pkg/azureclient/azure.go:53-55 | exactly one query, with the empty filter |
| `AzureClient.AzureADClient.GetUserByID` | pkg/azureclient/azure.go:57-60 | exactly one query, filtered by `id eq '<id>'` |
| `AzureClient.AzureADClient.GetUserByEmail` | pkg/azureclient/azure.go:62-76 | the queries and the response EmailExchange specifies: no fallback on an error, fallback only on an empty mail result, at most two queries |
| `Config.GuardError` | pkg/config/config.go:36-50 | no error iff tenant, client id and secret are non-empty and not both user PID and user email are set; any error is InvalidArgument; the first failing guard in the order tenant, client id, client secret, exclusivity gives its own message |
| `Config.GuardOrder` | pkg/config/config.go:36-46 | for every configuration and directory, Validate reports the tenant, else the client id, else the client secret message, whichever guard fails first |
| `Config.EarlierGuardWins` | pkg/config/config.go:36-50 | an empty tenant, client id and secret together with both PID and email reports the tenant, not the exclusivity |
| `Config.CredentialsFor` | pkg/config/config.go:52-65 | the refresh-token credential iff a refresh token is configured, carrying tenant, client id, secret (and the token) |
| `Config.Validate` | pkg/config/config.go:32-77 | the result is ValidateResult of the configuration and the directory, whatever the operation; the only query sent is the probe, and only after the guards and client construction succeed |
| `Config.Description` | pkg/config/config.go:79-81 | always "AzureAD plugin" |
| `Config.PassedGuardsFailOnlyInternally` | pkg/config/config.go:52-74 | once the guards pass, every failure is Internal, and validation succeeds iff the client is built and the unfiltered listing succeeds |
| `Config.GuardFailureIsFinal` | pkg/config/config.go:36-50 | a failing guard is the result, and no probe is sent |
| `Config.ProbeIsOneListing` | pkg/config/config.go:70-74 | validation sends at most one query, the unfiltered listing |
| `Config.PidAndEmailExclusive` | pkg/config/config.go:48-50 | with credentials present, both user PID and user email fail with the exclusivity message |
| `Config.InvalidArgumentText` | pkg/config/config.go:37 | an InvalidArgument status renders as "rpc error: code = InvalidArgument desc = " followed by its description |
| `Config.GuardScenarios` | pkg/config/config_test.go:10-79 | empty tenant, empty client id, empty secret, and PID with email give the messages the tests expect |
| `Srv.TransformAll` | pkg/srv/srv.go:96-108 | one transformed user per remote record, in the same order |
| `Srv.AzureADPlugin.constructor` | pkg/srv/srv.go:31-35 | empty configuration, no client, page 0, read not finished |
| `Srv.AzureADPlugin.Open` | pkg/srv/srv.go:45-68 | a foreign config fails with "invalid config" and changes nothing; otherwise stores config and operation, resets page and finishedRead, then installs the secret-flow client or returns its construction error keeping the old client |
| `Srv.AzureADPlugin.Read` | pkg/srv/srv.go:70-113 | io.EOF and no change once finished; otherwise ReadResult of the configuration and client (Crash without a client); finishedRead becomes true iff a full listing succeeded |
| `Srv.AzureADPlugin.ReadByPid` | pkg/srv/srv.go:115-130 | the id lookup's outcome: remote error passed through, "failed to get user by pid <id>" on an empty answer or nil first record, else the first record transformed |
| `Srv.AzureADPlugin.ReadByEmail` | pkg/srv/srv.go:132-151 | the email lookup's outcome: remote error passed through, "failed to get user by email <email>" on no match, else every match transformed in order |
| `Srv.AzureADPlugin.Write` | pkg/srv/srv.go:153-155 | always succeeds |
| `Srv.AzureADPlugin.Delete` | pkg/srv/srv.go:157-159 | always succeeds |
| `Srv.AzureADPlugin.Close` | pkg/srv/srv.go:161-163 | no statistics and no error |
| `Srv.ReadResultNeverEof` | pkg/srv/srv.go:70-151 | an unfinished read never yields io.EOF: the sentinel comes from finishedRead alone |
| `Srv.PidTakesPrecedence` | pkg/srv/srv.go:78-89 | with a user PID set, the user email does not affect the read |
| `Srv.PidLookupYieldsFirstRecord` | pkg/srv/srv.go:115-130 | the PID read succeeds iff the id query succeeds with a loadable first record, and then yields exactly that record transformed |
| `Srv.PidNotFound` | pkg/srv/srv.go:122-129 | an empty answer or nil first record fails with "failed to get user by pid " and the id |
| `Srv.EmailNotFound` | pkg/srv/srv.go:140-143 | no match by mail nor by principal name fails with "failed to get user by email " and the email |
| `Srv.ListingKeepsOrder` | pkg/srv/srv.go:91-112 | the full listing succeeds iff the directory answers with loadable records only, and then yields one transformed user per record in remote order |
| `Srv.ListingThenEof` | pkg/srv/srv_test.go:169-191 | open, then a full listing, then io.EOF; a failed listing leaves the read open, so the second read repeats it |
| `Srv.PointLookupDoesNotExhaust` | pkg/srv/srv.go:78-89 | after a lookup by PID or email the second read repeats the lookup and is not io.EOF |

## Left out

- Credential acquisition (pkg/azureclient/credential.go: the refresh-token
  POST, JSON decoding, clock arithmetic) and client construction
  (`NewAzureADClient`, `NewAzureADClientWithRefreshToken`, `getAppClient`):
  I/O over libraries not part of this model; construction is the
  `Connector` oracle.
- The Graph user-collection endpoint: the `Directory` oracle. Its answer
  is a single collection; paging links are not modelled, as the code
  follows none.
- `fmt.Printf` logging in the full-listing loop: console output only. Its
  dereferences of the display name and id are covered by the Crash outcome.
- The unused plugin fields `totalSize`, `jobs`, `users`, `connectionID` and
  `wg`, and `GetConfig`/`GetVersion` with the linker-set version globals.
- Timestamps are opaque values; protobuf conversion and the clock are not
  modelled. Struct property values are abstracted to strings.
- The plugin's zero-valued operation before `Open` is shown as `None`; the
  SDK's numbering of operation types is not part of this model.
- Srv.AzureADPlugin.Read: a Go panic ends the process; the model returns
  Crash and leaves the state unchanged instead of stopping.
- Srv.AzureADPlugin.ReadByPid: the range loop that returns on its first
  element is written as a test of the first element.
- Aliasing: `Open` keeps the host's `*AzureADConfig` pointer
  (pkg/srv/srv.go:46, 51), so later edits the host makes to that config
  reach `Read`; the model copies the configuration value at `Open`.
  Likewise `ToAzureAD` returns a user whose id, display name and mail
  point into the input's fields (pkg/transform/transform.go:18-20); the
  model copies the values, so sharing between the two records is not
  captured.
