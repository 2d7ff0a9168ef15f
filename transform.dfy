/**
 * The user normaliser: maps a user of the remote directory onto the
 * canonical identity record the synchronisation host consumes, and back.
 */
module Normalizer {
  import opened Wrappers

  /** The provider name stamped on every identity source. */
  const Provider: string := "azuread"

  /** A protobuf timestamp; the normaliser only copies it. */
  datatype Timestamp = Timestamp(seconds: int, nanos: int)

  /**
   * A directory user as the Graph model exposes it: every getter may
   * return nil, shown here as None.
   */
  datatype RemoteUser = RemoteUser(
    id: Option<string>,
    displayName: Option<string>,
    mail: Option<string>,
    mobilePhone: Option<string>,
    userPrincipalName: Option<string>,
    createdDateTime: Option<Timestamp>)

  datatype IdentityKind = Pid | Email | Phone

  datatype IdentitySource = IdentitySource(kind: IdentityKind, provider: string, verified: bool)

  /** Properties (a protobuf Struct, its values abstracted to strings), roles and permissions. */
  datatype AttrSet = AttrSet(properties: map<string, string>, roles: seq<string>, permissions: seq<string>)

  datatype Metadata = Metadata(createdAt: Timestamp, updatedAt: Timestamp)

  /** The canonical identity record. */
  datatype User = User(
    id: string,
    displayName: string,
    email: string,
    picture: string,
    identities: map<string, IdentitySource>,
    attributes: AttrSet,
    applications: map<string, AttrSet>,
    metadata: Metadata)

  const PidSource: IdentitySource := IdentitySource(Pid, Provider, true)
  const EmailSource: IdentitySource := IdentitySource(Email, Provider, true)
  const PhoneSource: IdentitySource := IdentitySource(Phone, Provider, false)

  const EmptyAttrSet: AttrSet := AttrSet(map[], [], [])

  /** The getters Transform dereferences without a nil check. */
  predicate Complete(u: RemoteUser) {
    u.id.Some? && u.displayName.Some? && u.createdDateTime.Some?
  }

  /** An optional string that is present and not empty. */
  predicate NonEmpty(s: Option<string>) {
    s.Some? && s.value != ""
  }

  /** The keys an optional identity value contributes. */
  function Present(s: Option<string>): set<string> {
    if NonEmpty(s) then {s.value} else {}
  }

  /**
   * The identity map: a PID entry under the id, then an EMAIL entry under
   * the mail and a PHONE entry under the phone when those are non-empty.
   * Each insert overwrites whatever an earlier one put under the same key.
   */
  function Identities(id: string, mail: Option<string>, phone: Option<string>): (m: map<string, IdentitySource>)
    ensures m.Keys == {id} + Present(mail) + Present(phone)
    ensures forall k :: k in m ==> m[k].provider == Provider && m[k].verified == (m[k].kind != Phone)
    ensures NonEmpty(phone) ==> m[phone.value] == PhoneSource
    ensures NonEmpty(mail) ==>
      m[mail.value] == if NonEmpty(phone) && phone.value == mail.value then PhoneSource else EmailSource
    ensures m[id] == PidSource <==> id !in Present(mail) + Present(phone)
  {
    var withPid := map[id := PidSource];
    var withMail := if NonEmpty(mail) then withPid[mail.value := EmailSource] else withPid;
    if NonEmpty(phone) then withMail[phone.value := PhoneSource] else withMail
  }

  /** Transform: the canonical record of a remote user. */
  function Transform(u: RemoteUser): (r: User)
    requires Complete(u)
    ensures r.id == u.id.value && r.displayName == u.displayName.value
    ensures r.email == u.mail.GetOr("")
    ensures r.identities == Identities(u.id.value, u.mail, u.mobilePhone)
    ensures r.picture == "" && r.attributes == EmptyAttrSet && r.applications == map[]
    ensures r.metadata.createdAt == u.createdDateTime.value && r.metadata.updatedAt == u.createdDateTime.value
  {
    User(
      id := u.id.value,
      displayName := u.displayName.value,
      email := if u.mail.Some? then u.mail.value else "",
      picture := "",
      identities := Identities(u.id.value, u.mail, u.mobilePhone),
      attributes := AttrSet(map[], [], []),
      applications := map[],
      metadata := Metadata(u.createdDateTime.value, u.createdDateTime.value))
  }

  /** ToAzureAD: a fresh directory user with only id, display name and mail set. */
  function ToAzureAD(u: User): (r: RemoteUser)
    ensures r.id == Some(u.id) && r.displayName == Some(u.displayName) && r.mail == Some(u.email)
    ensures r.mobilePhone.None? && r.userPrincipalName.None? && r.createdDateTime.None?
  {
    RemoteUser(Some(u.id), Some(u.displayName), Some(u.email), None, None, None)
  }

  /** Each identity entry is explained by one of the three inputs, with the kind that value was inserted as. */
  lemma IdentityKeysExplained(u: RemoteUser)
    requires Complete(u)
    ensures var r := Transform(u);
      forall k :: k in r.identities ==>
        && (r.identities[k].kind == Pid ==> k == r.id)
        && (r.identities[k].kind == Email ==> k == r.email && k != "" && k !in Present(u.mobilePhone))
        && (r.identities[k].kind == Phone ==> NonEmpty(u.mobilePhone) && k == u.mobilePhone.value)
  {
  }

  /** The identity map never has more than three entries, one per distinct non-empty value. */
  lemma IdentityCount(u: RemoteUser)
    requires Complete(u)
    ensures |Transform(u).identities| <= 3
    ensures |Transform(u).identities| == 1 <==> Present(u.mail) + Present(u.mobilePhone) <= {u.id.value}
  {
  }

  /** Transform round-trips id, display name and mail through ToAzureAD once a creation time is supplied. */
  lemma RoundTripFromUser(u: User, created: Timestamp)
    ensures var remote := ToAzureAD(u).(createdDateTime := Some(created));
      Complete(remote) &&
      var back := Transform(remote);
      back.id == u.id && back.displayName == u.displayName && back.email == u.email
  {
  }

  /** ToAzureAD of a transformed user gives back the fields it copies; an absent mail comes back empty. */
  lemma RoundTripFromRemote(u: RemoteUser)
    requires Complete(u)
    ensures ToAzureAD(Transform(u)) ==
      RemoteUser(u.id, u.displayName, Some(u.mail.GetOr("")), None, None, None)
  {
  }

  /** ToAzureAD never sets a creation time, so its result cannot be transformed without one. */
  lemma ToAzureADIsIncomplete(u: User)
    ensures !Complete(ToAzureAD(u))
  {
  }

  /** The transform test's user ("1", "Name", mail "email", no phone), or one with an empty phone: no PHONE entry is made. */
  lemma TransformScenario(phone: Option<string>, created: Timestamp)
    requires !NonEmpty(phone)
    ensures var r := Transform(RemoteUser(Some("1"), Some("Name"), Some("email"), phone, None, Some(created)));
      r.id == "1" && r.displayName == "Name" && r.email == "email" &&
      r.identities == map["1" := PidSource, "email" := EmailSource]
  {
  }
}
