/**
 Credential requests: creating, deleting and renewing a consumer's API key, basic-auth
 or OAuth credential.

 The three kinds follow the same path in the source and are told apart here by a
 `CredentialKind`. The random values a request draws are its `Random`.
 */
module Credentials {
  import opened KongStore
  import opened KongClients
  import opened Names
  import opened Sequences

  const WORKSPACE_NAME := "workspaceName"
  const CREDENTIAL_ID := "kongCredentialID"
  const CREDENTIAL_UPDATE := "kongCredentialUpdate"

  datatype CredentialRequest = CredentialRequest(
    typeName: string,
    appDetails: map<string, string>,
    credentialDetails: map<string, string>)

  datatype Random = Random(login: string, secret: string)

  datatype CredentialStatus =
    | Success | NoWorkspace | NoAppId | NoCredentialId | CreateFailed | DeleteFailed | UnknownType

  /** The status, the properties recorded on the credential resource, and the new
      credential handed back. */
  datatype Reply = Reply(status: CredentialStatus, properties: map<string, string>, made: Option<Credential>)

  function OrRandom(value: string, random: string): string {
    if value == "" then random else value
  }

  // ----- Kong's side -----

  predicate IsFreshCredential(cs: seq<Credential>, id: string) {
    id != "" && forall c :: c in cs ==> c.id != id
  }

  predicate IsCredential(c: Credential, consumer: string, kind: CredentialKind, id: string) {
    c.consumer == consumer && c.kind == kind && c.id == id
  }

  function IsNotCredential(consumer: string, kind: CredentialKind, id: string): Credential -> bool {
    (c: Credential) => !IsCredential(c, consumer, kind, id)
  }

  /** The credentials but for one of that consumer, kind and ID. */
  function Revoking(cs: seq<Credential>, consumer: string, kind: CredentialKind, id: string): seq<Credential> {
    Filtered(cs, IsNotCredential(consumer, kind, id))
  }

  function CreateCredential(
      k: Kong, net: Net, workspace: string, consumer: string, kind: CredentialKind, login: string, secret: string)
    : (r: (Kong, Option<Credential>))
    ensures SameElsewhere(k, r.0, workspace)
    ensures r.1.None? ==> r.0.stores == k.stores
  {
    var s := StoreOf(k, workspace);
    var found := FindConsumer(s.consumers, consumer);
    if Writes(k, net, workspace) && found.Some? && IsFreshCredential(s.credentials, net.ids(k.clock)) then
      var c := Credential(net.ids(k.clock), kind, found.value.id, login, secret);
      (WithStore(Tick(k), workspace, s.(credentials := s.credentials + [c])), Some(c))
    else (Tick(k), None)
  }

  /** Deleting a credential that is not there is no error, but an unknown consumer is. */
  function DeleteCredential(
      k: Kong, net: Net, workspace: string, consumer: string, kind: CredentialKind, id: string): (r: (Kong, bool))
    ensures SameElsewhere(k, r.0, workspace)
    ensures !r.1 ==> r.0.stores == k.stores
  {
    var s := StoreOf(k, workspace);
    var found := FindConsumer(s.consumers, consumer);
    if Writes(k, net, workspace) && found.Some? then
      (WithStore(Tick(k), workspace, s.(credentials := Revoking(s.credentials, found.value.id, kind, id))), true)
    else (Tick(k), false)
  }

  // ----- the agent's side -----

  function SecretFor(kind: CredentialKind, random: Random): string {
    if kind.ApiKey? then "" else random.secret
  }

  function PropertiesOf(workspace: string, c: Credential): map<string, string> {
    var common := map[WORKSPACE_NAME := workspace, APP_ID := c.consumer, CREDENTIAL_ID := c.id];
    if c.kind.ApiKey? then common else common[CREDENTIAL_UPDATE := c.login]
  }

  function Failed(status: CredentialStatus): Reply {
    Reply(status, map[], None)
  }

  function Answer(workspace: string, made: Option<Credential>): Reply {
    match made
    case None => Failed(CreateFailed)
    case Some(c) => Reply(Success, PropertiesOf(workspace, c), made)
  }

  function Provisioned(k: Kong, net: Net, req: CredentialRequest, random: Random): (Kong, Reply) {
    match ParseCredentialType(req.typeName)
    case None => (k, Failed(NoWorkspace))
    case Some((workspace, kind)) =>
      if workspace == "" then (k, Failed(NoWorkspace))
      else
        var consumer := Recorded(req.appDetails, workspace);
        var (k', made) := CreateCredential(k, net, workspace, consumer, kind, random.login, SecretFor(kind, random));
        (k', Answer(workspace, made))
  }

  /** A deletion that fails is taken for one already done. */
  function Deprovisioned(k: Kong, net: Net, req: CredentialRequest): (Kong, CredentialStatus) {
    match ParseCredentialType(req.typeName)
    case None => (k, NoWorkspace)
    case Some((workspace, kind)) =>
      var consumer, id := Detail(req.credentialDetails, APP_ID), Detail(req.credentialDetails, CREDENTIAL_ID);
      if workspace == "" then (k, NoWorkspace)
      else if consumer == "" then (k, NoAppId)
      else if id == "" then (k, NoCredentialId)
      else (DeleteCredential(k, net, workspace, consumer, kind, id).0, Success)
  }

  /** The login a renewed credential gets: the recorded one if there is any, except that
      an API key is always new. */
  function RenewedLogin(kind: CredentialKind, recorded: string, random: Random): string {
    if kind.ApiKey? then random.login else OrRandom(recorded, random.login)
  }

  /** Both calls go out on a context that carries no workspace. */
  function Updated(k: Kong, net: Net, req: CredentialRequest, random: Random): (Kong, Reply) {
    match ParseCredentialType(req.typeName)
    case None => (k, Failed(NoWorkspace))
    case Some((workspace, kind)) =>
      var consumer, id := Detail(req.credentialDetails, APP_ID), Detail(req.credentialDetails, CREDENTIAL_ID);
      if workspace == "" then (k, Failed(NoWorkspace))
      else if id == "" then (k, Failed(NoCredentialId))
      else
        var (k1, ok) := DeleteCredential(k, net, "", consumer, kind, id);
        if !ok then (k1, Failed(DeleteFailed))
        else
          var login := RenewedLogin(kind, Detail(req.credentialDetails, CREDENTIAL_UPDATE), random);
          var (k2, made) := CreateCredential(k1, net, "", consumer, kind, login, SecretFor(kind, random));
          (k2, Answer(workspace, made))
  }

  class CredentialProvisioner {
    const client: KongClient
    const request: CredentialRequest

    constructor (client: KongClient, request: CredentialRequest)
      ensures this.client == client && this.request == request
    {
      this.client, this.request := client, request;
    }

    /** `CreateAuthKey`, `CreateHttpBasic` and `CreateOauth2`. */
    method Create(workspace: string, consumer: string, kind: CredentialKind, login: string, secret: string)
      returns (made: Option<Credential>)
      modifies client
      ensures (client.State(), made)
              == CreateCredential(old(client.State()), client.net, workspace, consumer, kind, login, secret)
    {
      var (k, c) := CreateCredential(
        Kong(client.stores, client.clock), client.net, workspace, consumer, kind, login, secret);
      client.stores, client.clock := k.stores, k.clock;
      made := c;
    }

    /** `DeleteAuthKey`, `DeleteHttpBasic` and `DeleteOauth2`. */
    method Delete(workspace: string, consumer: string, kind: CredentialKind, id: string) returns (err: bool)
      modifies client
      ensures (client.State(), !err) == DeleteCredential(old(client.State()), client.net, workspace, consumer, kind, id)
    {
      var (k, ok) := DeleteCredential(Kong(client.stores, client.clock), client.net, workspace, consumer, kind, id);
      client.stores, client.clock := k.stores, k.clock;
      err := !ok;
    }

    method Provision(random: Random) returns (reply: Reply)
      modifies client
      ensures (client.State(), reply) == Provisioned(old(client.State()), client.net, request, random)
    {
      var parsed := ParseCredentialType(request.typeName);
      if parsed.None? || parsed.value.0 == "" {
        return Failed(NoWorkspace);
      }
      var (workspace, kind) := parsed.value;
      var consumerID := Detail(request.appDetails, WksPrefixName(workspace, APP_ID));
      var resp := Create(workspace, consumerID, kind, random.login, SecretFor(kind, random));
      return Answer(workspace, resp);
    }

    method Deprovision() returns (status: CredentialStatus)
      modifies client
      ensures (client.State(), status) == Deprovisioned(old(client.State()), client.net, request)
    {
      var parsed := ParseCredentialType(request.typeName);
      if parsed.None? || parsed.value.0 == "" {
        return NoWorkspace;
      }
      var (workspace, kind) := parsed.value;
      var consumerID := Detail(request.credentialDetails, APP_ID);
      if consumerID == "" {
        return NoAppId;
      }
      var credentialID := Detail(request.credentialDetails, CREDENTIAL_ID);
      if credentialID == "" {
        return NoCredentialId;
      }
      var _ := Delete(workspace, consumerID, kind, credentialID);
      return Success;
    }

    method Update(random: Random) returns (reply: Reply)
      modifies client
      ensures (client.State(), reply) == Updated(old(client.State()), client.net, request, random)
    {
      var parsed := ParseCredentialType(request.typeName);
      if parsed.None? || parsed.value.0 == "" {
        return Failed(NoWorkspace);
      }
      var (workspace, kind) := parsed.value;
      var consumerID := Detail(request.credentialDetails, APP_ID);
      var credentialID := Detail(request.credentialDetails, CREDENTIAL_ID);
      var key := Detail(request.credentialDetails, CREDENTIAL_UPDATE);
      if credentialID == "" {
        return Failed(NoCredentialId);
      }
      var err := Delete("", consumerID, kind, credentialID);
      if err {
        return Failed(DeleteFailed);
      }
      var resp := Create("", consumerID, kind, RenewedLogin(kind, key, random), SecretFor(kind, random));
      return Answer(workspace, resp);
    }
  }

  // ----- the life of a credential -----

  lemma RevokingLast(cs: seq<Credential>, c: Credential)
    requires forall d :: d in cs ==> d.id != c.id
    ensures Revoking(cs + [c], c.consumer, c.kind, c.id) == cs
  {
    var stays := IsNotCredential(c.consumer, c.kind, c.id);
    FilteredDistributes(cs, [c], stays);
    AllPass(cs, stays);
  }

  /** When the type's name parses back, removing a credential by the properties recorded
      at its creation restores the workspace, and every other one, to what it was. */
  lemma ProvisionThenDeprovisionRestores(
      k: Kong, first: Net, second: Net, w: string, kind: CredentialKind, req: CredentialRequest, random: Random)
    requires w != "" && Unconfusing(w, kind) && req.typeName == WksPrefixName(w, TypeName(kind))
    requires forall c :: c in StoreOf(k, w).consumers ==> c.id != ""
    requires Provisioned(k, first, req, random).1.status == Success
    requires Writes(Provisioned(k, first, req, random).0, second, w)
    ensures
      var (k1, reply) := Provisioned(k, first, req, random);
      var (k2, status) := Deprovisioned(k1, second, req.(credentialDetails := reply.properties));
      status == Success && k2.stores == k.stores
      && reply.made.Some? && reply.made.value in StoreOf(k1, w).credentials
  {
    NamesRoundTripIff(w, kind);
    var s := StoreOf(k, w);
    var (k1, reply) := Provisioned(k, first, req, random);
    var c := reply.made.value;
    assert StoreOf(k1, w).credentials == s.credentials + [c];
    RevokingLast(s.credentials, c);
    var consumer := WithId(s.consumers, c.consumer);
    assert consumer.Some?;
    var k2 := Deprovisioned(k1, second, req.(credentialDetails := reply.properties)).0;
    assert StoreOf(k2, w) == s;
    forall v | v in k.stores ensures k2.stores[v] == k.stores[v] {
    }
  }

  /** Whatever workspace a renewal is for, it acts on the default workspace alone. When it
      succeeds, the recorded credential is gone there and a new one of the same kind and
      consumer stands last, with the recorded login if that is not empty and not a key.
      When it fails, at most the deletion has been made. */
  lemma UpdateActsOnDefault(k: Kong, net: Net, req: CredentialRequest, random: Random)
    ensures
      var (k', reply) := Updated(k, net, req, random);
      var id, login := Detail(req.credentialDetails, CREDENTIAL_ID), Detail(req.credentialDetails, CREDENTIAL_UPDATE);
      && SameElsewhere(k, k', DEFAULT_WORKSPACE)
      && (reply.status == Success ==>
            && ParseCredentialType(req.typeName).Some? && reply.made.Some?
            && var c := reply.made.value;
               StoreOf(k', "")
               == StoreOf(k, "").(credentials := Revoking(StoreOf(k, "").credentials, c.consumer, c.kind, id) + [c])
               && c.kind == ParseCredentialType(req.typeName).value.1
               && FindConsumer(StoreOf(k, "").consumers, Detail(req.credentialDetails, APP_ID)).Some?
               && c.consumer == FindConsumer(StoreOf(k, "").consumers, Detail(req.credentialDetails, APP_ID)).value.id
               && (login != "" && !c.kind.ApiKey? ==> c.login == login))
      && (reply.status == CreateFailed ==>
            && ParseCredentialType(req.typeName).Some?
            && var found := FindConsumer(StoreOf(k, "").consumers, Detail(req.credentialDetails, APP_ID));
               found.Some?
               && StoreOf(k', "") == StoreOf(k, "").(credentials :=
                    Revoking(StoreOf(k, "").credentials, found.value.id,
                             ParseCredentialType(req.typeName).value.1, id)))
      && (reply.status !in {Success, CreateFailed} ==> k'.stores == k.stores)
  {
  }

  /** In the default workspace, renewing a credential by the properties recorded at its
      creation swaps it for one of the same kind and consumer, and of the same login unless
      it is a key; every other credential stays. */
  lemma ProvisionThenUpdateSwaps(
      k: Kong, first: Net, second: Net, kind: CredentialKind, req: CredentialRequest, random: Random, random': Random)
    requires req.typeName == WksPrefixName(DEFAULT_WORKSPACE, TypeName(kind)) && random.login != ""
    requires forall c :: c in StoreOf(k, "").consumers ==> c.id != ""
    requires Provisioned(k, first, req, random).1.status == Success
    ensures
      var (k1, reply) := Provisioned(k, first, req, random);
      var (k2, renewed) := Updated(k1, second, req.(credentialDetails := reply.properties), random');
      renewed.status == Success ==>
        && reply.made.Some? && renewed.made.Some?
        && StoreOf(k2, "").credentials == StoreOf(k, "").credentials + [renewed.made.value]
        && renewed.made.value.consumer == reply.made.value.consumer && renewed.made.value.kind == kind
        && (!kind.ApiKey? ==> renewed.made.value.login == reply.made.value.login)
  {
    DefaultIsUnconfusing(kind);
    NamesRoundTripIff(DEFAULT_WORKSPACE, kind);
    var (k1, reply) := Provisioned(k, first, req, random);
    var details := req.(credentialDetails := reply.properties);
    var (k2, renewed) := Updated(k1, second, details, random');
    if renewed.status == Success {
      var s, c := StoreOf(k, ""), reply.made.value;
      assert StoreOf(k1, "") == s.(credentials := s.credentials + [c]);
      assert WithId(s.consumers, c.consumer).Some?;
      RevokingLast(s.credentials, c);
      UpdateActsOnDefault(k1, second, details, random');
    }
  }

  lemma DefaultIsUnconfusing(kind: CredentialKind)
    ensures Unconfusing(DEFAULT_WORKSPACE, kind)
  {
    var w := DEFAULT_WORKSPACE;
    assert |w| == 7 && w[6] == 't' && API_KEY[6] == 'y';
    assert forall i: nat :: OccursAt(w, API_KEY, i) ==> i == 0 && w[i..i + 7][6] == 'y';
  }

  lemma UpdateMakesNewId(k: Kong, net: Net, req: CredentialRequest, random: Random)
    requires Updated(k, net, req, random).1.made.Some?
    ensures Updated(k, net, req, random).1.made.value.id == net.ids(k.clock + 1)
  {
  }

  /** The deletion of a renewal gets through. */
  predicate DeletionReaches(k: Kong, net: Net, req: CredentialRequest) {
    Writes(k, net, "") && FindConsumer(StoreOf(k, "").consumers, Detail(req.credentialDetails, APP_ID)).Some?
  }

  /** A renewal fails at its deletion, changing nothing, if and only if that call fails or the
      default workspace knows no consumer by the recorded ID. */
  lemma DeletionFailsIff(k: Kong, net: Net, w: string, kind: CredentialKind, req: CredentialRequest, random: Random)
    requires w != "" && Unconfusing(w, kind) && req.typeName == WksPrefixName(w, TypeName(kind))
    requires Detail(req.credentialDetails, CREDENTIAL_ID) != ""
    ensures
      var (k', reply) := Updated(k, net, req, random);
      && (reply.status == DeleteFailed <==> !DeletionReaches(k, net, req))
      && (reply.status == DeleteFailed ==> k'.stores == k.stores)
  {
    NamesRoundTripIff(w, kind);
  }

  /** So a renewal takes the recorded credential out of its own workspace if and only if that
      is the default one, and the deletion gets through. */
  lemma UpdateReplacesIff(
      k: Kong, net: Net, w: string, kind: CredentialKind, req: CredentialRequest, random: Random, recorded: Credential)
    requires w != "" && Unconfusing(w, kind) && req.typeName == WksPrefixName(w, TypeName(kind))
    requires recorded in StoreOf(k, w).credentials && recorded.kind == kind && recorded.id != ""
    requires Detail(req.credentialDetails, CREDENTIAL_ID) == recorded.id
    requires Detail(req.credentialDetails, APP_ID) == recorded.consumer
    requires forall v, c :: v in k.stores && c in k.stores[v].consumers && c.username == recorded.consumer ==>
               c.id == recorded.consumer
    requires forall n :: net.ids(n) != recorded.id
    ensures recorded !in StoreOf(Updated(k, net, req, random).0, w).credentials <==>
            w == DEFAULT_WORKSPACE && DeletionReaches(k, net, req)
  {
    NamesRoundTripIff(w, kind);
    UpdateActsOnDefault(k, net, req, random);
    DeletionFailsIff(k, net, w, kind, req, random);
    var (k', reply) := Updated(k, net, req, random);
    if w == DEFAULT_WORKSPACE {
      assert StoreOf(k', w) == StoreOf(k', "");
      assert IsCredential(recorded, recorded.consumer, kind, recorded.id);
      if reply.status == Success {
        UpdateMakesNewId(k, net, req, random);
      }
    } else {
      assert StoreOf(k', w) == StoreOf(k, w);
    }
  }

  /** In any other workspace whose consumer the default one does not know, a credential that
      was just created cannot be renewed: the request fails whatever the calls do, and the
      credential stays as it is. */
  lemma ProvisionThenUpdateFails(
      k: Kong, first: Net, second: Net, w: string, kind: CredentialKind,
      req: CredentialRequest, random: Random, random': Random)
    requires w != "" && w != DEFAULT_WORKSPACE && Unconfusing(w, kind)
    requires req.typeName == WksPrefixName(w, TypeName(kind))
    requires forall c :: c in StoreOf(k, w).consumers ==> c.id != ""
    requires Provisioned(k, first, req, random).1.made.Some?
    requires
      var consumer := Provisioned(k, first, req, random).1.made.value.consumer;
      forall c :: c in StoreOf(k, "").consumers ==> c.id != consumer && c.username != consumer
    ensures
      var (k1, reply) := Provisioned(k, first, req, random);
      var (k2, renewed) := Updated(k1, second, req.(credentialDetails := reply.properties), random');
      && renewed.status == DeleteFailed && k2.stores == k1.stores
      && reply.made.value in StoreOf(k2, w).credentials
  {
    NamesRoundTripIff(w, kind);
    var (k1, reply) := Provisioned(k, first, req, random);
    var c := reply.made.value;
    assert StoreOf(k1, w).credentials == StoreOf(k, w).credentials + [c];
    assert StoreOf(k1, "") == StoreOf(k, "");
    var details := req.(credentialDetails := reply.properties);
    DeletionFailsIff(k1, second, w, kind, details, random');
  }

  /** For instance an API key of the workspace "blue". */
  lemma BlueRenewalFails(net: Net, random: Random)
    ensures
      var key := Credential("9", ApiKey, "7", "secret", "");
      var blue := Store([], [Consumer("7", "shop", "42")], {}, [key]);
      var k := Kong(map[DEFAULT_WORKSPACE := EMPTY_STORE, "blue" := blue], 0);
      var req := CredentialRequest("blue-api-key", map[], map[APP_ID := "7", CREDENTIAL_ID := "9"]);
      var (k', reply) := Updated(k, net, req, random);
      reply.status == DeleteFailed && key in StoreOf(k', "blue").credentials
  {
    var key := Credential("9", ApiKey, "7", "secret", "");
    var blue := Store([], [Consumer("7", "shop", "42")], {}, [key]);
    var k := Kong(map[DEFAULT_WORKSPACE := EMPTY_STORE, "blue" := blue], 0);
    var req := CredentialRequest("blue-api-key", map[], map[APP_ID := "7", CREDENTIAL_ID := "9"]);
    assert WksPrefixName("blue", API_KEY) == "blue-api-key";
    DeletionFailsIff(k, net, "blue", ApiKey, req, random);
  }
}
