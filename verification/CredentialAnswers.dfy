/**
 What credential requests are answered and what they leave behind: whose credential is made,
 removed or renewed, with which login and secret, and when a request fails.
 */
module CredentialAnswers {
  import opened KongStore
  import opened KongClients
  import opened Names
  import opened Sequences
  import opened Credentials

  // ----- which workspace and kind a name stands for -----

  /** No workspace is found for a name if and only if it contains none of the type names, or is
      a type's name with the dash before it alone; and what is found is what stands before the
      type's name, or the whole name if that does not end with it. */
  lemma NameIsParsedAs(name: string)
    ensures
      var parsed := ParseCredentialType(name);
      && (parsed.None? <==>
            !Contains(name, "api-key") && !Contains(name, "http-basic") && !Contains(name, "oauth-secret"))
      && (parsed.Some? ==>
            var (workspace, kind) := parsed.value;
            && (kind == ApiKey <==> Contains(name, "api-key"))
            && (kind == BasicAuth <==> !Contains(name, "api-key") && Contains(name, "http-basic"))
            && (name == workspace + "-" + TypeName(kind)
                || (name == workspace && forall v: string :: name != v + "-" + TypeName(kind))))
  {
    var parsed := ParseCredentialType(name);
    if parsed.Some? {
      TrimmedIs(name, parsed.value.1);
    }
  }

  lemma TrimmedIs(name: string, kind: CredentialKind)
    ensures
      var workspace := ParseWorkspace(name, kind);
      || name == workspace + "-" + TypeName(kind)
      || (name == workspace && forall v: string :: name != v + "-" + TypeName(kind))
  {
    var workspace, suffix := ParseWorkspace(name, kind), "-" + TypeName(kind);
    if workspace != name {
      assert name == workspace + suffix;
    } else {
      forall v: string ensures name != v + "-" + TypeName(kind) {
        assert v + "-" + TypeName(kind) == v + suffix;
        ParseInvertsPrint(v, kind);
      }
    }
  }

  /** The workspace that a request's name stands for; the empty one if there is none. */
  function WorkspaceOf(req: CredentialRequest): string {
    match ParseCredentialType(req.typeName)
    case None => ""
    case Some((workspace, _)) => workspace
  }

  /** A request of each sort fails for want of a workspace if and only if there is none, and
      then does nothing. */
  lemma NoWorkspaceIff(k: Kong, net: Net, req: CredentialRequest, random: Random)
    ensures Provisioned(k, net, req, random).1.status == NoWorkspace <==> WorkspaceOf(req) == ""
    ensures Updated(k, net, req, random).1.status == NoWorkspace <==> WorkspaceOf(req) == ""
    ensures Deprovisioned(k, net, req).1 == NoWorkspace <==> WorkspaceOf(req) == ""
    ensures WorkspaceOf(req) == "" ==>
              Provisioned(k, net, req, random).0 == k && Updated(k, net, req, random).0 == k
              && Deprovisioned(k, net, req).0 == k
  {
  }

  // ----- the credential that is made -----

  function ValueAt(details: map<string, string>, key: string): string {
    if key in details then details[key] else ""
  }

  /** The properties that a request records. */
  ghost predicate Records(properties: map<string, string>, workspace: string, c: Credential) {
    && ValueAt(properties, "workspaceName") == workspace
    && ValueAt(properties, "kongApplicationId") == c.consumer
    && ValueAt(properties, "kongCredentialID") == c.id
    && ("kongCredentialUpdate" in properties <==> !c.kind.ApiKey?)
    && (!c.kind.ApiKey? ==> properties["kongCredentialUpdate"] == c.login)
  }

  /** A key has no secret of its own. */
  ghost predicate Carries(c: Credential, login: string, secret: string) {
    c.login == login && (c.kind.ApiKey? ==> c.secret == "") && (!c.kind.ApiKey? ==> c.secret == secret)
  }

  /** A credential for a workspace is made for the consumer recorded there for the application,
      if and only if that consumer is found, the call gets through and the ID is unused; it is
      the one thing that changes, and carries the values drawn for it. */
  lemma CredentialMadeIff(
      k: Kong, net: Net, v: string, kind: CredentialKind, req: CredentialRequest, random: Random)
    requires v != "" && Unconfusing(v, kind) && req.typeName == WksPrefixName(v, TypeName(kind))
    ensures
      var (k', reply) := Provisioned(k, net, req, random);
      var s, id := StoreOf(k, v), net.ids(k.clock);
      var found := FindConsumer(s.consumers, ValueAt(req.appDetails, v + "-kongApplicationId"));
      && (reply.status == Success <==>
            Target(v) in k.stores && !net.writeFails(k.clock) && found.Some? && IsFreshCredential(s.credentials, id))
      && (reply.status == Success ==>
            && reply.made.Some? && Records(reply.properties, v, reply.made.value)
            && var c := reply.made.value;
               && c.consumer == found.value.id && c.kind == kind && c.id == id
               && Carries(c, random.login, random.secret)
               && StoreOf(k', v) == s.(credentials := s.credentials + [c]) && SameElsewhere(k, k', v))
      && (reply.status != Success ==> reply == Reply(CreateFailed, map[], None) && k'.stores == k.stores)
  {
    RequestForRecorded(k, net, v, kind, req, random);
    KeyIsPrinted(v);
    CreationAt(k, net, v, Recorded(req.appDetails, v), kind, random.login, SecretFor(kind, random));
  }

  /** A request is one creation for the recorded consumer. */
  lemma RequestForRecorded(
      k: Kong, net: Net, v: string, kind: CredentialKind, req: CredentialRequest, random: Random)
    requires v != "" && Unconfusing(v, kind) && req.typeName == WksPrefixName(v, TypeName(kind))
    ensures
      var consumer := Recorded(req.appDetails, v);
      var (k', made) := CreateCredential(k, net, v, consumer, kind, random.login, SecretFor(kind, random));
      Provisioned(k, net, req, random) == (k', Answer(v, made))
  {
    NamesRoundTripIff(v, kind);
  }

  lemma KeyIsPrinted(v: string)
    ensures WksPrefixName(v, APP_ID) == v + "-kongApplicationId"
  {
  }

  lemma CreationAt(
      k: Kong, net: Net, v: string, consumer: string, kind: CredentialKind, login: string, secret: string)
    ensures
      var s, id, found := StoreOf(k, v), net.ids(k.clock), FindConsumer(StoreOf(k, v).consumers, consumer);
      var (k', made) := CreateCredential(k, net, v, consumer, kind, login, secret);
      && (made.Some? <==>
            Target(v) in k.stores && !net.writeFails(k.clock) && found.Some? && IsFreshCredential(s.credentials, id))
      && (made.Some? ==>
            && made.value == Credential(id, kind, found.value.id, login, secret)
            && StoreOf(k', v) == s.(credentials := s.credentials + [made.value]))
  {
  }

  // ----- the credential that is removed -----

  lemma RevokingTakes(cs: seq<Credential>, consumer: string, kind: CredentialKind, id: string, d: Credential)
    ensures d in Revoking(cs, consumer, kind, id) <==>
            d in cs && !(d.consumer == consumer && d.kind == kind && d.id == id)
  {
  }

  /** A removal succeeds if and only if it is told consumer and credential, whatever the call
      does; and takes a credential out if and only if it is that one, of that kind, in the
      workspace it is for, its consumer is known there, and the call gets through. */
  lemma CredentialRemovedIff(
      k: Kong, net: Net, v: string, kind: CredentialKind, req: CredentialRequest, u: string, d: Credential)
    requires v != "" && Unconfusing(v, kind) && req.typeName == WksPrefixName(v, TypeName(kind))
    ensures
      var (k', status) := Deprovisioned(k, net, req);
      var consumer := ValueAt(req.credentialDetails, "kongApplicationId");
      var id := ValueAt(req.credentialDetails, "kongCredentialID");
      var found := FindConsumer(StoreOf(k, v).consumers, consumer);
      && (status == NoAppId <==> consumer == "")
      && (status == NoCredentialId <==> consumer != "" && id == "")
      && (status == Success <==> consumer != "" && id != "")
      && SameElsewhere(k, k', v)
      && (d in StoreAt(k', u).credentials <==>
            && d in StoreAt(k, u).credentials
            && !(u == Target(v) && id != "" && found.Some? && !net.writeFails(k.clock)
                 && d.consumer == found.value.id && d.kind == kind && d.id == id))
  {
    NamesRoundTripIff(v, kind);
    var consumer, id := Detail(req.credentialDetails, APP_ID), Detail(req.credentialDetails, CREDENTIAL_ID);
    var found := FindConsumer(StoreOf(k, v).consumers, consumer);
    if found.Some? {
      RevokingTakes(StoreOf(k, v).credentials, found.value.id, kind, id, d);
    }
  }

  // ----- the credential that is renewed -----

  /** A renewal fails without a credential ID, or if the deletion or the creation does not get
      through on the default workspace. Else the new credential has a new key, or the recorded
      login if there is one, and a new secret; and the request's own workspace is recorded. */
  lemma CredentialRenewedIff(
      k: Kong, net: Net, v: string, kind: CredentialKind, req: CredentialRequest, random: Random)
    requires v != "" && Unconfusing(v, kind) && req.typeName == WksPrefixName(v, TypeName(kind))
    ensures
      var (k', reply) := Updated(k, net, req, random);
      var before := StoreAt(k, "default");
      var id := ValueAt(req.credentialDetails, "kongCredentialID");
      var login := ValueAt(req.credentialDetails, "kongCredentialUpdate");
      var found := FindConsumer(before.consumers, ValueAt(req.credentialDetails, "kongApplicationId"));
      var deletes := id != "" && "default" in k.stores && !net.writeFails(k.clock) && found.Some?;
      && (reply.status == NoCredentialId <==> id == "")
      && (reply.status == DeleteFailed <==> id != "" && !deletes)
      && (deletes ==>
            var left := Revoking(before.credentials, found.value.id, kind, id);
            && (reply.status == Success <==>
                  !net.writeFails(k.clock + 1) && IsFreshCredential(left, net.ids(k.clock + 1)))
            && (reply.status != Success ==>
                  reply == Reply(CreateFailed, map[], None) && StoreAt(k', "default") == before.(credentials := left)))
      && (reply.status == Success ==>
            && reply.made.Some? && Records(reply.properties, v, reply.made.value)
            && var c := reply.made.value;
               && c.kind == kind && c.consumer == found.value.id && c.id == net.ids(k.clock + 1)
               && Carries(c, if kind.ApiKey? || login == "" then random.login else login, random.secret))
  {
    NamesRoundTripIff(v, kind);
  }
}
