/**
 The credential definitions an API is published with: one for each authentication plugin
 in effect, named after the workspace. Go leaves the order of the map iteration open.
 */
module PublishedCredentials {
  import opened KongStore
  import opened Names
  import opened Sequences

  function KindOf(plugin: string): Option<CredentialKind> {
    if plugin == "basic-auth" then Some(BasicAuth)
    else if plugin == "key-auth" then Some(ApiKey)
    else if plugin == "oauth2" then Some(OAuthSecret)
    else None
  }

  predicate Authenticates(plugin: string) {
    KindOf(plugin).Some?
  }

  function DefinitionFor(workspace: string, plugin: string): string
    requires Authenticates(plugin)
  {
    WksPrefixName(workspace, TypeName(KindOf(plugin).value))
  }

  lemma DefinitionsDiffer(workspace: string, p: string, q: string)
    requires Authenticates(p) && Authenticates(q) && p != q
    ensures DefinitionFor(workspace, p) != DefinitionFor(workspace, q)
  {
  }

  /** The definitions of exactly these plugins, as far as they authenticate, each once. */
  ghost predicate Defines(crds: seq<string>, workspace: string, plugins: set<string>) {
    && (forall k :: k in plugins && Authenticates(k) ==> DefinitionFor(workspace, k) in crds)
    && (forall n :: n in crds ==> exists k :: k in plugins && Authenticates(k) && n == DefinitionFor(workspace, k))
    && NoRepeats(crds)
  }

  lemma DefinesOneMore(crds: seq<string>, workspace: string, plugins: set<string>, k: string)
    requires Defines(crds, workspace, plugins) && k !in plugins
    ensures Defines(crds + (if Authenticates(k) then [DefinitionFor(workspace, k)] else []), workspace, plugins + {k})
  {
    if Authenticates(k) {
      var crd := DefinitionFor(workspace, k);
      forall n | n in crds ensures n != crd {
        var l :| l in plugins && Authenticates(l) && n == DefinitionFor(workspace, l);
        DefinitionsDiffer(workspace, k, l);
      }
      NoRepeatsInTwo(crds, [crd]);
      forall n | n in crds + [crd]
        ensures exists l :: l in plugins + {k} && Authenticates(l) && n == DefinitionFor(workspace, l)
      {
        if n == crd {
          assert k in plugins + {k};
        }
      }
    } else {
      assert crds + [] == crds;
    }
  }

  lemma DefinitionNames(workspace: string)
    ensures DefinitionFor(workspace, "key-auth") == workspace + "-api-key"
    ensures DefinitionFor(workspace, "basic-auth") == workspace + "-http-basic"
    ensures DefinitionFor(workspace, "oauth2") == workspace + "-oauth-secret"
    ensures forall p :: Authenticates(p) <==> p == "key-auth" || p == "basic-auth" || p == "oauth2"
  {
  }

  lemma DefinesByName(crds: seq<string>, workspace: string, plugins: set<string>)
    requires Defines(crds, workspace, plugins)
    ensures forall n :: n in crds <==>
              || ("key-auth" in plugins && n == workspace + "-api-key")
              || ("basic-auth" in plugins && n == workspace + "-http-basic")
              || ("oauth2" in plugins && n == workspace + "-oauth-secret")
  {
    DefinitionNames(workspace);
  }

  datatype SpecType = Oas2 | Oas3 | OtherSpec

  /** An API that is not described by an OAS specification gets no definitions. Otherwise the
      names are those of the authentication plugins in effect, each once, and each is one
      that the credential parser takes back to this workspace and kind unless the workspace
      itself contains a type name that is tried earlier. */
  method CredentialDefinitions(workspace: string, spec: SpecType, plugins: map<string, Plugin>)
    returns (crds: seq<string>)
    ensures spec.OtherSpec? ==> crds == []
    ensures !spec.OtherSpec? ==> NoRepeats(crds)
    ensures !spec.OtherSpec? ==>
              forall n :: n in crds <==>
                || ("key-auth" in plugins && n == workspace + "-api-key")
                || ("basic-auth" in plugins && n == workspace + "-http-basic")
                || ("oauth2" in plugins && n == workspace + "-oauth-secret")
    ensures forall k :: k in plugins && Authenticates(k) ==>
              (ParseCredentialType(DefinitionFor(workspace, k)) == Some((workspace, KindOf(k).value))
               <==> Unconfusing(workspace, KindOf(k).value))
  {
    crds := [];
    forall k | k in plugins && Authenticates(k) {
      NamesRoundTripIff(workspace, KindOf(k).value);
    }
    if spec != Oas2 && spec != Oas3 {
      return;
    }
    var left := plugins.Keys;
    while left != {}
      invariant left <= plugins.Keys && Defines(crds, workspace, plugins.Keys - left)
      decreases left
    {
      var k :| k in left;
      DefinesOneMore(crds, workspace, plugins.Keys - left, k);
      assert plugins.Keys - left + {k} == plugins.Keys - (left - {k});
      left := left - {k};
      if KindOf(k).Some? {
        crds := crds + [WksPrefixName(workspace, TypeName(KindOf(k).value))];
      }
    }
    assert plugins.Keys - left == plugins.Keys;
    DefinesByName(crds, workspace, plugins.Keys);
  }
}
