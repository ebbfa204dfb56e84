/**
 Names made from a workspace and a suffix, and the parser that takes a credential
 definition's name apart again.

 The three type names belong to the agent SDK and are assumed here.
 */
module Names {
  import opened KongStore

  const APP_ID := "kongApplicationId"
  const API_KEY := "api-key"
  const HTTP_BASIC := "http-basic"
  const OAUTH_SECRET := "oauth-secret"

  function WksPrefixName(workspace: string, name: string): string {
    workspace + "-" + name
  }

  /** A detail that is absent reads as the empty string. */
  function Detail(details: map<string, string>, key: string): string {
    if key in details then details[key] else ""
  }

  /** The consumer recorded for an application in a workspace. */
  function Recorded(details: map<string, string>, workspace: string): string {
    Detail(details, WksPrefixName(workspace, APP_ID))
  }

  function TypeName(kind: CredentialKind): string {
    match kind
    case ApiKey => API_KEY
    case BasicAuth => HTTP_BASIC
    case OAuthSecret => OAUTH_SECRET
  }

  predicate OccursAt(s: string, sub: string, i: nat) {
    i + |sub| <= |s| && s[i..i + |sub|] == sub
  }

  predicate Contains(s: string, sub: string) {
    exists i | 0 <= i <= |s| :: OccursAt(s, sub, i)
  }

  function TrimSuffix(s: string, suffix: string): string {
    if |suffix| <= |s| && s[|s| - |suffix|..] == suffix then s[..|s| - |suffix|] else s
  }

  function ParseWorkspace(name: string, kind: CredentialKind): string {
    TrimSuffix(name, "-" + TypeName(kind))
  }

  /** The source answers two empty strings where this answers None. */
  function ParseCredentialType(name: string): Option<(string, CredentialKind)> {
    if Contains(name, API_KEY) then Some((ParseWorkspace(name, ApiKey), ApiKey))
    else if Contains(name, HTTP_BASIC) then Some((ParseWorkspace(name, BasicAuth), BasicAuth))
    else if Contains(name, OAUTH_SECRET) then Some((ParseWorkspace(name, OAuthSecret), OAuthSecret))
    else None
  }

  lemma PrefixIsInjective(v: string, w: string, name: string)
    requires WksPrefixName(v, name) == WksPrefixName(w, name)
    ensures v == w
  {
    var s := WksPrefixName(v, name);
    assert |v| == |w|;
    assert v == s[..|v|] && w == s[..|w|];
  }

  lemma ParseInvertsPrint(workspace: string, kind: CredentialKind)
    ensures ParseWorkspace(WksPrefixName(workspace, TypeName(kind)), kind) == workspace
  {
  }

  lemma OccursInPrefix(w: string, rest: string, sub: string, i: nat)
    requires i + |sub| <= |w|
    ensures OccursAt(w + rest, sub, i) <==> OccursAt(w, sub, i)
  {
  }

  /** No occurrence straddles the seam or lies behind it, so none is gained by printing:
      an occurrence that reaches into the suffix would put the last two letters of `sub`
      at a place where the suffix has others. */
  lemma NothingGainedAtTheSeam(w: string, rest: string, sub: string)
    requires |sub| >= 2
    requires forall j :: 0 <= j < |rest| && rest[j] == sub[|sub| - 1] ==> j > 0 && rest[j - 1] != sub[|sub| - 2]
    ensures Contains(w + rest, sub) <==> Contains(w, sub)
  {
    var s := w + rest;
    if Contains(s, sub) {
      var i :| 0 <= i <= |s| && OccursAt(s, sub, i);
      var last := i + |sub| - 1;
      assert s[last] == s[i..i + |sub|][|sub| - 1] && s[last - 1] == s[i..i + |sub|][|sub| - 2];
      if last >= |w| {
        assert false;
      }
      OccursInPrefix(w, rest, sub, i);
    }
    if Contains(w, sub) {
      var i :| 0 <= i <= |w| && OccursAt(w, sub, i);
      OccursInPrefix(w, rest, sub, i);
    }
  }

  lemma TypeIsFound(w: string, kind: CredentialKind)
    ensures Contains(WksPrefixName(w, TypeName(kind)), TypeName(kind))
  {
    var s := WksPrefixName(w, TypeName(kind));
    assert s[|w| + 1..|w| + 1 + |TypeName(kind)|] == TypeName(kind);
    assert OccursAt(s, TypeName(kind), |w| + 1);
  }

  /** The workspace keeps the parser from an earlier case. */
  predicate Unconfusing(w: string, kind: CredentialKind) {
    match kind
    case ApiKey => true
    case BasicAuth => !Contains(w, API_KEY)
    case OAuthSecret => !Contains(w, API_KEY) && !Contains(w, HTTP_BASIC)
  }

  lemma BasicSeam(w: string)
    ensures Contains(WksPrefixName(w, HTTP_BASIC), API_KEY) <==> Contains(w, API_KEY)
  {
    var rest := "-http-basic";
    assert WksPrefixName(w, HTTP_BASIC) == w + rest;
    assert API_KEY[|API_KEY| - 1] == 'y';
    assert forall j :: 0 <= j < |rest| ==> rest[j] != 'y';
    NothingGainedAtTheSeam(w, rest, API_KEY);
  }

  lemma OAuthSeam(w: string)
    ensures Contains(WksPrefixName(w, OAUTH_SECRET), API_KEY) <==> Contains(w, API_KEY)
  {
    var rest := "-oauth-secret";
    assert WksPrefixName(w, OAUTH_SECRET) == w + rest;
    assert API_KEY[|API_KEY| - 1] == 'y';
    assert forall j :: 0 <= j < |rest| ==> rest[j] != 'y';
    NothingGainedAtTheSeam(w, rest, API_KEY);
  }

  lemma OAuthBasicSeam(w: string)
    ensures Contains(WksPrefixName(w, OAUTH_SECRET), HTTP_BASIC) <==> Contains(w, HTTP_BASIC)
  {
    var rest := "-oauth-secret";
    assert WksPrefixName(w, OAUTH_SECRET) == w + rest;
    assert HTTP_BASIC[|HTTP_BASIC| - 1] == 'c' && HTTP_BASIC[|HTTP_BASIC| - 2] == 'i';
    assert forall j :: 0 <= j < |rest| && rest[j] == 'c' ==> j == 9;
    assert rest[8] == 'e';
    NothingGainedAtTheSeam(w, rest, HTTP_BASIC);
  }

  lemma BasicRoundTripIff(w: string)
    ensures ParseCredentialType(WksPrefixName(w, HTTP_BASIC)) == Some((w, BasicAuth)) <==> !Contains(w, API_KEY)
  {
    BasicSeam(w);
    TypeIsFound(w, BasicAuth);
    ParseInvertsPrint(w, BasicAuth);
  }

  lemma OAuthRoundTripIff(w: string)
    ensures ParseCredentialType(WksPrefixName(w, OAUTH_SECRET)) == Some((w, OAuthSecret))
            <==> !Contains(w, API_KEY) && !Contains(w, HTTP_BASIC)
  {
    OAuthSeam(w);
    OAuthBasicSeam(w);
    TypeIsFound(w, OAuthSecret);
    ParseInvertsPrint(w, OAuthSecret);
  }

  /** Parsing the printed name gives back workspace and type if and only if the workspace
      contains no type name that the parser tries earlier. */
  lemma NamesRoundTripIff(w: string, kind: CredentialKind)
    ensures ParseCredentialType(WksPrefixName(w, TypeName(kind))) == Some((w, kind)) <==> Unconfusing(w, kind)
  {
    match kind
    case ApiKey =>
      TypeIsFound(w, ApiKey);
      ParseInvertsPrint(w, ApiKey);
    case BasicAuth =>
      BasicRoundTripIff(w);
    case OAuthSecret =>
      OAuthRoundTripIff(w);
  }
}
