/**
 The endpoints of a route (`GetEndpoints`), and the gateway configuration that decides
 which schemes are enabled.
 */
module Endpoints {

  const HTTP := "http"
  const HTTPS := "https"

  datatype Endpoint = Endpoint(host: string, port: int, protocol: string, basePath: string)

  /** A route of Kong with the proxy settings the agent adds to it. */
  datatype KongRoute = KongRoute(
    hosts: seq<string>, paths: seq<string>, protocols: seq<string>,
    defaultHost: string, basePath: string, httpPort: int, httpsPort: int)

  /** Conversion of a machine integer to 32 bits, wrapping around. */
  function AsInt32(x: int): (r: int)
    ensures -0x8000_0000 <= r < 0x8000_0000 && (r - x) % 0x1_0000_0000 == 0
  {
    (x + 0x8000_0000) % 0x1_0000_0000 - 0x8000_0000
  }

  predicate Enabled(r: KongRoute, protocol: string) {
    (protocol == HTTP && r.httpPort != 0) || (protocol == HTTPS && r.httpsPort != 0)
  }

  function PortOf(r: KongRoute, protocol: string): int {
    AsInt32(if protocol == HTTP then r.httpPort else r.httpsPort)
  }

  function FullPath(basePath: string, path: string): string {
    basePath + path
  }

  // ----- the ordered product -----

  /** The enabled entries of a protocol list, in order and with repetitions. */
  function EnabledOf(r: KongRoute, protocols: seq<string>): (e: seq<string>)
    ensures forall p :: p in e <==> p in protocols && Enabled(r, p)
  {
    if |protocols| == 0 then []
    else
      var p := protocols[|protocols| - 1];
      EnabledOf(r, protocols[..|protocols| - 1]) + if Enabled(r, p) then [p] else []
  }

  function EndpointFor(r: KongRoute, host: string, path: string, protocol: string): Endpoint {
    Endpoint(host, PortOf(r, protocol), protocol, path)
  }

  function AtPathFor(r: KongRoute, host: string, path: string, entries: seq<string>): seq<Endpoint> {
    seq(|entries|, i requires 0 <= i < |entries| => EndpointFor(r, host, path, entries[i]))
  }

  function Schemes(r: KongRoute): seq<string> {
    EnabledOf(r, r.protocols)
  }

  function AtPath(r: KongRoute, host: string, path: string): seq<Endpoint> {
    AtPathFor(r, host, path, Schemes(r))
  }

  function AtHost(r: KongRoute, host: string, basePath: string, n: nat): seq<Endpoint>
    requires n <= |r.paths|
  {
    if n == 0 then []
    else AtHost(r, host, basePath, n - 1) + AtPath(r, host, FullPath(basePath, r.paths[n - 1]))
  }

  function AtHosts(r: KongRoute, n: nat): seq<Endpoint>
    requires n <= |r.hosts|
  {
    if n == 0 then [] else AtHosts(r, n - 1) + AtHost(r, r.hosts[n - 1], "", |r.paths|)
  }

  /** They are taken over one by one, in order, each as often as it stands in the list. */
  lemma {:induction false} SchemesInOrder(r: KongRoute, a: seq<string>, b: seq<string>)
    ensures EnabledOf(r, a + b) == EnabledOf(r, a) + EnabledOf(r, b)
  {
    if |b| == 0 {
      assert a + b == a;
    } else {
      SchemesInOrder(r, a, b[..|b| - 1]);
      assert (a + b)[..|a + b| - 1] == a + b[..|b| - 1];
      assert (a + b)[|a + b| - 1] == b[|b| - 1];
    }
  }

  lemma OneScheme(r: KongRoute, p: string)
    ensures EnabledOf(r, [p])
            == if (p == "http" && r.httpPort != 0) || (p == "https" && r.httpsPort != 0) then [p] else []
  {
    assert [p][..0] == [];
  }

  lemma BlockIndex(i: nat, n: nat, size: nat, offset: nat)
    requires i < n && offset < size
    ensures i * size + offset < n * size
  {
    assert (i + 1) * size <= n * size;
  }

  lemma {:induction false} PathsProduct(r: KongRoute, host: string, basePath: string, n: nat)
    requires n <= |r.paths|
    ensures |AtHost(r, host, basePath, n)| == n * |Schemes(r)|
  {
    if n > 0 {
      PathsProduct(r, host, basePath, n - 1);
    }
  }

  lemma {:induction false} HostsProduct(r: KongRoute, n: nat)
    requires n <= |r.hosts|
    ensures |AtHosts(r, n)| == n * (|r.paths| * |Schemes(r)|)
  {
    if n > 0 {
      HostsProduct(r, n - 1);
      PathsProduct(r, r.hosts[n - 1], "", |r.paths|);
    }
  }

  /** The port a scheme is served on. */
  predicate ServedOn(r: KongRoute, protocol: string, port: int) {
    (protocol == "http" && port == AsInt32(r.httpPort)) || (protocol == "https" && port == AsInt32(r.httpsPort))
  }

  lemma {:induction false} PathAt(r: KongRoute, host: string, basePath: string, n: nat, p: nat, q: nat)
    requires p < n <= |r.paths| && q < |Schemes(r)|
    ensures p * |Schemes(r)| + q < |AtHost(r, host, basePath, n)|
    ensures
      var e := AtHost(r, host, basePath, n)[p * |Schemes(r)| + q];
      && e.host == host && e.basePath == basePath + r.paths[p] && e.protocol == Schemes(r)[q]
      && ServedOn(r, e.protocol, e.port)
  {
    PathsProduct(r, host, basePath, n);
    PathsProduct(r, host, basePath, n - 1);
    BlockIndex(p, n, |Schemes(r)|, q);
    if p < n - 1 {
      PathAt(r, host, basePath, n - 1, p, q);
    } else {
      assert Schemes(r)[q] in Schemes(r);
    }
  }

  /** Endpoints are the product of hosts, paths and enabled protocol entries, in that
      order of significance: entry (h, p, q) stands at its closed-form index. */
  lemma {:induction false} HostAt(r: KongRoute, n: nat, h: nat, p: nat, q: nat)
    requires h < n <= |r.hosts| && p < |r.paths| && q < |Schemes(r)|
    ensures |AtHosts(r, n)| == n * (|r.paths| * |Schemes(r)|)
    ensures h * (|r.paths| * |Schemes(r)|) + (p * |Schemes(r)| + q) < |AtHosts(r, n)|
    ensures
      var e := AtHosts(r, n)[h * (|r.paths| * |Schemes(r)|) + (p * |Schemes(r)| + q)];
      && e.host == r.hosts[h] && e.basePath == r.paths[p] && e.protocol == Schemes(r)[q]
      && ServedOn(r, e.protocol, e.port)
  {
    var block := |r.paths| * |Schemes(r)|;
    HostsProduct(r, n);
    HostsProduct(r, n - 1);
    BlockIndex(p, |r.paths|, |Schemes(r)|, q);
    BlockIndex(h, n, block, p * |Schemes(r)| + q);
    if h < n - 1 {
      HostAt(r, n - 1, h, p, q);
    } else {
      PathAt(r, r.hosts[h], "", |r.paths|, p, q);
      assert "" + r.paths[p] == r.paths[p];
    }
  }

  /** When hosts yield no endpoint, neither does the default host. */
  lemma FallbackAgrees(r: KongRoute)
    requires |AtHosts(r, |r.hosts|)| == 0
    ensures |r.hosts| != 0 ==> AtHost(r, r.defaultHost, r.basePath, |r.paths|) == AtHosts(r, |r.hosts|)
  {
    HostsProduct(r, |r.hosts|);
    PathsProduct(r, r.defaultHost, r.basePath, |r.paths|);
    SomeWhenBoth(|r.hosts|, |r.paths|, |Schemes(r)|);
  }

  /** The result of `GetEndpoints`. */
  function EndpointsOf(r: KongRoute): seq<Endpoint> {
    if |r.hosts| == 0 then AtHost(r, r.defaultHost, r.basePath, |r.paths|) else AtHosts(r, |r.hosts|)
  }

  // ----- the loops -----

  method HandleProtocols(r: KongRoute, host: string, path: string) returns (endpoints: seq<Endpoint>)
    ensures endpoints == AtPath(r, host, path)
  {
    endpoints := [];
    for i := 0 to |r.protocols|
      invariant endpoints == AtPathFor(r, host, path, EnabledOf(r, r.protocols[..i]))
    {
      var protocol := r.protocols[i];
      assert r.protocols[..i + 1][..i] == r.protocols[..i];
      if protocol == HTTP && r.httpPort != 0 {
        endpoints := endpoints + [Endpoint(host, AsInt32(r.httpPort), HTTP, path)];
      }
      if protocol == HTTPS && r.httpsPort != 0 {
        endpoints := endpoints + [Endpoint(host, AsInt32(r.httpsPort), HTTPS, path)];
      }
    }
    assert r.protocols[..|r.protocols|] == r.protocols;
  }

  method HandlePaths(r: KongRoute, host: string, basePath: string) returns (endpoints: seq<Endpoint>)
    ensures endpoints == AtHost(r, host, basePath, |r.paths|)
  {
    endpoints := [];
    for i := 0 to |r.paths|
      invariant endpoints == AtHost(r, host, basePath, i)
    {
      var fullPath := r.paths[i];
      if basePath != "" {
        fullPath := basePath + fullPath;
      }
      assert fullPath == FullPath(basePath, r.paths[i]);
      var here := HandleProtocols(r, host, fullPath);
      endpoints := endpoints + here;
    }
  }

  method HandleHosts(r: KongRoute) returns (endpoints: seq<Endpoint>)
    ensures endpoints == AtHosts(r, |r.hosts|)
  {
    endpoints := [];
    for i := 0 to |r.hosts|
      invariant endpoints == AtHosts(r, i)
    {
      var here := HandlePaths(r, r.hosts[i], "");
      endpoints := endpoints + here;
    }
  }

  /** The source asks whether any endpoint came out of the hosts; that is the same as
      asking whether the route has hosts. */
  method GetEndpoints(r: KongRoute) returns (endpoints: seq<Endpoint>)
    ensures endpoints == EndpointsOf(r)
  {
    endpoints := HandleHosts(r);
    HostsProduct(r, |r.hosts|);
    if |endpoints| == 0 {
      FallbackAgrees(r);
      endpoints := HandlePaths(r, r.defaultHost, r.basePath);
    }
  }

  // ----- configuration -----

  datatype PortSetting = PortSetting(value: int, disable: bool)

  /** The configured properties that concern the proxy. */
  datatype ProxyProps = ProxyProps(
    host: string, basePath: string,
    httpPort: int, httpDisable: bool, httpsPort: int, httpsDisable: bool)

  datatype ProxyConfig = ProxyConfig(host: string, basePath: string, http: PortSetting, https: PortSetting)

  /** A disabled scheme has its port overwritten with zero. */
  method ParseProperties(props: ProxyProps) returns (cfg: ProxyConfig)
    ensures cfg == Parsed(props)
  {
    var httpPortConf := PortSetting(props.httpPort, props.httpDisable);
    if httpPortConf.disable {
      httpPortConf := httpPortConf.(value := 0);
    }
    var httpsPortConf := PortSetting(props.httpsPort, props.httpsDisable);
    if httpsPortConf.disable {
      httpsPortConf := httpsPortConf.(value := 0);
    }
    return ProxyConfig(props.host, props.basePath, httpPortConf, httpsPortConf);
  }

  function ParsedPort(value: int, disable: bool): PortSetting {
    PortSetting(if disable then 0 else value, disable)
  }

  function Parsed(props: ProxyProps): ProxyConfig {
    ProxyConfig(props.host, props.basePath,
                ParsedPort(props.httpPort, props.httpDisable), ParsedPort(props.httpsPort, props.httpsDisable))
  }

  datatype ConfigError =
    | NoError | HostMissing | HttpPortMissing | BasePathPrefix | BasePathSuffix | HttpsPortMissing | NoPort | OtherError

  /** The checks in their order; those on the admin URL, credentials and TLS come last and
      are summed up in `restOk`. */
  function ValidateCfg(c: ProxyConfig, restOk: bool): ConfigError {
    if c.host == "" then HostMissing
    else if !c.http.disable && c.http.value == 0 then HttpPortMissing
    else if |c.basePath| > 0 && c.basePath[0] != '/' then BasePathPrefix
    else if |c.basePath| > 0 && c.basePath[|c.basePath| - 1] == '/' then BasePathSuffix
    else if !c.https.disable && c.https.value == 0 then HttpsPortMissing
    else if c.http.disable && c.https.disable then NoPort
    else if !restOk then OtherError
    else NoError
  }

  /** A port Kong can listen on, or none given. */
  predicate IsPort(x: int) {
    0 <= x <= 65535
  }

  /** What the agent makes of a route under a configuration. */
  function Configured(c: ProxyConfig, hosts: seq<string>, paths: seq<string>, protocols: seq<string>): KongRoute {
    KongRoute(hosts, paths, protocols, c.host, c.basePath, c.http.value, c.https.value)
  }

  /** A configuration is accepted if and only if it names a host, gives each scheme that is not
      disabled a port, disables not both, has a base path that is empty or begins with a slash
      and does not end with one, and the other checks pass. */
  lemma AcceptedIff(c: ProxyConfig, restOk: bool)
    ensures ValidateCfg(c, restOk) == NoError <==>
            && c.host != ""
            && (c.http.disable || c.http.value != 0) && (c.https.disable || c.https.value != 0)
            && !(c.http.disable && c.https.disable)
            && (c.basePath != "" ==> "/" <= c.basePath && c.basePath[|c.basePath| - 1..] != "/")
            && restOk
    ensures ValidateCfg(c, restOk) == HostMissing <==> c.host == ""
    ensures ValidateCfg(c, restOk) == HttpPortMissing ==> !c.http.disable && c.http.value == 0
    ensures ValidateCfg(c, restOk) == HttpsPortMissing ==> !c.https.disable && c.https.value == 0
    ensures ValidateCfg(c, restOk) == BasePathPrefix ==> c.basePath != "" && c.basePath[0] != '/'
    ensures ValidateCfg(c, restOk) == BasePathSuffix ==> "/" <= c.basePath && c.basePath[|c.basePath| - 1] == '/'
    ensures ValidateCfg(c, restOk) == NoPort ==> c.http.disable && c.https.disable
    ensures ValidateCfg(c, restOk) == OtherError ==> !restOk
  {
  }

  /** After parsing and validation a scheme is enabled exactly when its port is not zero,
      and at least one scheme is. */
  lemma ValidConfigEnables(props: ProxyProps, restOk: bool)
    requires ValidateCfg(Parsed(props), restOk) == NoError
    ensures
      var c := Parsed(props);
      && (c.http.value != 0 <==> !c.http.disable)
      && (c.https.value != 0 <==> !c.https.disable)
      && (c.http.value != 0 || c.https.value != 0)
  {
  }

  /** A valid base path is empty or joins to a path with exactly one slash at the seam. */
  lemma BasePathJoins(c: ProxyConfig, restOk: bool, path: string)
    requires ValidateCfg(c, restOk) == NoError && |path| > 0 && path[0] == '/'
    ensures
      var full, n := FullPath(c.basePath, path), |c.basePath|;
      full[0] == '/' && full[n] == '/' && (n > 0 ==> full[n - 1] != '/')
  {
  }

  lemma {:induction false} FromHost(r: KongRoute, host: string, basePath: string, n: nat, e: Endpoint)
    requires n <= |r.paths| && e in AtHost(r, host, basePath, n)
    ensures e.protocol in Schemes(r) && e.port == PortOf(r, e.protocol)
  {
    if n > 0 && e in AtHost(r, host, basePath, n - 1) {
      FromHost(r, host, basePath, n - 1, e);
    }
  }

  lemma {:induction false} FromHosts(r: KongRoute, n: nat, e: Endpoint)
    requires n <= |r.hosts| && e in AtHosts(r, n)
    ensures e.protocol in Schemes(r) && e.port == PortOf(r, e.protocol)
  {
    if n > 0 {
      if e in AtHosts(r, n - 1) {
        FromHosts(r, n - 1, e);
      } else {
        FromHost(r, r.hosts[n - 1], "", |r.paths|, e);
      }
    }
  }

  /** A route has no endpoints exactly when it has no paths or names no enabled scheme. */
  lemma NoEndpointsIff(r: KongRoute)
    ensures EndpointsOf(r) == [] <==> r.paths == [] || Schemes(r) == []
  {
    HostsProduct(r, |r.hosts|);
    PathsProduct(r, r.defaultHost, r.basePath, |r.paths|);
    SomeWhenBoth(|r.hosts|, |r.paths|, |Schemes(r)|);
  }

  lemma EndpointsCarryPorts(r: KongRoute, e: Endpoint)
    requires e in EndpointsOf(r)
    ensures Enabled(r, e.protocol) && e.port == PortOf(r, e.protocol)
  {
    if |r.hosts| == 0 {
      FromHost(r, r.defaultHost, r.basePath, |r.paths|, e);
    } else {
      FromHosts(r, |r.hosts|, e);
    }
  }

  predicate Offers(props: ProxyProps, protocol: string) {
    (protocol == HTTP && !props.httpDisable) || (protocol == HTTPS && !props.httpsDisable)
  }

  /** Under a valid configuration with port numbers, a route has no endpoints exactly when
      it has no paths or names no scheme on offer, and every endpoint carries the configured
      port of a scheme on offer. */
  lemma ConfigurationReachesEndpoints(
      props: ProxyProps, restOk: bool, hosts: seq<string>, paths: seq<string>, protocols: seq<string>)
    requires ValidateCfg(Parsed(props), restOk) == NoError && IsPort(props.httpPort) && IsPort(props.httpsPort)
    ensures
      var endpoints := EndpointsOf(Configured(Parsed(props), hosts, paths, protocols));
      && (endpoints == [] <==> paths == [] || forall p :: p in protocols ==> !Offers(props, p))
      && (forall e :: e in endpoints ==>
            Offers(props, e.protocol) && e.port == if e.protocol == HTTP then props.httpPort else props.httpsPort)
  {
    ValidConfigEnables(props, restOk);
    var r := Configured(Parsed(props), hosts, paths, protocols);
    NoEndpointsIff(r);
    assert forall p :: Enabled(r, p) <==> Offers(props, p);
    assert Schemes(r) == [] <==> forall p :: p in protocols ==> !Offers(props, p) by {
      if Schemes(r) != [] {
        assert Schemes(r)[0] in Schemes(r);
      }
    }
    forall e | e in EndpointsOf(r)
      ensures Offers(props, e.protocol) && e.port == if e.protocol == HTTP then props.httpPort else props.httpsPort
    {
      EndpointsCarryPorts(r, e);
    }
  }

  predicate OfferedOn(props: ProxyProps, protocol: string, port: int) {
    || (protocol == "http" && !props.httpDisable && port == props.httpPort)
    || (protocol == "https" && !props.httpsDisable && port == props.httpsPort)
  }

  /** Under such a configuration each endpoint of a route without hosts is the configured host's,
      with the configured base path before the route's; each of a route with hosts is a host's,
      with the route's path as it is; and each is for one of the route's schemes. */
  lemma ConfiguredEndpoints(
      props: ProxyProps, restOk: bool, hosts: seq<string>, paths: seq<string>, protocols: seq<string>, e: Endpoint)
    requires ValidateCfg(Parsed(props), restOk) == NoError && IsPort(props.httpPort) && IsPort(props.httpsPort)
    ensures e in EndpointsOf(Configured(Parsed(props), hosts, paths, protocols)) <==>
            && (if hosts == [] then e.host == props.host else e.host in hosts)
            && (exists p :: p in paths && e.basePath == (if hosts == [] then props.basePath else "") + p)
            && e.protocol in protocols && OfferedOn(props, e.protocol, e.port)
  {
    var r := Configured(Parsed(props), hosts, paths, protocols);
    ValidConfigEnables(props, restOk);
    assert e.protocol in Schemes(r) && ServedOn(r, e.protocol, e.port) <==>
           e.protocol in protocols && OfferedOn(props, e.protocol, e.port);
    assert paths[..|paths|] == paths && hosts[..|hosts|] == hosts;
    if hosts == [] {
      InAtHost(r, r.defaultHost, r.basePath, |paths|, e);
    } else {
      InAtHosts(r, |hosts|, e);
    }
  }

  lemma {:induction false} InAtHost(r: KongRoute, host: string, basePath: string, n: nat, e: Endpoint)
    requires n <= |r.paths|
    ensures e in AtHost(r, host, basePath, n) <==>
            && e.host == host && (exists p :: p in r.paths[..n] && e.basePath == basePath + p)
            && e.protocol in Schemes(r) && ServedOn(r, e.protocol, e.port)
  {
    if n > 0 {
      InAtHost(r, host, basePath, n - 1, e);
      var last := r.paths[n - 1];
      assert r.paths[..n] == r.paths[..n - 1] + [last];
      if e in AtPath(r, host, basePath + last) {
        assert last in r.paths[..n];
      }
      if e.host == host && e.basePath == basePath + last && e.protocol in Schemes(r)
         && ServedOn(r, e.protocol, e.port) {
        var q :| 0 <= q < |Schemes(r)| && Schemes(r)[q] == e.protocol;
        assert AtPath(r, host, FullPath(basePath, last))[q] == e;
      }
    }
  }

  lemma {:induction false} InAtHosts(r: KongRoute, n: nat, e: Endpoint)
    requires n <= |r.hosts|
    ensures e in AtHosts(r, n) <==>
            && e.host in r.hosts[..n] && (exists p :: p in r.paths && e.basePath == "" + p)
            && e.protocol in Schemes(r) && ServedOn(r, e.protocol, e.port)
  {
    if n > 0 {
      InAtHosts(r, n - 1, e);
      InAtHost(r, r.hosts[n - 1], "", |r.paths|, e);
      assert r.paths[..|r.paths|] == r.paths;
      assert r.hosts[..n] == r.hosts[..n - 1] + [r.hosts[n - 1]];
    }
  }

  lemma SomeWhenBoth(h: nat, p: nat, q: nat)
    ensures p * q == 0 <==> p == 0 || q == 0
    ensures h > 0 ==> (h * (p * q) == 0 <==> p == 0 || q == 0)
  {
  }
}
