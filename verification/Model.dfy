/** The resources the controller reads and writes, and its configuration.
    Fields that are copied through unchanged (timeouts, retries, CORS, websockets,
    extension services) are not represented. */
module Model {
  import opened Text

  datatype Option<+T> = None | Some(value: T)

  // ---- KIngress --------------------------------------------------------------------

  /** `intstr.IntOrString`; a named port carries the value `IntValue()` gives it. */
  datatype Port = Number(number: int) | Named(text: string, parsed: int)

  function IntValue(p: Port): int {
    match p
    case Number(n) => n
    case Named(_, n) => n
  }

  datatype Split = Split(service: string, port: Port, percent: int, appendHeaders: map<string, string>)

  datatype Path = Path(
    path: string,
    rewriteHost: string,
    headers: map<string, string>,
    splits: seq<Split>,
    appendHeaders: map<string, string>)

  datatype Rule = Rule(hosts: seq<string>, visibility: string, paths: seq<Path>)

  datatype TLS = TLS(hosts: seq<string>, secretName: string, secretNamespace: string)

  datatype HTTPOption = Redirected | Enabled | Unset

  datatype IngressSpec = IngressSpec(rules: seq<Rule>, tls: seq<TLS>, httpOption: HTTPOption)

  datatype Ingress = Ingress(
    ns: string,
    name: string,
    generation: nat,
    annotations: map<string, string>,
    spec: IngressSpec)

  const EXTERNAL_IP := "ExternalIP"
  const CLUSTER_LOCAL := "ClusterLocal"

  // ---- HTTPProxy -------------------------------------------------------------------

  datatype HeaderValue = HeaderValue(name: string, value: string)

  /** A condition has either a prefix or a header; the other field is the zero value. */
  datatype MatchCondition = MatchCondition(prefix: string, header: Option<HeaderValue>)

  datatype Service = Service(
    name: string,
    port: int,
    weight: int,
    headers: Option<seq<HeaderValue>>,
    protocol: Option<string>,
    upstreamValidation: bool)

  datatype Route = Route(
    conditions: seq<MatchCondition>,
    services: seq<Service>,
    headers: seq<HeaderValue>,
    permitInsecure: bool)

  datatype ProxySpec = ProxySpec(fqdn: string, tlsSecret: Option<string>, routes: seq<Route>)

  /** The four labels the controller writes and selects on. Objects made by others may
      lack them. The generation label is a decimal numeral; `Text.ItoaInjective` lets it be
      represented by its number. */
  datatype Labels = Labels(
    parent: Option<string>,
    generation: Option<nat>,
    domainHash: Option<string>,
    ingressClass: Option<string>)

  datatype HTTPProxy = HTTPProxy(
    ns: string,
    name: string,
    resourceVersion: nat,
    labels: Labels,
    annotations: map<string, string>,
    spec: ProxySpec,
    status: string)

  // ---- Keys and constants ----------------------------------------------------------

  const CLASS_KEY := "projectcontour.io/ingress.class"
  const ENDPOINTS_PROBE_KEY := "contour.networking.knative.dev/endpointsProbe"
  const HASH_KEY := "K-Network-Hash"
  const HASH_OVERRIDE := "override"
  const ORIGINAL_HOST_KEY := "K-Original-Host"
  const HTTP_CHALLENGE_PATH := "/.well-known/acme-challenge"
  const PORT_NAME_H2C := "http2"

  // ---- Configuration ---------------------------------------------------------------

  /** The controller's configuration, with the hash and naming functions of its libraries:
      `sha1` prints the SHA-1 of a host, `childName` is `kmeta.ChildName`, and `specHash` is
      the hash `InsertProbe` computes over spec, namespace and name. */
  datatype Config = Config(
    classes: map<string, string>,
    keys: map<string, set<string>>,
    clusterDomain: string,
    internalTLS: bool,
    defaultTLSSecret: Option<string>,
    sha1: string -> string,
    childName: (string, string) -> string,
    specHash: (IngressSpec, string, string) -> string)

  /** Go's map read: the zero value when the key is missing. */
  function Lookup(m: map<string, string>, k: string): string {
    if k in m then m[k] else ""
  }

  /** No two visibilities share a class, and no class is empty. */
  ghost predicate DistinctClasses(cfg: Config) {
    && "" !in cfg.classes
    && (forall v :: v in cfg.classes ==> cfg.classes[v] != "")
    && (forall v, w :: v in cfg.classes && w in cfg.classes && cfg.classes[v] == cfg.classes[w] ==> v == w)
  }

  // ---- ingress.ExpandedHosts -------------------------------------------------------

  function LastLabel(domain: string): string {
    if domain == "" then ""
    else if domain[|domain| - 1] == '.' then ""
    else LastLabel(domain[..|domain| - 1]) + [domain[|domain| - 1]]
  }

  predicate ValidTopLevelDomain(domain: string) {
    var tld := LastLabel(domain);
    |tld| <= 63 && exists i :: 0 <= i < |tld| && (tld[i] == '-' || tld[i] > '9')
  }

  function TrimmedHost(host: string, suffix: string): set<string> {
    var th := TrimSuffix(host, suffix);
    if (suffix == "" || |th| < |host|) && ValidTopLevelDomain(th) then {th} else {}
  }

  /** The host and its cluster-DNS short names. */
  function ExpandedHosts(clusterDomain: string, host: string): set<string> {
    TrimmedHost(host, "") + TrimmedHost(host, "." + clusterDomain) + TrimmedHost(host, ".svc." + clusterDomain)
  }
}
