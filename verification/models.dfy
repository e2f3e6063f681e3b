/** The request, response and record types of the Cloudflare client, with the
    values a freshly constructed object carries (`new X()`).

    A reference-typed property without an initialiser starts out null; it is
    an `Option` here, `None` standing for null. Timestamps (`created_at`,
    `CreatedAt`) are not modelled.
 */
module CloudflareModels {
  import opened Results

  // ---- tunnel creation ------------------------------------------------------

  /** One routing entry of a tunnel: requests for `hostname` go to `service`;
      an entry without a hostname matches every request. */
  datatype IngressRule = IngressRule(hostname: Option<string>, service: string)

  datatype TunnelConfig = TunnelConfig(ingress: seq<IngressRule>)

  /** Body of the create-tunnel request (JSON names `name`, `config`). */
  datatype TunnelRequest = TunnelRequest(name: string, config: TunnelConfig)

  /** The tunnel the control plane reports back (`id`, `name`, `config`). */
  datatype TunnelResult = TunnelResult(id: string, name: string, config: Option<TunnelConfig>)

  /** The `{success, result}` envelope shared by the tunnel, token, DNS and
      tunnel-configuration replies. The configuration reply also carries
      `errors` and `messages`, which nothing reads. */
  datatype Envelope<T> = Envelope(success: bool, result: Option<T>)

  // ---- DNS ------------------------------------------------------------------

  /** Body of the create-DNS-record request (`type`, `name`, `content`, `ttl`, `proxied`). */
  datatype DnsRecordRequest = DnsRecordRequest(
    recordType: Option<string>,
    name: Option<string>,
    content: Option<string>,
    ttl: int,
    proxied: bool)

  /** A TTL of 1 asks the control plane to choose the TTL itself. */
  const AutoTtl := 1

  /** `new DnsRecordRequest()`: automatic TTL and proxied, everything else null. */
  function NewDnsRecordRequest(): (r: DnsRecordRequest)
    ensures r.ttl == AutoTtl && r.proxied
    ensures r.recordType.None? && r.name.None? && r.content.None?
  {
    DnsRecordRequest(None, None, None, AutoTtl, true)
  }

  datatype DnsRecordResult = DnsRecordResult(id: string, recordType: string, name: string, content: string)

  // ---- tunnel configuration -------------------------------------------------

  /** Per-origin connection settings (`tlsTimeout`, `proxyAddress`, ...). */
  datatype OriginRequest = OriginRequest(
    tlsTimeout: Option<int>,
    proxyAddress: Option<string>,
    tcpKeepAlive: Option<int>,
    connectTimeout: Option<int>,
    keepAliveTimeout: Option<int>,
    keepAliveConnections: Option<int>)

  /** `new OriginRequest()`: every timeout and count is 0, the proxy address empty. */
  function NewOriginRequest(): (r: OriginRequest)
    ensures r.tlsTimeout == r.tcpKeepAlive == r.connectTimeout == Some(0)
    ensures r.keepAliveTimeout == r.keepAliveConnections == Some(0)
    ensures r.proxyAddress == Some("")
  {
    OriginRequest(Some(0), Some(""), Some(0), Some(0), Some(0), Some(0))
  }

  /** One routing entry of a configuration update (`service`, `hostname`, `originRequest`). */
  datatype Ingress = Ingress(service: Option<string>, hostname: Option<string>, originRequest: Option<OriginRequest>)

  /** The `warp-routing` block of a configuration. */
  datatype WarpRouting = WarpRouting(enabled: bool)

  /** `new WarpRouting()`: routing enabled. */
  function NewWarpRouting(): (r: WarpRouting)
    ensures r.enabled
  {
    WarpRouting(true)
  }

  /** A tunnel configuration (`ingress`, `warp-routing`). */
  datatype Config = Config(ingress: Option<seq<Ingress>>, warpRouting: Option<WarpRouting>)

  /** Body of the configuration update (`tunnel_id`, `version`, `config`, `source`). */
  datatype TunnelConfigRequest = TunnelConfigRequest(
    tunnelId: Option<string>,
    version: int,
    config: Option<Config>,
    source: Option<string>)

  /** `new TunnelConfigRequest()`: version 1 from source "cloudflare", no tunnel id, no config. */
  function NewTunnelConfigRequest(): (r: TunnelConfigRequest)
    ensures r.version == 1 && r.source == Some("cloudflare")
    ensures r.tunnelId.None? && r.config.None?
  {
    TunnelConfigRequest(None, 1, None, Some("cloudflare"))
  }

  /** The `result` of a configuration update. */
  datatype TunnelConfigResult = TunnelConfigResult(tunnelId: string, version: int, config: Option<Config>, source: string)

  // ---- access application and policy ---------------------------------------

  /** Body of the create-access-application request (`name`, `domain`, `type`, `session_duration`). */
  datatype AccessApplicationRequest = AccessApplicationRequest(
    name: Option<string>,
    domain: Option<string>,
    appType: string,
    sessionDuration: string)

  /** `new CloudflareAccessApplicationRequest()`: a self-hosted application with
      24-hour sessions and neither name nor domain. */
  function NewAccessApplicationRequest(): (r: AccessApplicationRequest)
    ensures r.appType == "self_hosted" && r.sessionDuration == "24h"
    ensures r.name.None? && r.domain.None?
  {
    AccessApplicationRequest(None, None, "self_hosted", "24h")
  }

  /** One principal matcher of a policy's `include` list: `{everyone: b}` or
      `{service_token: {token_id: id}}`. */
  datatype PolicyInclude = Everyone(everyone: bool) | ServiceToken(tokenId: string)

  /** Body of the create-access-policy request (`name`, `precedence`, `decision`, `include`). */
  datatype AccessPolicyRequest = AccessPolicyRequest(
    name: string,
    precedence: int,
    decision: string,
    includes: seq<PolicyInclude>)

  /** `new CloudflareAccessPolicyRequest()`: a non-identity policy of
      precedence 1 that includes everyone. */
  function NewAccessPolicyRequest(): (r: AccessPolicyRequest)
    ensures r.name == "Service Token Policy" && r.precedence == 1 && r.decision == "non_identity"
    ensures r.includes == [Everyone(true)]
  {
    AccessPolicyRequest("Service Token Policy", 1, "non_identity", [Everyone(true)])
  }

  // ---- workflow result ------------------------------------------------------

  /** What a completed provisioning run reports. The application and policy
      are the raw response bodies. */
  datatype ProvisioningStatus = ProvisioningStatus(
    serial: string,
    hostname: string,
    tunnelId: string,
    tunnelToken: string,
    accessApplication: string,
    accessPolicy: string,
    isActive: bool,
    dnsRecord: DnsRecordResult,
    tunnelConfig: TunnelConfigResult)
}
