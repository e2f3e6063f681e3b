/** The control-plane client: how each request body is built and which
    replies each operation accepts.

    Sending the request is the `ControlPlane` parameter; serialising the body
    and deserialising the reply are library code. Each operation of the client
    is a request builder paired with an acceptance rule on the reply.
 */
module CloudflareApi {
  import opened Results
  import opened JsonValue
  import opened Strings
  import opened CloudflareModels

  /** Every tunnel is reachable under `<tunnel id>` followed by this suffix. */
  const CnameSuffix := ".cfargotunnel.com"
  /** The placeholder origin a newly created tunnel routes its hostname to. */
  const PlaceholderService := "http://127.0.0.1:5580"
  /** The service of the catch-all rule that ends every ingress list. */
  const NotFoundService := "http_status:404"

  /** An HTTP reply as received: status code and raw body. */
  datatype RawReply = RawReply(status: int, body: string)

  /** A reply whose body is also deserialised into `T`; `decoded` is `None`
      when the deserialiser throws or yields null. */
  datatype Reply<T> = Reply(raw: RawReply, decoded: Option<T>)

  /** The remote control plane. Each call either throws in the HTTP client
      before any response arrives (`None`) or yields a reply. */
  datatype ControlPlane = ControlPlane(
    createTunnel: TunnelRequest -> Option<Reply<Envelope<TunnelResult>>>,
    getTunnelToken: string -> Option<Reply<Envelope<string>>>,
    createDnsRecord: DnsRecordRequest -> Option<Reply<Envelope<DnsRecordResult>>>,
    updateTunnelConfig: (string, TunnelConfigRequest) -> Option<Reply<Envelope<TunnelConfigResult>>>,
    createAccessApplication: AccessApplicationRequest -> Option<RawReply>,
    createAccessPolicy: (string, AccessPolicyRequest) -> Option<RawReply>)

  // ---- derived names --------------------------------------------------------

  /** The DNS target of a tunnel. */
  function GetTunnelCname(tunnelId: string): (cname: string)
    ensures |cname| == |tunnelId| + |CnameSuffix|
    ensures cname[..|tunnelId|] == tunnelId && cname[|tunnelId|..] == CnameSuffix
  {
    tunnelId + CnameSuffix
  }

  /** Reads the tunnel id back out of a tunnel CNAME. */
  function TunnelIdOfCname(cname: string): (id: Option<string>)
    ensures id.Some? ==> |id.value| + |CnameSuffix| == |cname|
  {
    if |cname| >= |CnameSuffix| && cname[|cname| - |CnameSuffix|..] == CnameSuffix
    then Some(cname[..|cname| - |CnameSuffix|])
    else None
  }

  /** The CNAME determines the tunnel: reading the id back gives the id the
      CNAME was made from, so distinct tunnels never share a DNS target. */
  lemma CnameIdentifiesTunnel(tunnelId: string, other: string)
    ensures TunnelIdOfCname(GetTunnelCname(tunnelId)) == Some(tunnelId)
    ensures GetTunnelCname(tunnelId) == GetTunnelCname(other) ==> tunnelId == other
  {
  }

  /** The public hostname of a device: its serial under the configured domain. */
  function DeviceHostname(serial: string, domain: string): string {
    serial + "." + domain
  }

  /** The domain is fixed, so distinct serials get distinct hostnames, and the
      hostname is never empty. */
  lemma DeviceHostnameInjective(serial: string, other: string, domain: string)
    ensures DeviceHostname(serial, domain) != ""
    ensures DeviceHostname(serial, domain) == DeviceHostname(other, domain) ==> serial == other
  {
    var h := DeviceHostname(serial, domain);
    assert h[|serial|] == '.';
    if h == DeviceHostname(other, domain) {
      assert |serial| == |other|;
      assert serial == h[..|serial|];
      assert other == DeviceHostname(other, domain)[..|other|];
    }
  }

  /** The hostname `CreateTunnelAsync` routes: the one given, unless it is
      null or empty; otherwise the second '-'-separated piece of the tunnel
      name (for names shaped `tunnel-<serial>`), or the whole name when it has
      no '-', under the domain. */
  function TunnelHostname(tunnelName: string, hostname: Option<string>, domain: string): (h: string)
    ensures hostname.Some? && hostname.value != "" ==> h == hostname.value
    ensures (hostname.None? || hostname.value == "") && '-' !in tunnelName ==> h == tunnelName + "." + domain
    ensures (hostname.None? || hostname.value == "") ==> |h| > |domain| && h[|h| - |domain| - 1..] == "." + domain
  {
    if hostname.Some? && hostname.value != "" then hostname.value
    else
      var parts := Split(tunnelName, '-');
      if |parts| > 1 then parts[1] + "." + domain
      else tunnelName + "." + domain
  }

  /** With no hostname given and a '-' in the tunnel name, the hostname's piece
      is exactly the text between the first '-' and the next '-' (or the end
      of the name): later pieces are dropped. */
  lemma DefaultHostnameIsSecondPiece(tunnelName: string, domain: string)
    requires '-' in tunnelName
    ensures var h := TunnelHostname(tunnelName, None, domain);
      var piece := h[..|h| - |domain| - 1];
      var i := IndexOf(tunnelName, '-');
      && h == piece + "." + domain
      && '-' !in piece
      && i + 1 + |piece| <= |tunnelName|
      && tunnelName[i + 1..i + 1 + |piece|] == piece
      && (i + 1 + |piece| < |tunnelName| ==> tunnelName[i + 1 + |piece|] == '-')
  {
  }

  // ---- request bodies -------------------------------------------------------

  /** The catch-all rule: no hostname, answers 404. */
  predicate IsCatchAll(rule: IngressRule) {
    rule.hostname.None? && rule.service == NotFoundService
  }

  /** A routing list that sends `hostname` to `service` and everything else
      to the catch-all, which comes last. */
  predicate RoutesOnly(rules: seq<IngressRule>, hostname: string, service: string) {
    && |rules| == 2
    && rules[0].hostname == Some(hostname) && rules[0].service == service
    && IsCatchAll(rules[|rules| - 1])
  }

  /** The create-tunnel body: the tunnel name and a routing list that sends
      the hostname to the placeholder origin and ends in the catch-all. */
  function TunnelRequestFor(tunnelName: string, hostname: string): (req: TunnelRequest)
    ensures req.name == tunnelName
    ensures RoutesOnly(req.config.ingress, hostname, PlaceholderService)
  {
    TunnelRequest(tunnelName, TunnelConfig([
      IngressRule(Some(hostname), PlaceholderService),
      IngressRule(None, NotFoundService)]))
  }

  /** The create-DNS-record body: a proxied CNAME with automatic TTL from the
      hostname to the tunnel's CNAME. */
  function DnsRequestFor(hostname: string, tunnelCname: string): (req: DnsRecordRequest)
    ensures req.recordType == Some("CNAME") && req.name == Some(hostname) && req.content == Some(tunnelCname)
    ensures req.ttl == AutoTtl && req.proxied
  {
    NewDnsRecordRequest().(recordType := Some("CNAME"), name := Some(hostname), content := Some(tunnelCname),
                           ttl := 1, proxied := true)
  }

  /** The explicit `Ttl = 1, Proxied = true` of the DNS body only repeat the
      type's defaults: the body differs from a fresh object in type, name and
      content alone. */
  lemma DnsRequestKeepsDefaults(hostname: string, tunnelCname: string)
    ensures DnsRequestFor(hostname, tunnelCname)
         == NewDnsRecordRequest().(recordType := Some("CNAME"), name := Some(hostname), content := Some(tunnelCname))
  {
  }

  /** The catch-all entry of a configuration update. */
  predicate IsCatchAllIngress(entry: Ingress) {
    entry.hostname.None? && entry.service == Some(NotFoundService) && entry.originRequest.None?
  }

  /** The configuration-update body built by the workflow: tunnel id set,
      version and source at their defaults, two routing entries (hostname to
      the service address, then the catch-all), no warp-routing block and no
      origin settings. */
  function ConfigRequestFor(tunnelId: string, hostname: string, serviceAddress: string): (req: TunnelConfigRequest)
    ensures req.tunnelId == Some(tunnelId)
    ensures req.version == 1 && req.source == Some("cloudflare")
    ensures req.config.Some? && req.config.value.warpRouting.None?
    ensures var ingress := req.config.value.ingress;
      && ingress.Some? && |ingress.value| == 2
      && ingress.value[0] == Ingress(Some(serviceAddress), Some(hostname), None)
      && IsCatchAllIngress(ingress.value[|ingress.value| - 1])
  {
    NewTunnelConfigRequest().(
      tunnelId := Some(tunnelId),
      config := Some(Config(Some([
        Ingress(Some(serviceAddress), Some(hostname), None),
        Ingress(Some(NotFoundService), None, None)]), None)))
  }

  /** The create-access-application body: name and domain set, type and
      session length at their defaults. */
  function AppRequestFor(appName: string, domain: string): (req: AccessApplicationRequest)
    ensures req.name == Some(appName) && req.domain == Some(domain)
    ensures req.appType == NewAccessApplicationRequest().appType
    ensures req.sessionDuration == NewAccessApplicationRequest().sessionDuration
  {
    NewAccessApplicationRequest().(name := Some(appName), domain := Some(domain))
  }

  /** The create-access-policy body: the default policy with its `include`
      replaced by the single service token. */
  function PolicyRequestFor(serviceTokenId: string): (req: AccessPolicyRequest)
    ensures req.includes == [ServiceToken(serviceTokenId)]
    ensures req.name == NewAccessPolicyRequest().name
    ensures req.precedence == NewAccessPolicyRequest().precedence
    ensures req.decision == NewAccessPolicyRequest().decision
  {
    NewAccessPolicyRequest().(includes := [ServiceToken(serviceTokenId)])
  }

  // ---- acceptance rules -----------------------------------------------------

  /** The rule of tunnel creation, DNS creation and configuration update: the
      HTTP status is not consulted; the call fails unless the envelope
      deserialises, says `success` and carries a `result`. */
  function Unwrap<T>(reply: Option<Reply<Envelope<T>>>): (r: Result<Envelope<T>>)
    ensures r.Ok? <==> reply.Some? && reply.value.decoded.Some?
                       && reply.value.decoded.value.success && reply.value.decoded.value.result.Some?
    ensures r.Ok? ==> r.value == reply.value.decoded.value
    ensures r == Err(TransportError) <==> reply.None?
    ensures reply.Some? && reply.value.decoded.None? ==> r == Err(MalformedResponse(reply.value.raw.body))
    ensures reply.Some? && reply.value.decoded.Some? && r.Err?
            ==> r.error == RemoteApiError(reply.value.raw.status, reply.value.raw.body)
  {
    match reply
    case None => Err(TransportError)
    case Some(Reply(raw, decoded)) =>
      match decoded
      case None => Err(MalformedResponse(raw.body))
      case Some(envelope) =>
        if !envelope.success || envelope.result.None? then Err(RemoteApiError(raw.status, raw.body))
        else Ok(envelope)
  }

  /** Only the envelope decides: a reply with an error status but a
      successful envelope is accepted, and the other way round. */
  lemma UnwrapIgnoresStatus<T>(raw: RawReply, status: int, decoded: Option<Envelope<T>>)
    ensures Unwrap(Some(Reply(raw, decoded))).Ok?
        <== Unwrap(Some(Reply(RawReply(status, raw.body), decoded))).Ok?
    ensures Unwrap(Some(Reply(raw, decoded))).Ok?
        ==> Unwrap(Some(Reply(RawReply(status, raw.body), decoded))).Ok?
  {
  }

  /** The result carried by an accepted envelope. */
  function Carried<T>(reply: Option<Reply<Envelope<T>>>): (r: Result<T>)
    ensures r.Ok? <==> Unwrap(reply).Ok?
    ensures r.Ok? ==> r.value == Unwrap(reply).value.result.value
    ensures r.Err? ==> r == Err(Unwrap(reply).error)
  {
    match Unwrap(reply)
    case Err(e) => Err(e)
    case Ok(envelope) => Ok(envelope.result.value)
  }

  /** The rule of the token fetch: a non-2xx status fails before the body is
      deserialised; then the envelope must deserialise, say `success` and carry a
      non-empty token, which is returned. */
  function TokenOf(reply: Option<Reply<Envelope<string>>>): (r: Result<string>)
    ensures r.Ok? <==> && reply.Some? && IsSuccessStatus(reply.value.raw.status)
                       && reply.value.decoded.Some? && reply.value.decoded.value.success
                       && reply.value.decoded.value.result.Some? && reply.value.decoded.value.result.value != ""
    ensures r.Ok? ==> r.value == reply.value.decoded.value.result.value && r.value != ""
    ensures r == Err(TransportError) <==> reply.None?
    ensures reply.Some? && !IsSuccessStatus(reply.value.raw.status)
            ==> r == Err(RemoteApiError(reply.value.raw.status, reply.value.raw.body))
    ensures reply.Some? && IsSuccessStatus(reply.value.raw.status) && reply.value.decoded.None?
            ==> r == Err(MalformedResponse(reply.value.raw.body))
    ensures reply.Some? && IsSuccessStatus(reply.value.raw.status) && reply.value.decoded.Some? && r.Err?
            ==> r == Err(RemoteApiError(reply.value.raw.status, reply.value.raw.body))
  {
    match reply
    case None => Err(TransportError)
    case Some(Reply(raw, decoded)) =>
      if !IsSuccessStatus(raw.status) then Err(RemoteApiError(raw.status, raw.body))
      else match decoded
        case None => Err(MalformedResponse(raw.body))
        case Some(envelope) =>
          if !envelope.success || envelope.result.None? || envelope.result.value == "" then
            Err(RemoteApiError(raw.status, raw.body))
          else Ok(envelope.result.value)
  }

  /** The token rule is stricter than the envelope rule and agrees with it:
      a token it accepts is the result the envelope carries. */
  lemma TokenRuleRefinesEnvelope(reply: Option<Reply<Envelope<string>>>)
    ensures TokenOf(reply).Ok? ==> Carried(reply).Ok? && Carried(reply).value == TokenOf(reply).value
  {
  }

  /** The two rules part: a successful envelope with a non-empty token under
      a server-error status passes the envelope rule and fails the token
      rule. */
  lemma StatusSeparatesTokenRule(body: string, token: string)
    requires token != ""
    ensures var reply := Some(Reply(RawReply(500, body), Some(Envelope(true, Some(token)))));
      Carried(reply) == Ok(token) && TokenOf(reply) == Err(RemoteApiError(500, body))
  {
  }

  /** The rule of access application and policy creation: only the status
      counts, and the raw body is returned unread. */
  function RawBodyOf(reply: Option<RawReply>): (r: Result<string>)
    ensures r.Ok? <==> reply.Some? && IsSuccessStatus(reply.value.status)
    ensures r.Ok? ==> r.value == reply.value.body
    ensures r == Err(TransportError) <==> reply.None?
    ensures reply.Some? && r.Err? ==> r.error == RemoteApiError(reply.value.status, reply.value.body)
  {
    match reply
    case None => Err(TransportError)
    case Some(raw) => if IsSuccessStatus(raw.status) then Ok(raw.body) else Err(RemoteApiError(raw.status, raw.body))
  }

  /** The status-only rule never reads the body: the same status is accepted
      or refused whatever body comes with it. */
  lemma RawBodyIgnoresBody(status: int, body1: string, body2: string)
    ensures RawBodyOf(Some(RawReply(status, body1))).Ok? == RawBodyOf(Some(RawReply(status, body2))).Ok?
  {
  }

  /** The application id in an access-application body, read as
      `JObject.Parse(body)["result"]["id"].ToString()`: the body must parse to
      an object whose `result` is an object holding an `id`. A string id is
      returned as is, a JSON null as the empty string. */
  function ApplicationIdOf(body: string, parse: string -> Option<Json>, render: Json -> string): (r: Result<string>)
    ensures r.Ok? <==> && parse(body).Some? && parse(body).value.JObject?
                       && "result" in parse(body).value.fields
                       && parse(body).value.fields["result"].JObject?
                       && "id" in parse(body).value.fields["result"].fields
    ensures r.Ok? && parse(body).value.fields["result"].fields["id"].JString?
            ==> r.value == parse(body).value.fields["result"].fields["id"].s
    ensures r.Ok? && parse(body).value.fields["result"].fields["id"].JNull? ==> r.value == ""
    ensures r.Ok? && !parse(body).value.fields["result"].fields["id"].JString?
                  && !parse(body).value.fields["result"].fields["id"].JNull?
            ==> r.value == render(parse(body).value.fields["result"].fields["id"])
    ensures r.Err? ==> r == Err(MalformedResponse(body))
  {
    var doc := parse(body);
    if doc.None? || !doc.value.JObject? then Err(MalformedResponse(body))
    else
      var extracted :=
        match Member(doc, "result")
        case Err(e) => Err(e)
        case Ok(result) =>
          match Member(result, "id")
          case Err(e) => Err(e)
          case Ok(id) => TokenText(id, render);
      if extracted.Ok? then extracted else Err(MalformedResponse(body))
  }
}
