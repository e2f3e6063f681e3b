/** `ProvisionClientAsync`: the fixed sequence of steps that turns a device
    serial into a tunnel, its DNS record, its routing, an access application
    and a service-token policy, and then binds the local agent.

    The run is recorded as the trace of steps it attempted. The first step
    that fails ends the run: nothing after it is attempted, nothing before it
    is undone, and no record is returned.
 */
module Provisioning {
  import opened Results
  import opened JsonValue
  import opened CloudflareModels
  import opened CloudflareApi

  /** Everything the workflow reaches outside itself: the control plane, the
      JSON library's parser and token rendering, and the local agent
      installer (`false` when it throws). */
  datatype Collaborators = Collaborators(
    api: ControlPlane,
    parseJson: string -> Option<Json>,
    renderJson: Json -> string,
    installAgent: (string, string) -> bool)

  /** One attempted step, with what it was given. */
  datatype Step =
    | CreateTunnelStep(tunnelRequest: TunnelRequest)
    | FetchTokenStep(tunnelId: string)
    | CreateDnsStep(dnsRequest: DnsRecordRequest)
    | UpdateIngressStep(tunnelId: string, configRequest: TunnelConfigRequest)
    | CreateAppStep(appRequest: AccessApplicationRequest)
    | ExtractAppIdStep(appBody: string)
    | CreatePolicyStep(appId: string, policyRequest: AccessPolicyRequest)
    | InstallAgentStep(agentTunnelId: string, agentToken: string)
  {
    /** The position of this kind of step in the workflow. */
    function Position(): nat {
      match this
      case CreateTunnelStep(_) => 0
      case FetchTokenStep(_) => 1
      case CreateDnsStep(_) => 2
      case UpdateIngressStep(_, _) => 3
      case CreateAppStep(_) => 4
      case ExtractAppIdStep(_) => 5
      case CreatePolicyStep(_, _) => 6
      case InstallAgentStep(_, _) => 7
    }
  }

  /** Number of steps of a complete run. */
  const StepCount := 8

  /** Whether a step, given what it was given, goes through with these
      collaborators. */
  predicate Succeeds(c: Collaborators, step: Step) {
    match step
    case CreateTunnelStep(req) => Carried(c.api.createTunnel(req)).Ok?
    case FetchTokenStep(id) => TokenOf(c.api.getTunnelToken(id)).Ok?
    case CreateDnsStep(req) => Carried(c.api.createDnsRecord(req)).Ok?
    case UpdateIngressStep(id, req) => Unwrap(c.api.updateTunnelConfig(id, req)).Ok?
    case CreateAppStep(req) => RawBodyOf(c.api.createAccessApplication(req)).Ok?
    case ExtractAppIdStep(body) => ApplicationIdOf(body, c.parseJson, c.renderJson).Ok?
    case CreatePolicyStep(id, req) => RawBodyOf(c.api.createAccessPolicy(id, req)).Ok?
    case InstallAgentStep(id, token) => c.installAgent(id, token)
  }

  /** The error a step that does not go through throws: its acceptance
      rule's failure, or the installer's. Only the installer reports
      `AgentInstallError`. */
  function StepFailure(c: Collaborators, step: Step): (f: Failure)
    requires !Succeeds(c, step)
    ensures f == AgentInstallError <==> step.InstallAgentStep?
  {
    match step
    case CreateTunnelStep(req) => Carried(c.api.createTunnel(req)).error
    case FetchTokenStep(id) => TokenOf(c.api.getTunnelToken(id)).error
    case CreateDnsStep(req) => Carried(c.api.createDnsRecord(req)).error
    case UpdateIngressStep(id, req) => Unwrap(c.api.updateTunnelConfig(id, req)).error
    case CreateAppStep(req) => RawBodyOf(c.api.createAccessApplication(req)).error
    case ExtractAppIdStep(body) => ApplicationIdOf(body, c.parseJson, c.renderJson).error
    case CreatePolicyStep(id, req) => RawBodyOf(c.api.createAccessPolicy(id, req)).error
    case InstallAgentStep(_, _) => AgentInstallError
  }

  /** A run: the steps attempted, in order, and its outcome. */
  datatype Run = Run(steps: seq<Step>, outcome: Result<ProvisioningStatus>)

  function ProvisionClient(c: Collaborators, domain: string, serial: string, serviceAddress: string, serviceTokenId: string): (run: Run)
    // the steps come in the workflow's order, at most one of each
    ensures 1 <= |run.steps| <= StepCount
    ensures forall i | 0 <= i < |run.steps| :: run.steps[i].Position() == i
    // every step but the last went through; the run completes iff all did
    ensures forall i | 0 <= i < |run.steps| - 1 :: Succeeds(c, run.steps[i])
    ensures run.outcome.Ok? <==> |run.steps| == StepCount && Succeeds(c, run.steps[StepCount - 1])
    ensures run.outcome.Err? ==> !Succeeds(c, run.steps[|run.steps| - 1])
    // a failed run reports its last step's own error, unchanged
    ensures run.outcome.Err? ==> run.outcome.error == StepFailure(c, run.steps[|run.steps| - 1])
  {
    var tunnelName := serial;
    var hostname := DeviceHostname(serial, domain);

    var s0 := CreateTunnelStep(TunnelRequestFor(tunnelName, TunnelHostname(tunnelName, Some(hostname), domain)));
    var tunnel := Carried(c.api.createTunnel(s0.tunnelRequest));
    if tunnel.Err? then Run([s0], Err(tunnel.error)) else
    assert Succeeds(c, s0);
    var tunnelId := tunnel.value.id;

    var s1 := FetchTokenStep(tunnelId);
    var token := TokenOf(c.api.getTunnelToken(tunnelId));
    if token.Err? then Run([s0, s1], Err(token.error)) else
    assert Succeeds(c, s1);

    var tunnelCname := GetTunnelCname(tunnelId);
    var s2 := CreateDnsStep(DnsRequestFor(hostname, tunnelCname));
    var dns := Carried(c.api.createDnsRecord(s2.dnsRequest));
    if dns.Err? then Run([s0, s1, s2], Err(dns.error)) else
    assert Succeeds(c, s2);

    var s3 := UpdateIngressStep(tunnelId, ConfigRequestFor(tunnelId, hostname, serviceAddress));
    var config := Unwrap(c.api.updateTunnelConfig(tunnelId, s3.configRequest));
    if config.Err? then Run([s0, s1, s2, s3], Err(config.error)) else
    assert Succeeds(c, s3);

    var s4 := CreateAppStep(AppRequestFor(tunnelName, hostname));
    var app := RawBodyOf(c.api.createAccessApplication(s4.appRequest));
    if app.Err? then Run([s0, s1, s2, s3, s4], Err(app.error)) else
    assert Succeeds(c, s4);

    var s5 := ExtractAppIdStep(app.value);
    var appId := ApplicationIdOf(app.value, c.parseJson, c.renderJson);
    if appId.Err? then Run([s0, s1, s2, s3, s4, s5], Err(appId.error)) else
    assert Succeeds(c, s5);

    var s6 := CreatePolicyStep(appId.value, PolicyRequestFor(serviceTokenId));
    var policy := RawBodyOf(c.api.createAccessPolicy(appId.value, s6.policyRequest));
    if policy.Err? then Run([s0, s1, s2, s3, s4, s5, s6], Err(policy.error)) else
    assert Succeeds(c, s6);

    var s7 := InstallAgentStep(tunnelId, token.value);
    if !c.installAgent(tunnelId, token.value) then Run([s0, s1, s2, s3, s4, s5, s6, s7], Err(AgentInstallError)) else

    Run([s0, s1, s2, s3, s4, s5, s6, s7], Ok(ProvisioningStatus(
      serial := serial,
      hostname := hostname,
      tunnelId := tunnelId,
      tunnelToken := token.value,
      accessApplication := app.value,
      accessPolicy := policy.value,
      isActive := true,
      dnsRecord := dns.value,
      tunnelConfig := config.value.result.value)))
  }

  /** What the tunnel steps are given follows from the serial, the domain and
      the first reply: the tunnel is named after the serial and routes
      `serial.domain`, and the tunnel id from the first reply feeds the token
      fetch, the DNS target and the routing update. */
  lemma ProvisionTunnelInputs(c: Collaborators, domain: string, serial: string, serviceAddress: string, serviceTokenId: string)
    ensures var steps := ProvisionClient(c, domain, serial, serviceAddress, serviceTokenId).steps;
      var hostname := serial + "." + domain;
      && steps[0] == CreateTunnelStep(TunnelRequestFor(serial, hostname))
      && (|steps| > 1 ==> steps[1] == FetchTokenStep(Carried(c.api.createTunnel(steps[0].tunnelRequest)).value.id))
      && (|steps| > 2 ==> steps[2] == CreateDnsStep(DnsRequestFor(hostname, steps[1].tunnelId + ".cfargotunnel.com")))
      && (|steps| > 3 ==> steps[3] == UpdateIngressStep(steps[1].tunnelId, ConfigRequestFor(steps[1].tunnelId, hostname, serviceAddress)))
  {
  }

  /** What the access and agent steps are given: the application is named
      after the serial on `serial.domain`, the policy is attached to the id
      read from the application's reply and admits the service token, and
      the agent gets the tunnel id and the fetched token. */
  lemma ProvisionAccessInputs(c: Collaborators, domain: string, serial: string, serviceAddress: string, serviceTokenId: string)
    ensures var steps := ProvisionClient(c, domain, serial, serviceAddress, serviceTokenId).steps;
      var hostname := serial + "." + domain;
      && (|steps| > 4 ==> steps[4] == CreateAppStep(AppRequestFor(serial, hostname)))
      && (|steps| > 5 ==> steps[5] == ExtractAppIdStep(RawBodyOf(c.api.createAccessApplication(steps[4].appRequest)).value))
      && (|steps| > 6 ==> steps[6] == CreatePolicyStep(ApplicationIdOf(steps[5].appBody, c.parseJson, c.renderJson).value,
                                                       PolicyRequestFor(serviceTokenId)))
      && (|steps| > 7 ==> steps[7] == InstallAgentStep(steps[1].tunnelId, TokenOf(c.api.getTunnelToken(steps[1].tunnelId)).value))
  {
  }

  /** A completed run reports the serial, `serial.domain`, the created
      tunnel's id and its token, the DNS record and configuration the control
      plane returned, the raw application and policy bodies, and is active. */
  lemma ProvisionRecord(c: Collaborators, domain: string, serial: string, serviceAddress: string, serviceTokenId: string)
    ensures var run := ProvisionClient(c, domain, serial, serviceAddress, serviceTokenId);
      var steps := run.steps;
      run.outcome.Ok? ==>
        var record := run.outcome.value;
        && record.serial == serial
        && record.hostname == serial + "." + domain
        && record.tunnelId == steps[1].tunnelId
        && record.tunnelId == Carried(c.api.createTunnel(steps[0].tunnelRequest)).value.id
        && record.tunnelToken == steps[7].agentToken
        && record.dnsRecord == Carried(c.api.createDnsRecord(steps[2].dnsRequest)).value
        && record.dnsRecord == c.api.createDnsRecord(steps[2].dnsRequest).value.decoded.value.result.value
        && Some(record.tunnelConfig) == c.api.updateTunnelConfig(steps[3].tunnelId, steps[3].configRequest).value.decoded.value.result
        && record.accessApplication == steps[5].appBody
        && record.accessPolicy == c.api.createAccessPolicy(steps[6].appId, steps[6].policyRequest).value.body
        && record.isActive
  {
  }
}
