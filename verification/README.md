# Cloudflare tenant provisioning and Access token validation, modelled in Dafny

This project models the two stateful parts of the CloudflareProvisioner library.

**Provisioning** (`CloudflareApiService`). `ProvisionClientAsync` turns a device
serial into a complete setup, one step at a time:

1. a Cloudflare tunnel;
2. its connection token;
3. a proxied CNAME from `serial.domain` to `<tunnel id>.cfargotunnel.com`;
4. the tunnel's routing update;
5. an Access application;
6. a service-token Access policy;
7. the installed local `cloudflared` agent.

The model covers the request bodies the client builds and the rule each
operation uses to accept or reject a reply. It records the run as the trace of
the steps it attempted. The first failing step ends the run, and nothing is
undone.

**Token validation** (`JwtValidationService`). `GetSigningKeys` keeps the
team's signing keys for ten minutes. It refreshes them entry by entry, and
when a fetch fails it falls back to the cached keys, however stale.
`ValidateJwt` refuses an empty token and an empty key set, and otherwise
defers to the token library. `ExtractClaims` folds the claims into a
dictionary in which the last claim of each type wins.

Modules, one per file:

- `results.dfy`: `Results`, with `Option`, the failure kinds, and `Result`.
- `json.dfy`: `JsonValue`, a parsed JSON tree and the token indexer semantics the
  code relies on.
- `strings.dfy`: `Strings`, `String.Split(char)`.
- `models.dfy`: `CloudflareModels`, the request, response and record types and
  their initial values.
- `api.dfy`: `CloudflareApi`, request builders, acceptance rules, the derived
  CNAME and hostname, and application-id extraction.
- `provisioning.dfy`: `Provisioning`, the workflow.
- `jwt.dfy`: `JwtValidation`, the key cache, validation and claims.

What lies outside the model is passed in as parameters:

- the remote control plane (`ControlPlane`, one function per endpoint, each
  returning a reply, or `None` when the HTTP client throws before any
  response arrives);
- the JSON parser and the rendering of non-string tokens;
- the agent installer;
- the clock (a `nat` in seconds), read at the freshness check, after a key
  fetch returns, and by the token library for its lifetime check;
- the key-document fetch;
- the per-entry key parser;
- the token library's check.

## Model

| member | source | states |
|---|---|---|
| `Strings.Split` | CloudflareProvisioner.Lib/Services/CloudflareApiService.cs:139 | the tunnel name splits into at least one piece; no piece contains '-'; joining the pieces with '-' gives back the name |
| `Strings.SplitJoin` | CloudflareProvisioner.Lib/Services/CloudflareApiService.cs:139 | splitting is the inverse of joining dash-free pieces, so the pieces are the only ones that rebuild the name |
| `CloudflareModels.NewDnsRecordRequest` | CloudflareProvisioner.Lib/Models/CloudflareModels.cs:64-80 | a fresh DNS request has TTL 1 (automatic), is proxied, and has null type, name and content |
| `CloudflareModels.NewOriginRequest` | CloudflareProvisioner.Lib/Models/CloudflareModels.cs:156-175 | fresh origin settings have every timeout and count at 0 and an empty proxy address |
| `CloudflareModels.NewWarpRouting` | CloudflareProvisioner.Lib/Models/CloudflareModels.cs:195-199 | a fresh warp-routing block is enabled |
| `CloudflareModels.NewTunnelConfigRequest` | CloudflareProvisioner.Lib/Models/CloudflareModels.cs:177-193 | a fresh configuration update has version 1, source "cloudflare", and no tunnel id or config |
| `CloudflareModels.NewAccessApplicationRequest` | CloudflareProvisioner.Lib/Models/CloudflareAccessApplicationRequest.cs:3-9 | a fresh application request is "self_hosted" with "24h" sessions and has no name or domain |
| `CloudflareModels.NewAccessPolicyRequest` | CloudflareProvisioner.Lib/Models/CloudflareAccessPolicyRequest.cs:3-9 | a fresh policy request is "Service Token Policy", precedence the integer 1, decision "non_identity", and includes exactly one everyone=true matcher |
| `CloudflareApi.GetTunnelCname` | CloudflareProvisioner.Lib/Services/CloudflareApiService.cs:43-47 | the CNAME is the tunnel id followed by ".cfargotunnel.com", for every id |
| `CloudflareApi.CnameIdentifiesTunnel` | CloudflareProvisioner.Lib/Services/CloudflareApiService.cs:43-47 | the id can be read back from the CNAME, so two tunnels share a CNAME only if their ids are equal |
| `CloudflareApi.DeviceHostnameInjective` | CloudflareProvisioner.Lib/Services/CloudflareApiService.cs:593 | `serial.domain` is never empty, and distinct serials get distinct hostnames |
| `CloudflareApi.TunnelHostname` | CloudflareProvisioner.Lib/Services/CloudflareApiService.cs:136-148 | a non-empty hostname is used unchanged; a null or empty one becomes `<label>.domain`, where the label is the whole name when it has no '-' |
| `CloudflareApi.DefaultHostnameIsSecondPiece` | CloudflareProvisioner.Lib/Services/CloudflareApiService.cs:139-143 | with no hostname and a '-' in the name, the label is exactly the text from the first '-' up to the next '-' or the end; later pieces are ignored |
| `CloudflareApi.TunnelRequestFor` | CloudflareProvisioner.Lib/Services/CloudflareApiService.cs:150-168 | the create-tunnel body names the tunnel and has exactly two rules: hostname to http://127.0.0.1:5580, then the no-hostname http_status:404 catch-all, last |
| `CloudflareApi.DnsRequestFor` | CloudflareProvisioner.Lib/Services/CloudflareApiService.cs:269-276 | the DNS body is type CNAME, name = hostname, content = the tunnel CNAME, TTL 1, proxied |
| `CloudflareApi.DnsRequestKeepsDefaults` | CloudflareProvisioner.Lib/Services/CloudflareApiService.cs:269-276 | the explicit TTL and proxied settings only repeat the type's defaults; the body differs from a fresh one in type, name and content only |
| `CloudflareApi.ConfigRequestFor` | CloudflareProvisioner.Lib/Services/CloudflareApiService.cs:612-632 | the routing update carries the tunnel id, default version 1 and source "cloudflare", and two entries: hostname to the service address, then the catch-all; there is no warp-routing block and there are no origin settings |
| `CloudflareApi.AppRequestFor` | CloudflareProvisioner.Lib/Services/CloudflareApiService.cs:467-471 | the application body sets name and domain and keeps the default type and session length |
| `CloudflareApi.PolicyRequestFor` | CloudflareProvisioner.Lib/Services/CloudflareApiService.cs:496-506 | the policy body's include list is exactly one service-token entry; name, precedence and decision keep their defaults |
| `CloudflareApi.Unwrap` | CloudflareProvisioner.Lib/Services/CloudflareApiService.cs:185-192 | tunnel creation (and DNS creation, :295-300, and the routing update, :449-454) fails iff the HTTP client throws, the envelope does not deserialise, success is false or the result is null; the error is a transport error exactly when the client threw, an undecodable body is a malformed response, and a rejected envelope reports status and raw body |
| `CloudflareApi.UnwrapIgnoresStatus` | CloudflareProvisioner.Lib/Services/CloudflareApiService.cs:447-454 | these three rules never look at the HTTP status: the same body is accepted or refused whatever the status |
| `CloudflareApi.Carried` | CloudflareProvisioner.Lib/Services/CloudflareApiService.cs:295-300 | an accepted tunnel or DNS reply yields the envelope's result unchanged |
| `CloudflareApi.TokenOf` | CloudflareProvisioner.Lib/Services/CloudflareApiService.cs:217-226 | the token fetch fails on a non-2xx status before the body is deserialised, then on an undecodable envelope (a malformed response), success false, or a null or empty token (a rejection with status and body); a transport error is reported exactly when the client threw; otherwise it returns the token |
| `CloudflareApi.RawBodyOf` | CloudflareProvisioner.Lib/Services/CloudflareApiService.cs:477-480 | application creation (and policy creation, :512-514) fails only when the HTTP client throws (reported as a transport error, and only then) or on a non-2xx status, and returns the raw body unread |
| `CloudflareApi.TokenRuleRefinesEnvelope` | CloudflareProvisioner.Lib/Services/CloudflareApiService.cs:217-226 | every token the token fetch accepts also passes the envelope rule of tunnel and DNS creation, which carries the same token |
| `CloudflareApi.StatusSeparatesTokenRule` | CloudflareProvisioner.Lib/Services/CloudflareApiService.cs:217-220 | a successful envelope with a non-empty token under status 500 passes the envelope rule but fails the token fetch, reporting status and body |
| `CloudflareApi.RawBodyIgnoresBody` | CloudflareProvisioner.Lib/Services/CloudflareApiService.cs:477-478 | application and policy creation accept or refuse a reply by its status alone, whatever body it carries |
| `CloudflareApi.ApplicationIdOf` | CloudflareProvisioner.Lib/Services/CloudflareApiService.cs:640 | the id is found iff the body parses to an object whose `result` is an object holding `id`; a string id is returned as is, JSON null as "", and any other token as the library renders it; every failure is a malformed response carrying the body |
| `Provisioning.ProvisionClient` | CloudflareProvisioner.Lib/Services/CloudflareApiService.cs:589-661 | steps are attempted in the fixed order, each at most once; every attempted step but the last succeeded; the run completes iff all eight steps succeed, and a failed run stopped at its first failing step and reports that step's own error unchanged |
| `Provisioning.StepFailure` | CloudflareProvisioner.Lib/Services/CloudflareApiService.cs:589-661 | the error a failing step throws is its acceptance rule's error, or the installer's; only the install step reports an agent-install failure |
| `Provisioning.ProvisionTunnelInputs` | CloudflareProvisioner.Lib/Services/CloudflareApiService.cs:592-632 | the tunnel is named after the serial and routes `serial.domain` unchanged; the first reply's tunnel id feeds the token fetch, the DNS CNAME `<id>.cfargotunnel.com` and the routing update |
| `Provisioning.ProvisionAccessInputs` | CloudflareProvisioner.Lib/Services/CloudflareApiService.cs:635-645 | the application is named after the serial on `serial.domain`; the policy is attached to the id read from the application body and admits the service token; the agent gets the tunnel id and the fetched token |
| `Provisioning.ProvisionRecord` | CloudflareProvisioner.Lib/Services/CloudflareApiService.cs:648-660 | a completed run reports the serial, `serial.domain`, the created tunnel's id and token, the DNS and configuration results the control plane returned, the raw application and policy bodies, and is active |
| `JwtValidation.UsableKeys` | CloudflareProvisioner.Lib/Services/JwtValidationService.cs:100-116 | the kept keys all have a key type, each comes from some entry, every entry that parses to a typed key is kept, and no more keys than entries are kept |
| `JwtValidation.UsableKeysAppend` | CloudflareProvisioner.Lib/Services/JwtValidationService.cs:101-116 | each entry is judged on its own: the keys kept from a concatenation are the keys kept from each part, in document order |
| `JwtValidation.UsableKeysSingle` | CloudflareProvisioner.Lib/Services/JwtValidationService.cs:103-115 | one entry contributes its key iff it parses (no exception) to a key with a non-empty type |
| `JwtValidation.KeyEntries` | CloudflareProvisioner.Lib/Services/JwtValidationService.cs:92-98 | the entries are present iff the document is an object whose `keys` member is an array, and are then exactly that array's items, in order |
| `JwtValidation.GetSigningKeys` | CloudflareProvisioner.Lib/Services/JwtValidationService.cs:76-134 | a fresh cache (keys held, clock before expiry) answers alone and is unchanged; a keys array replaces the cache with the usable keys until 10 minutes after the clock reading taken once the fetch returned; an object without one yields no keys and leaves the cache; a failed fetch or a non-object document yields the cached keys or none, leaving the cache |
| `JwtValidation.InitialWellFormed` | CloudflareProvisioner.Lib/Services/JwtValidationService.cs:16-26 | a new service holds no keys and has the initial expiry, which satisfies the cache invariant |
| `JwtValidation.LookupPreservesWellFormed` | CloudflareProvisioner.Lib/Services/JwtValidationService.cs:118-122 | keys are held exactly when the expiry has moved past the initial one, and every held or handed-out key has a key type: kept by every lookup |
| `JwtValidation.RefreshServesTenMinutes` | CloudflareProvisioner.Lib/Services/JwtValidationService.cs:78-85 | after a refresh, every lookup until ten minutes after the fetch returned gets the refreshed keys and changes nothing, whatever a fetch would return |
| `JwtValidation.FailedFetchServesStaleKeys` | CloudflareProvisioner.Lib/Services/JwtValidationService.cs:126-132 | after a refresh, a failed fetch at any time still returns the refreshed keys and leaves the cache alone |
| `JwtValidation.ParametersFor` | CloudflareProvisioner.Lib/Services/JwtValidationService.cs:50-60 | the issuer must be `https://<team>.cloudflareaccess.com`; audience is checked iff one is configured; lifetime and signature are always required; the looked-up keys are used |
| `JwtValidation.ValidateJwt` | CloudflareProvisioner.Lib/Services/JwtValidationService.cs:32-71 | a null or empty token is refused with no key lookup and no state change; otherwise it is accepted iff the key set is non-empty and the library, at its own clock reading taken after the lookup, returns a JWT, which is then the validated token; a library exception is a refusal |
| `JwtValidation.FetchFailureKeepsAccepting` | CloudflareProvisioner.Lib/Services/JwtValidationService.cs:126-132 | with the endpoint unreachable, a token that the cached keys validate at the library's clock reading is accepted, however stale the cache |
| `JwtValidation.NoKeysRejectsAll` | CloudflareProvisioner.Lib/Services/JwtValidationService.cs:44-47 | with no cached key set and the endpoint unreachable, every token is refused |
| `JwtValidation.EmptyRefreshRejectsUntilExpiry` | CloudflareProvisioner.Lib/Services/JwtValidationService.cs:81-83 | an empty cached key set counts as fresh: until it expires every token is refused and nothing is fetched |
| `JwtValidation.ClaimMap` | CloudflareProvisioner.Lib/Services/JwtValidationService.cs:144-147 | the dictionary's keys are exactly the claim types present, and each maps to the value of the last claim of that type |
| `JwtValidation.ExtractClaims` | CloudflareProvisioner.Lib/Services/JwtValidationService.cs:139-150 | a null token gives the empty dictionary; otherwise each claim type maps to the value of its last occurrence |

Behaviour of the code worth noting:

- The create-tunnel body routes the hostname to the fixed placeholder
  `http://127.0.0.1:5580`, not to the service address. Only the later routing
  update uses the service address.
- Application and policy creation check only the HTTP status. The token fetch
  checks the status, the envelope and that the token is non-empty. Only tunnel
  creation, DNS creation and the routing update use the `success` and
  non-null `result` rule.
- The freshness check and the swap of the key cache are two separate critical
  sections, so no atomic check-then-refresh is claimed.
- `ValidateJwt` returns a boolean and the validated token. Claims come from the
  separate `ExtractClaims`.

## Left out

- HTTP transport, URLs, the bearer header and console logging are left out.
  Each endpoint is a function of the request body that returns a reply, or
  `None` when the HTTP client throws; that case, and only that case, is
  reported as `TransportError`.
- JSON serialisation of request bodies and deserialisation of envelopes are
  left out. A reply carries its decoded envelope, or `None` when the library
  throws or yields null; both cases are reported as `MalformedResponse`.
- `InstallCloudflaredService` (file writes and process launches) is one
  boolean step: it succeeds, or it throws.
- `CloudflaredService.cs` is not part of this model: it only manages processes
  and checks files.
- Both middleware files are not part of this model. Their live code forwards
  every request, and the checking logic is commented out or disabled under
  `#if DEBUG`.
- `Program.cs` is not part of this model. It is an interactive console loop.
- `GetDnsRecordsAsync`, `GetPublishedApplicationRoutesAsync`,
  `CreatePublishedApplicationRouteAsync`, `GetTunnelConfigAsync` and
  `GetAccessApplicationAsync` are left out. They only check the status and
  return the raw body, and the workflow does not call them.
- Locking and concurrency in `GetSigningKeys` are left out. The model runs
  lookups one after another.
- Timestamps (`CreatedAt`, `created_at`) are left out. `DateTime.UtcNow` is a
  `nat` clock in seconds, and `DateTime.MinValue` is 0.
- Overflow of `now + 10 minutes` near `DateTime.MaxValue` is not modelled.
- Null strings in replies (a missing tunnel id, for instance) are not told
  apart from the empty string. A null tunnel name passed to `CreateTunnelAsync`
  with no hostname throws in `Split`; the model's tunnel name is always a
  string.
- Null request inputs are left out. A null `serviceAddress` (written into the
  routing update at CloudflareApiService.cs:623) or `serviceTokenId` (written
  into the policy include at :502) is serialised as JSON `null`. The model's
  inputs are always strings, so it sends `Some(serviceAddress)` and
  `ServiceToken(serviceTokenId)` with a string.
- Signature, lifetime, issuer and audience checking belong to the token
  library, as `verify`, together with its clock-skew allowance.
- Parsing a published key belongs to the key library, as `parseKey`, where
  `None` means the constructor threw.
- The `keys == null` test in `ValidateJwt` cannot be taken, because
  `GetSigningKeys` never returns null. Only the empty test is modelled.
- `CloudflareApi.ApplicationIdOf`: an id that is a number, boolean, object or
  array is returned as the JSON library renders it (`renderJson`). The model
  does not fix that text.
- `CloudflareApi.Unwrap`, `CloudflareApi.TokenOf` and `CloudflareApi.RawBodyOf`:
  every rejection is a `RemoteApiError` holding the HTTP status and the raw
  body. The source's messages hold the status only for the token fetch's
  status check (CloudflareApiService.cs:219) and the routing update (:451).
  Tunnel creation (:189), the token's envelope check (:224), DNS creation
  (:297), application creation (:478) and policy creation (:513) report only
  the body. The model does not fix the message text.
- `JwtValidation.GetSigningKeys`: the clock reading taken after the fetch
  returns (`completedAt`, JwtValidationService.cs:121) is any `nat`. The model
  does not require it to be at or after the reading of the freshness check
  (:81), because `DateTime.UtcNow` is not promised to be monotonic.
- The `errors` and `messages` lists of the configuration reply are dropped,
  because nothing reads them.
- No remote state beyond the trace of attempted steps is modelled. The source
  has no rollback and no idempotency check.
