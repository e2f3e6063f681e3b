/** Validation of Cloudflare Access assertions against the team's signing
    keys, and the cache of those keys.

    The service's mutable state, the cached key set and its expiry, is the
    `KeyCache` value threaded through `GetSigningKeys`. The clock is a
    parameter counting seconds. Parsing one published key and checking a
    token's signature and lifetime are library code, passed in as functions.
 */
module JwtValidation {
  import opened Results
  import opened JsonValue

  /** How long a fetched key set is trusted: ten minutes. */
  const CacheTimeout: nat := 600

  /** A parsed signing key; `kty` is its key type ("" when absent). */
  datatype SigningKey = SigningKey(kty: string, kid: string, document: Json)

  /** The cached key set (`None` until a refresh succeeds) and the instant
      from which it is stale. */
  datatype KeyCache = KeyCache(cached: Option<seq<SigningKey>>, expiry: nat)

  /** The state of a new service: no keys, and an expiry (`DateTime.MinValue`)
      that no clock reading precedes. */
  const InitialCache := KeyCache(None, 0)

  /** The outcome of requesting the team's key document: the request or the
      text-to-JSON parse failed, or the document parsed. `completedAt` is the
      clock once the awaited request has returned, which is the reading a
      refresh dates its expiry from. */
  datatype KeyFetch = FetchFailed | Fetched(document: Json, completedAt: nat)

  /** The keys handed to the validator, and the cache afterwards. */
  datatype KeyLookup = KeyLookup(keys: seq<SigningKey>, cache: KeyCache)

  /** The cache answers without fetching: it holds a key set, possibly an
      empty one, and the clock has not reached its expiry. */
  predicate IsFresh(cache: KeyCache, now: nat) {
    cache.cached.Some? && now < cache.expiry
  }

  /** The keys kept from the entries of a key document, in document order: an
      entry that fails to parse, or parses to a key without a key type, is
      skipped. */
  function UsableKeys(entries: seq<Json>, parseKey: Json -> Option<SigningKey>): (keys: seq<SigningKey>)
    ensures |keys| <= |entries|
    ensures forall k | k in keys :: k.kty != ""
    ensures forall k | k in keys :: exists i | 0 <= i < |entries| :: parseKey(entries[i]) == Some(k)
    ensures forall i | 0 <= i < |entries| && parseKey(entries[i]).Some? && parseKey(entries[i]).value.kty != ""
              :: parseKey(entries[i]).value in keys
  {
    if |entries| == 0 then []
    else
      var rest := UsableKeys(entries[1..], parseKey);
      assert forall k | k in rest :: exists i | 0 <= i < |entries| :: parseKey(entries[i]) == Some(k) by {
        forall k | k in rest ensures exists i | 0 <= i < |entries| :: parseKey(entries[i]) == Some(k) {
          var j :| 0 <= j < |entries[1..]| && parseKey(entries[1..][j]) == Some(k);
          assert entries[j + 1] == entries[1..][j];
        }
      }
      assert forall i | 1 <= i < |entries| :: entries[i] == entries[1..][i - 1];
      match parseKey(entries[0])
      case Some(key) => if key.kty != "" then [key] + rest else rest
      case None => rest
  }

  /** Each entry is judged on its own: the keys kept from two runs of entries
      are the keys kept from each, in order. */
  lemma {:induction false} UsableKeysAppend(a: seq<Json>, b: seq<Json>, parseKey: Json -> Option<SigningKey>)
    ensures UsableKeys(a + b, parseKey) == UsableKeys(a, parseKey) + UsableKeys(b, parseKey)
  {
    if |a| == 0 {
      assert a + b == b;
    } else {
      assert (a + b)[1..] == a[1..] + b;
      UsableKeysAppend(a[1..], b, parseKey);
    }
  }

  /** What one entry contributes: its key, when it parses to a key with a key
      type, and nothing otherwise. With `UsableKeysAppend` this fixes the
      kept keys of any document. */
  lemma UsableKeysSingle(entry: Json, parseKey: Json -> Option<SigningKey>)
    ensures UsableKeys([entry], parseKey)
         == if parseKey(entry).Some? && parseKey(entry).value.kty != "" then [parseKey(entry).value] else []
  {
  }

  /** The entries of a document's `keys` member, when it is an array
      (`json["keys"] as JArray`). */
  function KeyEntries(document: Json): (entries: Option<seq<Json>>)
    ensures entries.Some? <==> document.JObject? && "keys" in document.fields && document.fields["keys"].JArray?
    ensures entries.Some? ==> entries.value == document.fields["keys"].items
  {
    if document.JObject? && "keys" in document.fields && document.fields["keys"].JArray?
    then Some(document.fields["keys"].items)
    else None
  }

  /** `GetSigningKeys`: a fresh cache answers alone. Otherwise the fetched
      document decides: a document whose `keys` array parses replaces the
      cache with the usable keys for ten minutes from the moment the fetch
      returned; an object without a `keys`
      array yields no keys and leaves the cache alone; a failed fetch, or a
      document that is not an object, falls back to the cached keys, however
      old, or to none. */
  function GetSigningKeys(cache: KeyCache, now: nat, fetch: KeyFetch, parseKey: Json -> Option<SigningKey>): (r: KeyLookup)
    ensures IsFresh(cache, now) ==> r == KeyLookup(cache.cached.value, cache)
    ensures !IsFresh(cache, now) && fetch.Fetched? && KeyEntries(fetch.document).Some? ==>
              && r.keys == UsableKeys(KeyEntries(fetch.document).value, parseKey)
              && r.cache == KeyCache(Some(r.keys), fetch.completedAt + CacheTimeout)
    ensures !IsFresh(cache, now) && fetch.Fetched? && fetch.document.JObject? && KeyEntries(fetch.document).None? ==>
              r == KeyLookup([], cache)
    ensures !IsFresh(cache, now) && (fetch.FetchFailed? || !fetch.document.JObject?) ==>
              r == KeyLookup(cache.cached.GetOr([]), cache)
  {
    if IsFresh(cache, now) then KeyLookup(cache.cached.value, cache)
    else if fetch.FetchFailed? || !fetch.document.JObject? then KeyLookup(cache.cached.GetOr([]), cache)
    else
      var entries := KeyEntries(fetch.document);
      if entries.None? then KeyLookup([], cache)
      else
        var keys := UsableKeys(entries.value, parseKey);
        KeyLookup(keys, KeyCache(Some(keys), fetch.completedAt + CacheTimeout))
  }

  /** What every reachable cache satisfies: it has keys exactly when its
      expiry has moved past the initial one, and every cached key has a key
      type. */
  predicate WellFormed(cache: KeyCache) {
    && (cache.cached.Some? <==> cache.expiry > 0)
    && (cache.cached.Some? ==> forall k | k in cache.cached.value :: k.kty != "")
  }

  /** A new service's cache is well formed. */
  lemma InitialWellFormed()
    ensures WellFormed(InitialCache)
  {
  }

  /** Every lookup keeps the cache well formed; the keys handed out always
      have a key type. */
  lemma LookupPreservesWellFormed(cache: KeyCache, now: nat, fetch: KeyFetch, parseKey: Json -> Option<SigningKey>)
    requires WellFormed(cache)
    ensures WellFormed(GetSigningKeys(cache, now, fetch, parseKey).cache)
    ensures forall k | k in GetSigningKeys(cache, now, fetch, parseKey).keys :: k.kty != ""
  {
  }

  /** After a refresh begun at `refreshedAt` whose fetch returned at
      `fetchedAt`, every lookup until ten minutes after `fetchedAt` returns the
      refreshed keys and changes nothing, whatever a fetch would have
      returned. */
  lemma RefreshServesTenMinutes(cache: KeyCache, refreshedAt: nat, document: Json, fetchedAt: nat,
                                parseKey: Json -> Option<SigningKey>, now: nat, fetch: KeyFetch)
    requires !IsFresh(cache, refreshedAt)
    requires KeyEntries(document).Some?
    requires now < fetchedAt + CacheTimeout
    ensures var refreshed := GetSigningKeys(cache, refreshedAt, Fetched(document, fetchedAt), parseKey);
      GetSigningKeys(refreshed.cache, now, fetch, parseKey) == refreshed
  {
  }

  /** Once a refresh has succeeded, a failed fetch never loses the keys: at
      any time the refreshed set is still handed out, expired or not. */
  lemma FailedFetchServesStaleKeys(cache: KeyCache, refreshedAt: nat, document: Json, fetchedAt: nat,
                                   parseKey: Json -> Option<SigningKey>, now: nat)
    requires !IsFresh(cache, refreshedAt)
    requires KeyEntries(document).Some?
    ensures var refreshed := GetSigningKeys(cache, refreshedAt, Fetched(document, fetchedAt), parseKey);
      GetSigningKeys(refreshed.cache, now, FetchFailed, parseKey) == refreshed
  {
  }

  // ---- validation -----------------------------------------------------------

  /** The team name and, when not empty, the required audience. */
  datatype JwtSettings = JwtSettings(teamName: string, accessAud: string)

  /** The checks handed to the token library. */
  datatype ValidationParameters = ValidationParameters(
    validateIssuer: bool,
    validIssuer: string,
    validateAudience: bool,
    validAudience: string,
    validateLifetime: bool,
    requireSignedTokens: bool,
    issuerSigningKeys: seq<SigningKey>)

  datatype Claim = Claim(claimType: string, value: string)

  /** A token the library accepted, with its claims in token order. */
  datatype Jwt = Jwt(claims: seq<Claim>)

  /** What the token library does with a token: throws (`Threw`), or returns
      the validated token, which is `None` when it is not a JWT. */
  datatype Verdict = Threw | Validated(token: Option<Jwt>)

  /** The answer of `ValidateJwt` (`accepted`, the `validatedToken` out
      parameter) and the key cache afterwards. */
  datatype Validation = Validation(accepted: bool, token: Option<Jwt>, cache: KeyCache)

  /** The parameters `ValidateJwt` builds: the issuer must be the team's
      Access domain, the audience is checked only when one is configured, the
      lifetime and a signature are always required, and the keys are the ones
      looked up. */
  function ParametersFor(settings: JwtSettings, keys: seq<SigningKey>): (p: ValidationParameters)
    ensures p.validateIssuer && p.validIssuer == "https://" + settings.teamName + ".cloudflareaccess.com"
    ensures p.validateAudience <==> settings.accessAud != ""
    ensures p.validAudience == settings.accessAud
    ensures p.validateLifetime && p.requireSignedTokens
    ensures p.issuerSigningKeys == keys
  {
    ValidationParameters(
      validateIssuer := true,
      validIssuer := "https://" + settings.teamName + ".cloudflareaccess.com",
      validateAudience := settings.accessAud != "",
      validAudience := settings.accessAud,
      validateLifetime := true,
      requireSignedTokens := true,
      issuerSigningKeys := keys)
  }

  /** `ValidateJwt`: a missing or empty token is refused before any key
      lookup; otherwise the token is accepted exactly when the lookup yields
      some key and the library validates the token against the parameters as
      a JWT. Nothing escapes as an exception: every failure is a refusal.
      `now` is the clock at the freshness check; `verifiedAt` is the library's
      own reading for the lifetime check, taken once the lookup has returned. */
  function ValidateJwt(settings: JwtSettings, jwt: Option<string>, cache: KeyCache, now: nat, fetch: KeyFetch,
                       verifiedAt: nat, parseKey: Json -> Option<SigningKey>,
                       verify: (string, ValidationParameters, nat) -> Verdict): (v: Validation)
    ensures jwt.None? || jwt.value == "" ==> v == Validation(false, None, cache)
    ensures jwt.Some? && jwt.value != "" ==> v.cache == GetSigningKeys(cache, now, fetch, parseKey).cache
    ensures v.accepted <==> v.token.Some?
    ensures v.accepted <==>
      && jwt.Some? && jwt.value != ""
      && var keys := GetSigningKeys(cache, now, fetch, parseKey).keys;
         && |keys| > 0
         && var verdict := verify(jwt.value, ParametersFor(settings, keys), verifiedAt);
            verdict.Validated? && verdict.token.Some? && v.token == verdict.token
  {
    if jwt.None? || jwt.value == "" then Validation(false, None, cache)
    else
      var lookup := GetSigningKeys(cache, now, fetch, parseKey);
      if |lookup.keys| == 0 then Validation(false, None, lookup.cache)
      else match verify(jwt.value, ParametersFor(settings, lookup.keys), verifiedAt)
        case Threw => Validation(false, None, lookup.cache)
        case Validated(token) => Validation(token.Some?, token, lookup.cache)
  }

  /** Fail-open: when the key endpoint is unreachable, a token that the
      previously cached keys validate is still accepted, however stale the
      cache. */
  lemma FetchFailureKeepsAccepting(settings: JwtSettings, jwt: string, keys: seq<SigningKey>, expiry: nat, now: nat,
                                   verifiedAt: nat, parseKey: Json -> Option<SigningKey>,
                                   verify: (string, ValidationParameters, nat) -> Verdict)
    requires jwt != "" && |keys| > 0
    requires verify(jwt, ParametersFor(settings, keys), verifiedAt).Validated?
    requires verify(jwt, ParametersFor(settings, keys), verifiedAt).token.Some?
    ensures ValidateJwt(settings, Some(jwt), KeyCache(Some(keys), expiry), now, FetchFailed, verifiedAt, parseKey, verify).accepted
  {
  }

  /** Fail-closed: with no key set ever fetched and the endpoint unreachable,
      every token is refused, whatever the library would say. */
  lemma NoKeysRejectsAll(settings: JwtSettings, jwt: Option<string>, expiry: nat, now: nat,
                         verifiedAt: nat, parseKey: Json -> Option<SigningKey>,
                         verify: (string, ValidationParameters, nat) -> Verdict)
    ensures !ValidateJwt(settings, jwt, KeyCache(None, expiry), now, FetchFailed, verifiedAt, parseKey, verify).accepted
  {
  }

  /** A refresh that kept no key is cached like any other: until it expires
      every token is refused without another fetch. */
  lemma EmptyRefreshRejectsUntilExpiry(settings: JwtSettings, jwt: Option<string>, expiry: nat, now: nat, fetch: KeyFetch,
                                       verifiedAt: nat, parseKey: Json -> Option<SigningKey>,
                                       verify: (string, ValidationParameters, nat) -> Verdict)
    requires now < expiry
    ensures var v := ValidateJwt(settings, jwt, KeyCache(Some([]), expiry), now, fetch, verifiedAt, parseKey, verify);
      !v.accepted && v.cache == KeyCache(Some([]), expiry)
  {
  }

  // ---- claims ---------------------------------------------------------------

  /** The claim at `i` is the last one of its type. */
  predicate LastOfType(claims: seq<Claim>, i: int)
    requires 0 <= i < |claims|
  {
    forall j | i < j < |claims| :: claims[j].claimType != claims[i].claimType
  }

  /** The claim types present in `claims`. */
  function ClaimTypes(claims: seq<Claim>): set<string> {
    set i | 0 <= i < |claims| :: claims[i].claimType
  }

  lemma ClaimTypesSnoc(init: seq<Claim>, last: Claim)
    ensures ClaimTypes(init + [last]) == ClaimTypes(init) + {last.claimType}
  {
    var claims := init + [last];
    assert forall i | 0 <= i < |init| :: claims[i] == init[i];
    assert claims[|init|] == last;
    forall t | t in ClaimTypes(claims) ensures t in ClaimTypes(init) + {last.claimType} {
      var i :| 0 <= i < |claims| && claims[i].claimType == t;
      if i < |init| {
        assert init[i].claimType == t;
      }
    }
  }

  lemma LastOfTypeSnoc(init: seq<Claim>, last: Claim, i: int)
    requires 0 <= i < |init|
    requires LastOfType(init + [last], i)
    ensures LastOfType(init, i)
    ensures (init + [last])[i] == init[i] && init[i].claimType != last.claimType
  {
    var claims := init + [last];
    assert claims[|init|] == last;
    forall j | i < j < |init| ensures init[j].claimType != init[i].claimType {
      assert claims[j] == init[j];
    }
  }

  /** Claims folded into a dictionary in order, a later claim of a type
      overwriting an earlier one. */
  function ClaimMap(claims: seq<Claim>): (m: map<string, string>)
    ensures m.Keys == ClaimTypes(claims)
    ensures forall i | 0 <= i < |claims| && LastOfType(claims, i) :: m[claims[i].claimType] == claims[i].value
  {
    if |claims| == 0 then map[]
    else
      var init := claims[..|claims| - 1];
      var last := claims[|claims| - 1];
      assert claims == init + [last];
      ClaimTypesSnoc(init, last);
      var m := ClaimMap(init);
      var r := m[last.claimType := last.value];
      assert forall i | 0 <= i < |claims| && LastOfType(claims, i) :: r[claims[i].claimType] == claims[i].value by {
        forall i | 0 <= i < |claims| && LastOfType(claims, i) ensures r[claims[i].claimType] == claims[i].value {
          if i < |init| {
            LastOfTypeSnoc(init, last, i);
          }
        }
      }
      r
  }

  /** `ExtractClaims`: no claims for a null token; otherwise each claim type
      present maps to the value of its last occurrence. */
  function ExtractClaims(token: Option<Jwt>): (m: map<string, string>)
    ensures token.None? ==> m == map[]
    ensures token.Some? ==> m.Keys == ClaimTypes(token.value.claims)
    ensures token.Some? ==> forall i | 0 <= i < |token.value.claims| && LastOfType(token.value.claims, i)
                              :: m[token.value.claims[i].claimType] == token.value.claims[i].value
  {
    match token
    case None => map[]
    case Some(t) => ClaimMap(t.claims)
  }
}
