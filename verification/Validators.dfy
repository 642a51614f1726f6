/** The validators behind the service grants of the token endpoint. */
module Validators {
  import opened Basics
  import opened Settings
  import opened Clients
  import opened Entities

  /** A decoded introspection answer; `audience` ends in the client ID after its last colon. */
  datatype Introspection = Introspection(active: string, scope: seq<string>, audience: string)

  datatype IAMTokenClaims = IAMTokenClaims(clientID: string, expiresAt: int, issuedAt: int, notBefore: int)

  /** What a request carries, with the answers of the introspection endpoint and of the JWT verifier. */
  datatype Evidence = Evidence(
    scope: Option<seq<string>>,
    basic: Option<(string, string)>,
    bearer: string,
    introspection: Option<Introspection>,
    claims: Option<IAMTokenClaims>)

  datatype Validator = Basic | Pfas | Iam | Noop

  datatype Verdict =
    | Valid(clientID: string, clientSecret: Option<string>)
    | Invalid
    | Refused(code: string)

  const NO_TOKEN := "no_token"
  const INVALID_TOKEN := "invalid_token"
  const INVALID_SCOPE := "invalid_scope"
  const MALFORMED := "malformed"

  /** `None` when the grant needs a configuration that is missing. */
  function NewTokenValidator(grantType: string, pfasConfigured: bool, iamConfigured: bool): Option<Validator> {
    if grantType == GRANT_TYPE_BASIC || grantType == GRANT_TYPE_CLIENT_CREDENTIALS then Some(Basic)
    else if grantType == GRANT_TYPE_PFAS then (if pfasConfigured then Some(Pfas) else None)
    else if grantType == GRANT_TYPE_IAM then (if iamConfigured then Some(Iam) else None)
    else Some(Noop)
  }

  /** The error for the claims of a verified IAM token at Unix time `now`, or `None`. */
  function ValidateIAMTokenClaims(claims: IAMTokenClaims, now: int): Option<string> {
    if IsBlank(claims.clientID) then Some(INVALID_TOKEN)
    else if claims.expiresAt == 0 || now >= claims.expiresAt then Some(INVALID_TOKEN)
    else if claims.notBefore != 0 && now < claims.notBefore then Some(INVALID_TOKEN)
    else if claims.issuedAt != 0 && now < claims.issuedAt then Some(INVALID_TOKEN)
    else None
  }

  /** The times at which a token is acceptable: from the later of its two optional starts until just before it expires. */
  ghost predicate InWindow(claims: IAMTokenClaims, now: int) {
    && now < claims.expiresAt
    && (forall start | start in {claims.notBefore, claims.issuedAt} - {0} :: start <= now)
  }

  /** Tokens are accepted on exactly one interval of time, and never without client ID or expiry. */
  lemma IAMTokensLiveOnOneInterval(claims: IAMTokenClaims, now: int, later: int)
    ensures ValidateIAMTokenClaims(claims, now).None? <==>
              !IsBlank(claims.clientID) && claims.expiresAt != 0 && InWindow(claims, now)
    ensures ValidateIAMTokenClaims(claims, now).None? && ValidateIAMTokenClaims(claims, later).None? ==>
              forall t | now <= t <= later :: ValidateIAMTokenClaims(claims, t).None?
    ensures ValidateIAMTokenClaims(claims, now).Some? && ValidateIAMTokenClaims(claims, later).None? && now <= later ==>
              forall t | t <= now :: ValidateIAMTokenClaims(claims, t).Some?
  {
    assert claims.notBefore != 0 ==> claims.notBefore in {claims.notBefore, claims.issuedAt} - {0};
    assert claims.issuedAt != 0 ==> claims.issuedAt in {claims.notBefore, claims.issuedAt} - {0};
  }

  function BasicCredentials(hash: Hash, ev: Evidence): Credentials
    requires ev.basic.Some?
  {
    Credentials(ev.basic.value.0, Some(hash(ev.basic.value.1)), ev.scope, GRANT_TYPE_CLIENT_CREDENTIALS)
  }

  function PfasCredentials(ev: Evidence): Credentials
    requires ev.introspection.Some?
  {
    Credentials(AfterLastColon(ev.introspection.value.audience), None, ev.scope, GRANT_TYPE_PFAS)
  }

  function IAMCredentials(claims: IAMTokenClaims): Credentials {
    Credentials(claims.clientID, None, None, GRANT_TYPE_IAM)
  }

  predicate TokenInactive(ev: Evidence) {
    ev.introspection.Some? && ev.introspection.value.active != "true"
  }

  /** Everything a PFAS token needs except being active. */
  predicate PfasVouches(clients: map<string, Client>, ev: Evidence) {
    && ev.bearer != "" && ev.introspection.Some?
    && ScopesCovered(ev.scope, ev.introspection.value.scope)
    && Admitted(clients, PfasCredentials(ev))
  }

  /** True when the validator accepts the evidence and says so with a valid result. */
  predicate Accepts(v: Validator, hash: Hash, clients: map<string, Client>, ev: Evidence, now: int) {
    match v
    case Basic => ev.basic.Some? && Admitted(clients, BasicCredentials(hash, ev))
    case Pfas => PfasVouches(clients, ev) && !TokenInactive(ev)
    case Iam =>
      && ev.bearer != "" && ev.claims.Some?
      && ValidateIAMTokenClaims(ev.claims.value, now).None?
      && Admitted(clients, IAMCredentials(ev.claims.value))
    case Noop => false
  }

  function AcceptedClient(v: Validator, hash: Hash, ev: Evidence): (string, Option<string>) {
    match v
    case Basic => if ev.basic.Some? then (ev.basic.value.0, Some(hash(ev.basic.value.1))) else ("", None)
    case Pfas => if ev.introspection.Some? then (PfasCredentials(ev).clientID, None) else ("", None)
    case Iam => if ev.claims.Some? then (ev.claims.value.clientID, None) else ("", None)
    case Noop => ("", None)
  }

  /** Validates what a request carries against the client store `store`. */
  method ValidateToken(v: Validator, store: CompositeClientStore, ev: Evidence, now: int) returns (r: Verdict)
    ensures r.Valid? <==> Accepts(v, store.hash, store.clients, ev, now)
    ensures r.Valid? ==> (r.clientID, r.clientSecret) == AcceptedClient(v, store.hash, ev)
    ensures r.Invalid? <==> v.Noop? || (v.Pfas? && TokenInactive(ev) && PfasVouches(store.clients, ev))
  {
    match v
    case Basic => r := ValidateBasic(store, ev);
    case Pfas => r := ValidatePfas(store, ev);
    case Iam => r := ValidateIAM(store, ev, now);
    case Noop => r := Invalid;
  }

  method ValidateBasic(store: CompositeClientStore, ev: Evidence) returns (r: Verdict)
    ensures !r.Invalid?
    ensures r.Valid? <==> Accepts(Basic, store.hash, store.clients, ev, 0)
    ensures r.Valid? ==> (r.clientID, r.clientSecret) == AcceptedClient(Basic, store.hash, ev)
  {
    if ev.basic.None? {
      return Refused(MALFORMED);
    }
    var (clientID, secret) := ev.basic.value;
    var hashedSecret := store.hash(secret);
    var refusal := store.ValidateCredentials(
      Credentials(clientID, Some(hashedSecret), ev.scope, GRANT_TYPE_CLIENT_CREDENTIALS));
    r := if refusal.Some? then Refused(refusal.value) else Valid(clientID, Some(hashedSecret));
  }

  method ValidatePfas(store: CompositeClientStore, ev: Evidence) returns (r: Verdict)
    ensures r.Refused? <==> !PfasVouches(store.clients, ev)
    ensures r.Valid? <==> Accepts(Pfas, store.hash, store.clients, ev, 0)
    ensures r.Valid? ==> (r.clientID, r.clientSecret) == AcceptedClient(Pfas, store.hash, ev)
  {
    if ev.bearer == "" {
      return Refused(NO_TOKEN);
    }
    if ev.introspection.None? {
      return Refused(INVALID_TOKEN);
    }
    var answer := ev.introspection.value;
    if ev.scope.Some? {
      var i := 0;
      while i < |ev.scope.value|
        invariant 0 <= i <= |ev.scope.value|
        invariant forall k | 0 <= k < i :: ev.scope.value[k] in answer.scope
      {
        if ev.scope.value[i] !in answer.scope {
          return Refused(INVALID_SCOPE);
        }
        i := i + 1;
      }
    }
    var clientID := AfterLastColon(answer.audience);
    var refusal := store.ValidateCredentials(Credentials(clientID, None, ev.scope, GRANT_TYPE_PFAS));
    if refusal.Some? {
      return Refused(refusal.value);
    }
    r := if answer.active == "true" then Valid(clientID, None) else Invalid;
  }

  method ValidateIAM(store: CompositeClientStore, ev: Evidence, now: int) returns (r: Verdict)
    ensures !r.Invalid?
    ensures r.Valid? <==> Accepts(Iam, store.hash, store.clients, ev, now)
    ensures r.Valid? ==> (r.clientID, r.clientSecret) == AcceptedClient(Iam, store.hash, ev)
  {
    if ev.bearer == "" {
      return Refused(NO_TOKEN);
    }
    if ev.claims.None? {
      return Refused(INVALID_TOKEN);
    }
    var claims := ev.claims.value;
    var stale := ValidateIAMTokenClaims(claims, now);
    if stale.Some? {
      return Refused(stale.value);
    }
    var refusal := store.ValidateCredentials(Credentials(claims.clientID, None, None, GRANT_TYPE_IAM));
    r := if refusal.Some? then Refused(refusal.value) else Valid(claims.clientID, None);
  }

  /** The validator that a grant reaches when its switch is on; `None` for a disabled grant. */
  function EnabledValidator(cfg: Config, grantType: string): Option<Validator> {
    if grantType == GRANT_TYPE_PFAS && !cfg.pfasGrant then None
    else if grantType == GRANT_TYPE_IAM && !cfg.iamGrant then None
    else NewTokenValidator(grantType, cfg.pfasGrant, cfg.iamGrant)
  }

  /** The client that a service grant authenticates, if it does. */
  function ServiceClient(cfg: Config, clients: map<string, Client>, grantType: string, ev: Evidence, now: int): Option<string>
  {
    var v := EnabledValidator(cfg, grantType);
    if v.Some? && Accepts(v.value, cfg.hash, clients, ev, now / NANOS) then Some(AcceptedClient(v.value, cfg.hash, ev).0) else None
  }

  /**
   * A service grant authenticates only a stored service client that lists the grant, through one of four
   * grant types. The PFAS grant must be on and every requested scope must be both in the active token and in
   * the client; the IAM grant must be on and the time inside the token's window; otherwise the presented
   * secret hashes to a stored one and every requested scope is the client's.
   */
  lemma ServiceGrantsAreEarned(cfg: Config, clients: map<string, Client>, grantType: string, ev: Evidence, now: int)
    requires ServiceClient(cfg, clients, grantType, ev, now).Some?
    ensures
      var id := ServiceClient(cfg, clients, grantType, ev, now).value;
      && id in clients && clients[id].isServiceClient
      && grantType in {GRANT_TYPE_BASIC, GRANT_TYPE_CLIENT_CREDENTIALS, GRANT_TYPE_PFAS, GRANT_TYPE_IAM}
      && (grantType == GRANT_TYPE_PFAS ==>
        && cfg.pfasGrant && GRANT_TYPE_PFAS in clients[id].grantTypes && ev.introspection.value.active == "true"
        && (ev.scope.Some? ==> forall s | s in ev.scope.value :: s in ev.introspection.value.scope && s in clients[id].scopes))
      && (grantType == GRANT_TYPE_IAM ==>
        && cfg.iamGrant && GRANT_TYPE_IAM in clients[id].grantTypes && InWindow(ev.claims.value, now / NANOS)
        && ev.claims.value.clientID == id && !IsBlank(id))
      && (grantType !in {GRANT_TYPE_PFAS, GRANT_TYPE_IAM} ==>
        && (GRANT_TYPE_CLIENT_CREDENTIALS in clients[id].grantTypes || GRANT_TYPE_BASIC in clients[id].grantTypes)
        && cfg.hash(ev.basic.value.1) in clients[id].secrets
        && (ev.scope.Some? ==> forall s | s in ev.scope.value :: s in clients[id].scopes))
  {
  }

  /** The client may use the grant for the requested scopes. */
  predicate MayUse(clients: map<string, Client>, id: string, grants: set<string>, scope: Option<seq<string>>) {
    && id in clients && clients[id].isServiceClient
    && (exists g :: g in grants && g in clients[id].grantTypes)
    && (scope.Some? ==> forall s | s in scope.value :: s in clients[id].scopes)
  }

  /** Good evidence by a client ID and secret. */
  predicate GoodBasic(cfg: Config, clients: map<string, Client>, ev: Evidence, id: string) {
    && ev.basic.Some? && ev.basic.value.0 == id && MayUse(clients, id, {"basic", "client_credentials"}, ev.scope)
    && cfg.hash(ev.basic.value.1) in clients[id].secrets
  }

  /** `id` is the last part of the audience, behind a colon if there is one. */
  ghost predicate LastPart(audience: string, id: string) {
    ':' !in id && (audience == id || exists front: string :: audience == front + ":" + id)
  }

  /** Good evidence by an introspected PFAS token. */
  ghost predicate GoodPfas(cfg: Config, clients: map<string, Client>, ev: Evidence, id: string) {
    && cfg.pfasGrant && ev.bearer != "" && ev.introspection.Some? && ev.introspection.value.active == "true"
    && LastPart(ev.introspection.value.audience, id) && MayUse(clients, id, {"pfas"}, ev.scope)
    && (ev.scope.Some? ==> forall s | s in ev.scope.value :: s in ev.introspection.value.scope)
  }

  /** Good evidence by a verified IAM token at the time `now`. */
  ghost predicate GoodIAM(cfg: Config, clients: map<string, Client>, ev: Evidence, id: string, now: int) {
    && cfg.iamGrant && ev.bearer != "" && ev.claims.Some? && ev.claims.value.clientID == id && !IsBlank(id)
    && ev.claims.value.expiresAt != 0 && InWindow(ev.claims.value, now / 1_000_000_000)
    && MayUse(clients, id, {"iam"}, None)
  }

  /** Good evidence for the grant type. */
  ghost predicate GoodEvidence(cfg: Config, clients: map<string, Client>, grantType: string, ev: Evidence, now: int, id: string) {
    || (grantType in {"basic", "client_credentials"} && GoodBasic(cfg, clients, ev, id))
    || (grantType == "pfas" && GoodPfas(cfg, clients, ev, id))
    || (grantType == "iam" && GoodIAM(cfg, clients, ev, id, now))
  }

  /** A service grant authenticates a client exactly on good evidence for its grant type. */
  lemma GoodEvidenceIsAccepted(cfg: Config, clients: map<string, Client>, grantType: string, ev: Evidence, now: int, id: string)
    ensures ServiceClient(cfg, clients, grantType, ev, now) == Some(id) <==> GoodEvidence(cfg, clients, grantType, ev, now, id)
  {
    if grantType in {"basic", "client_credentials"} {
      BasicIs(cfg, clients, grantType, ev, now, id);
    } else if grantType == "pfas" {
      PfasIs(cfg, clients, ev, now, id);
    } else if grantType == "iam" {
      IAMIs(cfg, clients, ev, now, id);
    }
  }

  lemma BasicIs(cfg: Config, clients: map<string, Client>, grantType: string, ev: Evidence, now: int, id: string)
    requires grantType in {"basic", "client_credentials"}
    ensures ServiceClient(cfg, clients, grantType, ev, now) == Some(id) <==> GoodBasic(cfg, clients, ev, id)
  {
    hide InWindow;
    if id in clients {
      GrantsAre(clients[id]);
    }
  }

  lemma GrantsAre(c: Client)
    ensures GrantListed(c, "client_credentials") <==> exists g :: g in {"basic", "client_credentials"} && g in c.grantTypes
    ensures GrantListed(c, "pfas") <==> exists g :: g in {"pfas"} && g in c.grantTypes
    ensures GrantListed(c, "iam") <==> exists g :: g in {"iam"} && g in c.grantTypes
  {
    assert "basic" in {"basic", "client_credentials"} && "client_credentials" in {"basic", "client_credentials"};
    assert "pfas" in {"pfas"} && "iam" in {"iam"};
  }

  lemma PfasIs(cfg: Config, clients: map<string, Client>, ev: Evidence, now: int, id: string)
    ensures ServiceClient(cfg, clients, "pfas", ev, now) == Some(id) <==> GoodPfas(cfg, clients, ev, id)
  {
    hide AfterLastColon, LastPart;
    if ev.introspection.Some? {
      LastPartIs(ev.introspection.value.audience, id);
      if id in clients {
        GrantsAre(clients[id]);
      }
    }
  }

  lemma {:induction false} LastPartIs(audience: string, id: string)
    ensures LastPart(audience, id) <==> AfterLastColon(audience) == id
  {
    var r := AfterLastColon(audience);
    if r != audience {
      assert audience == audience[..|audience| - |r| - 1] + ":" + r;
    }
    if LastPart(audience, id) {
      OnlyOneLastPart(audience, id, r);
    }
  }

  lemma OnlyOneLastPart(audience: string, a: string, b: string)
    requires LastPart(audience, a) && LastPart(audience, b)
    ensures a == b
  {
    LongerPartsHaveColons(audience, a, b);
    LongerPartsHaveColons(audience, b, a);
    assert a == audience[|audience| - |a|..] && b == audience[|audience| - |b|..];
  }

  lemma LongerPartsHaveColons(audience: string, a: string, b: string)
    requires LastPart(audience, a)
    requires |b| <= |audience| && audience[|audience| - |b|..] == b
    ensures |a| < |b| ==> ':' in b
  {
    if |a| < |b| {
      assert audience[|audience| - |a| - 1] == ':';
      assert b[|b| - |a| - 1] == ':';
    }
  }

  lemma IAMIs(cfg: Config, clients: map<string, Client>, ev: Evidence, now: int, id: string)
    ensures ServiceClient(cfg, clients, "iam", ev, now) == Some(id) <==> GoodIAM(cfg, clients, ev, id, now)
  {
    hide InWindow;
    if ev.claims.Some? {
      IAMTokensLiveOnOneInterval(ev.claims.value, now / NANOS, now / NANOS);
      if id in clients {
        GrantsAre(clients[id]);
      }
    }
  }

  /** "basic" and "client_credentials" are the same grant, and a grant type that is not known authenticates nobody. */
  lemma GrantTypesAreAliasedOrDead(cfg: Config, clients: map<string, Client>, grantType: string, ev: Evidence, now: int)
    ensures ServiceClient(cfg, clients, GRANT_TYPE_BASIC, ev, now) ==
            ServiceClient(cfg, clients, GRANT_TYPE_CLIENT_CREDENTIALS, ev, now)
    ensures grantType !in {GRANT_TYPE_BASIC, GRANT_TYPE_CLIENT_CREDENTIALS, GRANT_TYPE_PFAS, GRANT_TYPE_IAM} ==>
            ServiceClient(cfg, clients, grantType, ev, now).None?
  {
  }
}
