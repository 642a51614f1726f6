/**
 * The service as an object: handlers that change the stores step by step and compensate for failures. Every handler is
 * proved to take the service from one world to the next exactly as its function in Protocol says.
 */
module Service {
  import opened Basics
  import opened Settings
  import opened Entities
  import opened Clients
  import opened Validators
  import opened Traces
  import opened Protocol
  import opened Invariants
  import opened Preservation
  import opened Effects
  import opened Stores

  /** What a handler answers; every refusal is `Failed`. */
  datatype Response =
    | Failed
    | NoContent
    | LoginStarted
    | SignedOut(location: string)
    | Redirect(url: Url)
    | AccessToken(token: string, expiresIn: int)
    | Inactive
    | SessionInfo(session: Session, secondsToLive: int)

  // ---------------------------------------------------------------- loops of the handlers

  method ValidRedirectURI(client: Client, redirectURI: string) returns (valid: bool)
    ensures valid <==> AllowedRedirect(client.redirectURIs, redirectURI)
  {
    var i := 0;
    while i < |client.redirectURIs|
      invariant 0 <= i <= |client.redirectURIs|
      invariant forall k | 0 <= k < i :: !Contains(client.redirectURIs[k], redirectURI)
    {
      if Contains(client.redirectURIs[i], redirectURI) {
        return true;
      }
      i := i + 1;
    }
    return false;
  }

  method GetRoleByRelationID(roles: seq<Role>, userRoleID: string) returns (role: Option<Role>)
    ensures role == FindRole(roles, userRoleID)
  {
    var i := 0;
    while i < |roles|
      invariant 0 <= i <= |roles|
      invariant FindRole(roles, userRoleID) == FindRole(roles[i..], userRoleID)
    {
      if roles[i].userRoleID == userRoleID {
        return Some(roles[i]);
      }
      i := i + 1;
    }
    return None;
  }

  method ValidRedirect(ott: OneTimeToken, redirectURI: string) returns (valid: bool)
    ensures valid <==> RedirectMatches(ott, redirectURI)
  {
    if |ott.redirectURIs| == 0 {
      return ott.redirectURI == redirectURI;
    }
    var i := 0;
    while i < |ott.redirectURIs|
      invariant 0 <= i <= |ott.redirectURIs|
      invariant redirectURI !in ott.redirectURIs[..i]
    {
      if ott.redirectURIs[i] == redirectURI {
        return true;
      }
      i := i + 1;
    }
    return false;
  }

  /** The role of a user with a single, unblocked role. */
  method SingleUnblockedRole(roles: seq<Role>) returns (role: Option<Role>)
    ensures role == SingleRole(roles)
  {
    role := None;
    if |roles| == 1 {
      var roleEntity := roles[0];
      if !roleEntity.blocked && (roleEntity.organization.None? || !roleEntity.organization.value.blocked) {
        role := GetRoleByRelationID(roles, roleEntity.userRoleID);
      }
    }
  }

  /** How many access tokens were handed out. */
  function TokensIssued(t: Trace): nat {
    match t
    case Start => 0
    case After(past, e) => TokensIssued(past) + if e.CodeExchanged? || e.ServiceTokenIssued? then 1 else 0
  }

  /** The answer holds an access token exactly when the trace tells of one more, with the same lifetime. */
  predicate TellsTokens(r: Response, before: Trace, after: Trace) {
    if r.AccessToken? then
      && TokensIssued(after) == TokensIssued(before) + 1 && after.After?
      && ((after.event.CodeExchanged? && after.event.token == r.token && after.event.expiresIn == r.expiresIn)
          || after.event == ServiceTokenIssued(r.token, r.expiresIn))
    else TokensIssued(after) == TokensIssued(before)
  }

  /** An answer about a session: inactive when it is outlived, and otherwise the session with the whole seconds left to it. */
  predicate TellsOf(timeout: int, r: Response, session: Session, now: int) {
    if session.state == Nothing || Outlived(timeout, session.lastAccessed, now) then r == Inactive
    else
      && r.SessionInfo? && r.session == session && r.secondsToLive >= 0
      && InSeconds(timeout - (now - session.lastAccessed.value), r.secondsToLive)
  }

  /** A query went on record as its client sent it. */
  predicate RecordsQuery(ctx: Context, q: AuthorizeQuery, before: Trace, after: Trace) {
    && after.After? && after.past == before && after.event.Accepted?
    && q.clientID == Some(after.event.request.clientID) && q.redirectURI == Some(after.event.request.redirectURI)
    && after.event.request.state == if q.state.Some? then q.state.value else ctx.names.state
  }

  lemma ClosedGate(cfg: Config, w: World, ctx: Context, bearer: string, roleID: Option<string>)
    requires Resolve(w, ctx, bearer).Some? && !TermsGateOpen(cfg, Resolve(w, ctx, bearer).value)
    ensures SetRoleStep(cfg, w, ctx, bearer, roleID) == w
  {
    hide Resolve;
  }

  /** The names a request draws are ULIDs. */
  predicate AreULIDs(names: Names) {
    forall name | name in NameSet(names) :: |name| == ULID_LENGTH
  }

  lemma SessionIsNamed(names: Names)
    requires AreULIDs(names)
    ensures names.session != ""
  {
    assert names.session in NameSet(names);
  }

  lemma AdmissibleNames(w: World, step: Step)
    requires Admissible(w, step)
    ensures AreULIDs(step.ctx.names)
  {
  }

  /** A logout that resolves and can delete leaves its session stored nowhere. */
  lemma LogoutEffect(cfg: Config, h: Trust, w: World, ctx: Context, s: string)
    requires Sound(cfg) && Reached(cfg, h, w)
    ensures Resolve(Enter(w, ctx), ctx, s).Some? && ctx.ok.sessionDelete ==> s !in Apply(cfg, w, Step(ctx, Logout(s))).sessions
  {
    hide Reached, Resolve, Apply;
    BearerIs(cfg, h, w, ctx, s);
    if Live(w, ctx, s) {
      LogoutRemoves(cfg, h, w, ctx, s);
    }
  }

  class IDAuth {
    const cfg: Config
    const clientStore: CompositeClientStore
    const correlationStore: CorrelationStore
    const ottStore: OTTStore
    const sessionStore: CacheSessionStore
    var now: int
    ghost var minted: set<string>
    ghost var trace: Trace
    ghost const trust: Trust

    /** The value of the service. */
    ghost function World(): World
      reads this, clientStore, correlationStore, ottStore, sessionStore
    {
      Protocol.World(correlationStore.slots, ottStore.codes, sessionStore.sessions, clientStore.clients, now, minted, trace)
    }

    /** The stores are configured alike. */
    ghost predicate Wired() {
      clientStore.hash == cfg.hash && sessionStore.ttl == cfg.sessionTimeout
    }

    /** The service is wired and the requests it has served so far reach its world from the empty one. */
    ghost predicate Valid()
      reads this, clientStore, correlationStore, ottStore, sessionStore
    {
      Wired() && Sound(cfg) && Reached(cfg, trust, World())
    }

    constructor (cfg: Config, ghost trust: Trust)
      requires Sound(cfg)
      ensures Valid() && World() == EMPTY_WORLD && this.cfg == cfg && this.trust == trust
      ensures fresh(clientStore) && fresh(correlationStore) && fresh(ottStore) && fresh(sessionStore)
    {
      this.cfg := cfg;
      this.trust := trust;
      clientStore := new CompositeClientStore(cfg.hash);
      correlationStore := new CorrelationStore();
      ottStore := new OTTStore();
      sessionStore := new CacheSessionStore(cfg.sessionTimeout);
      now := 0;
      minted := {};
      trace := Start;
      new;
      EmptyIsReached(cfg, trust);
    }

    // ---------------------------------------------------------------- redirecting to the caller

    /** Issues the code, consumes the slot and answers with the redirect. */
    method RedirectToCaller(ctx: Context, ghost slot: string, sess: Correlation) returns (r: Response)
      requires Wired()
      modifies this`trace, correlationStore, ottStore
      ensures World() == Protocol.RedirectToCaller(cfg, old(World()), ctx, slot, sess)
      ensures r.Redirect? || r.Failed?
      ensures r.Failed? ==> trace == old(trace)
      ensures r.Redirect? ==> trace.After? && trace.event.Redirected? && trace.event.url == r.url
    {
      var dest := sess.redirectURI;
      if sess.tosTargetURI.Some? && |sess.tosTargetURI.value| > 0 {
        dest := sess.tosTargetURI.value;
      }
      var returnURL := cfg.codec.parse(dest);
      if returnURL.None? {
        return Failed;
      }
      var q := returnURL.value;
      ghost var issue := Refusal;
      if sess.state.Some? {
        q := SetParam(q, "state", sess.state.value);
      }
      if |sess.errorCode| > 0 {
        q := SetParam(q, "error", sess.errorCode);
      } else {
        if cfg.codeGrant && !sess.managedByProvider {
          var ott := ottStore.GenerateToken(sess, ctx.names.code, now, ctx.ok.codeWrite);
          if ott.None? {
            return Failed;
          }
          q := SetParam(q, "code", ott.value.id);
          issue := Code(ott.value.id, sess.id);
        } else {
          q := SetParam(q, "code", sess.id);
          issue := Direct(sess.id, sess.managedByProvider);
        }
      }
      correlationStore.Delete(ctx.cookie, ctx.ok.slotDelete);
      trace := After(trace, Redirected(slot, q, issue));
      return Redirect(q);
    }

    // ---------------------------------------------------------------- authorize

    method Authorize(ctx: Context, q: AuthorizeQuery) returns (r: Response)
      requires Wired()
      modifies this`trace, correlationStore, ottStore
      ensures World() == AuthorizeStep(cfg, old(World()), ctx, q)
      ensures r.LoginStarted? ==> RecordsQuery(ctx, q, old(trace), trace)
    {
      if q.clientID.None? {
        return Failed;
      }
      var client := clientStore.GetClient(q.clientID.value);
      if client.Err? || q.redirectURI.None? {
        return Failed;
      }
      var valid := ValidRedirectURI(client.value, q.redirectURI.value);
      if !valid || q.provider.None? {
        return Failed;
      }
      var state := if q.state.Some? then q.state.value else ctx.names.state;
      if !q.providerKnown {
        return Failed;
      }
      var wanted := Correlation("", q.clientID.value, q.redirectURI.value, q.nonce, Some(state),
                                q.codeChallenge, q.codeChallengeMethod, "", false, None, None);
      var written := correlationStore.Set(ctx.cookie, wanted, ctx.names.slot, now, ctx.ok.slotWrite);
      if written.None? {
        return Failed;
      }
      var (slot, correlation) := written.value;
      trace := After(trace, Accepted(slot, Acceptance(wanted.clientID, client.value.redirectURIs, wanted.redirectURI, state)));
      // A correlation that already has a session ID would be redirected here, but Set never returns one.
      if |correlation.id| != 0 {
        assert false;
      }
      if !q.providerStarts {
        correlation := correlation.(errorCode := SERVER_ERROR);
        r := RedirectToCaller(ctx, slot, correlation);
        return;
      }
      return LoginStarted;
    }

    // ---------------------------------------------------------------- login

    method CreateSessionFromUserData(sess: Correlation, userData: UserData) returns (session: Session)
      ensures session == NewSession(cfg, sess.id, userData, now)
      ensures session.id == sess.id && Mirrors(session, userData, now) && PlacedByLogin(cfg, session, userData)
    {
      NewSessionIs(cfg, sess.id, userData, now);
      var role: Option<Role> := None;
      var state;
      if cfg.requiresTOS && !userData.isTOSAccepted {
        state := RequireAgreement;
      } else if !cfg.requiresRole {
        state := Authorized;
      } else if |userData.roles| == 0 {
        state := RequireRole;
      } else if |userData.roles| == 1 {
        state := RequireRole;
        var roleEntity := userData.roles[0];
        if !roleEntity.blocked && (roleEntity.organization.None? || !roleEntity.organization.value.blocked) {
          role := GetRoleByRelationID(userData.roles, roleEntity.userRoleID);
          state := Authorized;
        }
      } else {
        state := RequireRole;
      }
      session := Session(sess.id, state, userData.person, role, userData.roles, userData.rights, Some(now),
                         userData.isServiceClient, userData.isTOSAccepted);
    }

    /** Merges an answer to an acceptance of the terms into the request's session and stores it. */
    method UpdateFromUserData(ctx: Context, session: Session, userData: UserData) returns (ok: bool)
      requires Wired()
      modifies this`trace, sessionStore
      ensures World() == AnswerTerms(cfg, old(World()), ctx, session, Granted(userData))
      ensures ok <==> session.id != "" && ctx.ok.sessionWrite
    {
      var current := session;
      current := current.(person := userData.person);
      current := current.(roles := userData.roles);
      current := current.(rights := userData.rights);
      current := current.(isServiceClient := userData.isServiceClient);
      current := current.(isTOSAccepted := userData.isTOSAccepted);
      current := current.(lastAccessed := Some(now));
      if userData.isTOSAccepted {
        var role: Option<Role> := None;
        var state;
        if !cfg.requiresRole {
          state := Authorized;
        } else if |userData.roles| == 0 {
          state := RequireRole;
        } else if |userData.roles| == 1 {
          role := SingleUnblockedRole(userData.roles);
          state := Authorized;
        } else {
          state := RequireRole;
        }
        current := current.(state := state);
        current := current.(role := role);
      }
      var updated := sessionStore.Update(current, now, ctx.ok.sessionWrite);
      if updated.Ok? && userData.isTOSAccepted {
        trace := After(trace, TermsPlaced(current.id, userData.roles));
      }
      ok := updated.Ok?;
    }

    /**
     * Turns the authorizer's answer into a new session for the correlation `sess`, or, without one, updates `user`, the
     * session of the request. `copy` is the caller's correlation with the fields that were set on the way.
     */
    method HandleUserData(ctx: Context, user: Option<Session>, sess: Option<Correlation>, answer: Answer)
      returns (ok: bool, copy: Option<Correlation>)
      requires Wired() && (sess.None? ==> user.Some?) && (sess.Some? ==> sess.value.id != "")
      modifies this`trace, correlationStore, sessionStore
      ensures sess.Some? ==> copy.Some? && Login(World(), copy.value, ok) == HandleLogin(cfg, old(World()), ctx, sess.value, answer)
      ensures sess.None? ==> copy.None? && World() == AnswerTerms(cfg, old(World()), ctx, user.value, answer)
      ensures sess.None? ==> (ok <==> answer.Granted? && user.value.id != "" && ctx.ok.sessionWrite)
    {
      copy := sess;
      if answer.Denied? {
        if sess.Some? {
          copy := Some(sess.value.(errorCode := if answer.code.Some? then answer.code.value else SERVER_ERROR));
        }
        return false, copy;
      }
      if sess.None? {
        ok := UpdateFromUserData(ctx, user.value, answer.data);
        return;
      }
      var dated;
      ok, dated := StartSession(ctx, sess.value, answer.data);
      copy := Some(dated);
    }

    /** Creates and audits the session of a login; deletes it again when either failed. */
    method StartSession(ctx: Context, sess: Correlation, userData: UserData) returns (ok: bool, copy: Correlation)
      requires Wired() && sess.id != ""
      modifies this`trace, correlationStore, sessionStore
      ensures Login(World(), copy, ok) == HandleLogin(cfg, old(World()), ctx, sess, Granted(userData))
    {
      hide Protocol.AuditLogin, Protocol.SendToTerms, SetSlot, NewSession, CreateSession;
      copy := sess;
      var session := CreateSessionFromUserData(copy, userData);
      if !copy.managedByProvider {
        copy := copy.(sessionCreated := session.lastAccessed);
      }
      var written := correlationStore.Set(ctx.cookie, copy, ctx.names.slot, now, ctx.ok.slotWrite);
      if written.None? {
        return false, copy;
      }
      var created := StoreNewSession(ctx, session, false);
      if cfg.requiresTOS && !userData.isTOSAccepted {
        ok, copy := SendToTerms(ctx, session, copy, created);
      } else {
        ok, copy := AuditLogin(ctx, session, copy, created);
      }
    }

    /** Creates a session, on record if that succeeds. */
    method StoreNewSession(ctx: Context, session: Session, service: bool) returns (created: bool)
      requires Wired() && session.id != ""
      modifies this`trace, sessionStore
      ensures created == ctx.ok.sessionWrite
      ensures World() == CreateSession(cfg, old(World()), session, service, ctx.ok.sessionWrite)
      ensures TokensIssued(trace) == TokensIssued(old(trace))
    {
      var stored := sessionStore.Create(session, ctx.names.session, now, ctx.ok.sessionWrite);
      if stored.Ok? {
        trace := After(trace, SessionStored(session.id, service));
      }
      created := stored.Ok?;
    }

    /** Points the flow to the terms page before the login is audited. */
    method SendToTerms(ctx: Context, session: Session, sess: Correlation, created: bool) returns (ok: bool, copy: Correlation)
      requires session.id == sess.id && created == ctx.ok.sessionWrite
      modifies this`trace, correlationStore, sessionStore
      ensures Login(World(), copy, ok) == Protocol.SendToTerms(cfg, old(World()), ctx, sess)
    {
      hide BuildTOSRedirect, SetSlot, Protocol.AuditLogin;
      copy := sess;
      var tos := BuildTOSRedirect(cfg, copy.redirectURI);
      if tos.None? {
        return false, copy;
      }
      copy := copy.(tosTargetURI := tos);
      var rewritten := correlationStore.Set(ctx.cookie, copy, ctx.names.slot, now, ctx.ok.slotRewrite);
      if rewritten.None? {
        return false, copy;
      }
      ok, copy := AuditLogin(ctx, session, copy, created);
    }

    /** Audits a login; a login that was not stored or not audited is undone and its flow gets an error. */
    method AuditLogin(ctx: Context, session: Session, sess: Correlation, created: bool) returns (ok: bool, copy: Correlation)
      requires session.id == sess.id
      modifies this`trace, sessionStore
      ensures Login(World(), copy, ok) == Protocol.AuditLogin(old(World()), ctx, sess, created)
    {
      copy := sess;
      ok := created && ctx.ok.audit;
      if ok {
        trace := After(trace, LoginAudited(session.id));
      } else {
        var _ := sessionStore.Delete(session.id, ctx.ok.sessionDelete);
        copy := copy.(errorCode := SERVER_ERROR);
      }
    }

    // ---------------------------------------------------------------- callbacks

    method Callback(ctx: Context, q: CallbackQuery) returns (r: Response)
      requires Wired() && AreULIDs(ctx.names)
      modifies this`trace, correlationStore, ottStore, sessionStore
      ensures World() == CallbackStep(cfg, old(World()), ctx, q)
      ensures r.SignedOut? ==> q.signout == SignoutVia(r.location) && r.location != ""
      ensures r.Redirect? ==> trace.After? && trace.event.Redirected? && trace.event.url == r.url
    {
      hide Protocol.RedirectToCaller, ProviderStep, AreULIDs;
      SessionIsNamed(ctx.names);
      if q.provider == "" {
        return Failed;
      }
      if q.signoutResponse {
        return NoContent;
      }
      var stored := correlationStore.Get(ctx.cookie, now, ctx.ok.slotRead);
      if stored.Err? || stored.value.None? {
        return Failed;
      }
      var slot, sess := CookieSlot(ctx.cookie), stored.value.value;
      if sess.id != "" {
        r := RedirectToCaller(ctx, slot, sess);
        return;
      }
      if !q.providerKnown {
        sess := sess.(errorCode := INVALID_CALLBACK);
        r := RedirectToCaller(ctx, slot, sess);
        correlationStore.Delete(ctx.cookie, ctx.ok.slotDelete);
        return;
      }
      if q.error {
        sess := sess.(errorCode := CANCELED);
        r := RedirectToCaller(ctx, slot, sess);
        return;
      }
      trace := After(trace, AnswerTo(ctx, sess, q));
      sess := sess.(id := ctx.names.session);
      r := ProviderCallback(ctx, slot, sess, q);
    }

    /** The rest of a callback once the provider has answered. */
    method ProviderCallback(ctx: Context, slot: string, sess: Correlation, q: CallbackQuery) returns (r: Response)
      requires Wired() && sess.id != ""
      modifies this`trace, correlationStore, ottStore, sessionStore
      ensures World() == ProviderStep(cfg, old(World()), ctx, slot, sess, q)
      ensures r.SignedOut? ==> q.signout == SignoutVia(r.location) && r.location != ""
      ensures r.Redirect? ==> trace.After? && trace.event.Redirected? && trace.event.url == r.url
    {
      hide Protocol.RedirectToCaller, HandleLogin;
      var copy := sess;
      if q.result.Rejected? {
        copy := copy.(errorCode := if q.result.code.Some? then q.result.code.value else INVALID_CALLBACK);
        r := RedirectToCaller(ctx, slot, copy);
        return;
      }
      if q.result.managed {
        copy := copy.(managedByProvider := true);
        r := RedirectToCaller(ctx, slot, copy);
        return;
      }
      var ok, handled := HandleUserData(ctx, None, Some(copy), q.result.answer);
      if !ok {
        r := RedirectToCaller(ctx, slot, handled.value);
        return;
      }
      if q.signout.SignoutVia? {
        if q.signout.url == "" {
          return Failed;
        }
        return SignedOut(q.signout.url);
      }
      r := RedirectToCaller(ctx, slot, handled.value);
    }

    method OidcLogoutCallback(ctx: Context) returns (r: Response)
      requires Wired()
      modifies this`trace, correlationStore, ottStore
      ensures World() == LogoutCallbackStep(cfg, old(World()), ctx)
      ensures r.Redirect? ==> trace.After? && trace.event.Redirected? && trace.event.url == r.url
    {
      hide Protocol.RedirectToCaller;
      var stored := correlationStore.Get(ctx.cookie, now, ctx.ok.slotRead);
      if stored.Err? {
        return Failed;
      }
      if stored.value.None? || stored.value.value.id == "" {
        return NoContent;
      }
      r := RedirectToCaller(ctx, CookieSlot(ctx.cookie), stored.value.value);
    }

    // ---------------------------------------------------------------- tokens

    method Token(ctx: Context, form: TokenForm) returns (r: Response)
      requires Wired() && AreULIDs(ctx.names)
      modifies this`trace, ottStore, sessionStore
      ensures World() == TokenStep(cfg, old(World()), ctx, form)
      ensures TellsTokens(r, old(trace), trace)
    {
      hide ExchangeStep, ServiceStep, TokensIssued;
      if form.grantType.None? {
        return Failed;
      }
      if form.grantType.value == "authorization_code" {
        r := AuthorizationCode(ctx, form.redirectURI, form.code);
      } else {
        r := ClientCredentials(ctx, form.grantType.value, form.evidence, form.answer);
      }
    }

    /** Redeems a code. The refusal of a disabled grant is written, but the handler goes on. */
    method AuthorizationCode(ctx: Context, redirectURI: Option<string>, code: Option<string>) returns (r: Response)
      requires Wired()
      modifies this`trace, ottStore
      ensures World() == ExchangeStep(cfg, old(World()), ctx, redirectURI, code)
      ensures TellsTokens(r, old(trace), trace)
    {
      r := Failed;
      if redirectURI.None? || code.None? {
        return;
      }
      var redeemed := ottStore.RedeemToken(code.value, now, ctx.ok.codeRead, ctx.ok.codeDelete);
      if redeemed.Err? || redeemed.value.None? {
        return;
      }
      var ott := redeemed.value.value;
      var validRedirect := ValidRedirect(ott, redirectURI.value);
      if !validRedirect {
        return;
      }
      var expiresIn := GetSecondsToLive(cfg.sessionTimeout, ott.sessionCreated, now);
      trace := After(trace, CodeExchanged(code.value, redirectURI.value, ott.sessionToken, expiresIn));
      r := AccessToken(ott.sessionToken, expiresIn);
    }

    /** Opens a session for a service client that its validator accepts; deletes it again when storing or auditing failed. */
    method ClientCredentials(ctx: Context, grantType: string, ev: Evidence, answer: Answer) returns (r: Response)
      requires Wired() && AreULIDs(ctx.names)
      modifies this`trace, sessionStore
      ensures World() == ServiceStep(cfg, old(World()), ctx, grantType, ev, answer)
      ensures TellsTokens(r, old(trace), trace)
    {
      hide ServiceClient, OpenService, TokensIssued;
      var client := AuthenticateClient(grantType, ev);
      if client.None? || answer.Denied? {
        return Failed;
      }
      r := OpenServiceSession(ctx, answer.data);
    }

    /** The service client that the request's evidence authenticates. */
    method AuthenticateClient(grantType: string, ev: Evidence) returns (client: Option<string>)
      requires Wired()
      ensures client == ServiceClient(cfg, clientStore.clients, grantType, ev, now)
    {
      hide Accepts, AcceptedClient;
      if grantType == GRANT_TYPE_PFAS && !cfg.pfasGrant {
        return None;
      }
      if grantType == GRANT_TYPE_IAM && !cfg.iamGrant {
        return None;
      }
      var validator := NewTokenValidator(grantType, cfg.pfasGrant, cfg.iamGrant);
      // The validator's configuration is there whenever its grant is on.
      if validator.None? {
        assert false;
      }
      var verdict := ValidateToken(validator.value, clientStore, ev, now / NANOS);
      client := if verdict.Valid? then Some(verdict.clientID) else None;
    }

    /** Stores and audits the session of a service client; deletes it again when either failed. */
    method OpenServiceSession(ctx: Context, userData: UserData) returns (r: Response)
      requires Wired() && AreULIDs(ctx.names)
      modifies this`trace, sessionStore
      ensures World() == OpenService(cfg, old(World()), ctx, userData)
      ensures TellsTokens(r, old(trace), trace)
    {
      hide AreULIDs, GetSecondsToLive;
      SessionIsNamed(ctx.names);
      var role := SingleUnblockedRole(userData.roles);
      var session := Session(ctx.names.session, Authorized, userData.person, role, userData.roles, userData.rights,
                             Some(now), userData.isServiceClient, userData.isTOSAccepted);
      var created := StoreNewSession(ctx, session, true);
      if !created || !ctx.ok.audit {
        var _ := sessionStore.Delete(session.id, ctx.ok.sessionDelete);
        return Failed;
      }
      var expiresIn := GetSecondsToLive(cfg.sessionTimeout, session.lastAccessed, now);
      trace := After(trace, ServiceAudited(session.id));
      assert TokensIssued(trace) == TokensIssued(old(trace));
      trace := After(trace, ServiceTokenIssued(session.id, expiresIn));
      return AccessToken(session.id, expiresIn);
    }

    // ---------------------------------------------------------------- sessions

    /** The bearer middleware. */
    method AuthorizeBearer(ctx: Context, bearer: string) returns (session: Option<Session>)
      ensures session == Resolve(World(), ctx, bearer)
    {
      var found := sessionStore.GetSessionByID(bearer, now, ctx.ok.sessionRead);
      session := if found.Ok? then Some(found.value) else None;
    }

    /** Answers with a session; one that has outlived its timeout is logged out and reported inactive. */
    method SessionToResponse(ctx: Context, id: string, session: Session) returns (r: Response)
      modifies sessionStore
      ensures World() == RespondStep(cfg, old(World()), ctx, id, session)
      ensures TellsOf(cfg.sessionTimeout, r, session, now)
    {
      hide GetSecondsToLive, InSeconds, Outlived;
      if session.state == Nothing {
        return Inactive;
      }
      SecondsAreTold(cfg.sessionTimeout, session.lastAccessed, now);
      NegativeMeansOutlived(cfg.sessionTimeout, session.lastAccessed, now);
      var secondsToLive := GetSecondsToLive(cfg.sessionTimeout, session.lastAccessed, now);
      if secondsToLive < 0 {
        var _ := sessionStore.Delete(id, ctx.ok.sessionDelete);
        return Inactive;
      }
      return SessionInfo(session, secondsToLive);
    }

    method GetSession(ctx: Context, ghost bearer: string, session: Session) returns (r: Response)
      requires Resolve(World(), ctx, bearer) == Some(session)
      modifies sessionStore
      ensures World() == GetSessionStep(cfg, old(World()), ctx, bearer)
      ensures TellsOf(cfg.sessionTimeout, r, session, now)
    {
      r := SessionToResponse(ctx, session.id, session);
    }

    method DeleteSession(ctx: Context, ghost bearer: string, session: Session) returns (r: Response)
      requires Resolve(World(), ctx, bearer) == Some(session)
      modifies sessionStore
      ensures World() == LogoutStep(old(World()), ctx, bearer)
      ensures r.NoContent? <==> ctx.ok.sessionDelete && ctx.ok.audit
      ensures sessionStore.sessions == old(sessionStore.sessions) - if ctx.ok.sessionDelete then {session.id} else {}
    {
      var deleted := sessionStore.Delete(session.id, ctx.ok.sessionDelete);
      r := if deleted && ctx.ok.audit then NoContent else Failed;
    }

    method ExtendSession(ctx: Context, ghost bearer: string, session: Session) returns (r: Response)
      requires Wired() && Resolve(World(), ctx, bearer) == Some(session)
      modifies sessionStore
      ensures World() == KeepAliveStep(cfg, old(World()), ctx, bearer)
      ensures r.Failed? <==> |session.id| > ULID_LENGTH || !ctx.ok.sessionRead || Lookup(old(sessionStore.sessions), session.id, now).None?
      ensures !r.Failed? ==>
        TellsOf(cfg.sessionTimeout, r, Lookup(old(sessionStore.sessions), session.id, now).value.(lastAccessed := Some(now)), now)
    {
      hide GetSecondsToLive;
      var extended := sessionStore.Extend(session.id, now, ctx.ok.sessionRead, ctx.ok.sessionWrite);
      if extended.Err? {
        return Failed;
      }
      r := SessionToResponse(ctx, session.id, extended.value);
    }

    method TermsAccept(ctx: Context, ghost bearer: string, session: Session, answer: Answer) returns (r: Response)
      requires Wired() && Resolve(World(), ctx, bearer) == Some(session)
      modifies this`trace, correlationStore, sessionStore
      ensures World() == AcceptTermsStep(cfg, old(World()), ctx, bearer, answer)
      ensures r == if answer.Granted? && session.id != "" && ctx.ok.sessionWrite && ctx.ok.audit then NoContent else Failed
    {
      hide AnswerTerms;
      var ok, _ := HandleUserData(ctx, Some(session), None, answer);
      r := if ok && ctx.ok.audit then NoContent else Failed;
    }

    /** Switches the session to a role that exists and is not blocked. */
    method SetSessionRole(ctx: Context, ghost bearer: string, session: Session, roleID: Option<string>) returns (r: Response)
      requires Wired() && Resolve(World(), ctx, bearer) == Some(session) && TermsGateOpen(cfg, session)
      modifies this`trace, sessionStore
      ensures World() == SetRoleStep(cfg, old(World()), ctx, bearer, roleID)
      ensures r.Failed? <==> ChosenRole(session, roleID).None? || session.id == "" || !ctx.ok.sessionWrite || !ctx.ok.audit
      ensures !r.Failed? ==> TellsOf(cfg.sessionTimeout, r, session.(role := ChosenRole(session, roleID), state := Authorized), now)
    {
      hide GetSecondsToLive, Resolve, RespondStep, FindRole;
      if !session.IsRoleRequired() && !session.IsAuthorized() {
        return Failed;
      }
      if roleID.None? {
        return Failed;
      }
      var role := GetRoleByRelationID(session.roles, roleID.value);
      if role.None? {
        return Failed;
      }
      if role.value.organization.Some? && role.value.organization.value.blocked {
        return Failed;
      }
      if role.value.blocked {
        return Failed;
      }
      var current := session.(role := role);
      if current.state == RequireRole {
        current := current.(state := Authorized);
      }
      var updated := sessionStore.Update(current, now, ctx.ok.sessionWrite);
      if updated.Ok? {
        trace := After(trace, RoleChosen(current.id));
      }
      if updated.Err? || !ctx.ok.audit {
        return Failed;
      }
      r := SessionToResponse(ctx, current.id, updated.value);
    }

    // ---------------------------------------------------------------- the router

    /** The requests behind the bearer middleware; the role choice also stands behind the terms middleware. */
    method ServeSession(ctx: Context, request: Request) returns (r: Response)
      requires Wired()
      requires AboutSession(request)
      modifies this`trace, correlationStore, sessionStore
      ensures World() == Handle(cfg, old(World()), ctx, request)
      ensures request.Logout? ==>
        (r.NoContent? <==> Resolve(old(World()), ctx, request.bearer).Some? && ctx.ok.sessionDelete && ctx.ok.audit)
    {
      hide Resolve, TermsGateOpen, AcceptTermsStep, KeepAliveStep, GetSessionStep, LogoutStep, SetRoleStep;
      var session := AuthorizeBearer(ctx, request.bearer);
      if session.None? {
        Unauthorized(cfg, World(), ctx, request);
        return Failed;
      }
      match request
      case GetSession(bearer) => r := GetSession(ctx, bearer, session.value);
      case KeepAlive(bearer) => r := ExtendSession(ctx, bearer, session.value);
      case Logout(bearer) => r := DeleteSession(ctx, bearer, session.value);
      case AcceptTerms(bearer, answer) => r := TermsAccept(ctx, bearer, session.value, answer);
      case SetRole(bearer, roleID) =>
        if !TermsGateOpen(cfg, session.value) {
          ClosedGate(cfg, World(), ctx, bearer, roleID);
          return Failed;
        }
        r := SetSessionRole(ctx, bearer, session.value, roleID);
    }

    method Dispatch(ctx: Context, request: Request) returns (r: Response)
      requires Wired() && AreULIDs(ctx.names)
      modifies this`trace, clientStore, correlationStore, ottStore, sessionStore
      ensures World() == Handle(cfg, old(World()), ctx, request)
      ensures request.Token? ==> TellsTokens(r, old(trace), trace)
      ensures request.Logout? ==>
        (r.NoContent? <==> Resolve(old(World()), ctx, request.bearer).Some? && ctx.ok.sessionDelete && ctx.ok.audit)
    {
      hide Resolve, AuthorizeStep, CallbackStep, LogoutCallbackStep, TokenStep, LoadAll, Index;
      match request
      case Authorize(q) => r := Authorize(ctx, q);
      case Callback(q) => r := Callback(ctx, q);
      case LogoutCallback => r := OidcLogoutCallback(ctx);
      case Token(form) => r := Token(ctx, form);
      case ReloadClients(sources) =>
        var ok := clientStore.RefetchClients(sources);
        r := if ok then NoContent else Failed;
      case Evict(slots, codes, sessions) =>
        correlationStore.Evict(slots);
        ottStore.Evict(codes);
        sessionStore.Evict(sessions);
        r := NoContent;
      case _ =>
        hide Handle;
        r := ServeSession(ctx, request);
    }

    /**
     * Serves one request as `Apply` says; so whatever is proved of reached worlds holds of every service that starts
     * from its constructor and serves admissible requests, and the invariant with it.
     */
    method Serve(step: Step) returns (r: Response)
      requires Valid() && Admissible(World(), step) && Meets(trust, step)
      modifies this`now, this`minted, this`trace, clientStore, correlationStore, ottStore, sessionStore
      ensures World() == Apply(cfg, old(World()), step)
      ensures Valid() && Inv(cfg, trust, World(), "")
      ensures step.request.Token? ==> TellsTokens(r, old(trace), trace)
      ensures step.request.Logout? && r.NoContent? ==> step.request.bearer !in sessionStore.sessions
    {
      hide Inv, Handle, Reached, Admissible, Meets, Resolve, TellsTokens;
      if step.request.Logout? {
        LogoutEffect(cfg, trust, World(), step.ctx, step.request.bearer);
      }
      StepReaches(cfg, trust, World(), step);
      ReachedKeeps(cfg, trust, Apply(cfg, World(), step));
      AdmissibleNames(World(), step);
      now := step.ctx.now;
      minted := minted + NameSet(step.ctx.names);
      r := Dispatch(step.ctx, step.request);
    }
  }
}
