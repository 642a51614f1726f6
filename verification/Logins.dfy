/** A login or service grant leaves one session or none; what the resulting redirect and token promise. */
module Logins {
  import opened Basics
  import opened Settings
  import opened Entities
  import opened Clients
  import opened Validators
  import opened Traces
  import opened Protocol
  import opened Invariants
  import opened Preservation
  import opened Lifetimes

  // ---------------------------------------------------------------- all or nothing

  /** The sessions with the new one of a login added. */
  function WithLogin(cfg: Config, w: World, id: string, data: UserData): Cache<Session> {
    w.sessions[id := Entry(NewSession(cfg, id, data, w.now), w.now + cfg.sessionTimeout)]
  }

  /** The login leaves its session stored: it was stored, and it was not deleted again. */
  predicate LeavesSession(end: LoginEnd, ok: Health) {
    ok.sessionWrite && (end.Completed? || end.Unfinished? || (end.Compensated? && !ok.sessionDelete))
  }

  /**
   * A login adds exactly its one session or leaves the sessions as they were. It adds one when it completes, and else
   * when the stored session stays behind: its slot was not written a second time, its terms page could not be built, or
   * its deletion failed. So with reliable slot writes and session deletes and a parsable URI it is all or nothing.
   */
  lemma LoginsAreAllOrNothing(cfg: Config, w: World, ctx: Context, slot: string, sess: Correlation, q: CallbackQuery)
    requires LoginStarts(w, ctx, slot, sess)
    requires q.result.Authenticated? && !q.result.managed
    ensures
      var answer := q.result.answer;
      var end := EndOf(cfg, sess.redirectURI, ctx.ok, answer);
      var after := ProviderStep(cfg, w, ctx, slot, sess, q).sessions;
      && (LeavesSession(end, ctx.ok) ==> after == WithLogin(cfg, w, sess.id, answer.data))
      && (after != w.sessions <==> LeavesSession(end, ctx.ok))
      && |after| == |w.sessions| + (if LeavesSession(end, ctx.ok) then 1 else 0)
      && (ctx.ok.slotWrite && ctx.ok.slotRewrite && ctx.ok.sessionDelete && cfg.codec.parse(sess.redirectURI).Some? ==>
            (after != w.sessions <==> answer.Granted? && ctx.ok.sessionWrite && ctx.ok.audit))
  {
    hide HandleLogin, RedirectToCaller, LoginStarts, NewSession;
    var answer := q.result.answer;
    var login := HandleLogin(cfg, w, ctx, sess, answer);
    RedirectSpares(cfg, login.w, ctx, slot, login.sess);
    LoginSessions(cfg, w, ctx, slot, sess, answer);
  }

  /** The sessions after a login. */
  lemma LoginSessions(cfg: Config, w: World, ctx: Context, slot: string, sess: Correlation, answer: Answer)
    requires LoginStarts(w, ctx, slot, sess)
    ensures
      var after := HandleLogin(cfg, w, ctx, sess, answer).w.sessions;
      if LeavesSession(EndOf(cfg, sess.redirectURI, ctx.ok, answer), ctx.ok)
      then after == WithLogin(cfg, w, sess.id, answer.data) && |after| == |w.sessions| + 1
      else after == w.sessions
  {
    hide HandleLogin, Held, NewSession, RedirectToCaller;
    LoginShape(cfg, w, ctx, slot, sess, answer);
    assert sess.id !in w.sessions;
    assert Drop(w.sessions, sess.id) == w.sessions;
    if answer.Granted? {
      CreatedSessions(cfg, w, ctx, slot, sess, answer.data);
    }
  }

  lemma CreatedSessions(cfg: Config, w: World, ctx: Context, slot: string, sess: Correlation, data: UserData)
    requires sess.id !in w.sessions
    ensures
      var after := Created(cfg, w, ctx, slot, sess, data).sessions;
      && after == (if ctx.ok.sessionWrite then WithLogin(cfg, w, sess.id, data) else w.sessions)
      && Drop(WithLogin(cfg, w, sess.id, data), sess.id) == w.sessions
      && |WithLogin(cfg, w, sess.id, data)| == |w.sessions| + 1
  {
    hide Created, NewSession, Drop;
    CreatedAre(cfg, w, ctx, slot, sess, data);
    AddOne(w.sessions, sess.id, Entry(NewSession(cfg, sess.id, data, w.now), w.now + cfg.sessionTimeout));
  }

  lemma CreatedAre(cfg: Config, w: World, ctx: Context, slot: string, sess: Correlation, data: UserData)
    ensures Created(cfg, w, ctx, slot, sess, data).sessions
         == if ctx.ok.sessionWrite then WithLogin(cfg, w, sess.id, data) else w.sessions
  {
    hide NewSession, Held;
    NewSessionID(cfg, sess.id, data, w.now);
  }

  lemma AddOne<V>(cache: Cache<V>, id: string, entry: Entry<V>)
    requires id !in cache
    ensures Drop(cache[id := entry], id) == cache && |cache[id := entry]| == |cache| + 1
  {
    assert cache[id := entry].Keys == cache.Keys + {id};
    assert |cache| == |cache.Keys| && |cache[id := entry]| == |cache[id := entry].Keys|;
  }

  /** The sessions with the new one of a service grant added. */
  function WithService(cfg: Config, w: World, id: string, data: UserData): Cache<Session> {
    w.sessions[id := Entry(NewServiceSession(id, data, w.now), w.now + cfg.sessionTimeout)]
  }

  /** The events that a service grant adds to the trace. */
  predicate IssuesServiceToken(before: Trace, after: Trace, session: string) {
    && after.After? && after.event.ServiceTokenIssued? && after.event.session == session
    && after.past.After? && after.past.event == ServiceAudited(session)
    && after.past.past == After(before, SessionStored(session, true))
  }

  /**
   * A service grant issues a token only for an earned grant, after its session was stored and audited, and then adds
   * exactly that session; in every other case, given a reliable session delete, the sessions stay as they were.
   */
  lemma ServiceGrantsAreAllOrNothing(cfg: Config, w: World, ctx: Context, grantType: string, ev: Evidence, answer: Answer)
    requires Unused(w, ctx.names.session)
    ensures
      var after := ServiceStep(cfg, w, ctx, grantType, ev, answer);
      var id := ctx.names.session;
      var issued :=
        ServiceClient(cfg, w.clients, grantType, ev, w.now).Some? && answer.Granted? && ctx.ok.sessionWrite && ctx.ok.audit;
      && (issued ==> IssuesServiceToken(w.trace, after.trace, id))
      && (issued ==> after.sessions == WithService(cfg, w, id, answer.data))
      && (!issued ==> after.trace in {w.trace, After(w.trace, SessionStored(id, true))})
      && (!issued && ctx.ok.sessionDelete ==> after.sessions == w.sessions)
  {
    hide ServiceClient;
    if answer.Granted? && ctx.ok.sessionWrite {
      var id := ctx.names.session;
      assert Drop(WithService(cfg, w, id, answer.data), id) == w.sessions;
    }
    assert Drop(w.sessions, ctx.names.session) == w.sessions;
  }

  /**
   * In any world: a step that stores a service session was a token request with a grant that was switched on, and a
   * known service client earned it.
   */
  lemma ServiceSessionsAreEarned(cfg: Config, w: World, ctx: Context, form: TokenForm)
    requires Unused(w, ctx.names.session)
    ensures TokenStep(cfg, w, ctx, form).sessions != w.sessions ==>
      form.grantType.Some? && form.grantType.value != "authorization_code" && form.answer.Granted?
    ensures TokenStep(cfg, w, ctx, form).sessions != w.sessions ==>
      var client := ServiceClient(cfg, w.clients, form.grantType.value, form.evidence, w.now);
      && client.Some? && client.value in w.clients && w.clients[client.value].isServiceClient
      && form.grantType.value in {GRANT_TYPE_BASIC, GRANT_TYPE_CLIENT_CREDENTIALS, GRANT_TYPE_PFAS, GRANT_TYPE_IAM}
      && (form.grantType.value == GRANT_TYPE_PFAS ==> cfg.pfasGrant)
      && (form.grantType.value == GRANT_TYPE_IAM ==> cfg.iamGrant)
  {
    hide ServiceStep, ServiceClient;
    if form.grantType.Some? && form.grantType.value != "authorization_code" {
      var grantType := form.grantType.value;
      if ServiceStep(cfg, w, ctx, grantType, form.evidence, form.answer).sessions != w.sessions {
        ServiceChangesNeedClient(cfg, w, ctx, grantType, form);
        ServiceGrantsAreEarned(cfg, w.clients, grantType, form.evidence, w.now);
      }
    }
  }

  lemma ServiceChangesNeedClient(cfg: Config, w: World, ctx: Context, grantType: string, form: TokenForm)
    requires ServiceStep(cfg, w, ctx, grantType, form.evidence, form.answer).sessions != w.sessions
    ensures ServiceClient(cfg, w.clients, grantType, form.evidence, w.now).Some? && form.answer.Granted?
  {
    hide ServiceClient;
  }

  // ---------------------------------------------------------------- terms page

  /** The code carries the creation time `created`. */
  predicate CodeDated(w: World, code: string, created: Option<int>) {
    code in w.codes && w.codes[code].value.sessionCreated == created
  }

  /** With a codec like net/url, what becomes of the terms page of `asked` is known: it is anchored or opaque. */
  ghost predicate PageKnown(cfg: Config, asked: Url) {
    Reparses(cfg.codec) && (asked.opaquePart != "" || Anchored(asked, TermsPath(asked.path, cfg.tosEndpoint)))
  }

  /** The redirect goes to `base` with the parameters of `base`, adds the state, and hands the session over. */
  predicate Sent(t: Trace, base: Url, state: string, session: string) {
    && t.After? && t.event.Redirected? && HandedOver(t.event.issue) == Some(session)
    && Carries(t.event.url, base, state, t.event.issue)
  }

  /** Where a login goes: to the requested URI, or without its parameters to its terms page, which opaque URIs ignore. */
  function LoginTarget(cfg: Config, asked: Url, needsAgreement: bool): Url {
    if !needsAgreement then asked
    else WithPath(asked, if asked.opaquePart == "" then TermsPath(asked.path, cfg.tosEndpoint) else asked.path)
  }

  /**
   * A completed login without post-callback sign-out redirects to the origin it was asked for: to the terms page, without
   * the parameters of the URI, exactly when the new session still needs the agreement and the URI is not opaque, and to
   * the requested URI otherwise. Its code promises the full lifetime.
   */
  lemma DirectLoginsReachTheTermsPage(cfg: Config, w: World, ctx: Context, slot: string, sess: Correlation, q: CallbackQuery)
    requires LoginStarts(w, ctx, slot, sess) && sess.state.Some?
    requires q.result.Authenticated? && !q.result.managed && q.signout.NoSignout? && ctx.ok.codeWrite
    requires cfg.codec.parse(sess.redirectURI).Some? && EndOf(cfg, sess.redirectURI, ctx.ok, q.result.answer).Completed?
    ensures
      var after := ProviderStep(cfg, w, ctx, slot, sess, q);
      var asked := cfg.codec.parse(sess.redirectURI).value;
      var session := NewSession(cfg, sess.id, q.result.answer.data, w.now);
      && after.sessions == WithLogin(cfg, w, sess.id, q.result.answer.data)
      && (session.state != RequireAgreement || PageKnown(cfg, asked) ==>
            && Sent(after.trace, LoginTarget(cfg, asked, session.state == RequireAgreement), sess.state.value, sess.id)
            && (cfg.codeGrant ==> CodeDated(after, ctx.names.code, Some(w.now))))
  {
    hide HandleLogin, RedirectToCaller, LoginStarts, Reparses, ProviderStep, PageKnown, NewSession;
    var answer := q.result.answer;
    var login := HandleLogin(cfg, w, ctx, sess, answer);
    CompletedCopy(cfg, w, ctx, slot, sess, answer);
    LoginSessions(cfg, w, ctx, slot, sess, answer);
    TermsPageKeepsOrigin(cfg, sess.redirectURI);
    var asked := cfg.codec.parse(sess.redirectURI).value;
    AgreementMeansTerms(cfg, sess.id, answer.data, w.now);
    DirectShape(cfg, w, ctx, slot, sess, q);
    RedirectSpares(cfg, login.w, ctx, slot, login.sess);
    if !NeedsTerms(cfg, answer.data) || PageKnown(cfg, asked) {
      DirectDestination(cfg, login.sess, answer.data, asked);
      RedirectTarget(cfg, login.w, ctx, slot, login.sess);
    }
  }

  /** What the codec makes of the destination of a completed login. */
  lemma DirectDestination(cfg: Config, copy: Correlation, data: UserData, asked: Url)
    requires cfg.codec.parse(copy.redirectURI) == Some(asked)
    requires copy.tosTargetURI == if NeedsTerms(cfg, data) then BuildTOSRedirect(cfg, copy.redirectURI) else None
    requires NeedsTerms(cfg, data) ==> PageKnown(cfg, asked)
    ensures
      cfg.codec.parse(Destination(copy)) == Some(LoginTarget(cfg, asked, NeedsTerms(cfg, data)))
  {
    hide Reparses;
    TermsPageKeepsOrigin(cfg, copy.redirectURI);
  }

  lemma AgreementMeansTerms(cfg: Config, id: string, data: UserData, now: int)
    ensures NewSession(cfg, id, data, now).state == RequireAgreement <==> NeedsTerms(cfg, data)
  {
  }

  lemma DirectShape(cfg: Config, w: World, ctx: Context, slot: string, sess: Correlation, q: CallbackQuery)
    requires q.result.Authenticated? && !q.result.managed && q.signout.NoSignout?
    ensures
      var login := HandleLogin(cfg, w, ctx, sess, q.result.answer);
      ProviderStep(cfg, w, ctx, slot, sess, q) == RedirectToCaller(cfg, login.w, ctx, slot, login.sess)
  {
  }

  /**
   * An opaque URI is accepted as a piece of a registered one with a port, and its terms page is that URI itself, so a
   * login for it never reaches the terms page.
   */
  lemma OpaqueUrisMissTheTermsPage(cfg: Config)
    requires cfg.codec == PLAIN_CODEC
    ensures AllowedRedirect(["https://app:8080/cb"], "app:8080/cb")
    ensures cfg.codec.parse("app:8080/cb").Some? && cfg.codec.parse("app:8080/cb").value.opaquePart == "8080/cb"
    ensures BuildTOSRedirect(cfg, "app:8080/cb") == Some("app:8080/cb")
  {
    hide ParsePlain, RenderPlain, TermsPath;
    assert HasPrefix(["https://app:8080/cb"][0][8..], "app:8080/cb");
    assert "app:" + "8080/cb" == "app:8080/cb";
    OpaqueRereads("8080/cb", "");
    OpaqueRereads("8080/cb", TermsPath("", cfg.tosEndpoint));
  }

  /** The copy of a completed login carries a terms target exactly when the agreement is missing. */
  lemma CompletedCopy(cfg: Config, w: World, ctx: Context, slot: string, sess: Correlation, answer: Answer)
    requires LoginStarts(w, ctx, slot, sess) && EndOf(cfg, sess.redirectURI, ctx.ok, answer).Completed?
    ensures
      var copy := HandleLogin(cfg, w, ctx, sess, answer).sess;
      && HandleLogin(cfg, w, ctx, sess, answer).ok && copy.errorCode == "" && !copy.managedByProvider
      && copy.id == sess.id && copy.redirectURI == sess.redirectURI && copy.state == sess.state
      && copy.sessionCreated == Some(w.now)
      && copy.tosTargetURI ==
           if cfg.requiresTOS && !answer.data.isTOSAccepted then BuildTOSRedirect(cfg, sess.redirectURI) else None
  {
    LoginShape(cfg, w, ctx, slot, sess, answer);
    hide Created, CreateSession, NewSession, AuditLogin;
    SetHolds(w, ctx, slot, sess, sess.(sessionCreated := Some(w.now)), w.slots);
  }

  lemma RedirectTarget(cfg: Config, w: World, ctx: Context, slot: string, sess: Correlation)
    requires cfg.codec.parse(Destination(sess)).Some? && ctx.ok.codeWrite && |sess.errorCode| == 0 && sess.state.Some?
    ensures
      var after, u := RedirectToCaller(cfg, w, ctx, slot, sess), cfg.codec.parse(Destination(sess)).value;
      && after.sessions == w.sessions && Sent(after.trace, u, sess.state.value, sess.id)
      && (cfg.codeGrant && !sess.managedByProvider ==> CodeDated(after, ctx.names.code, sess.sessionCreated))
  {
  }

  /** A callback for a slot that holds a session does what the sign-out callback does, whatever the provider says. */
  lemma HeldCallbacksAreAlike(cfg: Config, w: World, ctx: Context, q: CallbackQuery)
    requires NamedSlot(w.slots, ctx.cookie, w.now).Some? && NamedSlot(w.slots, ctx.cookie, w.now).value.id != ""
    requires q.provider != "" && !q.signoutResponse
    ensures CallbackStep(cfg, w, ctx, q) == LogoutCallbackStep(cfg, w, ctx)
  {
    hide RedirectToCaller, ProviderStep;
  }

  /**
   * After a post-callback sign-out the terms page is lost, on the way back over the sign-out callback and over the
   * provider's callback alike: the redirect goes to the requested URI whatever the session needs, and its code carries no
   * creation time, so the exchange promises -1 seconds.
   */
  lemma SignedOutLoginsMissTheTermsPage(cfg: Config, h: Trust, w: World, ctx: Context, slot: string, q: CallbackQuery)
    requires Sound(cfg) && Reached(cfg, h, w) && ctx.cookie == Named(slot) && ctx.ok.slotRead && ctx.ok.codeWrite
    requires slot in w.slots && w.now < w.slots[slot].deadline && w.slots[slot].value.id != ""
    requires cfg.codec.parse(w.slots[slot].value.redirectURI).Some?
    requires q.provider != "" && !q.signoutResponse
    ensures
      var after := LogoutCallbackStep(cfg, w, ctx);
      var sess := w.slots[slot].value;
      && CallbackStep(cfg, w, ctx, q) == after
      && sess.state.Some?
      && Sent(after.trace, cfg.codec.parse(sess.redirectURI).value, sess.state.value, sess.id)
      && (cfg.codeGrant ==> CodeDated(after, ctx.names.code, None))
  {
    hide Inv, MayHandOver, RedirectToCaller, Reached, CallbackStep;
    ReachedKeeps(cfg, h, w);
    StoredReady(cfg, h, w, ctx, slot);
    HeldCallbacksAreAlike(cfg, w, ctx, q);
    RedirectTarget(cfg, w, ctx, slot, w.slots[slot].value);
  }

  // ---------------------------------------------------------------- expires_in

  /** The code that an exchange would redeem, when the exchange is going to succeed. */
  function RedeemedCode(w: World, ctx: Context, form: TokenForm): Option<OneTimeToken> {
    if form.grantType == Some("authorization_code") && form.redirectURI.Some? && form.code.Some? && ctx.ok.codeRead
    then
      var ott := Lookup(w.codes, form.code.value, w.now);
      if ott.Some? && RedirectMatches(ott.value, form.redirectURI.value) then ott else None
    else None
  }

  /** `n` seconds are no more than the `left` nanoseconds, up to the second that rounding a negative rest toward zero adds. */
  predicate AtMost(left: int, n: int) {
    (n - 1) * 1_000_000_000 < left && (left >= 0 ==> n * 1_000_000_000 <= left)
  }

  lemma EarlierIsAtMost(d: int, left: int, n: int)
    requires InSeconds(d, n) && d <= left
    ensures AtMost(left, n)
  {
  }

  /**
   * The exchange of `ott` happened and told the whole seconds left since its session was created; these are no more than
   * is left to that session, if it is still stored.
   */
  predicate PromiseKept(cfg: Config, w: World, ott: OneTimeToken, t: Trace) {
    && t.After? && t.past == w.trace && t.event.CodeExchanged? && t.event.token == ott.sessionToken
    && (ott.sessionCreated.None? ==> t.event.expiresIn == -1)
    && (ott.sessionCreated.Some? ==> InSeconds(cfg.sessionTimeout - (w.now - ott.sessionCreated.value), t.event.expiresIn))
    && (ott.sessionCreated.Some? && ott.sessionToken in w.sessions ==>
          && w.sessions[ott.sessionToken].value.lastAccessed.Some?
          && AtMost(cfg.sessionTimeout - (w.now - w.sessions[ott.sessionToken].value.lastAccessed.value), t.event.expiresIn))
  }

  /**
   * In every run, the lifetime that an exchange promises is at most the one left to its session, however often that
   * was kept alive since, if it is still stored; a code without creation time promises -1.
   */
  lemma ExchangesNeverOverPromise(cfg: Config, h: Trust, before: World, ctx: Context, form: TokenForm)
    requires Sound(cfg) && Reached(cfg, h, before)
    ensures
      var ott := RedeemedCode(Enter(before, ctx), ctx, form);
      ott.Some? ==> PromiseKept(cfg, Enter(before, ctx), ott.value, Apply(cfg, before, Step(ctx, Token(form))).trace)
  {
    hide Inv, Reached, TokenStep, RedeemedCode, PromiseKept;
    ReachedKeeps(cfg, h, before);
    ExchangePromise(cfg, h, before, ctx, form);
  }

  lemma ExchangePromise(cfg: Config, h: Trust, before: World, ctx: Context, form: TokenForm)
    requires Inv(cfg, h, before, "")
    ensures
      var w := Enter(before, ctx);
      var ott := RedeemedCode(w, ctx, form);
      ott.Some? ==> PromiseKept(cfg, w, ott.value, TokenStep(cfg, w, ctx, form).trace)
  {
    hide Flows, ServiceStep, GetSecondsToLive, InSeconds, AtMost;
    var w := Enter(before, ctx);
    var ott := RedeemedCode(w, ctx, form);
    if ott.Some? {
      SecondsAreTold(cfg.sessionTimeout, ott.value.sessionCreated, w.now);
      if ott.value.sessionCreated.Some? && ott.value.sessionToken in w.sessions {
        var s := w.sessions[ott.value.sessionToken].value;
        assert Alive(cfg, ott.value.sessionToken, w.sessions[ott.value.sessionToken], before.now);
        assert Aged(ott.value.sessionCreated, ott.value.sessionToken, w.sessions);
        EarlierIsAtMost(cfg.sessionTimeout - (w.now - ott.value.sessionCreated.value),
          cfg.sessionTimeout - (w.now - s.lastAccessed.value),
          GetSecondsToLive(cfg.sessionTimeout, ott.value.sessionCreated, w.now));
      }
    }
  }
}
