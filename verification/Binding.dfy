/** Over whole runs: a flow ends where its request asked, and an abandoned flow leaves no mark on the next one. */
module Binding {
  import opened Basics
  import opened Settings
  import opened Entities
  import opened Clients
  import opened Validators
  import opened Traces
  import opened Protocol
  import opened Invariants
  import opened Preservation

  /** The URL has the origin of `asked` and its path, or the path of its terms page. */
  predicate KeepsOrigin(cfg: Config, url: Url, asked: Url) {
    && url.scheme == asked.scheme && url.host == asked.host && url.opaquePart == asked.opaquePart && url.rest == asked.rest
    && (url.path == asked.path || url.path == TermsPath(asked.path, cfg.tosEndpoint))
  }

  /** What the codec makes of the terms page of `asked`: its origin at the terms path, exactly when that is anchored. */
  predicate PageIs(cfg: Config, page: Url, asked: Url) {
    var path := TermsPath(asked.path, cfg.tosEndpoint);
    if asked.opaquePart != "" then page == WithPath(asked, asked.path) else page == WithPath(asked, path) <==> Anchored(asked, path)
  }

  /** The URL is the requested one with its own parameters, or its terms page without them, and what the redirect carries. */
  ghost predicate EndsAt(cfg: Config, url: Url, a: Acceptance, issue: Issue) {
    var asked := cfg.codec.parse(a.redirectURI);
    && asked.Some?
    && (|| Carries(url, asked.value, a.state, issue)
        || (&& LeadsToPage(cfg, url, a.redirectURI, a.state, issue)
            && (Reparses(cfg.codec) ==>
                  PageIs(cfg, cfg.codec.parse(BuildTOSRedirect(cfg, a.redirectURI).value).value, asked.value))))
    && (Reparses(cfg.codec) && (asked.value.opaquePart != "" || Anchored(asked.value, TermsPath(asked.value.path, cfg.tosEndpoint)))
        ==> KeepsOrigin(cfg, url, asked.value))
  }

  /**
   * Whatever fails and however slots are reused: a successful exchange presents the redirect URI of the request that
   * was the latest accepted one on the slot which produced the code, that URI was allowed for its client, and the token
   * is the session that the redirect with the code handed over. Every redirect goes to such a request's URI with its own
   * parameters or to its terms page, and adds the request's state and the error or code and nothing else; with a codec
   * like net/url it stays on the origin of an anchored or opaque URI.
   */
  lemma FlowsEndWhereTheyWereAsked(cfg: Config, w: World, past: Trace, e: Event)
    requires Sound(cfg) && Reached(cfg, NO_TRUST, w)
    requires IsPrefix(After(past, e), w.trace)
    ensures e.CodeExchanged? ==>
      var request := CodeOrigin(past, e.code);
      && request.Some?
      && e.redirectURI == request.value.redirectURI
      && AllowedRedirect(request.value.registered, e.redirectURI)
      && IssuedFor(past, e.code) == Some(e.token)
    ensures e.Redirected? ==>
      var request := LatestAccepted(past, e.slot);
      && request.Some?
      && StaysWith(cfg, e.url, request.value, e.issue) && EndsAt(cfg, e.url, request.value, e.issue)
  {
    hide Inv, Reached, StaysWith, EndsAt;
    ReachedKeeps(cfg, NO_TRUST, w);
    TraceBound(cfg, NO_TRUST, w);
    BoundAtAnyTime(cfg, w.trace, After(past, e));
    if e.Redirected? {
      OriginStays(cfg, e.url, LatestAccepted(past, e.slot).value, e.issue);
    }
  }

  lemma OriginStays(cfg: Config, url: Url, a: Acceptance, issue: Issue)
    requires StaysWith(cfg, url, a, issue)
    ensures EndsAt(cfg, url, a, issue)
  {
    hide Reparses, Carries;
    TermsPageKeepsOrigin(cfg, a.redirectURI);
    var asked := cfg.codec.parse(a.redirectURI).value;
    if LeadsTo(cfg, url, a.redirectURI, a.state, issue) {
      CarriesKeeps(url, asked, a.state, issue);
    } else {
      var page := cfg.codec.parse(BuildTOSRedirect(cfg, a.redirectURI).value).value;
      CarriesKeeps(url, page, a.state, issue);
      assert Reparses(cfg.codec) ==> PageIs(cfg, page, asked);
    }
  }

  /** What a redirect carries is in the query alone. */
  lemma CarriesKeeps(url: Url, base: Url, state: string, issue: Issue)
    requires Carries(url, base, state, issue)
    ensures url == base.(query := url.query)
  {
  }

  /**
   * A terms page that is not anchored: with an endpoint that starts with two slashes, the page of the accepted bare URI
   * "/cb" lies on another host.
   */
  lemma RelativeUrisMayLeaveTheirOrigin(cfg: Config)
    requires cfg.codec == PLAIN_CODEC && cfg.tosEndpoint == "//other/terms"
    ensures AllowedRedirect(["https://app/cb"], "/cb")
    ensures cfg.codec.parse("/cb") == Some(Url("", "", "", true, "/cb", map[], ""))
    ensures BuildTOSRedirect(cfg, "/cb") == Some("//other/terms")
    ensures cfg.codec.parse("//other/terms") == Some(Url("", "other", "", false, "/terms", map[], ""))
  {
    hide ParsePlain, AllowedRedirect, BeforeSlash;
    BarePieceIsAccepted();
    BarePageLeaves();
    assert "/cb"[0] == '/' && "/cb"[1] == 'c';
    assert TermsPath("/cb", cfg.tosEndpoint) == "//other/terms";
  }

  lemma BarePieceIsAccepted()
    ensures AllowedRedirect(["https://app/cb"], "/cb")
  {
    assert HasPrefix(["https://app/cb"][0][11..], "/cb");
  }

  lemma BarePageLeaves()
    ensures ParsePlain("/cb") == Some(Url("", "", "", true, "/cb", map[], ""))
    ensures ':' !in BeforeSlash("//other/terms")
    ensures ParsePlain("//other/terms") == Some(Url("", "other", "", false, "/terms", map[], ""))
  {
    hide ParsePlain;
    assert "/cb"[0] == '/' && "/cb"[1] == 'c' && "//other/terms"[0] == '/';
    BareRereads("/cb");
    HostRereads("other", "/terms");
    assert "//" + ("other" + "/terms") == "//other/terms";
  }

  lemma TraceBound(cfg: Config, h: Trust, w: World)
    requires Inv(cfg, h, w, "")
    ensures AllBound(cfg, w.trace)
  {
  }

  // ---------------------------------------------------------------- no bleed between flows

  /**
   * Whatever the slot held before, an accepted `/authorize` leaves in it exactly a brand-new correlation for its
   * parameters; so the handler never finds a session ID there and its shortcut is dead.
   */
  lemma AcceptedSlotsAreNew(cfg: Config, w: World, ctx: Context, q: AuthorizeQuery)
    requires AcceptableQuery(w, q) && !ctx.cookie.Malformed? && ctx.ok.slotWrite && q.providerStarts
    ensures
      var w' := AuthorizeStep(cfg, w, ctx, q);
      var state := if q.state.Some? then q.state.value else ctx.names.state;
      var flow := Correlation("", q.clientID.value, q.redirectURI.value, q.nonce, Some(state), q.codeChallenge,
                              q.codeChallengeMethod, "", false, None, None);
      && w'.trace.After? && w'.trace.event.Accepted?
      && w'.trace.event.request ==
           Acceptance(q.clientID.value, w.clients[q.clientID.value].redirectURIs, q.redirectURI.value, state)
      && w'.slots == w.slots[w'.trace.event.slot := Entry(flow, w.now + 20 * 60 * 1_000_000_000)]
      && (w'.trace.event.slot == ctx.names.slot || (ctx.cookie == Named(w'.trace.event.slot) && w'.trace.event.slot in w.slots))
  {
    hide SetSlot;
    SetStoresNew(w.slots, ctx.cookie, RequestedCorrelation(ctx, q), ctx.names.slot, w.now, true);
    SetSucceeds(w.slots, ctx.cookie, RequestedCorrelation(ctx, q), ctx.names.slot, w.now);
  }

  lemma SetSucceeds(slots: Cache<Correlation>, cookie: Cookie, c: Correlation, ulid: string, now: int)
    requires !cookie.Malformed?
    ensures SetSlot(slots, cookie, c, ulid, now, true).result.Some?
  {
  }

  /**
   * Two services that differ only in what an earlier flow of the same client left in the browser's slot are the same
   * after `/authorize` wrote that slot, and after every sequence of requests that follows.
   */
  lemma PastFlowsLeaveNoMark(cfg: Config, w: World, other: World, k: string, ctx: Context, q: AuthorizeQuery, later: seq<Step>)
    requires k in w.slots && k in other.slots && other == w.(slots := w.slots[k := other.slots[k]])
    requires ctx.cookie == Named(k) && ctx.ok.slotWrite
    requires ctx.now < w.slots[k].deadline && ctx.now < other.slots[k].deadline
    requires w.slots[k].value.clientID == other.slots[k].value.clientID
    requires AcceptableQuery(w, q) && q.clientID == Some(w.slots[k].value.clientID)
    ensures
      var step := Step(ctx, Authorize(q));
      Run(cfg, Apply(cfg, w, step), later) == Run(cfg, Apply(cfg, other, step), later)
  {
    hide RedirectToCaller, Run, SetSlot, AuthorizeStep;
    var c := RequestedCorrelation(ctx, q);
    SameSlotAfterwards(w.slots, other.slots, k, c, ctx.names.slot, ctx.now);
    QueryLooksAtClients(w, Enter(w, ctx), q);
    QueryLooksAtClients(w, Enter(other, ctx), q);
    AuthorizeFactors(cfg, Enter(w, ctx), Enter(other, ctx), ctx, q);
  }

  lemma SameSlotAfterwards(a: Cache<Correlation>, b: Cache<Correlation>, k: string, c: Correlation, ulid: string, now: int)
    requires k in a && k in b && b == a[k := b[k]] && now < a[k].deadline && now < b[k].deadline
    requires a[k].value.clientID == b[k].value.clientID == c.clientID && c.id == ""
    ensures SetSlot(a, Named(k), c, ulid, now, true) == SetSlot(b, Named(k), c, ulid, now, true)
  {
    assert ResetCorrelation(a[k].value, c) == NewCorrelation(c) == ResetCorrelation(b[k].value, c);
    var e := Entry(NewCorrelation(c), now + SLOT_TTL);
    assert a[k := e] == b[k := e];
  }

  lemma QueryLooksAtClients(w: World, w': World, q: AuthorizeQuery)
    requires w.clients == w'.clients
    ensures AcceptableQuery(w, q) == AcceptableQuery(w', q)
  {
  }

  /** `/authorize` looks at the old slots only through what it writes. */
  lemma AuthorizeFactors(cfg: Config, a: World, b: World, ctx: Context, q: AuthorizeQuery)
    requires b == a.(slots := b.slots) && AcceptableQuery(a, q) && AcceptableQuery(b, q)
    requires
      var c := RequestedCorrelation(ctx, q);
      SetSlot(a.slots, ctx.cookie, c, ctx.names.slot, a.now, ctx.ok.slotWrite)
        == SetSlot(b.slots, ctx.cookie, c, ctx.names.slot, b.now, ctx.ok.slotWrite)
    requires !ctx.cookie.Malformed? && ctx.ok.slotWrite
    ensures AuthorizeStep(cfg, a, ctx, q) == AuthorizeStep(cfg, b, ctx, q)
  {
    hide RedirectToCaller, SetSlot;
    SetSucceeds(a.slots, ctx.cookie, RequestedCorrelation(ctx, q), ctx.names.slot, a.now);
    var written := SetSlot(a.slots, ctx.cookie, RequestedCorrelation(ctx, q), ctx.names.slot, a.now, true);
    assert a.(slots := written.slots) == b.(slots := written.slots);
  }

  // ---------------------------------------------------------------- the disabled code grant

  lemma NoCodesFromRedirect(cfg: Config, w: World, ctx: Context, slot: string, sess: Correlation)
    requires !cfg.codeGrant
    ensures NoCodes(w, RedirectToCaller(cfg, w, ctx, slot, sess))
  {
  }

  lemma NoCodesFromLogin(cfg: Config, w: World, ctx: Context, sess: Correlation, answer: Answer)
    ensures HandleLogin(cfg, w, ctx, sess, answer).w.codes == w.codes
    ensures forall s :: Exchanges(HandleLogin(cfg, w, ctx, sess, answer).w.trace, s) == Exchanges(w.trace, s)
  {
    hide SetSlot, NewSession, BuildTOSRedirect, AuditLogin, CreateSession;
    forall w': World, session: Session ensures
      var c := CreateSession(cfg, w', session, false, ctx.ok.sessionWrite);
      c.codes == w'.codes && forall s :: Exchanges(c.trace, s) == Exchanges(w'.trace, s)
    {
      NoCodesFromCreate(cfg, w', session, ctx.ok.sessionWrite);
    }
    forall w': World, c: Correlation ensures
      var l := AuditLogin(w', ctx, c, ctx.ok.sessionWrite);
      l.w.codes == w'.codes && forall s :: Exchanges(l.w.trace, s) == Exchanges(w'.trace, s)
    {
      NoCodesFromAudit(w', ctx, c);
    }
  }

  lemma NoCodesFromCreate(cfg: Config, w: World, session: Session, ok: bool)
    ensures
      var c := CreateSession(cfg, w, session, false, ok);
      c.codes == w.codes && forall s :: Exchanges(c.trace, s) == Exchanges(w.trace, s)
  {
  }

  lemma NoCodesFromAudit(w: World, ctx: Context, c: Correlation)
    ensures
      var l := AuditLogin(w, ctx, c, ctx.ok.sessionWrite);
      l.w.codes == w.codes && forall s :: Exchanges(l.w.trace, s) == Exchanges(w.trace, s)
  {
  }

  /** Neither the codes nor the exchanges changed. */
  ghost predicate NoCodes(w: World, after: World) {
    after.codes == w.codes && forall s :: Exchanges(after.trace, s) == Exchanges(w.trace, s)
  }

  lemma NoCodesFromProvider(cfg: Config, w: World, ctx: Context, slot: string, sess: Correlation, q: CallbackQuery)
    requires !cfg.codeGrant
    ensures NoCodes(w, ProviderStep(cfg, w, ctx, slot, sess, q))
  {
    hide RedirectToCaller, HandleLogin;
    match q.result
    case Rejected(code) =>
      NoCodesFromRedirect(cfg, w, ctx, slot, sess.(errorCode := if code.Some? then code.value else INVALID_CALLBACK));
    case Authenticated(managed, answer) =>
      if managed {
        NoCodesFromRedirect(cfg, w, ctx, slot, sess.(managedByProvider := true));
      } else {
        var login := HandleLogin(cfg, w, ctx, sess, answer);
        NoCodesFromLogin(cfg, w, ctx, sess, answer);
        NoCodesFromRedirect(cfg, login.w, ctx, slot, login.sess);
      }
  }

  lemma NoCodesFromCallback(cfg: Config, w: World, ctx: Context, q: CallbackQuery)
    requires !cfg.codeGrant
    ensures NoCodes(w, CallbackStep(cfg, w, ctx, q))
  {
    hide RedirectToCaller, ProviderStep;
    if NamedSlot(w.slots, ctx.cookie, w.now).Some? {
      var slot, sess := CookieSlot(ctx.cookie), NamedSlot(w.slots, ctx.cookie, w.now).value;
      NoCodesFromRedirect(cfg, w, ctx, slot, sess);
      NoCodesFromRedirect(cfg, w, ctx, slot, sess.(errorCode := INVALID_CALLBACK));
      NoCodesFromRedirect(cfg, w, ctx, slot, sess.(errorCode := CANCELED));
      NoCodesFromProvider(cfg, Emit(w, AnswerTo(ctx, sess, q)), ctx, slot, sess.(id := ctx.names.session), q);
    }
  }

  lemma NoCodesFromAuthorize(cfg: Config, w: World, ctx: Context, q: AuthorizeQuery)
    requires !cfg.codeGrant
    ensures NoCodes(w, AuthorizeStep(cfg, w, ctx, q))
  {
    hide RedirectToCaller, SetSlot, AcceptableQuery;
    forall w': World, slot: string, sess: Correlation ensures NoCodes(w', RedirectToCaller(cfg, w', ctx, slot, sess)) {
      NoCodesFromRedirect(cfg, w', ctx, slot, sess);
    }
  }

  lemma NoCodesFromFlow(cfg: Config, w: World, ctx: Context, request: Request)
    requires !cfg.codeGrant
    requires request.Authorize? || request.Callback? || request.LogoutCallback?
    ensures NoCodes(w, Handle(cfg, w, ctx, request))
  {
    hide NoCodes, RedirectToCaller, AuthorizeStep, CallbackStep;
    match request
    case Authorize(q) => NoCodesFromAuthorize(cfg, w, ctx, q);
    case Callback(q) => NoCodesFromCallback(cfg, w, ctx, q);
    case LogoutCallback =>
      NothingChanged(w);
      if NamedSlot(w.slots, ctx.cookie, w.now).Some? {
        NoCodesFromRedirect(cfg, w, ctx, CookieSlot(ctx.cookie), NamedSlot(w.slots, ctx.cookie, w.now).value);
      }
  }

  lemma NothingChanged(w: World)
    ensures NoCodes(w, w)
  {
  }

  lemma NoCodesFromStep(cfg: Config, w: World, step: Step)
    requires !cfg.codeGrant && w.codes == map[] && forall s :: Exchanges(w.trace, s) == 0
    ensures Apply(cfg, w, step).codes == map[] && forall s :: Exchanges(Apply(cfg, w, step).trace, s) == 0
  {
    var w1 := Enter(w, step.ctx);
    if step.request.Authorize? || step.request.Callback? || step.request.LogoutCallback? {
      hide Handle;
      NoCodesFromFlow(cfg, w1, step.ctx, step.request);
    } else if step.request.Token? {
      hide ServiceStep;
      NoCodesFromToken(cfg, w1, step.ctx, step.request.form);
    } else {
      NoCodesFromSessions(cfg, w1, step.ctx, step.request);
    }
  }

  lemma NoCodesFromToken(cfg: Config, w: World, ctx: Context, form: TokenForm)
    requires w.codes == map[]
    ensures TokenStep(cfg, w, ctx, form).codes == map[]
    ensures forall s :: Exchanges(TokenStep(cfg, w, ctx, form).trace, s) == Exchanges(w.trace, s)
  {
    hide ServiceStep;
    if form.grantType.Some? {
      NoCodesFromService(cfg, w, ctx, form.grantType.value, form);
    }
    if form.code.Some? {
      assert Drop(w.codes, form.code.value) == map[];
    }
  }

  lemma NoCodesFromService(cfg: Config, w: World, ctx: Context, grantType: string, form: TokenForm)
    ensures
      var w' := ServiceStep(cfg, w, ctx, grantType, form.evidence, form.answer);
      w'.codes == w.codes && forall s :: Exchanges(w'.trace, s) == Exchanges(w.trace, s)
  {
    hide ServiceClient, SingleRole;
    if form.answer.Granted? {
      var session := NewServiceSession(ctx.names.session, form.answer.data, w.now);
      var w1 := CreateSession(cfg, w, session, true, ctx.ok.sessionWrite);
      assert forall s :: Exchanges(w1.trace, s) == Exchanges(w.trace, s);
      assert forall s :: Exchanges(After(w1.trace, ServiceAudited(session.id)), s) == Exchanges(w.trace, s);
    }
  }

  lemma NoCodesFromSessions(cfg: Config, w: World, ctx: Context, request: Request)
    requires w.codes == map[]
    requires !request.Authorize? && !request.Callback? && !request.LogoutCallback? && !request.Token?
    ensures Handle(cfg, w, ctx, request).codes == map[]
    ensures forall s :: Exchanges(Handle(cfg, w, ctx, request).trace, s) == Exchanges(w.trace, s)
  {
    hide Resolve, ChosenRole, AfterRole, AfterTerms, TermsGateOpen, LoadAll;
    if request.Evict? {
      assert w.codes - request.codes == map[];
    }
  }

  /**
   * With the code grant disabled no code is ever stored, so no exchange hands out a token, although the exchange goes
   * on after it has answered that the grant is disabled.
   */
  lemma {:induction false} DisabledGrantHandsOutNothing(cfg: Config, steps: seq<Step>, s: string)
    requires !cfg.codeGrant
    ensures Run(cfg, EMPTY_WORLD, steps).codes == map[]
    ensures Exchanges(Run(cfg, EMPTY_WORLD, steps).trace, s) == 0
  {
    NoExchanges(cfg, steps);
  }

  lemma {:induction false} NoExchanges(cfg: Config, steps: seq<Step>)
    requires !cfg.codeGrant
    ensures Run(cfg, EMPTY_WORLD, steps).codes == map[]
    ensures forall s :: Exchanges(Run(cfg, EMPTY_WORLD, steps).trace, s) == 0
  {
    if steps != [] {
      NoExchanges(cfg, steps[..|steps| - 1]);
      hide Apply;
      NoCodesFromStep(cfg, Run(cfg, EMPTY_WORLD, steps[..|steps| - 1]), steps[|steps| - 1]);
    }
  }
}
