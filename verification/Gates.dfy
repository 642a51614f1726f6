/** Over whole runs: how sessions get past the terms and role gates. */
module Gates {
  import opened Basics
  import opened Settings
  import opened Entities
  import opened Traces
  import opened Protocol
  import opened Invariants
  import opened Preservation
  import opened Lifetimes

  predicate StoredAuthorized(sessions: Cache<Session>, s: string) {
    s in sessions && sessions[s].value.IsAuthorized()
  }

  // ---------------------------------------------------------------- the way into authorized

  lemma NewLoginsRespectTerms(cfg: Config, w: World, ctx: Context, sess: Correlation, answer: Answer)
    requires cfg.requiresTOS && sess.id !in w.sessions
    ensures StoredAuthorized(HandleLogin(cfg, w, ctx, sess, answer).w.sessions, sess.id) ==>
              HandleLogin(cfg, w, ctx, sess, answer).w.sessions[sess.id].value.isTOSAccepted
  {
    hide SetSlot, NewSession, BuildTOSRedirect, AuditLogin;
    if answer.Granted? {
      var session := NewSession(cfg, sess.id, answer.data, w.now);
      NewSessionRespectsTerms(cfg, sess.id, answer.data, w.now);
      forall w': World, c: Correlation | c.id == sess.id ensures
        var after := AuditLogin(w', ctx, c, ctx.ok.sessionWrite).w.sessions;
        sess.id in after ==> sess.id in w'.sessions && after[sess.id] == w'.sessions[sess.id]
      {
        AuditOnlyDrops(w', ctx, c);
      }
    }
  }

  lemma NewSessionRespectsTerms(cfg: Config, id: string, data: UserData, now: int)
    requires cfg.requiresTOS
    ensures NewSession(cfg, id, data, now).id == id
    ensures NewSession(cfg, id, data, now).IsAuthorized() ==> NewSession(cfg, id, data, now).isTOSAccepted
  {
  }

  lemma AuditOnlyDrops(w: World, ctx: Context, c: Correlation)
    ensures
      var after := AuditLogin(w, ctx, c, ctx.ok.sessionWrite).w.sessions;
      c.id in after ==> c.id in w.sessions && after[c.id] == w.sessions[c.id]
  {
  }

  lemma CallbacksRespectTerms(cfg: Config, w: World, ctx: Context, q: CallbackQuery)
    requires cfg.requiresTOS && ctx.names.session !in w.sessions
    ensures StoredAuthorized(CallbackStep(cfg, w, ctx, q).sessions, ctx.names.session) ==>
              CallbackStep(cfg, w, ctx, q).sessions[ctx.names.session].value.isTOSAccepted
  {
    hide RedirectToCaller, HandleLogin;
    forall w': World, slot: string, sess: Correlation ensures RedirectToCaller(cfg, w', ctx, slot, sess).sessions == w'.sessions {
      RedirectSpares(cfg, w', ctx, slot, sess);
    }
    forall w': World, sess: Correlation, answer: Answer | sess.id == ctx.names.session && sess.id !in w'.sessions ensures
      var after := HandleLogin(cfg, w', ctx, sess, answer).w.sessions;
      StoredAuthorized(after, sess.id) ==> after[sess.id].value.isTOSAccepted
    {
      NewLoginsRespectTerms(cfg, w', ctx, sess, answer);
    }
  }

  /** If the session is authorized now and was not before, its terms are accepted. */
  predicate GateHolds(before: Cache<Session>, after: Cache<Session>, s: string) {
    StoredAuthorized(after, s) && !StoredAuthorized(before, s) ==> after[s].value.isTOSAccepted
  }

  lemma RespondGate(cfg: Config, w: World, w': World, ctx: Context, session: Session, s: string)
    requires GateHolds(w.sessions, w'.sessions, s)
    ensures GateHolds(w.sessions, RespondStep(cfg, w', ctx, s, session).sessions, s)
  {
    hide GetSecondsToLive;
  }

  lemma KeepAliveGate(cfg: Config, w: World, ctx: Context, s: string)
    requires s in w.sessions && w.sessions[s].value.id == s
    ensures GateHolds(w.sessions, KeepAliveStep(cfg, w, ctx, s).sessions, s)
  {
    hide RespondStep;
    var current := w.sessions[s].value.(lastAccessed := Some(w.now));
    RespondGate(cfg, w, w, ctx, current, s);
    RespondGate(cfg, w, StoreSession(cfg, w, current), ctx, current, s);
  }

  lemma RoleGate(cfg: Config, w: World, ctx: Context, s: string, roleID: Option<string>)
    requires cfg.requiresTOS && s in w.sessions && w.sessions[s].value.id == s
    ensures GateHolds(w.sessions, SetRoleStep(cfg, w, ctx, s, roleID).sessions, s)
  {
    hide RespondStep, ChosenRole;
    var session := w.sessions[s].value;
    if TermsGateOpen(cfg, session) && ChosenRole(session, roleID).Some? {
      var current := AfterRole(session, ChosenRole(session, roleID).value);
      RespondGate(cfg, w, Emit(StoreSession(cfg, w, current), RoleChosen(current.id)), ctx, current, s);
    }
  }

  lemma TermsGate(cfg: Config, w: World, ctx: Context, s: string, answer: Answer)
    requires s in w.sessions && w.sessions[s].value.id == s
    ensures GateHolds(w.sessions, AcceptTermsStep(cfg, w, ctx, s, answer).sessions, s)
  {
    hide PlaceTerms;
  }

  /** A session request makes its own session authorized only with accepted terms. */
  lemma OwnRequestsRespectTerms(cfg: Config, h: Trust, w: World, ctx: Context, request: Request, s: string)
    requires Inv(cfg, h, w, "") && cfg.requiresTOS && AboutSession(request) && request.bearer == s
    ensures GateHolds(w.sessions, Handle(cfg, w, ctx, request).sessions, s)
  {
    hide Inv, KeepAliveStep, SetRoleStep, AcceptTermsStep, RespondStep, Resolve;
    if Resolve(w, ctx, s).None? {
      Unauthorized(cfg, w, ctx, request);
    } else {
      Resolved(cfg, h, w, ctx, s);
      match request
      case GetSession(_) => RespondGate(cfg, w, w, ctx, Resolve(w, ctx, s).value, s);
      case KeepAlive(_) => KeepAliveGate(cfg, w, ctx, s);
      case Logout(_) =>
      case AcceptTerms(_, answer) => TermsGate(cfg, w, ctx, s, answer);
      case SetRole(_, roleID) => RoleGate(cfg, w, ctx, s, roleID);
    }
  }

  lemma StepRespectsTerms(cfg: Config, h: Trust, w: World, step: Step, s: string)
    requires Inv(cfg, h, w, "") && Admissible(w, step) && cfg.requiresTOS
    requires !(step.request.Token? && s == step.ctx.names.session)
    ensures GateHolds(w.sessions, Apply(cfg, w, step).sessions, s)
  {
    hide Inv, Handle, AllUnused;
    var w1, ctx, request := Enter(w, step.ctx), step.ctx, step.request;
    EnterKeeps(cfg, h, w, step);
    if AboutSession(request) {
      if request.bearer == s {
        OwnRequestsRespectTerms(cfg, h, w1, ctx, request, s);
      } else {
        OthersSpareSession(cfg, h, w1, ctx, request, s);
      }
    } else if request.Evict? {
      EvictedSessions(cfg, w1, ctx, request, s);
    } else if s != ctx.names.session {
      FlowsSpare(cfg, w1, ctx, request, s);
    } else {
      FreshSession(cfg, h, w, step);
      FreshFlow(cfg, w1, ctx, request);
    }
  }

  /**
   * In every run, when terms are required: a step that makes a session authorized which was not leaves it with accepted
   * terms, unless it is the session that a token request, by a service grant, opens under its fresh name.
   */
  lemma AuthorizedOnlyBehindTheTerms(cfg: Config, h: Trust, w: World, step: Step, s: string)
    requires Sound(cfg) && Reached(cfg, h, w) && Admissible(w, step) && cfg.requiresTOS
    ensures
      var after := Apply(cfg, w, step).sessions;
      StoredAuthorized(after, s) && !StoredAuthorized(w.sessions, s) ==>
        after[s].value.isTOSAccepted || (step.request.Token? && s == step.ctx.names.session)
  {
    hide Inv, Reached, Apply, Admissible, StoredAuthorized;
    ReachedKeeps(cfg, h, w);
    if !(step.request.Token? && s == step.ctx.names.session) {
      StepRespectsTerms(cfg, h, w, step, s);
    }
    assert StoredAuthorized(Apply(cfg, w, step).sessions, s) ==> s in Apply(cfg, w, step).sessions by {
      AuthorizedIsStored(Apply(cfg, w, step).sessions, s);
    }
  }

  lemma AuthorizedIsStored(sessions: Cache<Session>, s: string)
    ensures StoredAuthorized(sessions, s) ==> s in sessions
  {
  }

  lemma FreshFlow(cfg: Config, w: World, ctx: Context, request: Request)
    requires cfg.requiresTOS && ctx.names.session !in w.sessions
    requires request.Authorize? || request.Callback? || request.LogoutCallback? || request.ReloadClients?
    ensures
      var after := Handle(cfg, w, ctx, request).sessions;
      StoredAuthorized(after, ctx.names.session) ==> after[ctx.names.session].value.isTOSAccepted
  {
    hide CallbackStep, AuthorizeStep, RedirectToCaller;
    match request
    case Callback(q) => CallbacksRespectTerms(cfg, w, ctx, q);
    case Authorize(q) => AuthorizeSpares(cfg, w, ctx, q);
    case LogoutCallback =>
      if NamedSlot(w.slots, ctx.cookie, w.now).Some? {
        RedirectSpares(cfg, w, ctx, CookieSlot(ctx.cookie), NamedSlot(w.slots, ctx.cookie, w.now).value);
      }
    case _ =>
  }

  // ---------------------------------------------------------------- what stored sessions tell

  /**
   * After every run, each stored session is in one of three states: it awaits the agreement only with terms required
   * and not accepted and without a role, it awaits a role only with roles required and without one, and with a role
   * it is authorized and neither the role nor its organization is blocked. An interactive session that is authorized
   * while roles are required has a role, exactly unless its latest accepted terms answer had a single, blocked role and
   * no role was chosen since. With an authorizer that honours acceptance, the role is one of the current roles and an
   * interactive session awaits the agreement exactly when its terms are not accepted.
   */
  lemma StoredSessionsAreInOrder(cfg: Config, h: Trust, w: World, s: string)
    requires Sound(cfg) && Reached(cfg, h, w) && s in w.sessions
    ensures
      var session := w.sessions[s].value;
      && session.id == s && WellPlaced(cfg, session)
      && (cfg.requiresRole && session.state == Authorized && s !in ServiceStored(w.trace) ==>
            (session.role.Some? <==> !LapsedByTerms(w.trace, s)))
      && (h.honoured && session.role.Some? ==> session.role.value in session.roles)
      && (h.honoured && cfg.requiresTOS && s !in ServiceStored(w.trace) ==>
            (session.state == RequireAgreement <==> !session.isTOSAccepted))
  {
    hide Inv, Reached;
    ReachedKeeps(cfg, h, w);
    SoundSession(cfg, h, w, s);
  }

  lemma SoundSession(cfg: Config, h: Trust, w: World, s: string)
    requires Inv(cfg, h, w, "") && s in w.sessions
    ensures w.sessions[s].value.id == s && SessionSound(cfg, h, w.trace, w.sessions[s].value)
  {
    hide Flows, SessionSound;
  }

  /**
   * Without that trust: an answer to an acceptance request leaves the role among the current roles exactly when the
   * terms came back accepted, there was no role, or the old role is still listed.
   */
  lemma RoleStaysCurrentWhen(cfg: Config, session: Session, data: UserData, now: int)
    ensures
      var after := AfterTerms(cfg, session, data, now);
      (after.role.Some? ==> after.role.value in after.roles)
      <==> (data.isTOSAccepted || session.role.None? || session.role.value in data.roles)
  {
  }

  /** Nor does the agreement state tell the terms then: it does exactly when they came back accepted or it awaits them. */
  lemma AgreementTellsTheTermsWhen(cfg: Config, session: Session, data: UserData, now: int)
    ensures
      var after := AfterTerms(cfg, session, data, now);
      (after.state == RequireAgreement <==> !after.isTOSAccepted)
      <==> (data.isTOSAccepted || session.state == RequireAgreement)
  {
  }

  /** A terms answer authorizes with a blocked single role, where a login with the same answer would ask for a role. */
  lemma TermsAuthorizeABlockedRole(cfg: Config, session: Session, data: UserData, now: int)
    requires cfg.requiresRole && data.isTOSAccepted && OnlyRoleBlocked(data.roles)
    ensures AfterTerms(cfg, session, data, now).IsAuthorized() && AfterTerms(cfg, session, data, now).role.None?
    ensures NewSession(cfg, session.id, data, now).state == RequireRole
  {
  }
}
