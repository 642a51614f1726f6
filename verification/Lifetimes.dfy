/** How long sessions live: keep-alive, cache deadlines and the lifetime promised with a code. */
module Lifetimes {
  import opened Basics
  import opened Settings
  import opened Entities
  import opened Validators
  import opened Traces
  import opened Protocol
  import opened Invariants
  import opened Preservation

  // ---------------------------------------------------------------- what a step does to one session

  /** Both caches agree on session `s`. */
  predicate SameEntry(a: Cache<Session>, b: Cache<Session>, s: string) {
    (s in a <==> s in b) && (s in a ==> a[s] == b[s])
  }

  /** Neither the clock nor the names drawn changed. */
  predicate SameClock(a: World, b: World) {
    a.now == b.now && a.minted == b.minted
  }

  lemma RedirectSpares(cfg: Config, w: World, ctx: Context, slot: string, sess: Correlation)
    ensures RedirectToCaller(cfg, w, ctx, slot, sess).sessions == w.sessions
    ensures SameClock(RedirectToCaller(cfg, w, ctx, slot, sess), w)
  {
  }

  lemma LoginSpares(cfg: Config, w: World, ctx: Context, sess: Correlation, answer: Answer, s: string)
    requires s != sess.id
    ensures SameEntry(HandleLogin(cfg, w, ctx, sess, answer).w.sessions, w.sessions, s)
    ensures SameClock(HandleLogin(cfg, w, ctx, sess, answer).w, w)
  {
    hide SetSlot, NewSession, BuildTOSRedirect, AuditLogin, CreateSession;
    if answer.Granted? {
      var session := NewSession(cfg, sess.id, answer.data, w.now);
      NewSessionID(cfg, sess.id, answer.data, w.now);
      forall w': World ensures
        var c := CreateSession(cfg, w', session, false, ctx.ok.sessionWrite);
        SameEntry(c.sessions, w'.sessions, s) && SameClock(c, w')
      {
        CreateSpares(cfg, w', session, false, ctx.ok.sessionWrite, s);
      }
      forall w': World, c: Correlation | c.id == sess.id ensures
        var l := AuditLogin(w', ctx, c, ctx.ok.sessionWrite);
        SameEntry(l.w.sessions, w'.sessions, s) && SameClock(l.w, w')
      {
        AuditSpares(w', ctx, c, s);
      }
    }
  }

  lemma NewSessionID(cfg: Config, id: string, data: UserData, now: int)
    ensures NewSession(cfg, id, data, now).id == id
  {
  }

  lemma CreateSpares(cfg: Config, w: World, session: Session, service: bool, ok: bool, s: string)
    requires s != session.id
    ensures SameEntry(CreateSession(cfg, w, session, service, ok).sessions, w.sessions, s)
    ensures SameClock(CreateSession(cfg, w, session, service, ok), w)
  {
  }

  lemma AuditSpares(w: World, ctx: Context, sess: Correlation, s: string)
    requires s != sess.id
    ensures SameEntry(AuditLogin(w, ctx, sess, ctx.ok.sessionWrite).w.sessions, w.sessions, s)
    ensures SameClock(AuditLogin(w, ctx, sess, ctx.ok.sessionWrite).w, w)
  {
  }

  lemma CallbackSpares(cfg: Config, w: World, ctx: Context, q: CallbackQuery, s: string)
    requires s != ctx.names.session
    ensures SameEntry(CallbackStep(cfg, w, ctx, q).sessions, w.sessions, s)
    ensures SameClock(CallbackStep(cfg, w, ctx, q), w)
  {
    hide RedirectToCaller, HandleLogin;
    forall w': World, slot: string, sess: Correlation ensures
      var r := RedirectToCaller(cfg, w', ctx, slot, sess);
      r.sessions == w'.sessions && SameClock(r, w')
    {
      RedirectSpares(cfg, w', ctx, slot, sess);
    }
    forall w': World, sess: Correlation, answer: Answer | sess.id == ctx.names.session ensures
      var l := HandleLogin(cfg, w', ctx, sess, answer);
      SameEntry(l.w.sessions, w'.sessions, s) && SameClock(l.w, w')
    {
      LoginSpares(cfg, w', ctx, sess, answer, s);
    }
  }

  lemma AuthorizeSpares(cfg: Config, w: World, ctx: Context, q: AuthorizeQuery)
    ensures AuthorizeStep(cfg, w, ctx, q).sessions == w.sessions
    ensures SameClock(AuthorizeStep(cfg, w, ctx, q), w)
  {
    hide RedirectToCaller, SetSlot, AcceptableQuery;
    forall w': World, slot: string, sess: Correlation ensures
      var r := RedirectToCaller(cfg, w', ctx, slot, sess);
      r.sessions == w'.sessions && SameClock(r, w')
    {
      RedirectSpares(cfg, w', ctx, slot, sess);
    }
  }

  lemma ServiceSpares(cfg: Config, w: World, ctx: Context, grantType: string, ev: Evidence, answer: Answer, s: string)
    requires s != ctx.names.session
    ensures SameEntry(ServiceStep(cfg, w, ctx, grantType, ev, answer).sessions, w.sessions, s)
    ensures SameClock(ServiceStep(cfg, w, ctx, grantType, ev, answer), w)
  {
    hide ServiceClient, OpenService;
    if answer.Granted? {
      OpenSpares(cfg, w, ctx, answer.data, s);
    }
  }

  lemma OpenSpares(cfg: Config, w: World, ctx: Context, data: UserData, s: string)
    requires s != ctx.names.session
    ensures SameEntry(OpenService(cfg, w, ctx, data).sessions, w.sessions, s)
    ensures SameClock(OpenService(cfg, w, ctx, data), w)
  {
    hide NewServiceSession, GetSecondsToLive, CreateSession;
    var session := NewServiceSession(ctx.names.session, data, w.now);
    ServiceSessionID(ctx.names.session, data, w.now);
    CreateSpares(cfg, w, session, true, ctx.ok.sessionWrite, s);
  }

  lemma ServiceSessionID(id: string, data: UserData, now: int)
    ensures NewServiceSession(id, data, now).id == id
  {
  }

  /** Requests of login flows and of the token endpoint touch no session that exists already. */
  lemma FlowsSpare(cfg: Config, w: World, ctx: Context, request: Request, s: string)
    requires s != ctx.names.session
    requires request.Authorize? || request.Callback? || request.LogoutCallback? || request.Token? || request.ReloadClients?
    ensures SameEntry(Handle(cfg, w, ctx, request).sessions, w.sessions, s)
    ensures SameClock(Handle(cfg, w, ctx, request), w)
  {
    hide CallbackStep, ServiceStep, AuthorizeStep, RedirectToCaller;
    match request
    case Authorize(q) => AuthorizeSpares(cfg, w, ctx, q);
    case Callback(q) => CallbackSpares(cfg, w, ctx, q, s);
    case Token(form) =>
      if form.grantType.Some? {
        ServiceSpares(cfg, w, ctx, form.grantType.value, form.evidence, form.answer, s);
      }
    case LogoutCallback =>
      if NamedSlot(w.slots, ctx.cookie, w.now).Some? {
        RedirectSpares(cfg, w, ctx, CookieSlot(ctx.cookie), NamedSlot(w.slots, ctx.cookie, w.now).value);
      }
    case _ =>
  }

  /** A step moves the clock to its own time and only adds its own names to those drawn. */
  lemma ClockAdvances(cfg: Config, w: World, step: Step)
    ensures Apply(cfg, w, step).now == step.ctx.now
    ensures Apply(cfg, w, step).minted == w.minted + NameSet(step.ctx.names)
  {
    if !AboutSession(step.request) && !step.request.Evict? {
      hide Handle;
      FlowsSpare(cfg, Enter(w, step.ctx), step.ctx, step.request, step.ctx.names.session + ".");
    } else {
      SessionRequestClock(cfg, Enter(w, step.ctx), step.ctx, step.request);
    }
  }

  lemma SessionRequestClock(cfg: Config, w: World, ctx: Context, request: Request)
    requires AboutSession(request) || request.Evict?
    ensures SameClock(Handle(cfg, w, ctx, request), w)
  {
    hide Resolve, ChosenRole, AfterRole, AfterTerms, TermsGateOpen;
  }

  lemma RespondSpares(cfg: Config, w: World, ctx: Context, id: string, session: Session, s: string)
    requires id != s
    ensures SameEntry(RespondStep(cfg, w, ctx, id, session).sessions, w.sessions, s)
  {
    hide GetSecondsToLive;
  }

  lemma StoreSpares(cfg: Config, w: World, session: Session, s: string)
    requires session.id != s
    ensures SameEntry(StoreSession(cfg, w, session).sessions, w.sessions, s)
  {
  }

  lemma KeepAliveSpares(cfg: Config, w: World, ctx: Context, bearer: string, s: string)
    requires Resolve(w, ctx, bearer).Some? && Resolve(w, ctx, bearer).value.id == bearer != s
    ensures SameEntry(KeepAliveStep(cfg, w, ctx, bearer).sessions, w.sessions, s)
  {
    hide RespondStep, StoreSession;
    var current := Resolve(w, ctx, bearer).value.(lastAccessed := Some(w.now));
    StoreSpares(cfg, w, current, s);
    RespondSpares(cfg, w, ctx, bearer, current, s);
    RespondSpares(cfg, StoreSession(cfg, w, current), ctx, bearer, current, s);
  }

  lemma SetRoleSpares(cfg: Config, w: World, ctx: Context, bearer: string, roleID: Option<string>, s: string)
    requires Resolve(w, ctx, bearer).Some? && Resolve(w, ctx, bearer).value.id == bearer != s
    ensures SameEntry(SetRoleStep(cfg, w, ctx, bearer, roleID).sessions, w.sessions, s)
  {
    hide RespondStep, StoreSession, ChosenRole, TermsGateOpen, Resolve;
    var session := Resolve(w, ctx, bearer).value;
    if ChosenRole(session, roleID).Some? {
      var current := AfterRole(session, ChosenRole(session, roleID).value);
      StoreSpares(cfg, w, current, s);
      RespondSpares(cfg, Emit(StoreSession(cfg, w, current), RoleChosen(current.id)), ctx, bearer, current, s);
    }
  }

  lemma AcceptTermsSpares(cfg: Config, w: World, ctx: Context, bearer: string, answer: Answer, s: string)
    requires Resolve(w, ctx, bearer).Some? && Resolve(w, ctx, bearer).value.id == bearer != s
    ensures SameEntry(AcceptTermsStep(cfg, w, ctx, bearer, answer).sessions, w.sessions, s)
  {
    hide StoreSession, AfterTerms, Resolve;
    if answer.Granted? {
      var session := Resolve(w, ctx, bearer).value;
      AfterTermsID(cfg, session, answer.data, w.now);
      StoreSpares(cfg, w, AfterTerms(cfg, session, answer.data, w.now), s);
    }
  }

  lemma AfterTermsID(cfg: Config, session: Session, data: UserData, now: int)
    ensures AfterTerms(cfg, session, data, now).id == session.id
  {
  }

  /** A session request about another session. */
  lemma OthersSpareSession(cfg: Config, h: Trust, w: World, ctx: Context, request: Request, s: string)
    requires Inv(cfg, h, w, "")
    requires AboutSession(request)
    requires request.bearer != s
    ensures SameEntry(Handle(cfg, w, ctx, request).sessions, w.sessions, s)
  {
    hide Inv, Resolve, KeepAliveStep, SetRoleStep, AcceptTermsStep, RespondStep, SessionSound;
    if Resolve(w, ctx, request.bearer).None? {
      Unauthorized(cfg, w, ctx, request);
    } else {
      Resolved(cfg, h, w, ctx, request.bearer);
      match request
      case GetSession(bearer) => RespondSpares(cfg, w, ctx, bearer, Resolve(w, ctx, bearer).value, s);
      case KeepAlive(bearer) => KeepAliveSpares(cfg, w, ctx, bearer, s);
      case Logout(bearer) =>
      case AcceptTerms(bearer, answer) => AcceptTermsSpares(cfg, w, ctx, bearer, answer, s);
      case SetRole(bearer, roleID) => SetRoleSpares(cfg, w, ctx, bearer, roleID, s);
    }
  }

  /** The session is gone, as it was, or renewed with its old access time or the present one. */
  predicate LeftAs(cfg: Config, w: World, after: Cache<Session>, s: string)
    requires s in w.sessions
  {
    var before := w.sessions[s];
    s in after ==>
      || after[s] == before
      || (after[s].value.lastAccessed in {before.value.lastAccessed, Some(w.now)} && after[s].deadline == w.now + cfg.sessionTimeout)
  }

  lemma RespondLeaves(cfg: Config, w: World, w': World, ctx: Context, session: Session, s: string)
    requires s in w.sessions && LeftAs(cfg, w, w'.sessions, s)
    ensures LeftAs(cfg, w, RespondStep(cfg, w', ctx, s, session).sessions, s)
  {
    hide GetSecondsToLive;
  }

  lemma KeepAliveLeaves(cfg: Config, w: World, ctx: Context, s: string)
    requires s in w.sessions && w.sessions[s].value.id == s
    ensures LeftAs(cfg, w, KeepAliveStep(cfg, w, ctx, s).sessions, s)
  {
    hide RespondStep;
    var current := w.sessions[s].value.(lastAccessed := Some(w.now));
    RespondLeaves(cfg, w, w, ctx, current, s);
    RespondLeaves(cfg, w, StoreSession(cfg, w, current), ctx, current, s);
  }

  lemma SetRoleLeaves(cfg: Config, w: World, ctx: Context, s: string, roleID: Option<string>)
    requires s in w.sessions && w.sessions[s].value.id == s
    ensures LeftAs(cfg, w, SetRoleStep(cfg, w, ctx, s, roleID).sessions, s)
  {
    hide RespondStep, ChosenRole, TermsGateOpen;
    var session := w.sessions[s].value;
    if ChosenRole(session, roleID).Some? {
      var current := AfterRole(session, ChosenRole(session, roleID).value);
      RespondLeaves(cfg, w, Emit(StoreSession(cfg, w, current), RoleChosen(current.id)), ctx, current, s);
    }
  }

  lemma AcceptTermsLeaves(cfg: Config, w: World, ctx: Context, s: string, answer: Answer)
    requires s in w.sessions && w.sessions[s].value.id == s
    ensures LeftAs(cfg, w, AcceptTermsStep(cfg, w, ctx, s, answer).sessions, s)
  {
    hide PlaceTerms;
  }

  /** What is left of a session after a request that named it. */
  lemma OwnRequest(cfg: Config, h: Trust, w: World, ctx: Context, request: Request, s: string)
    requires Inv(cfg, h, w, "") && s in w.sessions
    requires AboutSession(request)
    requires request.bearer == s
    ensures LeftAs(cfg, w, Handle(cfg, w, ctx, request).sessions, s)
  {
    hide Inv, KeepAliveStep, SetRoleStep, AcceptTermsStep, RespondStep;
    KnownSession(cfg, h, w, s);
    match request
    case GetSession(_) => RespondLeaves(cfg, w, w, ctx, w.sessions[s].value, s);
    case KeepAlive(_) => KeepAliveLeaves(cfg, w, ctx, s);
    case Logout(_) =>
    case AcceptTerms(_, answer) => AcceptTermsLeaves(cfg, w, ctx, s, answer);
    case SetRole(_, roleID) => SetRoleLeaves(cfg, w, ctx, s, roleID);
  }

  /** The last access of a session did not go back, and its entry lives at least as long as the timeout from there. */
  predicate AccessAdvanced(cfg: Config, before: Entry<Session>, after: Entry<Session>) {
    && before.value.lastAccessed.Some? && after.value.lastAccessed.Some?
    && before.value.lastAccessed.value <= after.value.lastAccessed.value
    && after.deadline >= after.value.lastAccessed.value + cfg.sessionTimeout
  }

  /** What a world says of session `s` since `entry` was stored for it. */
  ghost predicate AdvancedSince(cfg: Config, h: Trust, w: World, s: string, entry: Entry<Session>) {
    && Inv(cfg, h, w, "") && s in w.minted
    && (s in w.sessions ==> AccessAdvanced(cfg, entry, w.sessions[s]))
  }

  /**
   * Over every stretch of a run the last access of a session never goes back, and the cache keeps the session at
   * least as long as the timeout counted from that access.
   */
  lemma LastAccessNeverGoesBack(cfg: Config, h: Trust, w: World, later: World, s: string)
    requires Sound(cfg) && Reached(cfg, h, w) && ReachedFrom(cfg, h, w, later)
    ensures s in w.sessions && s in later.sessions ==> AccessAdvanced(cfg, w.sessions[s], later.sessions[s])
  {
    hide Inv, Reached, Apply, Admissible, Meets, AccessAdvanced;
    if s in w.sessions {
      var entry := w.sessions[s];
      ReachedKeeps(cfg, h, w);
      StoredIsAdvanced(cfg, h, w, s);
      var worlds := iset v: World | AdvancedSince(cfg, h, v, s, entry);
      forall v, step | v in worlds && Admissible(v, step) && Meets(h, step) ensures Apply(cfg, v, step) in worlds {
        StepAdvances(cfg, h, v, step, s, entry);
      }
      assert ClosedUnderSteps(cfg, h, worlds);
    }
  }

  lemma StoredIsAdvanced(cfg: Config, h: Trust, w: World, s: string)
    requires Inv(cfg, h, w, "") && s in w.sessions
    ensures AdvancedSince(cfg, h, w, s, w.sessions[s])
  {
    hide Inv;
    KnownSession(cfg, h, w, s);
  }

  lemma StepAdvances(cfg: Config, h: Trust, w: World, step: Step, s: string, entry: Entry<Session>)
    requires Sound(cfg) && AdvancedSince(cfg, h, w, s, entry) && Admissible(w, step) && Meets(h, step)
    ensures AdvancedSince(cfg, h, Apply(cfg, w, step), s, entry)
  {
    hide Inv, Apply, Admissible, Meets;
    var after := Apply(cfg, w, step);
    StepKeeps(cfg, h, w, step);
    ClockAdvances(cfg, w, step);
    if s in after.sessions {
      NoSessionReturns(cfg, h, w, step, s);
      OneStepAdvances(cfg, h, w, step, s);
    }
  }

  /** A name that was drawn before never names a new session. */
  lemma NoSessionReturns(cfg: Config, h: Trust, w: World, step: Step, s: string)
    requires Inv(cfg, h, w, "") && Admissible(w, step) && s in w.minted
    ensures s in Apply(cfg, w, step).sessions ==> s in w.sessions
  {
    hide Inv, Handle, AllUnused;
    EnterKeeps(cfg, h, w, step);
    OldNameIsNotFresh(w, step, s);
    var w1, ctx, request := Enter(w, step.ctx), step.ctx, step.request;
    if AboutSession(request) {
      if request.bearer == s {
        if s !in w1.sessions {
          Unauthorized(cfg, w1, ctx, request);
        }
      } else {
        OthersSpareSession(cfg, h, w1, ctx, request, s);
      }
    } else if request.Evict? {
      EvictedSessions(cfg, w1, ctx, request, s);
    } else {
      FlowsSpare(cfg, w1, ctx, request, s);
    }
  }

  lemma FreshSession(cfg: Config, h: Trust, w: World, step: Step)
    requires Inv(cfg, h, w, "") && Admissible(w, step)
    ensures step.ctx.names.session !in w.sessions
  {
    hide SlotsLinear, CodesLinear, AllBound, SlotsBound, CodesBound, AllTruthful, SlotsTruthful;
    assert step.ctx.names.session in NameSet(step.ctx.names);
  }

  lemma OneStepAdvances(cfg: Config, h: Trust, w: World, step: Step, s: string)
    requires Inv(cfg, h, w, "") && Inv(cfg, h, Apply(cfg, w, step), "") && Admissible(w, step) && Meets(h, step)
    requires s in w.sessions && s in Apply(cfg, w, step).sessions
    ensures AccessAdvanced(cfg, w.sessions[s], Apply(cfg, w, step).sessions[s])
  {
    hide Inv, Handle, AllUnused;
    EnterKeeps(cfg, h, w, step);
    KnownSession(cfg, h, w, s);
    KnownSession(cfg, h, Apply(cfg, w, step), s);
    var w1, ctx, request := Enter(w, step.ctx), step.ctx, step.request;
    if AboutSession(request) {
      if request.bearer == s {
        OwnRequest(cfg, h, w1, ctx, request, s);
      } else {
        OthersSpareSession(cfg, h, w1, ctx, request, s);
      }
    } else if request.Evict? {
      EvictedSessions(cfg, w1, ctx, request, s);
    } else {
      OldNameIsNotFresh(w, step, s);
      FlowsSpare(cfg, w1, ctx, request, s);
    }
  }

  lemma EvictedSessions(cfg: Config, w: World, ctx: Context, request: Request, s: string)
    requires request.Evict?
    ensures
      var after := Handle(cfg, w, ctx, request).sessions;
      (s in after <==> s in w.sessions && s !in request.sessions) && (s in after ==> after[s] == w.sessions[s])
  {
  }

  lemma KnownSession(cfg: Config, h: Trust, w: World, s: string)
    requires Inv(cfg, h, w, "") && s in w.sessions
    ensures Alive(cfg, s, w.sessions[s], w.now) && s in w.minted && |s| == ULID_LENGTH
    ensures w.sessions[s].value.IsActive()
  {
    hide SlotsLinear, CodesLinear, AllBound, SlotsBound, CodesBound, AllTruthful, SlotsTruthful;
    assert SessionSound(cfg, h, w.trace, w.sessions[s].value);
  }

  // ---------------------------------------------------------------- keep-alive

  /** A keep-alive for `s` that reads and writes the store. */
  predicate Extends(step: Step, s: string) {
    step.request == KeepAlive(s) && step.ctx.ok.sessionRead && step.ctx.ok.sessionWrite
  }

  /** The time of the last successful keep-alive of `s`, or `start` before the first one. */
  function LastKeptAlive(steps: seq<Step>, s: string, start: int): int {
    if steps == [] then start
    else if Extends(steps[|steps| - 1], s) then steps[|steps| - 1].ctx.now
    else LastKeptAlive(steps[..|steps| - 1], s, start)
  }

  /** Nobody logs `s` out or evicts it, and every step comes within the timeout of the last keep-alive before it. */
  predicate Kept(cfg: Config, steps: seq<Step>, s: string, start: int) {
    steps != [] ==>
      var front, last := steps[..|steps| - 1], steps[|steps| - 1];
      && Kept(cfg, front, s, start)
      && last.ctx.now < LastKeptAlive(front, s, start) + cfg.sessionTimeout
      && last.request != Logout(s)
      && (last.request.Evict? ==> s !in last.request.sessions)
  }

  /** The session is stored, was accessed at `since` or later, and its entry outlives the timeout counted from there. */
  predicate HeldSince(cfg: Config, w: World, s: string, since: int) {
    && s in w.sessions
    && w.sessions[s].value.lastAccessed.Some? && w.sessions[s].value.lastAccessed.value >= since
    && w.sessions[s].deadline >= since + cfg.sessionTimeout
  }

  /** Within the timeout an answer about the session does not log it out. */
  lemma RespondHolds(cfg: Config, w: World, ctx: Context, id: string, session: Session, since: int)
    requires session.lastAccessed.Some? && session.lastAccessed.value >= since && w.now < since + cfg.sessionTimeout
    ensures RespondStep(cfg, w, ctx, id, session) == w
  {
    LaterAccessLivesLonger(cfg.sessionTimeout, since, session.lastAccessed.value, w.now);
  }

  lemma KeepAliveHolds(cfg: Config, w: World, ctx: Context, s: string, since: int)
    requires Sound(cfg) && HeldSince(cfg, w, s, since) && since <= w.now < since + cfg.sessionTimeout
    requires |s| == ULID_LENGTH && w.sessions[s].value.id == s
    ensures HeldSince(cfg, KeepAliveStep(cfg, w, ctx, s), s,
                      if ctx.ok.sessionRead && ctx.ok.sessionWrite then w.now else since)
  {
    var session := w.sessions[s].value;
    var current := session.(lastAccessed := Some(w.now));
    var w1 := if ctx.ok.sessionWrite then StoreSession(cfg, w, current) else w;
    hide RespondStep;
    RespondHolds(cfg, w1, ctx, s, current, w.now);
  }

  lemma SetRoleHolds(cfg: Config, w: World, ctx: Context, s: string, roleID: Option<string>, since: int)
    requires HeldSince(cfg, w, s, since) && since <= w.now < since + cfg.sessionTimeout && w.sessions[s].value.id == s
    ensures HeldSince(cfg, SetRoleStep(cfg, w, ctx, s, roleID), s, since)
  {
    hide RespondStep, ChosenRole, TermsGateOpen;
    var session := w.sessions[s].value;
    if ChosenRole(session, roleID).Some? {
      var current := AfterRole(session, ChosenRole(session, roleID).value);
      RespondHolds(cfg, Emit(StoreSession(cfg, w, current), RoleChosen(current.id)), ctx, s, current, since);
    }
  }

  lemma AcceptTermsHolds(cfg: Config, w: World, ctx: Context, s: string, answer: Answer, since: int)
    requires HeldSince(cfg, w, s, since) && since <= w.now && w.sessions[s].value.id == s
    ensures HeldSince(cfg, AcceptTermsStep(cfg, w, ctx, s, answer), s, since)
  {
    hide PlaceTerms;
  }

  /** Within the timeout, a request about `s` other than its logout leaves it held, from now on if it is a keep-alive. */
  lemma OwnRequestHolds(cfg: Config, h: Trust, w: World, ctx: Context, request: Request, s: string, since: int)
    requires Sound(cfg) && Inv(cfg, h, w, "") && HeldSince(cfg, w, s, since) && since <= w.now < since + cfg.sessionTimeout
    requires AboutSession(request) && !request.Logout?
    requires request.bearer == s && w.now == ctx.now
    ensures HeldSince(cfg, Handle(cfg, w, ctx, request), s,
                      if Extends(Step(ctx, request), s) then ctx.now else since)
  {
    hide Inv, KeepAliveStep, SetRoleStep, AcceptTermsStep, RespondStep;
    KnownSession(cfg, h, w, s);
    match request
    case GetSession(_) => RespondHolds(cfg, w, ctx, s, w.sessions[s].value, since);
    case KeepAlive(_) => KeepAliveHolds(cfg, w, ctx, s, since);
    case AcceptTerms(_, answer) => AcceptTermsHolds(cfg, w, ctx, s, answer, since);
    case SetRole(_, roleID) => SetRoleHolds(cfg, w, ctx, s, roleID, since);
  }

  lemma OldNameIsNotFresh(w: World, step: Step, s: string)
    requires Admissible(w, step) && s in w.minted
    ensures s != step.ctx.names.session
  {
    assert step.ctx.names.session in NameSet(step.ctx.names);
  }

  lemma StepHolds(cfg: Config, h: Trust, w: World, step: Step, s: string, since: int)
    requires Sound(cfg) && Inv(cfg, h, w, "") && Admissible(w, step)
    requires HeldSince(cfg, w, s, since) && since <= w.now && step.ctx.now < since + cfg.sessionTimeout
    requires step.request != Logout(s) && (step.request.Evict? ==> s !in step.request.sessions)
    ensures HeldSince(cfg, Apply(cfg, w, step), s, if Extends(step, s) then step.ctx.now else since)
  {
    hide Inv, Handle, AllUnused;
    var w1, ctx, request := Enter(w, step.ctx), step.ctx, step.request;
    KnownSession(cfg, h, w, s);
    EnterKeeps(cfg, h, w, step);
    OldNameIsNotFresh(w, step, s);
    if AboutSession(request) {
      if request.bearer == s {
        OwnRequestHolds(cfg, h, w1, ctx, request, s, since);
      } else {
        OthersSpareSession(cfg, h, w1, ctx, request, s);
      }
    } else if request.Evict? {
      EvictedSessions(cfg, w1, ctx, request, s);
    } else {
      FlowsSpare(cfg, w1, ctx, request, s);
    }
  }

  /** At any time until its timeout counted from `since`, the session resolves, is active and has time left. */
  ghost predicate UsableUntil(cfg: Config, w: World, s: string, since: int) {
    forall t | w.now <= t < since + cfg.sessionTimeout ::
      && Lookup(w.sessions, s, t).Some? && Lookup(w.sessions, s, t).value.IsActive()
      && Lookup(w.sessions, s, t).value.lastAccessed.Some?
      && t < Lookup(w.sessions, s, t).value.lastAccessed.value + cfg.sessionTimeout
  }

  lemma HeldIsUsable(cfg: Config, h: Trust, w: World, s: string, since: int)
    requires Inv(cfg, h, w, "") && HeldSince(cfg, w, s, since)
    ensures UsableUntil(cfg, w, s, since)
  {
    hide Inv;
    KnownSession(cfg, h, w, s);
  }

  lemma {:induction false} KeptSessionsStayHeld(cfg: Config, h: Trust, w: World, steps: seq<Step>, s: string, start: int)
    requires Sound(cfg) && Inv(cfg, h, w, "") && IsRun(cfg, w, steps) && AllMeet(h, steps)
    requires HeldSince(cfg, w, s, start) && start <= w.now && Kept(cfg, steps, s, start)
    ensures
      var after, since := Run(cfg, w, steps), LastKeptAlive(steps, s, start);
      Inv(cfg, h, after, "") && HeldSince(cfg, after, s, since) && since <= after.now
  {
    hide Inv, Apply, FreshNames;
    if steps != [] {
      var front, last := steps[..|steps| - 1], steps[|steps| - 1];
      KeptSessionsStayHeld(cfg, h, w, front, s, start);
      StepKeeps(cfg, h, Run(cfg, w, front), last);
      StepHolds(cfg, h, Run(cfg, w, front), last, s, LastKeptAlive(front, s, start));
      ClockAdvances(cfg, Run(cfg, w, front), last);
    }
  }

  /**
   * A session that is kept alive at gaps below the timeout, and that nobody logs out, outlives every run: at any
   * time within the timeout of its last keep-alive it resolves, is active and has time left.
   */
  lemma KeptSessionsSurvive(cfg: Config, h: Trust, w: World, steps: seq<Step>, s: string, start: int)
    requires Sound(cfg) && Reached(cfg, h, w) && IsRun(cfg, w, steps) && AllMeet(h, steps)
    requires HeldSince(cfg, w, s, start) && start <= w.now && Kept(cfg, steps, s, start)
    ensures UsableUntil(cfg, Run(cfg, w, steps), s, LastKeptAlive(steps, s, start))
  {
    hide Inv, Reached, Run, IsRun, Kept, HeldSince, UsableUntil, LastKeptAlive, AllMeet;
    ReachedKeeps(cfg, h, w);
    KeptSessionsStayHeld(cfg, h, w, steps, s, start);
    HeldIsUsable(cfg, h, Run(cfg, w, steps), s, LastKeptAlive(steps, s, start));
  }
}
