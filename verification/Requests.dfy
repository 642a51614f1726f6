/** What `/authorize` makes of a query, field by field, and over whole runs: redirects answer the latest accepted query. */
module Requests {
  import opened Basics
  import opened Settings
  import opened Entities
  import opened Clients
  import opened Validators
  import opened Traces
  import opened Protocol
  import opened Invariants
  import opened Preservation
  import opened Binding
  import opened Effects

  // ---------------------------------------------------------------- one query

  /** A stored client asks for a known provider and a URI that one of its registered URIs contains, and a slot can be written. */
  predicate Taken(w: World, ctx: Context, q: AuthorizeQuery) {
    && q.clientID.Some? && q.clientID.value in w.clients
    && q.redirectURI.Some? && AllowedRedirect(w.clients[q.clientID.value].redirectURIs, q.redirectURI.value)
    && q.provider.Some? && q.providerKnown
    && !ctx.cookie.Malformed? && ctx.ok.slotWrite
  }

  /** The slot of a taken query: the browser's if it is live and of the same client, a new one otherwise. */
  function SlotFor(w: World, ctx: Context, q: AuthorizeQuery): string
    requires Taken(w, ctx, q)
  {
    if ctx.cookie.Named? && ctx.cookie.slot in w.slots && ctx.now < w.slots[ctx.cookie.slot].deadline
      && w.slots[ctx.cookie.slot].value.clientID == q.clientID.value
    then ctx.cookie.slot
    else ctx.names.slot
  }

  /** The state that the client sent, or the name drawn for it. */
  function StateOf(ctx: Context, q: AuthorizeQuery): string {
    if q.state.Some? then q.state.value else ctx.names.state
  }

  /** The request that a taken query makes. */
  function Asked(w: World, ctx: Context, q: AuthorizeQuery): Acceptance
    requires Taken(w, ctx, q)
  {
    Acceptance(q.clientID.value, w.clients[q.clientID.value].redirectURIs, q.redirectURI.value, StateOf(ctx, q))
  }

  /** The slots with a fresh flow for the query, which lives twenty minutes. */
  function Opened(w: World, ctx: Context, q: AuthorizeQuery): Cache<Correlation>
    requires Taken(w, ctx, q)
  {
    var flow := Correlation("", q.clientID.value, q.redirectURI.value, q.nonce, Some(StateOf(ctx, q)),
                            q.codeChallenge, q.codeChallengeMethod, "", false, None, None);
    w.slots[SlotFor(w, ctx, q) := Entry(flow, ctx.now + 20 * 60 * 1_000_000_000)]
  }

  lemma SetOpens(w: World, ctx: Context, q: AuthorizeQuery)
    requires Taken(w, ctx, q)
    ensures
      var r := SetSlot(w.slots, ctx.cookie, RequestedCorrelation(ctx, q), ctx.names.slot, ctx.now, ctx.ok.slotWrite);
      && r.slots == Opened(w, ctx, q)
      && r.result == Some((SlotFor(w, ctx, q), Opened(w, ctx, q)[SlotFor(w, ctx, q)].value))
  {
  }

  /**
   * A taken query is on record with its client, the client's registered URIs, its URI and its state, and a slot holds
   * all it asked for. A provider that cannot start the login is told to the client as a server error.
   */
  lemma QueriesAreRecorded(cfg: Config, w: World, ctx: Context, q: AuthorizeQuery)
    requires Taken(w, ctx, q)
    ensures
      var after := Apply(cfg, w, Step(ctx, Authorize(q)));
      var slot, slots := SlotFor(w, ctx, q), Opened(w, ctx, q);
      var accepted := After(w.trace, Accepted(slot, Asked(w, ctx, q)));
      var page := cfg.codec.parse(q.redirectURI.value);
      if q.providerStarts || page.None? then OnlySlots(w, ctx, after, slots, accepted)
      else
        var url := SetParam(SetParam(page.value, "state", StateOf(ctx, q)), "error", "server_error");
        OnlySlots(w, ctx, after,
                  if ctx.cookie.Named? && ctx.ok.slotDelete then slots - {ctx.cookie.slot} else slots,
                  After(accepted, Redirected(slot, url, Refusal)))
  {
    hide SetSlot, Opened, SlotFor;
    SetOpens(w, ctx, q);
    OpenedIs(w, ctx, q);
  }

  lemma OpenedIs(w: World, ctx: Context, q: AuthorizeQuery)
    requires Taken(w, ctx, q)
    ensures SlotFor(w, ctx, q) in Opened(w, ctx, q)
    ensures
      var c := Opened(w, ctx, q)[SlotFor(w, ctx, q)].value;
      c.id == "" && c.errorCode == "" && c.redirectURI == q.redirectURI.value && c.state == Some(StateOf(ctx, q)) && c.tosTargetURI.None?
  {
  }

  /** Every other query has no effect. */
  lemma OtherQueriesDoNothing(cfg: Config, w: World, ctx: Context, q: AuthorizeQuery)
    requires !Taken(w, ctx, q)
    ensures NoEffect(w, ctx, Apply(cfg, w, Step(ctx, Authorize(q))))
  {
    hide RedirectToCaller, AllowedRedirect, NewCorrelation, ResetCorrelation;
  }

  // ---------------------------------------------------------------- runs

  /** No request was accepted between the two traces. */
  ghost predicate SameRequests(t: Trace, later: Trace) {
    forall slot :: LatestAccepted(later, slot) == LatestAccepted(t, slot)
  }

  lemma RedirectsAcceptNothing(cfg: Config, w: World, ctx: Context, slot: string, sess: Correlation)
    ensures SameRequests(w.trace, RedirectToCaller(cfg, w, ctx, slot, sess).trace)
  {
  }

  lemma CreatesAcceptNothing(cfg: Config, w: World, session: Session, service: bool, ok: bool)
    ensures SameRequests(w.trace, CreateSession(cfg, w, session, service, ok).trace)
  {
  }

  lemma AuditsAcceptNothing(w: World, ctx: Context, sess: Correlation, created: bool)
    ensures SameRequests(w.trace, AuditLogin(w, ctx, sess, created).w.trace)
  {
  }

  lemma LoginsAcceptNothing(cfg: Config, w: World, ctx: Context, sess: Correlation, answer: Answer)
    ensures SameRequests(w.trace, HandleLogin(cfg, w, ctx, sess, answer).w.trace)
  {
    hide SetSlot, NewSession, BuildTOSRedirect, AuditLogin, CreateSession;
    forall w': World, session: Session ensures
      SameRequests(w'.trace, CreateSession(cfg, w', session, false, ctx.ok.sessionWrite).trace)
    {
      CreatesAcceptNothing(cfg, w', session, false, ctx.ok.sessionWrite);
    }
    forall w': World, c: Correlation ensures SameRequests(w'.trace, AuditLogin(w', ctx, c, ctx.ok.sessionWrite).w.trace) {
      AuditsAcceptNothing(w', ctx, c, ctx.ok.sessionWrite);
    }
  }

  lemma CallbacksAcceptNothing(cfg: Config, w: World, ctx: Context, q: CallbackQuery)
    ensures SameRequests(w.trace, CallbackStep(cfg, w, ctx, q).trace)
  {
    hide RedirectToCaller, HandleLogin, LatestAccepted, Emit;
    forall w': World, slot: string, sess: Correlation ensures
      SameRequests(w'.trace, RedirectToCaller(cfg, w', ctx, slot, sess).trace)
    {
      RedirectsAcceptNothing(cfg, w', ctx, slot, sess);
    }
    forall w': World, sess: Correlation, answer: Answer ensures
      SameRequests(w'.trace, HandleLogin(cfg, w', ctx, sess, answer).w.trace)
    {
      LoginsAcceptNothing(cfg, w', ctx, sess, answer);
    }
    forall sess: Correlation ensures SameRequests(w.trace, Emit(w, AnswerTo(ctx, sess, q)).trace) {
      EventsAcceptNothing(w, AnswerTo(ctx, sess, q));
    }
  }

  lemma EventsAcceptNothing(w: World, e: Event)
    requires !e.Accepted?
    ensures SameRequests(w.trace, Emit(w, e).trace)
  {
  }

  lemma TokensAcceptNothing(cfg: Config, w: World, ctx: Context, form: TokenForm)
    ensures SameRequests(w.trace, TokenStep(cfg, w, ctx, form).trace)
  {
    hide ServiceStep, GetSecondsToLive;
    if form.grantType.Some? {
      GrantsAcceptNothing(cfg, w, ctx, form.grantType.value, form.evidence, form.answer);
    }
  }

  lemma GrantsAcceptNothing(cfg: Config, w: World, ctx: Context, grantType: string, ev: Evidence, answer: Answer)
    ensures SameRequests(w.trace, ServiceStep(cfg, w, ctx, grantType, ev, answer).trace)
  {
    hide ServiceClient, NewServiceSession, GetSecondsToLive, CreateSession;
    if answer.Granted? {
      var session := NewServiceSession(ctx.names.session, answer.data, w.now);
      var w1 := CreateSession(cfg, w, session, true, ctx.ok.sessionWrite);
      var audited := Emit(w1, ServiceAudited(session.id));
      CreatesAcceptNothing(cfg, w, session, true, ctx.ok.sessionWrite);
      EventsAcceptNothing(w1, ServiceAudited(session.id));
      EventsAcceptNothing(audited,
        ServiceTokenIssued(session.id, GetSecondsToLive(cfg.sessionTimeout, session.lastAccessed, w.now)));
    }
  }

  lemma SessionsAcceptNothing(cfg: Config, w: World, ctx: Context, request: Request)
    requires AboutSession(request) || request.ReloadClients? || request.Evict?
    ensures SameRequests(w.trace, Handle(cfg, w, ctx, request).trace)
  {
    hide Resolve, ChosenRole, AfterRole, AfterTerms, TermsGateOpen, LoadAll;
  }

  lemma OthersAcceptNothing(cfg: Config, w: World, ctx: Context, request: Request)
    requires !request.Authorize?
    ensures SameRequests(w.trace, Handle(cfg, w, ctx, request).trace)
  {
    if AboutSession(request) || request.ReloadClients? || request.Evict? {
      hide Handle;
      SessionsAcceptNothing(cfg, w, ctx, request);
    } else {
      hide CallbackStep, TokenStep, RedirectToCaller;
      match request
      case Callback(q) => CallbacksAcceptNothing(cfg, w, ctx, q);
      case Token(form) => TokensAcceptNothing(cfg, w, ctx, form);
      case LogoutCallback =>
        if NamedSlot(w.slots, ctx.cookie, w.now).Some? {
          RedirectsAcceptNothing(cfg, w, ctx, CookieSlot(ctx.cookie), NamedSlot(w.slots, ctx.cookie, w.now).value);
        }
      case _ =>
    }
  }

  /** The latest query that was taken on the slot in a run from the empty service, as it was asked. */
  function LatestQuery(cfg: Config, steps: seq<Step>, slot: string): Option<Acceptance> {
    if steps == [] then None
    else
      var front, last := steps[..|steps| - 1], steps[|steps| - 1];
      var before := Run(cfg, EMPTY_WORLD, front);
      if last.request.Authorize? && Taken(before, last.ctx, last.request.authorize)
        && SlotFor(before, last.ctx, last.request.authorize) == slot
      then Some(Asked(before, last.ctx, last.request.authorize))
      else LatestQuery(cfg, front, slot)
  }

  lemma StepAccepts(cfg: Config, w: World, step: Step, slot: string)
    ensures LatestAccepted(Apply(cfg, w, step).trace, slot) ==
      if step.request.Authorize? && Taken(w, step.ctx, step.request.authorize)
        && SlotFor(w, step.ctx, step.request.authorize) == slot
      then Some(Asked(w, step.ctx, step.request.authorize))
      else LatestAccepted(w.trace, slot)
  {
    if step.request.Authorize? {
      hide Apply, Taken, SlotFor, Opened, Asked, StateOf;
      var q := step.request.authorize;
      if Taken(w, step.ctx, q) {
        QueriesAreRecorded(cfg, w, step.ctx, q);
      } else {
        OtherQueriesDoNothing(cfg, w, step.ctx, q);
      }
    } else {
      hide Handle;
      OthersAcceptNothing(cfg, Enter(w, step.ctx), step.ctx, step.request);
    }
  }

  lemma {:induction false} LatestQueryIsOnRecord(cfg: Config, steps: seq<Step>, slot: string)
    ensures LatestAccepted(Run(cfg, EMPTY_WORLD, steps).trace, slot) == LatestQuery(cfg, steps, slot)
  {
    hide Apply, Taken, SlotFor, Asked;
    if steps != [] {
      LatestQueryIsOnRecord(cfg, steps[..|steps| - 1], slot);
      StepAccepts(cfg, Run(cfg, EMPTY_WORLD, steps[..|steps| - 1]), steps[|steps| - 1], slot);
    }
  }

  /** The URL tells the state of the request and the error, the session or its code. */
  predicate Tells(url: Url, request: Acceptance, issue: Issue) {
    && "state" in url.query && url.query["state"] == [request.state]
    && (issue.Refusal? ==> "error" in url.query && |url.query["error"]| == 1 && url.query["error"][0] != "")
    && (issue.Direct? ==> "code" in url.query && url.query["code"] == [issue.session])
    && (issue.Code? ==> "code" in url.query && url.query["code"] == [issue.code])
  }

  /**
   * In every run a redirect answers the latest query that was taken on its slot: it carries the state that the client
   * sent with it, or the one drawn for it, and ends where it asked.
   */
  lemma RedirectsAnswerTheLatestQuery(cfg: Config, steps: seq<Step>)
    requires Sound(cfg) && IsRun(cfg, EMPTY_WORLD, steps)
    ensures
      var t := Run(cfg, EMPTY_WORLD, steps).trace;
      t.After? && t.event.Redirected? ==>
        var request := LatestQuery(cfg, steps, t.event.slot);
        && request.Some? && Tells(t.event.url, request.value, t.event.issue)
        && EndsAt(cfg, t.event.url, request.value, t.event.issue)
  {
    hide Run, IsRun, Reached, LatestQuery, EndsAt, Tells;
    var w := Run(cfg, EMPTY_WORLD, steps);
    if w.trace.After? && w.trace.event.Redirected? {
      var e := w.trace.event;
      RunsReach(cfg, NO_TRUST, steps);
      FlowsEndWhereTheyWereAsked(cfg, w, w.trace.past, e);
      LatestQueryIsOnRecord(cfg, steps, e.slot);
      EndsTelling(cfg, e.url, LatestAccepted(w.trace, e.slot).value, e.issue);
    }
  }

  lemma EndsTelling(cfg: Config, url: Url, a: Acceptance, issue: Issue)
    requires EndsAt(cfg, url, a, issue)
    ensures Tells(url, a, issue)
  {
    hide Reparses, PageIs, KeepsOrigin, BuildTOSRedirect;
  }
}
