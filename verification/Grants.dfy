/** What the token endpoint answers, spelled out: the exchange of a code, and the session of a service client. */
module Grants {
  import opened Basics
  import opened Settings
  import opened Entities
  import opened Clients
  import opened Validators
  import opened Traces
  import opened Protocol
  import opened Invariants
  import opened Preservation
  import opened Lifetimes
  import opened Effects

  // ---------------------------------------------------------------- exchanges

  /** The code is live and the URI is one that it was issued for. */
  predicate Redeemable(w: World, ctx: Context, code: string, redirectURI: string) {
    && code in w.codes && ctx.now < w.codes[code].deadline
    && var ott := w.codes[code].value;
       (redirectURI in ott.redirectURIs || (ott.redirectURIs == [] && redirectURI == ott.redirectURI))
  }

  /** The lifetime told with a token: the whole seconds of the timeout that are left since the session's creation, or -1. */
  predicate Told(timeout: int, created: Option<int>, now: int, n: int) {
    if created.Some? then InSeconds(timeout - (now - created.value), n) else n == -1
  }

  /** The trace has one more exchange: of the code's session, with what is left of it. */
  predicate Exchanged(cfg: Config, w: World, ctx: Context, code: string, redirectURI: string, t: Trace)
    requires code in w.codes
  {
    && t.After? && t.past == w.trace && t.event.CodeExchanged?
    && t.event.code == code && t.event.redirectURI == redirectURI && t.event.token == w.codes[code].value.sessionToken
    && Told(cfg.sessionTimeout, w.codes[code].value.sessionCreated, ctx.now, t.event.expiresIn)
  }

  /**
   * An exchange hands out the session of a live code for a URI the code was issued for, and nothing otherwise; either
   * way the code is gone once it was read, if the delete works.
   */
  lemma ExchangesAnswer(cfg: Config, w: World, ctx: Context, form: TokenForm)
    requires form.grantType == Some("authorization_code")
    ensures
      var after := Apply(cfg, w, Step(ctx, Token(form)));
      var read := form.redirectURI.Some? && form.code.Some? && ctx.ok.codeRead;
      && NoEffect(w, ctx, after.(codes := w.codes, trace := w.trace))
      && after.codes == (if read && ctx.ok.codeDelete then w.codes - {form.code.value} else w.codes)
      && if read && Redeemable(w, ctx, form.code.value, form.redirectURI.value)
         then Exchanged(cfg, w, ctx, form.code.value, form.redirectURI.value, after.trace)
         else after.trace == w.trace
  {
    hide ExchangeStep, Redeemable, Exchanged;
    ExchangeIs(cfg, w, Enter(w, ctx), ctx, form.redirectURI, form.code);
  }

  lemma ExchangeIs(cfg: Config, w: World, w1: World, ctx: Context, redirectURI: Option<string>, code: Option<string>)
    requires w1.codes == w.codes && w1.trace == w.trace && w1.now == ctx.now
    ensures
      var after := ExchangeStep(cfg, w1, ctx, redirectURI, code);
      var read := redirectURI.Some? && code.Some? && ctx.ok.codeRead;
      && after == w1.(codes := after.codes, trace := after.trace)
      && after.codes == (if read && ctx.ok.codeDelete then w.codes - {code.value} else w.codes)
      && if read && Redeemable(w, ctx, code.value, redirectURI.value)
         then Exchanged(cfg, w, ctx, code.value, redirectURI.value, after.trace)
         else after.trace == w.trace
  {
    hide GetSecondsToLive, InSeconds;
    if code.Some? && code.value in w.codes {
      SecondsAreTold(cfg.sessionTimeout, w.codes[code.value].value.sessionCreated, ctx.now);
    }
  }

  // ---------------------------------------------------------------- service grants

  /** Some stored client gave good evidence for the grant. */
  ghost predicate Earned(cfg: Config, w: World, ctx: Context, grantType: string, ev: Evidence) {
    exists id :: GoodEvidence(cfg, w.clients, grantType, ev, ctx.now, id)
  }

  lemma EarnedWhen(cfg: Config, w: World, ctx: Context, grantType: string, ev: Evidence)
    ensures Earned(cfg, w, ctx, grantType, ev) <==> ServiceClient(cfg, w.clients, grantType, ev, ctx.now).Some?
  {
    hide ServiceClient, GoodEvidence;
    forall id ensures
      ServiceClient(cfg, w.clients, grantType, ev, ctx.now) == Some(id) <==> GoodEvidence(cfg, w.clients, grantType, ev, ctx.now, id)
    {
      GoodEvidenceIsAccepted(cfg, w.clients, grantType, ev, ctx.now, id);
    }
  }

  /** The entry of a service session: authorized, what the authorizer says, with the only role if nothing blocks it. */
  predicate ServiceEntry(cfg: Config, entry: Entry<Session>, id: string, data: UserData, now: int) {
    var s := entry.value;
    && entry.deadline == now + cfg.sessionTimeout && s.id == id && Mirrors(s, data, now) && s.state == Authorized
    && s.role == if HasOneFreeRole(data) then Some(data.roles[0]) else None
  }

  /** The sessions have one more, the service session `id`. */
  predicate Opens(cfg: Config, sessions: Cache<Session>, after: Cache<Session>, id: string, data: UserData, now: int) {
    id in after && after == sessions[id := after[id]] && ServiceEntry(cfg, after[id], id, data, now)
  }

  /** The trace after a session was stored, audited and told of with the whole seconds of the timeout. */
  predicate IssuesToken(cfg: Config, t: Trace, later: Trace, id: string) {
    && later.After? && later.event.ServiceTokenIssued? && later.event.session == id
    && InSeconds(cfg.sessionTimeout, later.event.expiresIn)
    && later.past == After(After(t, SessionStored(id, true)), ServiceAudited(id))
  }

  /**
   * A service grant opens a session for the user of an earned and granted request; it issues a token if the session was
   * stored and audited, and takes the session back if only the audit failed. Other requests have no effect.
   */
  lemma ServiceGrantsOpenSessions(cfg: Config, h: Trust, w: World, ctx: Context, form: TokenForm)
    requires Sound(cfg) && Reached(cfg, h, w) && Admissible(w, Step(ctx, Token(form)))
    requires form.grantType.Some? && form.grantType.value != "authorization_code"
    ensures
      var after, id := Apply(cfg, w, Step(ctx, Token(form))), ctx.names.session;
      && FlowsUntouched(w, ctx, after)
      && if !Earned(cfg, w, ctx, form.grantType.value, form.evidence) || form.answer.Denied? || !ctx.ok.sessionWrite then
           NoEffect(w, ctx, after)
         else if ctx.ok.audit then
           && Opens(cfg, w.sessions, after.sessions, id, form.answer.data, ctx.now) && IssuesToken(cfg, w.trace, after.trace, id)
         else
           && after.trace == After(w.trace, SessionStored(id, true))
           && if ctx.ok.sessionDelete then after.sessions == w.sessions
              else Opens(cfg, w.sessions, after.sessions, id, form.answer.data, ctx.now)
  {
    hide Inv, Reached, Admissible, ServiceClient, Earned, OpenService, Opens, IssuesToken;
    ReachedKeeps(cfg, h, w);
    FreshSession(cfg, h, w, Step(ctx, Token(form)));
    EarnedWhen(cfg, w, ctx, form.grantType.value, form.evidence);
    if form.answer.Granted? {
      OpenedSession(cfg, Enter(w, ctx), ctx, form.answer.data);
    }
  }

  lemma OpenedSession(cfg: Config, w: World, ctx: Context, data: UserData)
    requires ctx.names.session !in w.sessions && w.now == ctx.now
    ensures
      var after, id := OpenService(cfg, w, ctx, data), ctx.names.session;
      && after == w.(sessions := after.sessions, trace := after.trace)
      && if !ctx.ok.sessionWrite then after == w
         else if ctx.ok.audit then
           Opens(cfg, w.sessions, after.sessions, id, data, ctx.now) && IssuesToken(cfg, w.trace, after.trace, id)
         else
           && after.trace == After(w.trace, SessionStored(id, true))
           && if ctx.ok.sessionDelete then after.sessions == w.sessions
              else Opens(cfg, w.sessions, after.sessions, id, data, ctx.now)
  {
    hide NewServiceSession, GetSecondsToLive, Mirrors, InSeconds;
    var session := NewServiceSession(ctx.names.session, data, w.now);
    NewServiceSessionIs(ctx.names.session, data, w.now);
    SecondsOfNewSession(cfg, session, ctx.now);
    assert Drop(w.sessions[session.id := Entry(session, w.now + cfg.sessionTimeout)], session.id) == w.sessions;
    assert Drop(w.sessions, session.id) == w.sessions;
  }

  lemma SecondsOfNewSession(cfg: Config, session: Session, now: int)
    requires session.lastAccessed == Some(now)
    ensures InSeconds(cfg.sessionTimeout, GetSecondsToLive(cfg.sessionTimeout, session.lastAccessed, now))
  {
    SecondsAreTold(cfg.sessionTimeout, session.lastAccessed, now);
  }

  /** A token request without a grant type has no effect. */
  lemma NamelessGrantsDoNothing(cfg: Config, w: World, ctx: Context, form: TokenForm)
    requires form.grantType.None?
    ensures NoEffect(w, ctx, Apply(cfg, w, Step(ctx, Token(form))))
  {
  }
}
