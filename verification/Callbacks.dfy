/** What a callback does to its flow, spelled out: whose session it stores, what it refuses and why, what it hands over. */
module Callbacks {
  import opened Basics
  import opened Settings
  import opened Entities
  import opened Traces
  import opened Protocol
  import opened Invariants
  import opened Preservation
  import opened Lifetimes
  import opened Logins
  import opened Effects

  /** The browser brings the cookie of a live slot whose flow has no session yet. */
  predicate Awaits(w: World, ctx: Context, q: CallbackQuery, slot: string) {
    && q.provider != "" && !q.signoutResponse && ctx.ok.slotRead && ctx.cookie == Named(slot)
    && slot in w.slots && ctx.now < w.slots[slot].deadline && w.slots[slot].value.id == ""
  }

  /** The provider is known and was not cancelled, so it is asked who the user is. */
  predicate Asks(w: World, ctx: Context, q: CallbackQuery, slot: string) {
    Awaits(w, ctx, q, slot) && q.providerKnown && !q.error
  }

  /** What goes on record when the provider is asked for the flow in `slot`. */
  function Asking(w: World, ctx: Context, q: CallbackQuery, slot: string): Trace
    requires slot in w.slots
  {
    After(w.trace, Answered(ctx.names.session, Outcome(w.slots[slot].value.redirectURI, q.result, ctx.ok)))
  }

  /** A flow's slot is consumed unless the delete fails. */
  function Consume(slots: Cache<Correlation>, ctx: Context, slot: string): Cache<Correlation> {
    if ctx.ok.slotDelete then slots - {slot} else slots
  }

  /** The flow `flow` ends at `uri` with an error, or nowhere if the URI cannot be parsed. */
  predicate Refuses(cfg: Config, ctx: Context, slot: string, flow: Correlation, uri: string, error: string,
    slots: Cache<Correlation>, trace: Trace, after: World)
    requires flow.state.Some?
  {
    match cfg.codec.parse(uri)
    case None => after.slots == slots && after.trace == trace
    case Some(u) =>
      var url := SetParam(SetParam(u, "state", flow.state.value), "error", error);
      after.slots == Consume(slots, ctx, slot) && after.trace == After(trace, Redirected(slot, url, Refusal))
  }

  /**
   * The flow ends at `uri` with its session: with the ID itself, or with a code for it that lives three minutes and
   * remembers the flow's URI and the session's creation.
   */
  predicate HandsOver(cfg: Config, ctx: Context, slot: string, flow: Correlation, uri: string, session: string,
    managed: bool, created: Option<int>, slots: Cache<Correlation>, codes: Cache<OneTimeToken>, trace: Trace, after: World)
    requires flow.state.Some?
  {
    var u, coded := cfg.codec.parse(uri), cfg.codeGrant && !managed;
    if u.None? || (coded && !ctx.ok.codeWrite) then after.slots == slots && after.codes == codes && after.trace == trace
    else
      var url := SetParam(u.value, "state", flow.state.value);
      && after.slots == Consume(slots, ctx, slot)
      && if coded then
           var token := OneTimeToken(ctx.names.code, flow.redirectURI, [flow.redirectURI], session, created);
           && after.codes == codes[ctx.names.code := Entry(token, ctx.now + 3 * 60 * 1_000_000_000)]
           && after.trace ==
                After(trace, Redirected(slot, SetParam(url, "code", ctx.names.code), Code(ctx.names.code, session)))
         else
           && after.codes == codes
           && after.trace == After(trace, Redirected(slot, SetParam(url, "code", session), Direct(session, managed)))
  }

  /** Clients are untouched; the clock is the request's and its names are taken. */
  predicate Clocked(w: World, ctx: Context, after: World) {
    && after.clients == w.clients && after.now == ctx.now
    && after.minted == w.minted + {ctx.names.slot, ctx.names.state, ctx.names.session, ctx.names.code}
  }

  lemma RefusalIs(cfg: Config, w: World, ctx: Context, slot: string, sess: Correlation, error: string)
    requires sess.state.Some? && error != "" && ctx.cookie == Named(slot)
    ensures
      var copy := sess.(errorCode := error);
      var after := RedirectToCaller(cfg, w, ctx, slot, copy);
      && Refuses(cfg, ctx, slot, sess, Destination(sess), error, w.slots, w.trace, after)
      && after == w.(slots := after.slots, trace := after.trace)
  {
  }

  lemma HandOverIs(cfg: Config, w: World, ctx: Context, slot: string, sess: Correlation)
    requires sess.state.Some? && sess.errorCode == "" && ctx.cookie == Named(slot) && w.now == ctx.now
    ensures
      var after := RedirectToCaller(cfg, w, ctx, slot, sess);
      && HandsOver(cfg, ctx, slot, sess, Destination(sess), sess.id, sess.managedByProvider, sess.sessionCreated,
                   w.slots, w.codes, w.trace, after)
      && after == w.(slots := after.slots, codes := after.codes, trace := after.trace)
  {
  }

  /** The flow in a slot of a reached world: it has a state, and leads to its own URI. */
  lemma FlowIs(cfg: Config, h: Trust, w: World, slot: string)
    requires Sound(cfg) && Reached(cfg, h, w) && slot in w.slots
    ensures
      var flow := w.slots[slot].value;
      && flow.state.Some? && Destination(flow) == flow.redirectURI
      && flow.errorCode == "" && !flow.managedByProvider && flow.sessionCreated.None? && flow.tosTargetURI.None?
  {
    hide Inv, Reached, MayHandOver;
    ReachedKeeps(cfg, h, w);
    StoredReady(cfg, h, w, Context(Named(slot), 0, Names("", "", "", ""), ALL_WELL), slot);
  }

  const ALL_WELL := Health(true, true, true, true, true, true, true, true, true, true, true)

  // ---------------------------------------------------------------- no login

  /** A callback without provider or live slot, or for a sign-out response, has no effect. */
  lemma OtherCallbacksDoNothing(cfg: Config, w: World, ctx: Context, q: CallbackQuery)
    requires
      || q.provider == "" || q.signoutResponse || !ctx.ok.slotRead || !ctx.cookie.Named?
      || ctx.cookie.slot !in w.slots || ctx.now >= w.slots[ctx.cookie.slot].deadline
    ensures NoEffect(w, ctx, Apply(cfg, w, Step(ctx, Callback(q))))
  {
    hide RedirectToCaller, ProviderStep;
  }

  /** A cancelled callback, or one of an unknown provider. */
  predicate Broken(q: CallbackQuery) {
    q.error || !q.providerKnown
  }

  /** A broken callback starts no login; it only ends its flow, with the error "canceled" or "invalid_callback". */
  lemma BrokenCallbacksStartNoLogin(cfg: Config, h: Trust, w: World, ctx: Context, q: CallbackQuery, slot: string)
    requires Sound(cfg) && Reached(cfg, h, w) && Awaits(w, ctx, q, slot) && Broken(q)
    ensures w.slots[slot].value.state.Some?
    ensures
      var after, flow := Apply(cfg, w, Step(ctx, Callback(q))), w.slots[slot].value;
      && OnlySlots(w, ctx, after, after.slots, after.trace)
      && (q.providerKnown ==> Refuses(cfg, ctx, slot, flow, flow.redirectURI, "canceled", w.slots, w.trace, after))
      && (!q.providerKnown ==>
            && after.slots == Consume(w.slots, ctx, slot)
            && Refuses(cfg, ctx, slot, flow, flow.redirectURI, "invalid_callback", after.slots, w.trace, after))
  {
    hide Reached, RedirectToCaller;
    FlowIs(cfg, h, w, slot);
    var flow := w.slots[slot].value;
    RefusalIs(cfg, Enter(w, ctx), ctx, slot, flow, CANCELED);
    RefusalIs(cfg, Enter(w, ctx), ctx, slot, flow, INVALID_CALLBACK);
  }

  /** The provider rejected the user, or the authorizer denied the user it authenticated. */
  predicate TurnedAway(result: ProviderResult) {
    result.Rejected? || (!result.managed && result.answer.Denied?)
  }

  /** The error of a user who is turned away: the one that came with the refusal, or the handler's own. */
  function Reason(result: ProviderResult): string
    requires TurnedAway(result)
  {
    match result
    case Rejected(code) => if code.Some? then code.value else "invalid_callback"
    case Authenticated(_, answer) => if answer.code.Some? then answer.code.value else "server_error"
  }

  /** A user who is turned away with an error gets no session; the flow ends with that error. */
  lemma TurnedAwayWithReason(cfg: Config, h: Trust, w: World, ctx: Context, q: CallbackQuery, slot: string)
    requires Sound(cfg) && Reached(cfg, h, w) && Asks(w, ctx, q, slot) && TurnedAway(q.result) && Reason(q.result) != ""
    ensures w.slots[slot].value.state.Some?
    ensures
      var after, flow := Apply(cfg, w, Step(ctx, Callback(q))), w.slots[slot].value;
      && OnlySlots(w, ctx, after, after.slots, after.trace)
      && Refuses(cfg, ctx, slot, flow, flow.redirectURI, Reason(q.result), w.slots, Asking(w, ctx, q, slot), after)
  {
    hide Reached, RedirectToCaller;
    FlowIs(cfg, h, w, slot);
    var sess := w.slots[slot].value.(id := ctx.names.session);
    RefusalIs(cfg, Enter(w, ctx).(trace := Asking(w, ctx, q, slot)), ctx, slot, sess, Reason(q.result));
  }

  /** A refusal whose error is empty is none: the drawn session ID is handed over, and no session is behind it. */
  lemma TurnedAwayWithoutReason(cfg: Config, h: Trust, w: World, ctx: Context, q: CallbackQuery, slot: string)
    requires Sound(cfg) && Reached(cfg, h, w) && Asks(w, ctx, q, slot) && TurnedAway(q.result) && Reason(q.result) == ""
    ensures w.slots[slot].value.state.Some?
    ensures
      var after, flow := Apply(cfg, w, Step(ctx, Callback(q))), w.slots[slot].value;
      && Clocked(w, ctx, after) && after.sessions == w.sessions
      && HandsOver(cfg, ctx, slot, flow, flow.redirectURI, ctx.names.session, false, None,
                   w.slots, w.codes, Asking(w, ctx, q, slot), after)
  {
    hide Reached, RedirectToCaller;
    FlowIs(cfg, h, w, slot);
    var sess := w.slots[slot].value.(id := ctx.names.session, errorCode := Reason(q.result));
    HandOverIs(cfg, Enter(w, ctx).(trace := Asking(w, ctx, q, slot)), ctx, slot, sess);
  }

  /** A flow that the provider manages is handed over with the drawn session ID itself; nothing is stored for it. */
  lemma ManagedFlowsAreHandedOver(cfg: Config, h: Trust, w: World, ctx: Context, q: CallbackQuery, slot: string)
    requires Sound(cfg) && Reached(cfg, h, w) && Asks(w, ctx, q, slot) && q.result.Authenticated? && q.result.managed
    ensures w.slots[slot].value.state.Some?
    ensures
      var after, flow := Apply(cfg, w, Step(ctx, Callback(q))), w.slots[slot].value;
      && OnlySlots(w, ctx, after, after.slots, after.trace)
      && HandsOver(cfg, ctx, slot, flow, flow.redirectURI, ctx.names.session, true, None,
                   w.slots, w.codes, Asking(w, ctx, q, slot), after)
  {
    hide Reached, RedirectToCaller;
    FlowIs(cfg, h, w, slot);
    var sess := w.slots[slot].value.(id := ctx.names.session, managedByProvider := true);
    HandOverIs(cfg, Enter(w, ctx).(trace := Asking(w, ctx, q, slot)), ctx, slot, sess);
  }

  // ---------------------------------------------------------------- logins

  /** The provider and the authorizer vouch for the user of the flow in `slot`, and the slot takes the session's ID. */
  predicate Vouches(w: World, ctx: Context, q: CallbackQuery, slot: string) {
    Asks(w, ctx, q, slot) && q.result.Authenticated? && !q.result.managed && q.result.answer.Granted? && ctx.ok.slotWrite
  }

  /** The user has to see the terms page. */
  predicate OwesTerms(cfg: Config, data: UserData) {
    cfg.requiresTOS && !data.isTOSAccepted
  }

  /** The login cannot be pointed to the terms page that it owes. */
  predicate LosesTerms(cfg: Config, ctx: Context, uri: string, data: UserData) {
    OwesTerms(cfg, data) && (cfg.codec.parse(uri).None? || !ctx.ok.slotRewrite)
  }

  /** The entry of a new session for the user of `data`. */
  predicate NewEntry(cfg: Config, entry: Entry<Session>, id: string, data: UserData, now: int) {
    && entry.deadline == now + cfg.sessionTimeout && entry.value.id == id
    && Mirrors(entry.value, data, now) && PlacedByLogin(cfg, entry.value, data)
  }

  /** A login of a known user writes its session, and nobody takes it back. */
  predicate LeavesOne(cfg: Config, w: World, ctx: Context, q: CallbackQuery) {
    && ctx.cookie.Named? && Vouches(w, ctx, q, ctx.cookie.slot) && ctx.ok.sessionWrite
    && (|| ctx.ok.audit || !ctx.ok.sessionDelete
        || LosesTerms(cfg, ctx, w.slots[ctx.cookie.slot].value.redirectURI, q.result.answer.data))
  }

  /** What a request that vouches starts from. */
  lemma LoginBegins(cfg: Config, h: Trust, w: World, ctx: Context, q: CallbackQuery, slot: string)
    requires Sound(cfg) && Reached(cfg, h, w) && Asks(w, ctx, q, slot)
    requires Admissible(w, Step(ctx, Callback(q))) && Meets(h, Step(ctx, Callback(q)))
    ensures
      var w1, sess := Enter(w, ctx).(trace := Asking(w, ctx, q, slot)), w.slots[slot].value.(id := ctx.names.session);
      && LoginStarts(w1, ctx, slot, sess)
      && Apply(cfg, w, Step(ctx, Callback(q))) == ProviderStep(cfg, w1, ctx, slot, sess, q)
  {
    hide Inv, Reached, ProviderStep, RedirectToCaller, LoginStarts, Recorded, Admissible, Meets, AllUnused;
    ReachedKeeps(cfg, h, w);
    EnterKeeps(cfg, h, w, Step(ctx, Callback(q)));
    AnswerKeeps(cfg, h, Enter(w, ctx), ctx, slot, q);
  }

  /** The sessions of a callback that does not ask the provider stay as they were. */
  lemma UnaskedSessions(cfg: Config, w: World, ctx: Context, q: CallbackQuery)
    requires !(ctx.cookie.Named? && Asks(w, ctx, q, ctx.cookie.slot))
    ensures Apply(cfg, w, Step(ctx, Callback(q))).sessions == w.sessions
  {
    hide RedirectToCaller, ProviderStep;
    forall w': World, slot: string, sess: Correlation ensures RedirectToCaller(cfg, w', ctx, slot, sess).sessions == w'.sessions {
      RedirectSpares(cfg, w', ctx, slot, sess);
    }
  }

  lemma UnvouchedSessions(cfg: Config, w: World, ctx: Context, slot: string, sess: Correlation, q: CallbackQuery)
    requires q.result.Rejected? || q.result.managed
    ensures ProviderStep(cfg, w, ctx, slot, sess, q).sessions == w.sessions
  {
    hide RedirectToCaller, HandleLogin;
    forall copy: Correlation ensures RedirectToCaller(cfg, w, ctx, slot, copy).sessions == w.sessions {
      RedirectSpares(cfg, w, ctx, slot, copy);
    }
  }

  lemma LeavesOneWhen(cfg: Config, w: World, ctx: Context, q: CallbackQuery, slot: string)
    requires Asks(w, ctx, q, slot) && q.result.Authenticated? && !q.result.managed
    ensures LeavesOne(cfg, w, ctx, q) <==>
      LeavesSession(EndOf(cfg, w.slots[slot].value.redirectURI, ctx.ok, q.result.answer), ctx.ok)
  {
  }

  lemma NewEntryIs(cfg: Config, w: World, id: string, data: UserData)
    ensures
      var after := WithLogin(cfg, w, id, data);
      id in after && after == w.sessions[id := after[id]] && NewEntry(cfg, after[id], id, data, w.now)
  {
    hide NewSession, Mirrors, PlacedByLogin;
    NewSessionIs(cfg, id, data, w.now);
  }

  lemma AskedSessions(cfg: Config, w: World, w1: World, ctx: Context, q: CallbackQuery, slot: string)
    requires Asks(w, ctx, q, slot) && w1.sessions == w.sessions && w1.now == ctx.now
    requires LoginStarts(w1, ctx, slot, w.slots[slot].value.(id := ctx.names.session))
    ensures
      ProviderStep(cfg, w1, ctx, slot, w.slots[slot].value.(id := ctx.names.session), q).sessions ==
        if LeavesOne(cfg, w, ctx, q) then WithLogin(cfg, Enter(w, ctx), ctx.names.session, q.result.answer.data) else w.sessions
  {
    hide LoginStarts, ProviderStep, NewSession, LeavesSession, EndOf;
    var sess := w.slots[slot].value.(id := ctx.names.session);
    if q.result.Authenticated? && !q.result.managed {
      LeavesOneWhen(cfg, w, ctx, q, slot);
      LoginsAreAllOrNothing(cfg, w1, ctx, slot, sess, q);
    } else {
      UnvouchedSessions(cfg, w1, ctx, slot, sess, q);
    }
  }

  /** The sessions after a callback, with the one that `NewSession` makes if the login leaves one. */
  lemma CallbackSessions(cfg: Config, h: Trust, w: World, ctx: Context, q: CallbackQuery)
    requires Sound(cfg) && Reached(cfg, h, w)
    requires Admissible(w, Step(ctx, Callback(q))) && Meets(h, Step(ctx, Callback(q)))
    ensures ctx.names.session !in w.sessions
    ensures
      Apply(cfg, w, Step(ctx, Callback(q))).sessions ==
        if LeavesOne(cfg, w, ctx, q) then WithLogin(cfg, Enter(w, ctx), ctx.names.session, q.result.answer.data) else w.sessions
  {
    hide Inv, Reached, Admissible, Meets, Apply, LoginStarts, ProviderStep, WithLogin;
    ReachedKeeps(cfg, h, w);
    FreshSession(cfg, h, w, Step(ctx, Callback(q)));
    if ctx.cookie.Named? && Asks(w, ctx, q, ctx.cookie.slot) {
      LoginBegins(cfg, h, w, ctx, q, ctx.cookie.slot);
      AskedSessions(cfg, w, Enter(w, ctx).(trace := Asking(w, ctx, q, ctx.cookie.slot)), ctx, q, ctx.cookie.slot);
    } else {
      UnaskedSessions(cfg, w, ctx, q);
    }
  }

  /**
   * A callback leaves exactly one new session, that of the user whom the authorizer described, with a full deadline, or
   * leaves all sessions as they were; and it leaves one exactly for a user who is vouched for, whose session was written,
   * and that was not deleted again.
   */
  lemma LoginsStoreTheAnswer(cfg: Config, h: Trust, w: World, ctx: Context, q: CallbackQuery)
    requires Sound(cfg) && Reached(cfg, h, w)
    requires Admissible(w, Step(ctx, Callback(q))) && Meets(h, Step(ctx, Callback(q)))
    ensures
      var after, id := Apply(cfg, w, Step(ctx, Callback(q))).sessions, ctx.names.session;
      && id !in w.sessions
      && if LeavesOne(cfg, w, ctx, q) then
           && id in after && after == w.sessions[id := after[id]]
           && NewEntry(cfg, after[id], id, q.result.answer.data, ctx.now)
         else after == w.sessions
  {
    hide Reached, Admissible, Meets, Apply, NewEntry, WithLogin;
    CallbackSessions(cfg, h, w, ctx, q);
    if LeavesOne(cfg, w, ctx, q) {
      NewEntryIs(cfg, Enter(w, ctx), ctx.names.session, q.result.answer.data);
    }
  }

  /** Where the flow of a login ends: at the terms page that it owes, or where it was asked for. */
  function Goal(cfg: Config, uri: string, data: UserData): string {
    var u := cfg.codec.parse(uri);
    if OwesTerms(cfg, data) && u.Some? then
      var page := cfg.codec.render(u.value.(path := TermsPath(u.value.path, cfg.tosEndpoint), query := map[]));
      if page != "" then page else uri
    else uri
  }

  /** The slots while a login is under way: the flow has its session's ID and another twenty minutes. */
  function Holding(w: World, ctx: Context, slot: string): Cache<Correlation>
    requires slot in w.slots
  {
    w.slots[slot := Entry(w.slots[slot].value.(id := ctx.names.session), ctx.now + 20 * 60 * 1_000_000_000)]
  }

  /**
   * A login that is stored, audited and not cut off from its terms page ends its flow with its session and the time of
   * its creation; if the provider signs out first, the flow stays in its slot with the session's ID.
   */
  lemma CompletedLoginsAreHandedOver(cfg: Config, h: Trust, w: World, ctx: Context, q: CallbackQuery, slot: string)
    requires Sound(cfg) && Reached(cfg, h, w)
    requires Admissible(w, Step(ctx, Callback(q))) && Meets(h, Step(ctx, Callback(q)))
    requires Vouches(w, ctx, q, slot) && ctx.ok.sessionWrite && ctx.ok.audit
    requires !LosesTerms(cfg, ctx, w.slots[slot].value.redirectURI, q.result.answer.data)
    ensures w.slots[slot].value.state.Some?
    ensures
      var after, flow, id := Apply(cfg, w, Step(ctx, Callback(q))), w.slots[slot].value, ctx.names.session;
      var done := After(After(Asking(w, ctx, q, slot), SessionStored(id, false)), LoginAudited(id));
      && Clocked(w, ctx, after)
      && if q.signout.SignoutVia? then after.slots == Holding(w, ctx, slot) && after.codes == w.codes && after.trace == done
         else HandsOver(cfg, ctx, slot, flow, Goal(cfg, flow.redirectURI, q.result.answer.data), id, false, Some(ctx.now),
                        Holding(w, ctx, slot), w.codes, done, after)
  {
    hide Inv, Reached, Admissible, Meets, Apply, LoginStarts, ProviderStep, Goal, HandsOver, Holding;
    LoginBegins(cfg, h, w, ctx, q, slot);
    FlowIs(cfg, h, w, slot);
    CompletedWorld(cfg, w, Enter(w, ctx).(trace := Asking(w, ctx, q, slot)), ctx, q, slot);
  }

  lemma GoalIs(cfg: Config, uri: string, data: UserData)
    ensures Goal(cfg, uri, data) == Target(cfg, uri, data)
  {
  }

  /** The slots, codes and trace of a world in which a login wrote its session, if the store obeyed. */
  lemma CreatedIs(cfg: Config, w1: World, ctx: Context, slot: string, sess: Correlation, data: UserData)
    ensures
      var c := Created(cfg, w1, ctx, slot, sess, data);
      && c.slots == w1.slots[slot := Entry(sess, w1.now + 20 * 60 * 1_000_000_000)]
      && c.codes == w1.codes && c.clients == w1.clients && c.now == w1.now && c.minted == w1.minted
      && c.trace == if ctx.ok.sessionWrite then After(w1.trace, SessionStored(sess.id, false)) else w1.trace
  {
    NewSessionID(cfg, sess.id, data, w1.now);
    hide NewSession;
  }

  lemma ProviderEnds(cfg: Config, w: World, ctx: Context, slot: string, sess: Correlation, q: CallbackQuery)
    requires q.result.Authenticated? && !q.result.managed
    ensures
      var login := HandleLogin(cfg, w, ctx, sess, q.result.answer);
      ProviderStep(cfg, w, ctx, slot, sess, q) ==
        if login.ok && q.signout.SignoutVia? then login.w else RedirectToCaller(cfg, login.w, ctx, slot, login.sess)
  {
    hide HandleLogin, RedirectToCaller;
  }

  lemma CompletedWorld(cfg: Config, w: World, w1: World, ctx: Context, q: CallbackQuery, slot: string)
    requires Vouches(w, ctx, q, slot) && ctx.ok.sessionWrite && ctx.ok.audit && w.slots[slot].value.state.Some?
    requires !LosesTerms(cfg, ctx, w.slots[slot].value.redirectURI, q.result.answer.data)
    requires w1 == Enter(w, ctx).(trace := Asking(w, ctx, q, slot))
    requires LoginStarts(w1, ctx, slot, w.slots[slot].value.(id := ctx.names.session))
    ensures
      var after := ProviderStep(cfg, w1, ctx, slot, w.slots[slot].value.(id := ctx.names.session), q);
      var flow, id := w.slots[slot].value, ctx.names.session;
      var done := After(After(Asking(w, ctx, q, slot), SessionStored(id, false)), LoginAudited(id));
      && Clocked(w, ctx, after)
      && if q.signout.SignoutVia? then after.slots == Holding(w, ctx, slot) && after.codes == w.codes && after.trace == done
         else HandsOver(cfg, ctx, slot, flow, Goal(cfg, flow.redirectURI, q.result.answer.data), id, false, Some(ctx.now),
                        Holding(w, ctx, slot), w.codes, done, after)
  {
    hide HandleLogin, ProviderStep, RedirectToCaller, LoginStarts, Created, Goal, BuildTOSRedirect;
    var sess, answer := w.slots[slot].value.(id := ctx.names.session), q.result.answer;
    var login := HandleLogin(cfg, w1, ctx, sess, answer);
    ProviderEnds(cfg, w1, ctx, slot, sess, q);
    LoginShape(cfg, w1, ctx, slot, sess, answer);
    CompletedCopy(cfg, w1, ctx, slot, sess, answer);
    CreatedIs(cfg, w1, ctx, slot, sess, answer.data);
    GoalIs(cfg, sess.redirectURI, answer.data);
    HandOverIs(cfg, login.w, ctx, slot, login.sess);
  }

  /**
   * A login that was not stored or not audited ends its flow with "server_error" where its session would have gone.
   */
  lemma FailedLoginsAreRefused(cfg: Config, h: Trust, w: World, ctx: Context, q: CallbackQuery, slot: string)
    requires Sound(cfg) && Reached(cfg, h, w)
    requires Admissible(w, Step(ctx, Callback(q))) && Meets(h, Step(ctx, Callback(q)))
    requires Vouches(w, ctx, q, slot) && !(ctx.ok.sessionWrite && ctx.ok.audit)
    requires !LosesTerms(cfg, ctx, w.slots[slot].value.redirectURI, q.result.answer.data)
    ensures w.slots[slot].value.state.Some?
    ensures
      var after, flow, id := Apply(cfg, w, Step(ctx, Callback(q))), w.slots[slot].value, ctx.names.session;
      var asking := Asking(w, ctx, q, slot);
      && Clocked(w, ctx, after) && after.codes == w.codes
      && Refuses(cfg, ctx, slot, flow, Goal(cfg, flow.redirectURI, q.result.answer.data), "server_error", Holding(w, ctx, slot),
                 if ctx.ok.sessionWrite then After(asking, SessionStored(id, false)) else asking, after)
  {
    hide Inv, Reached, Admissible, Meets, Apply, LoginStarts, ProviderStep, Goal, Refuses, Holding;
    LoginBegins(cfg, h, w, ctx, q, slot);
    FlowIs(cfg, h, w, slot);
    FailedWorld(cfg, w, Enter(w, ctx).(trace := Asking(w, ctx, q, slot)), ctx, q, slot);
  }

  lemma FailedWorld(cfg: Config, w: World, w1: World, ctx: Context, q: CallbackQuery, slot: string)
    requires Vouches(w, ctx, q, slot) && !(ctx.ok.sessionWrite && ctx.ok.audit) && w.slots[slot].value.state.Some?
    requires !LosesTerms(cfg, ctx, w.slots[slot].value.redirectURI, q.result.answer.data)
    requires w1 == Enter(w, ctx).(trace := Asking(w, ctx, q, slot))
    requires LoginStarts(w1, ctx, slot, w.slots[slot].value.(id := ctx.names.session))
    ensures
      var after := ProviderStep(cfg, w1, ctx, slot, w.slots[slot].value.(id := ctx.names.session), q);
      var flow, id, asking := w.slots[slot].value, ctx.names.session, Asking(w, ctx, q, slot);
      && Clocked(w, ctx, after) && after.codes == w.codes
      && Refuses(cfg, ctx, slot, flow, Goal(cfg, flow.redirectURI, q.result.answer.data), "server_error", Holding(w, ctx, slot),
                 if ctx.ok.sessionWrite then After(asking, SessionStored(id, false)) else asking, after)
  {
    hide HandleLogin, ProviderStep, RedirectToCaller, LoginStarts, Created, Goal, BuildTOSRedirect;
    var sess, answer := w.slots[slot].value.(id := ctx.names.session), q.result.answer;
    var login := HandleLogin(cfg, w1, ctx, sess, answer);
    ProviderEnds(cfg, w1, ctx, slot, sess, q);
    LoginShape(cfg, w1, ctx, slot, sess, answer);
    CreatedIs(cfg, w1, ctx, slot, sess, answer.data);
    GoalIs(cfg, sess.redirectURI, answer.data);
    assert login.sess == login.sess.(errorCode := SERVER_ERROR);
    RefusalIs(cfg, login.w, ctx, slot, login.sess, SERVER_ERROR);
  }

  /** The handler's copy of a login that was cut off by its slot or its terms page. */
  lemma CutOffCopy(cfg: Config, w: World, ctx: Context, slot: string, sess: Correlation, data: UserData)
    requires LoginStarts(w, ctx, slot, sess)
    requires !ctx.ok.slotWrite || LosesTerms(cfg, ctx, sess.redirectURI, data)
    ensures
      var l := HandleLogin(cfg, w, ctx, sess, Granted(data));
      && !l.ok && Destination(l.sess) == (if ctx.ok.slotWrite then Goal(cfg, sess.redirectURI, data) else sess.redirectURI)
      && l.sess == sess.(sessionCreated := Some(w.now), tosTargetURI := l.sess.tosTargetURI)
  {
    if ctx.ok.slotWrite {
      SetHolds(w, ctx, slot, sess, sess.(sessionCreated := Some(w.now)), w.slots);
      hide SetSlot, Held;
    }
  }

  lemma CutOffWorld(cfg: Config, w: World, w1: World, ctx: Context, q: CallbackQuery, slot: string)
    requires Asks(w, ctx, q, slot) && q.result.Authenticated? && !q.result.managed && q.result.answer.Granted?
    requires !ctx.ok.slotWrite || LosesTerms(cfg, ctx, w.slots[slot].value.redirectURI, q.result.answer.data)
    requires w.slots[slot].value.state.Some? && w1 == Enter(w, ctx).(trace := Asking(w, ctx, q, slot))
    requires LoginStarts(w1, ctx, slot, w.slots[slot].value.(id := ctx.names.session))
    ensures
      var after := ProviderStep(cfg, w1, ctx, slot, w.slots[slot].value.(id := ctx.names.session), q);
      var flow, id, asking := w.slots[slot].value, ctx.names.session, Asking(w, ctx, q, slot);
      && Clocked(w, ctx, after)
      && if !ctx.ok.slotWrite
         then HandsOver(cfg, ctx, slot, flow, flow.redirectURI, id, false, Some(ctx.now), w.slots, w.codes, asking, after)
         else HandsOver(cfg, ctx, slot, flow, Goal(cfg, flow.redirectURI, q.result.answer.data), id, false, Some(ctx.now),
                        Holding(w, ctx, slot), w.codes,
                        if ctx.ok.sessionWrite then After(asking, SessionStored(id, false)) else asking, after)
  {
    hide HandleLogin, ProviderStep, RedirectToCaller, LoginStarts, Created, Goal, BuildTOSRedirect, Destination;
    var sess, answer := w.slots[slot].value.(id := ctx.names.session), q.result.answer;
    var login := HandleLogin(cfg, w1, ctx, sess, answer);
    ProviderEnds(cfg, w1, ctx, slot, sess, q);
    LoginShape(cfg, w1, ctx, slot, sess, answer);
    CutOffCopy(cfg, w1, ctx, slot, sess, answer.data);
    CreatedIs(cfg, w1, ctx, slot, sess, answer.data);
    FlowOfLogin(w1, ctx, slot, sess);
    HandOverIs(cfg, login.w, ctx, slot, login.sess);
  }

  lemma FlowOfLogin(w: World, ctx: Context, slot: string, sess: Correlation)
    requires LoginStarts(w, ctx, slot, sess)
    ensures sess.errorCode == "" && !sess.managedByProvider && ctx.cookie == Named(slot)
  {
  }

  /**
   * A login of a user who was vouched for, but whose slot or terms page could not be written, hands its session over all
   * the same: unstored if the slot was not written, and unaudited in any case.
   */
  lemma CutOffLoginsAreHandedOver(cfg: Config, h: Trust, w: World, ctx: Context, q: CallbackQuery, slot: string)
    requires Sound(cfg) && Reached(cfg, h, w)
    requires Admissible(w, Step(ctx, Callback(q))) && Meets(h, Step(ctx, Callback(q)))
    requires Asks(w, ctx, q, slot) && q.result.Authenticated? && !q.result.managed && q.result.answer.Granted?
    requires !ctx.ok.slotWrite || LosesTerms(cfg, ctx, w.slots[slot].value.redirectURI, q.result.answer.data)
    ensures w.slots[slot].value.state.Some?
    ensures
      var after, flow, id := Apply(cfg, w, Step(ctx, Callback(q))), w.slots[slot].value, ctx.names.session;
      var asking := Asking(w, ctx, q, slot);
      && Clocked(w, ctx, after)
      && if !ctx.ok.slotWrite
         then HandsOver(cfg, ctx, slot, flow, flow.redirectURI, id, false, Some(ctx.now), w.slots, w.codes, asking, after)
         else HandsOver(cfg, ctx, slot, flow, Goal(cfg, flow.redirectURI, q.result.answer.data), id, false, Some(ctx.now),
                        Holding(w, ctx, slot), w.codes,
                        if ctx.ok.sessionWrite then After(asking, SessionStored(id, false)) else asking, after)
  {
    hide Inv, Reached, Admissible, Meets, Apply, LoginStarts, ProviderStep, Goal, HandsOver, Holding;
    LoginBegins(cfg, h, w, ctx, q, slot);
    FlowIs(cfg, h, w, slot);
    CutOffWorld(cfg, w, Enter(w, ctx).(trace := Asking(w, ctx, q, slot)), ctx, q, slot);
  }

  // ---------------------------------------------------------------- flows that wait for the way back

  /** Both callbacks end a flow that holds a session already: with that session, and without the time of its creation. */
  lemma HeldSessionsAreHandedOver(cfg: Config, h: Trust, w: World, ctx: Context, q: CallbackQuery, slot: string)
    requires Sound(cfg) && Reached(cfg, h, w) && ctx.ok.slotRead && ctx.cookie == Named(slot)
    requires slot in w.slots && ctx.now < w.slots[slot].deadline && w.slots[slot].value.id != ""
    requires q.provider != "" && !q.signoutResponse
    ensures w.slots[slot].value.state.Some?
    ensures
      var after, flow := Apply(cfg, w, Step(ctx, Callback(q))), w.slots[slot].value;
      && Apply(cfg, w, Step(ctx, LogoutCallback)) == after
      && Clocked(w, ctx, after) && after.sessions == w.sessions
      && HandsOver(cfg, ctx, slot, flow, flow.redirectURI, flow.id, false, None, w.slots, w.codes, w.trace, after)
  {
    hide Reached, RedirectToCaller, HandsOver, ProviderStep;
    FlowIs(cfg, h, w, slot);
    HandOverIs(cfg, Enter(w, ctx), ctx, slot, w.slots[slot].value);
  }

  /** The callback after a sign-out has no effect for any other flow. */
  lemma OtherLogoutCallbacksDoNothing(cfg: Config, w: World, ctx: Context)
    requires
      || !ctx.ok.slotRead || !ctx.cookie.Named? || ctx.cookie.slot !in w.slots
      || ctx.now >= w.slots[ctx.cookie.slot].deadline || w.slots[ctx.cookie.slot].value.id == ""
    ensures NoEffect(w, ctx, Apply(cfg, w, Step(ctx, LogoutCallback)))
  {
    hide RedirectToCaller;
  }
}
