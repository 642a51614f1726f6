/** Every request keeps the invariant: the proofs, handler by handler. */
module Preservation {
  import opened Basics
  import opened Settings
  import opened Entities
  import opened Validators
  import opened Traces
  import opened Protocol
  import opened Invariants

  // ---------------------------------------------------------------- redirecting to the caller

  /** The handler's copy of a correlation fits the slot it came from. */
  ghost predicate Fits(cfg: Config, w: World, slot: string, sess: Correlation) {
    && SlotBound(LatestAccepted(w.trace, slot), sess)
    && (slot in w.slots ==> w.slots[slot].value.id in {"", sess.id})
    && (sess.tosTargetURI.Some? ==> BuildTOSRedirect(cfg, sess.redirectURI) == sess.tosTargetURI)
  }

  /** The correlation may be handed over: its session is nobody else's and is old enough. */
  ghost predicate MayHandOver(cfg: Config, h: Trust, w: World, ctx: Context, slot: string, sess: Correlation) {
    && sess.id != "" && sess.id in w.minted
    && ctx.cookie == Named(slot)
    && (h.slotDeletes ==> sess.id !in Delivered(w.trace))
    && (h.slotDeletes ==> forall k | k in w.slots && w.slots[k].value.id == sess.id :: k == slot)
    && Aged(sess.sessionCreated, sess.id, w.sessions)
    && (!sess.managedByProvider ==> Truthful(cfg, w.trace, slot, sess.id))
  }

  /** The code name that the request may draw is still unused. */
  ghost predicate CodeUnused(w: World, ctx: Context) {
    ctx.names.code in w.minted && ctx.names.code !in w.codes
  }

  /** The destination is the requested URI or its terms page. */
  lemma DestinationStays(cfg: Config, sess: Correlation, a: Acceptance, url: Url, issue: Issue)
    requires sess.tosTargetURI.Some? ==> BuildTOSRedirect(cfg, sess.redirectURI) == sess.tosTargetURI
    requires LeadsTo(cfg, url, Destination(sess), a.state, issue) && a.redirectURI == sess.redirectURI
    ensures StaysWith(cfg, url, a, issue)
  {
  }

  /** Redirecting leaves the sessions alone and any new code is no older than its session. */
  lemma RedirectSessions(cfg: Config, h: Trust, w: World, ctx: Context, slot: string, sess: Correlation)
    requires Sessions(cfg, h, w)
    requires |sess.errorCode| == 0 ==> Aged(sess.sessionCreated, sess.id, w.sessions)
    ensures Sessions(cfg, h, RedirectToCaller(cfg, w, ctx, slot, sess))
  {
    var w' := RedirectToCaller(cfg, w, ctx, slot, sess);
    if w' != w {
      SessionsAfter(cfg, h, w.sessions, w.trace, w'.trace.event);
    }
  }

  ghost predicate FlowsOf(cfg: Config, h: Trust, w: World, pending: string) {
    Flows(cfg, h, w.slots, w.codes, w.minted, w.trace, pending)
  }

  /** The session in the slot, if any, is truthful. */
  ghost predicate SlotTold(cfg: Config, w: World, slot: string) {
    slot in w.slots && w.slots[slot].value.id != "" ==> Truthful(cfg, w.trace, slot, w.slots[slot].value.id)
  }

  lemma RefuseFlows(cfg: Config, h: Trust, w: World, ctx: Context, slot: string, url: Url, pending: string)
    requires FlowsOf(cfg, h, w, pending)
    requires pending == "" || (pending == slot && ctx.cookie == Named(slot))
    requires h.slotDeletes ==> ctx.ok.slotDelete
    requires LatestAccepted(w.trace, slot).Some? && StaysWith(cfg, url, LatestAccepted(w.trace, slot).value, Refusal)
    requires pending != "" && !ctx.ok.slotDelete ==> SlotTold(cfg, w, slot)
    ensures FlowsOf(cfg, h, Finish(w, ctx, slot, url, Refusal), "")
  {
    var kept := DeleteSlot(w.slots, ctx.cookie, ctx.ok.slotDelete);
    LossKeeps(cfg, h, w.slots, w.codes, w.minted, w.trace, pending, kept);
    Settle(cfg, h, kept, w.codes, w.minted, w.trace, if pending in kept then pending else "");
    QuietKeeps(cfg, h, kept, w.codes, w.minted, w.trace, Redirected(slot, url, Refusal), "");
  }

  lemma HandOverFlows(cfg: Config, h: Trust, w: World, ctx: Context, slot: string, sess: Correlation, url: Url, issue: Issue)
    requires FlowsOf(cfg, h, w, slot)
    requires SlotBound(LatestAccepted(w.trace, slot), sess) && StaysWith(cfg, url, LatestAccepted(w.trace, slot).value, issue)
    requires h.slotDeletes ==> ctx.ok.slotDelete
    requires MayHandOver(cfg, h, w, ctx, slot, sess) && CodeUnused(w, ctx)
    requires SlotTold(cfg, w, slot)
    requires issue == Code(ctx.names.code, sess.id) || issue == Direct(sess.id, sess.managedByProvider)
    requires issue.Code? ==> !sess.managedByProvider
    ensures
      var w1 := if issue.Code? then StoreCode(w, ctx.names.code, sess) else w;
      FlowsOf(cfg, h, Finish(w1, ctx, slot, url, issue), "")
  {
    hide Flows;
    var kept := DeleteSlot(w.slots, ctx.cookie, ctx.ok.slotDelete);
    DeliverKeeps(cfg, h, w.slots, w.codes, w.minted, w.trace, kept, slot, url, issue, w.now + CODE_TTL, sess);
  }

  /** With nothing sent, a truthful pending slot is settled. */
  lemma StayFlows(cfg: Config, h: Trust, w: World, slot: string, pending: string)
    requires FlowsOf(cfg, h, w, pending)
    requires pending == "" || (pending == slot && SlotTold(cfg, w, slot))
    ensures FlowsOf(cfg, h, w, "")
  {
    Settle(cfg, h, w.slots, w.codes, w.minted, w.trace, pending);
  }

  lemma SlotIsTold(cfg: Config, h: Trust, w: World, slot: string)
    requires FlowsOf(cfg, h, w, "")
    ensures SlotTold(cfg, w, slot)
  {
    assert slot in w.slots ==> slot in w.minted;
  }

  lemma Exempt(cfg: Config, h: Trust, w: World, slot: string)
    requires FlowsOf(cfg, h, w, "")
    ensures FlowsOf(cfg, h, w, slot)
  {
    assert "" !in w.slots;
  }

  /** The error redirect of the flow consumes its slot. */
  predicate Consumed(cfg: Config, ctx: Context, sess: Correlation) {
    |sess.errorCode| > 0 && ctx.ok.slotDelete && cfg.codec.parse(Destination(sess)).Some?
  }

  lemma RedirectFlows(cfg: Config, h: Trust, w: World, ctx: Context, slot: string, sess: Correlation, pending: string)
    requires FlowsOf(cfg, h, w, pending) && Fits(cfg, w, slot, sess)
    requires pending == "" || (pending == slot && ctx.cookie == Named(slot))
    requires pending != "" && !Consumed(cfg, ctx, sess) ==> SlotTold(cfg, w, slot)
    requires h.slotDeletes ==> ctx.ok.slotDelete
    requires |sess.errorCode| == 0 ==> MayHandOver(cfg, h, w, ctx, slot, sess) && CodeUnused(w, ctx)
    ensures FlowsOf(cfg, h, RedirectToCaller(cfg, w, ctx, slot, sess), "")
  {
    hide Flows, SlotTold, MayHandOver, StaysWith, Truthful;
    if cfg.codec.parse(Destination(sess)).None? {
      StayFlows(cfg, h, w, slot, pending);
    } else {
      var a := LatestAccepted(w.trace, slot).value;
      var url := SetParam(cfg.codec.parse(Destination(sess)).value, "state", sess.state.value);
      if |sess.errorCode| > 0 {
        DestinationStays(cfg, sess, a, SetParam(url, "error", sess.errorCode), Refusal);
        RefuseFlows(cfg, h, w, ctx, slot, SetParam(url, "error", sess.errorCode), pending);
      } else {
        if pending == "" {
          SlotIsTold(cfg, h, w, slot);
          Exempt(cfg, h, w, slot);
        }
        if !(cfg.codeGrant && !sess.managedByProvider) {
          DestinationStays(cfg, sess, a, SetParam(url, "code", sess.id), Direct(sess.id, sess.managedByProvider));
          HandOverFlows(cfg, h, w, ctx, slot, sess, SetParam(url, "code", sess.id), Direct(sess.id, sess.managedByProvider));
        } else if ctx.ok.codeWrite {
          DestinationStays(cfg, sess, a, SetParam(url, "code", ctx.names.code), Code(ctx.names.code, sess.id));
          HandOverFlows(cfg, h, w, ctx, slot, sess, SetParam(url, "code", ctx.names.code), Code(ctx.names.code, sess.id));
        } else {
          StayFlows(cfg, h, w, slot, slot);
        }
      }
    }
  }

  lemma RedirectKeeps(cfg: Config, h: Trust, w: World, ctx: Context, slot: string, sess: Correlation, pending: string)
    requires Inv(cfg, h, w, pending) && Fits(cfg, w, slot, sess)
    requires pending == "" || (pending == slot && ctx.cookie == Named(slot))
    requires pending != "" && !Consumed(cfg, ctx, sess) ==> SlotTold(cfg, w, slot)
    requires h.slotDeletes ==> ctx.ok.slotDelete
    requires |sess.errorCode| == 0 ==> MayHandOver(cfg, h, w, ctx, slot, sess) && CodeUnused(w, ctx)
    ensures Inv(cfg, h, RedirectToCaller(cfg, w, ctx, slot, sess), "")
  {
    hide Flows, SlotTold, Truthful;
    RedirectFlows(cfg, h, w, ctx, slot, sess, pending);
    RedirectSessions(cfg, h, w, ctx, slot, sess);
  }

  // ---------------------------------------------------------------- login

  /** A login starts from a live slot that holds no session yet, with a fresh session ID. */
  ghost predicate LoginStarts(w: World, ctx: Context, slot: string, sess: Correlation) {
    && ctx.cookie == Named(slot)
    && slot in w.slots && w.now < w.slots[slot].deadline
    && w.slots[slot].value == sess.(id := "") && Plain(sess)
    && Unused(w, sess.id)
  }

  function Held(w: World, slot: string, sess: Correlation): Cache<Correlation> {
    w.slots[slot := Entry(sess, w.now + SLOT_TTL)]
  }

  /** The world in which the slot holds the new session's ID and the session was written, if the store obeyed. */
  function Created(cfg: Config, w: World, ctx: Context, slot: string, sess: Correlation, data: UserData): World {
    CreateSession(cfg, w.(slots := Held(w, slot, sess)), NewSession(cfg, sess.id, data, w.now), false, ctx.ok.sessionWrite)
  }

  /** Setting the handler's copy writes its ID into the slot and nothing else, however often it is done. */
  lemma SetHolds(w: World, ctx: Context, slot: string, sess: Correlation, c: Correlation, slots: Cache<Correlation>)
    requires LoginStarts(w, ctx, slot, sess)
    requires c.(sessionCreated := None, tosTargetURI := None) == sess
    requires slots == w.slots || slots == Held(w, slot, sess)
    ensures SetSlot(slots, ctx.cookie, c, ctx.names.slot, w.now, true) == SlotResult(Held(w, slot, sess), Some((slot, sess)))
  {
    assert NamedSlot(slots, ctx.cookie, w.now) == Some(slots[slot].value);
    assert slots[slot].value.(id := c.id, errorCode := c.errorCode) == sess;
    assert slots[slot := Entry(sess, w.now + SLOT_TTL)] == Held(w, slot, sess);
  }

  /** The four ways a login can end, with the world each leaves. */
  lemma LoginShape(cfg: Config, w: World, ctx: Context, slot: string, sess: Correlation, answer: Answer)
    requires LoginStarts(w, ctx, slot, sess)
    ensures
      var l := HandleLogin(cfg, w, ctx, sess, answer);
      var end := EndOf(cfg, sess.redirectURI, ctx.ok, answer);
      && l.ok == end.Completed?
      && (end.NotStarted? ==> l.w == w && l.sess.tosTargetURI.None?)
      && (end.Unfinished? ==> l.w == Created(cfg, w, ctx, slot, sess, answer.data))
      && (end.Completed? ==> l.w == Emit(Created(cfg, w, ctx, slot, sess, answer.data), LoginAudited(sess.id)))
      && (end.Compensated? ==>
            l.w == DropSession(Created(cfg, w, ctx, slot, sess, answer.data), sess.id, ctx.ok.sessionDelete))
      && LoginCopy(cfg, w, sess, l.sess)
      && (answer.Denied? ==> l.sess.errorCode == if answer.code.Some? then answer.code.value else SERVER_ERROR)
      && (answer.Granted? ==> l.sess.errorCode == if end.Compensated? then SERVER_ERROR else "")
      && (end.Compensated? ==> Destination(l.sess) == Target(cfg, sess.redirectURI, answer.data))
  {
    if answer.Granted? && ctx.ok.slotWrite {
      var dated := sess.(sessionCreated := Some(w.now));
      SetHolds(w, ctx, slot, sess, dated, w.slots);
      var w1 := Created(cfg, w, ctx, slot, sess, answer.data);
      if cfg.requiresTOS && !answer.data.isTOSAccepted {
        TermsShape(cfg, w, w1, ctx, slot, sess);
      }
    }
  }

  /** The handler's copy after a login: still the same flow, dated now at the latest. */
  predicate LoginCopy(cfg: Config, w: World, sess: Correlation, copy: Correlation) {
    && copy.(errorCode := "", sessionCreated := None, tosTargetURI := None) == sess
    && (copy.sessionCreated.Some? ==> copy.sessionCreated.value == w.now)
    && (copy.tosTargetURI.Some? ==> BuildTOSRedirect(cfg, sess.redirectURI) == copy.tosTargetURI)
  }

  lemma TermsShape(cfg: Config, w: World, w1: World, ctx: Context, slot: string, sess: Correlation)
    requires LoginStarts(w, ctx, slot, sess)
    requires w1.slots == Held(w, slot, sess) && w1.now == w.now
    ensures
      var l := SendToTerms(cfg, w1, ctx, sess.(sessionCreated := Some(w.now)));
      LoginCopy(cfg, w, sess, l.sess) && l.sess.redirectURI == sess.redirectURI &&
      (cfg.codec.parse(sess.redirectURI).Some? ==> l.sess.tosTargetURI == BuildTOSRedirect(cfg, sess.redirectURI)) &&
      if cfg.codec.parse(sess.redirectURI).None? || !ctx.ok.slotRewrite then
        l.w == w1 && !l.ok && l.sess.errorCode == ""
      else if ctx.ok.sessionWrite && ctx.ok.audit then
        l.w == Emit(w1, LoginAudited(sess.id)) && l.ok && l.sess.errorCode == ""
      else
        l.w == DropSession(w1, sess.id, ctx.ok.sessionDelete) && !l.ok && l.sess.errorCode == SERVER_ERROR
  {
    var page := BuildTOSRedirect(cfg, sess.redirectURI);
    if page.Some? && ctx.ok.slotRewrite {
      SetHolds(w, ctx, slot, sess, sess.(sessionCreated := Some(w.now), tosTargetURI := page), w1.slots);
      assert w1.(slots := w1.slots) == w1;
    }
  }

  lemma NewSessionPlaced(cfg: Config, t: Trace, id: string, data: UserData, now: int)
    requires id !in TermsAnswered(t)
    ensures
      var s := NewSession(cfg, id, data, now);
      WellPlaced(cfg, s) && RoleHeld(cfg, t, s) && TermsTold(cfg, t, s)
  {
    UnansweredNeverLapsed(t, id);
  }

  /** Holding the slot and storing the session keeps everything but the backing of that slot. */
  lemma CreatedKeeps(cfg: Config, h: Trust, w: World, ctx: Context, slot: string, sess: Correlation, data: UserData)
    requires Sound(cfg) && Inv(cfg, h, w, "") && LoginStarts(w, ctx, slot, sess)
    ensures Inv(cfg, h, Created(cfg, w, ctx, slot, sess, data), slot)
  {
    hide Flows;
    HoldFlows(cfg, h, w.slots, w.codes, w.minted, w.trace, slot, Entry(sess, w.now + SLOT_TTL));
    var w1 := w.(slots := Held(w, slot, sess));
    var session := NewSession(cfg, sess.id, data, w.now);
    if ctx.ok.sessionWrite {
      QuietKeeps(cfg, h, w1.slots, w1.codes, w1.minted, w1.trace, SessionStored(sess.id, false), slot);
      NewSessionPlaced(cfg, w.trace, sess.id, data, w.now);
      StoreNew(cfg, h, w1, session, false);
    }
  }

  lemma LoginKeeps(cfg: Config, h: Trust, w: World, ctx: Context, slot: string, sess: Correlation, answer: Answer)
    requires Sound(cfg) && Inv(cfg, h, w, "") && LoginStarts(w, ctx, slot, sess)
    ensures Inv(cfg, h, HandleLogin(cfg, w, ctx, sess, answer).w, slot)
  {
    hide Flows, Sessions, HandleLogin;
    LoginShape(cfg, w, ctx, slot, sess, answer);
    Exempt(cfg, h, w, slot);
    if !EndOf(cfg, sess.redirectURI, ctx.ok, answer).NotStarted? {
      var w1 := Created(cfg, w, ctx, slot, sess, answer.data);
      CreatedKeeps(cfg, h, w, ctx, slot, sess, answer.data);
      QuietKeeps(cfg, h, w1.slots, w1.codes, w1.minted, w1.trace, LoginAudited(sess.id), slot);
      SessionsAudited(cfg, h, w1, LoginAudited(sess.id));
      LoseSessions(cfg, h, w1, Drop(w1.sessions, sess.id));
    }
  }

  lemma SessionsAudited(cfg: Config, h: Trust, w: World, e: Event)
    requires Sessions(cfg, h, w) && !e.SessionStored? && !e.TermsPlaced? && !e.RoleChosen?
    ensures Sessions(cfg, h, Emit(w, e))
  {
    SessionsAfter(cfg, h, w.sessions, w.trace, e);
  }

  /** The login's outcome is on record, for the request that the slot holds. */
  predicate Recorded(w: World, ctx: Context, slot: string, sess: Correlation, result: ProviderResult) {
    && OutcomeOf(w.trace, sess.id) == Some(Outcome(sess.redirectURI, result, ctx.ok))
    && LatestAccepted(w.trace, slot).Some? && LatestAccepted(w.trace, slot).value.redirectURI == sess.redirectURI
  }

  /** After a login whatever is handed over or left in the slot is truthful. */
  lemma LoginTruth(cfg: Config, w: World, ctx: Context, slot: string, sess: Correlation, answer: Answer)
    requires LoginStarts(w, ctx, slot, sess) && Recorded(w, ctx, slot, sess, Authenticated(false, answer))
    ensures
      var l := HandleLogin(cfg, w, ctx, sess, answer);
      && (|l.sess.errorCode| == 0 ==> Truthful(cfg, l.w.trace, slot, sess.id))
      && (!Consumed(cfg, ctx, l.sess) ==> SlotTold(cfg, l.w, slot))
  {
    hide HandleLogin, Created, Held, LoginStarts;
    LoginShape(cfg, w, ctx, slot, sess, answer);
    HeldView(w, ctx, slot, sess);
    if !EndOf(cfg, sess.redirectURI, ctx.ok, answer).NotStarted? {
      CreatedView(cfg, w, ctx, slot, sess, answer.data);
    }
  }

  /** What a login leaves ready for the redirect: the same flow, a session ID nobody else has, and its record. */
  lemma LoginReady(cfg: Config, h: Trust, w: World, ctx: Context, slot: string, sess: Correlation, answer: Answer)
    requires Inv(cfg, h, w, "") && LoginStarts(w, ctx, slot, sess) && CodeUnused(w, ctx)
    requires Recorded(w, ctx, slot, sess, Authenticated(false, answer))
    ensures
      var l := HandleLogin(cfg, w, ctx, sess, answer);
      && Fits(cfg, l.w, slot, l.sess) && CodeUnused(l.w, ctx)
      && (|l.sess.errorCode| == 0 ==> MayHandOver(cfg, h, l.w, ctx, slot, l.sess))
      && (!Consumed(cfg, ctx, l.sess) ==> SlotTold(cfg, l.w, slot))
      && (l.ok ==> SlotTold(cfg, l.w, slot))
  {
    hide HandleLogin, Created, Truthful, SlotTold, NamesTaken, SlotsLinear, CodesLinear, AllBound, CodesBound, AllTruthful,
      SlotsTruthful, Sessions;
    LoginShape(cfg, w, ctx, slot, sess, answer);
    LoginTrace(cfg, w, ctx, slot, sess, answer);
    LoginTruth(cfg, w, ctx, slot, sess, answer);
  }

  /** The trace and the slots once the session was written, seen from outside. */
  lemma CreatedView(cfg: Config, w: World, ctx: Context, slot: string, sess: Correlation, data: UserData)
    requires LoginStarts(w, ctx, slot, sess)
    ensures
      var w1 := Created(cfg, w, ctx, slot, sess, data);
      && LatestAccepted(w1.trace, slot) == LatestAccepted(w.trace, slot)
      && Delivered(w1.trace) == Delivered(w.trace)
      && w1.minted == w.minted && w1.codes == w.codes && w1.now == w.now
      && w1.slots == Held(w, slot, sess)
      && (sess.id in Stored(w1.trace) <==> ctx.ok.sessionWrite)
      && sess.id !in Audited(w1.trace) && OutcomeOf(w1.trace, sess.id) == OutcomeOf(w.trace, sess.id)
      && (sess.id in w1.sessions ==> w1.sessions[sess.id].value.lastAccessed == Some(w.now))
  {
  }

  lemma HeldView(w: World, ctx: Context, slot: string, sess: Correlation)
    requires LoginStarts(w, ctx, slot, sess)
    ensures forall k | k in Held(w, slot, sess) && Held(w, slot, sess)[k].value.id == sess.id :: k == slot
    ensures slot in Held(w, slot, sess) && Held(w, slot, sess)[slot].value.id == sess.id
    ensures forall k | k in w.slots && w.slots[k].value.id == sess.id :: k == slot
    ensures slot in w.slots && w.slots[slot].value.id == "" && sess.id != "" && sess.id !in w.sessions && Plain(sess)
    ensures sess.id !in Stored(w.trace) && sess.id !in Audited(w.trace) && sess.id !in TermsAnswered(w.trace)
  {
  }

  /** The trace and the slots after a login, seen from outside. */
  lemma LoginTrace(cfg: Config, w: World, ctx: Context, slot: string, sess: Correlation, answer: Answer)
    requires LoginStarts(w, ctx, slot, sess)
    ensures
      var l := HandleLogin(cfg, w, ctx, sess, answer);
      && LatestAccepted(l.w.trace, slot) == LatestAccepted(w.trace, slot)
      && Delivered(l.w.trace) == Delivered(w.trace)
      && l.w.minted == w.minted && l.w.codes == w.codes
      && (forall k | k in l.w.slots && l.w.slots[k].value.id == sess.id :: k == slot)
      && slot in l.w.slots && l.w.slots[slot].value.id in {"", sess.id}
      && Aged(l.sess.sessionCreated, sess.id, l.w.sessions)
  {
    hide HandleLogin, Created, Held;
    LoginShape(cfg, w, ctx, slot, sess, answer);
    HeldView(w, ctx, slot, sess);
    if !EndOf(cfg, sess.redirectURI, ctx.ok, answer).NotStarted? {
      CreatedView(cfg, w, ctx, slot, sess, answer.data);
    }
  }

  // ---------------------------------------------------------------- callbacks

  /** What a handler may rely on: the invariant, unused names and the trusted operations. */
  ghost predicate Entered(cfg: Config, h: Trust, w: World, ctx: Context, request: Request) {
    Sound(cfg) && Inv(cfg, h, w, "") && AllUnused(w, ctx.names) && Meets(h, Step(ctx, request)) && w.now == ctx.now
  }

  lemma ProviderKeeps(cfg: Config, h: Trust, w: World, ctx: Context, slot: string, sess: Correlation, q: CallbackQuery)
    requires Entered(cfg, h, w, ctx, Callback(q))
    requires LoginStarts(w, ctx, slot, sess) && sess.id == ctx.names.session && Recorded(w, ctx, slot, sess, q.result)
    ensures Inv(cfg, h, ProviderStep(cfg, w, ctx, slot, sess, q), "")
  {
    hide Inv, LoginStarts, Recorded, RedirectToCaller;
    match q.result
    case Rejected(code) =>
      var refused := sess.(errorCode := if code.Some? then code.value else INVALID_CALLBACK);
      AnswerReady(cfg, h, w, ctx, slot, sess, refused, q);
      RedirectKeeps(cfg, h, w, ctx, slot, refused, "");
    case Authenticated(managed, answer) =>
      if managed {
        AnswerReady(cfg, h, w, ctx, slot, sess, sess.(managedByProvider := true), q);
        RedirectKeeps(cfg, h, w, ctx, slot, sess.(managedByProvider := true), "");
      } else {
        AuthenticatedKeeps(cfg, h, w, ctx, slot, sess, q);
      }
  }

  /** A rejected or provider-managed flow may be redirected. */
  lemma AnswerReady(cfg: Config, h: Trust, w: World, ctx: Context, slot: string, sess: Correlation, copy: Correlation, q: CallbackQuery)
    requires Inv(cfg, h, w, "") && AllUnused(w, ctx.names)
    requires LoginStarts(w, ctx, slot, sess) && sess.id == ctx.names.session && Recorded(w, ctx, slot, sess, q.result)
    requires q.result.Rejected? ==>
      copy == sess.(errorCode := if q.result.code.Some? then q.result.code.value else INVALID_CALLBACK)
    requires q.result.Authenticated? ==> copy == sess.(managedByProvider := true)
    ensures Fits(cfg, w, slot, copy) && (|copy.errorCode| == 0 ==> MayHandOver(cfg, h, w, ctx, slot, copy) && CodeUnused(w, ctx))
  {
    hide NamesTaken, SlotsLinear, CodesLinear, AllBound, CodesBound, AllTruthful, SlotsTruthful, Sessions;
    HeldView(w, ctx, slot, sess);
  }

  lemma AuthenticatedKeeps(cfg: Config, h: Trust, w: World, ctx: Context, slot: string, sess: Correlation, q: CallbackQuery)
    requires Entered(cfg, h, w, ctx, Callback(q)) && q.result.Authenticated? && !q.result.managed
    requires LoginStarts(w, ctx, slot, sess) && Recorded(w, ctx, slot, sess, q.result)
    ensures
      var login := HandleLogin(cfg, w, ctx, sess, q.result.answer);
      && (login.ok ==> Inv(cfg, h, login.w, ""))
      && Inv(cfg, h, RedirectToCaller(cfg, login.w, ctx, slot, login.sess), "")
  {
    hide HandleLogin, Inv, Fits, MayHandOver, Unused, Plain, RedirectToCaller, SlotTold, Recorded, Consumed;
    var answer := q.result.answer;
    var login := HandleLogin(cfg, w, ctx, sess, answer);
    CodeIsUnused(w, ctx);
    LoginKeeps(cfg, h, w, ctx, slot, sess, answer);
    LoginReady(cfg, h, w, ctx, slot, sess, answer);
    RedirectKeeps(cfg, h, login.w, ctx, slot, login.sess, slot);
    if login.ok {
      SettleLogin(cfg, h, login.w, slot);
    }
  }

  lemma CodeIsUnused(w: World, ctx: Context)
    requires AllUnused(w, ctx.names)
    ensures CodeUnused(w, ctx)
  {
  }

  lemma SettleLogin(cfg: Config, h: Trust, w: World, slot: string)
    requires Inv(cfg, h, w, slot) && SlotTold(cfg, w, slot)
    ensures Inv(cfg, h, w, "")
  {
    hide SlotTold;
    StayFlows(cfg, h, w, slot, slot);
  }

  /** Recording the answer of the provider keeps everything and starts the login. */
  lemma AnswerKeeps(cfg: Config, h: Trust, w: World, ctx: Context, slot: string, q: CallbackQuery)
    requires Entered(cfg, h, w, ctx, Callback(q)) && ctx.cookie == Named(slot)
    requires slot in w.slots && w.now < w.slots[slot].deadline && w.slots[slot].value.id == ""
    ensures
      var sess := w.slots[slot].value;
      var w1 := Emit(w, AnswerTo(ctx, sess, q));
      && Entered(cfg, h, w1, ctx, Callback(q))
      && LoginStarts(w1, ctx, slot, sess.(id := ctx.names.session))
      && Recorded(w1, ctx, slot, sess.(id := ctx.names.session), q.result)
  {
    hide Inv, Escapes;
    var sess := w.slots[slot].value;
    var e := AnswerTo(ctx, sess, q);
    StoredReady(cfg, h, w, ctx, slot);
    AnswerInv(cfg, h, w, ctx, e);
    StaysUnused(w, ctx.names.slot, e);
    StaysUnused(w, ctx.names.session, e);
    StaysUnused(w, ctx.names.code, e);
  }

  lemma StaysUnused(w: World, name: string, e: Event)
    requires Unused(w, name) && e.Answered?
    ensures Unused(Emit(w, e), name)
  {
  }

  lemma AnswerInv(cfg: Config, h: Trust, w: World, ctx: Context, e: Event)
    requires Inv(cfg, h, w, "") && Unused(w, ctx.names.session) && e.Answered? && e.session == ctx.names.session
    requires OutcomeMeets(h, e.outcome)
    ensures Inv(cfg, h, Emit(w, e), "")
  {
    hide Flows, Sessions;
    QuietKeeps(cfg, h, w.slots, w.codes, w.minted, w.trace, e, "");
    SessionsAudited(cfg, h, w, e);
  }

  /** A slot that holds a session already may be handed over by whoever brings its cookie. */
  lemma StoredReady(cfg: Config, h: Trust, w: World, ctx: Context, slot: string)
    requires Inv(cfg, h, w, "") && slot in w.slots && ctx.cookie == Named(slot)
    ensures Fits(cfg, w, slot, w.slots[slot].value) && Plain(w.slots[slot].value)
    ensures w.slots[slot].value.id != "" ==> MayHandOver(cfg, h, w, ctx, slot, w.slots[slot].value)
  {
    assert slot != "";
  }

  lemma CallbackKeeps(cfg: Config, h: Trust, w: World, ctx: Context, q: CallbackQuery)
    requires Entered(cfg, h, w, ctx, Callback(q))
    ensures Inv(cfg, h, CallbackStep(cfg, w, ctx, q), "")
  {
    hide Inv, RedirectToCaller, ProviderStep, MayHandOver;
    if q.provider != "" && !q.signoutResponse && ctx.ok.slotRead && NamedSlot(w.slots, ctx.cookie, w.now).Some? {
      var slot := ctx.cookie.slot;
      var sess := w.slots[slot].value;
      StoredReady(cfg, h, w, ctx, slot);
      if sess.id != "" {
        RedirectKeeps(cfg, h, w, ctx, slot, sess, "");
      } else if !q.providerKnown {
        RefusedKeeps(cfg, h, w, ctx, slot, sess, INVALID_CALLBACK);
        DeleteKeeps(cfg, h, RedirectToCaller(cfg, w, ctx, slot, sess.(errorCode := INVALID_CALLBACK)), ctx);
      } else if q.error {
        RefusedKeeps(cfg, h, w, ctx, slot, sess, CANCELED);
      } else {
        AnswerKeeps(cfg, h, w, ctx, slot, q);
        ProviderKeeps(cfg, h, Emit(w, AnswerTo(ctx, sess, q)), ctx, slot, sess.(id := ctx.names.session), q);
      }
    }
  }

  lemma RefusedKeeps(cfg: Config, h: Trust, w: World, ctx: Context, slot: string, sess: Correlation, code: string)
    requires Sound(cfg) && Inv(cfg, h, w, "") && Fits(cfg, w, slot, sess) && code != ""
    requires h.slotDeletes ==> ctx.ok.slotDelete
    ensures Inv(cfg, h, RedirectToCaller(cfg, w, ctx, slot, sess.(errorCode := code)), "")
  {
    hide Inv;
    RedirectKeeps(cfg, h, w, ctx, slot, sess.(errorCode := code), "");
  }

  lemma DeleteKeeps(cfg: Config, h: Trust, w: World, ctx: Context)
    requires Inv(cfg, h, w, "")
    ensures Inv(cfg, h, w.(slots := DeleteSlot(w.slots, ctx.cookie, ctx.ok.slotDelete)), "")
  {
    LossKeeps(cfg, h, w.slots, w.codes, w.minted, w.trace, "", DeleteSlot(w.slots, ctx.cookie, ctx.ok.slotDelete));
  }

  lemma LogoutCallbackKeeps(cfg: Config, h: Trust, w: World, ctx: Context)
    requires Entered(cfg, h, w, ctx, LogoutCallback)
    ensures Inv(cfg, h, LogoutCallbackStep(cfg, w, ctx), "")
  {
    hide Inv, RedirectToCaller, MayHandOver;
    var stored := NamedSlot(w.slots, ctx.cookie, w.now);
    if ctx.ok.slotRead && stored.Some? && stored.value.id != "" {
      StoredReady(cfg, h, w, ctx, ctx.cookie.slot);
      RedirectKeeps(cfg, h, w, ctx, ctx.cookie.slot, stored.value, "");
    }
  }

  // ---------------------------------------------------------------- authorize

  /** Setting a correlation without session stores exactly a brand-new one, in a fresh slot or in the cookie's. */
  lemma SetStoresNew(slots: Cache<Correlation>, cookie: Cookie, c: Correlation, ulid: string, now: int, ok: bool)
    requires c.id == ""
    ensures
      var r := SetSlot(slots, cookie, c, ulid, now, ok);
      r.result.Some? ==>
        && r.result.value.1 == NewCorrelation(c)
        && r.slots == slots[r.result.value.0 := Entry(NewCorrelation(c), now + SLOT_TTL)]
        && (r.result.value.0 == ulid || (cookie == Named(r.result.value.0) && r.result.value.0 in slots))
  {
  }

  lemma AuthorizeKeeps(cfg: Config, h: Trust, w: World, ctx: Context, q: AuthorizeQuery)
    requires Entered(cfg, h, w, ctx, Authorize(q))
    ensures Inv(cfg, h, AuthorizeStep(cfg, w, ctx, q), "")
  {
    hide Inv, RedirectToCaller, SetSlot;
    if AcceptableQuery(w, q) {
      var wanted := RequestedCorrelation(ctx, q);
      var written := SetSlot(w.slots, ctx.cookie, wanted, ctx.names.slot, w.now, ctx.ok.slotWrite);
      SetStoresNew(w.slots, ctx.cookie, wanted, ctx.names.slot, w.now, ctx.ok.slotWrite);
      if written.result.Some? {
        SlotsMinted(cfg, h, w);
        OpenKeeps(cfg, h, w, ctx, q, written.result.value.0);
      }
    }
  }

  lemma SlotsMinted(cfg: Config, h: Trust, w: World)
    requires Inv(cfg, h, w, "")
    ensures w.slots.Keys <= w.minted
  {
  }

  /** The rest of `/authorize` once the slot was written. */
  lemma OpenKeeps(cfg: Config, h: Trust, w: World, ctx: Context, q: AuthorizeQuery, slot: string)
    requires Entered(cfg, h, w, ctx, Authorize(q)) && AcceptableQuery(w, q) && slot in w.minted
    ensures
      var wanted := RequestedCorrelation(ctx, q);
      var cor := NewCorrelation(wanted);
      var request := Acceptance(wanted.clientID, w.clients[wanted.clientID].redirectURIs, wanted.redirectURI, wanted.state.value);
      var w1 := Emit(w.(slots := w.slots[slot := Entry(cor, w.now + SLOT_TTL)]), Accepted(slot, request));
      && Inv(cfg, h, w1, "")
      && Inv(cfg, h, RedirectToCaller(cfg, w1, ctx, slot, cor.(errorCode := SERVER_ERROR)), "")
  {
    hide Flows, Sessions;
    var wanted := RequestedCorrelation(ctx, q);
    var cor := NewCorrelation(wanted);
    var request := Acceptance(wanted.clientID, w.clients[wanted.clientID].redirectURIs, wanted.redirectURI, wanted.state.value);
    var e := Accepted(slot, request);
    var entry := Entry(cor, w.now + SLOT_TTL);
    var w1 := Emit(w.(slots := w.slots[slot := entry]), e);
    OpenFlows(cfg, h, w.slots, w.codes, w.minted, w.trace, slot, entry, request);
    SessionsAudited(cfg, h, w, e);
    SessionsFrame(cfg, h, Emit(w, e), w1);
    RedirectKeeps(cfg, h, w1, ctx, slot, cor.(errorCode := SERVER_ERROR), "");
  }

  /** Sessions do not look at the slots or the clients. */
  lemma SessionsFrame(cfg: Config, h: Trust, w: World, w': World)
    requires Sessions(cfg, h, w)
    requires w' == w.(slots := w'.slots, clients := w'.clients)
    ensures Sessions(cfg, h, w')
  {
  }

  // ---------------------------------------------------------------- tokens

  lemma ExchangeKeeps(cfg: Config, h: Trust, w: World, ctx: Context, form: TokenForm)
    requires Entered(cfg, h, w, ctx, Token(form))
    ensures Inv(cfg, h, ExchangeStep(cfg, w, ctx, form.redirectURI, form.code), "")
  {
    hide Flows, Sessions;
    if form.redirectURI.Some? && form.code.Some? && ctx.ok.codeRead {
      var code := form.code.value;
      var w1 := RedeemCode(w, ctx, code);
      var ott := Lookup(w.codes, code, w.now);
      LoseCodes(cfg, h, w.slots, w.codes, w.minted, w.trace, w1.codes);
      FewerCodesAged(cfg, h, w, w1.codes);
      if ott.Some? && RedirectMatches(ott.value, form.redirectURI.value) {
        var e := CodeExchanged(code, form.redirectURI.value, ott.value.sessionToken,
                               GetSecondsToLive(cfg.sessionTimeout, ott.value.sessionCreated, w.now));
        ExchangeFlows(cfg, h, w.slots, w.codes, w.minted, w.trace, w1.codes, e);
        SessionsAudited(cfg, h, w1, e);
      }
    }
  }

  lemma FewerCodesAged(cfg: Config, h: Trust, w: World, kept: Cache<OneTimeToken>)
    requires Sessions(cfg, h, w)
    requires kept.Keys <= w.codes.Keys && forall c | c in kept :: kept[c] == w.codes[c]
    ensures Sessions(cfg, h, w.(codes := kept))
  {
  }

  lemma ServiceKeeps(cfg: Config, h: Trust, w: World, ctx: Context, grantType: string, form: TokenForm)
    requires Entered(cfg, h, w, ctx, Token(form))
    ensures Inv(cfg, h, ServiceStep(cfg, w, ctx, grantType, form.evidence, form.answer), "")
  {
    hide Flows, Sessions, ServiceClient;
    if form.answer.Granted? && ctx.ok.sessionWrite {
      var session := NewServiceSession(ctx.names.session, form.answer.data, w.now);
      var w1 := CreateSession(cfg, w, session, true, true);
      StoreNew(cfg, h, w, session, true);
      QuietKeeps(cfg, h, w.slots, w.codes, w.minted, w.trace, SessionStored(session.id, true), "");
      LoseSessions(cfg, h, w1, Drop(w1.sessions, session.id));
      var e1 := ServiceAudited(session.id);
      var e2 := ServiceTokenIssued(session.id, GetSecondsToLive(cfg.sessionTimeout, session.lastAccessed, w.now));
      QuietKeeps(cfg, h, w.slots, w.codes, w.minted, w1.trace, e1, "");
      QuietKeeps(cfg, h, w.slots, w.codes, w.minted, After(w1.trace, e1), e2, "");
      SessionsAudited(cfg, h, w1, e1);
      SessionsAudited(cfg, h, Emit(w1, e1), e2);
    } else {
      LoseSessions(cfg, h, w, Drop(w.sessions, ctx.names.session));
    }
  }

  // ---------------------------------------------------------------- sessions

  lemma DropKeeps(cfg: Config, h: Trust, w: World, id: string, ok: bool)
    requires Inv(cfg, h, w, "")
    ensures Inv(cfg, h, DropSession(w, id, ok), "")
  {
    hide Flows;
    LoseSessions(cfg, h, w, DropSession(w, id, ok).sessions);
  }

  lemma SessionsAreMinted(cfg: Config, h: Trust, w: World)
    requires Sessions(cfg, h, w)
    ensures w.sessions.Keys <= w.minted
  {
  }

  /** Storing a later, sound version of a resolved session. */
  lemma UpdateKeeps(cfg: Config, h: Trust, w: World, session: Session, t: Trace)
    requires Inv(cfg, h, w, "") && session.id in w.sessions
    requires session.lastAccessed.Some? && session.lastAccessed.value <= w.now
    requires w.sessions[session.id].value.lastAccessed.Some?
    requires w.sessions[session.id].value.lastAccessed.value <= session.lastAccessed.value
    requires t == w.trace || (t.After? && t.past == w.trace && AboutPlacement(t.event, session.id))
    requires SessionSound(cfg, h, t, session)
    ensures Inv(cfg, h, StoreSession(cfg, w, session).(trace := t), "")
  {
    hide Flows, Sessions, SessionSound;
    UpdateSession(cfg, h, w, session, t);
    if t != w.trace {
      SessionsAreMinted(cfg, h, w);
      QuietKeeps(cfg, h, w.slots, w.codes, w.minted, w.trace, t.event, "");
    }
  }

  /** What the bearer middleware resolves to. */
  lemma Resolved(cfg: Config, h: Trust, w: World, ctx: Context, bearer: string)
    requires Inv(cfg, h, w, "") && Resolve(w, ctx, bearer).Some?
    ensures
      var s := Resolve(w, ctx, bearer).value;
      && bearer in w.sessions && w.sessions[bearer].value == s && s.id == bearer
      && |bearer| == ULID_LENGTH
      && s.lastAccessed.Some? && s.lastAccessed.value <= w.now
      && SessionSound(cfg, h, w.trace, s)
  {
    hide SlotsLinear, CodesLinear, AllBound, SlotsBound, CodesBound, AllTruthful, SlotsTruthful;
    assert bearer in w.minted;
  }

  /** A bearer that resolves to no session changes nothing. */
  lemma Unauthorized(cfg: Config, w: World, ctx: Context, request: Request)
    requires AboutSession(request) && Resolve(w, ctx, request.bearer).None?
    ensures Handle(cfg, w, ctx, request) == w
  {
    hide Resolve;
  }

  lemma SessionRequestsKeep(cfg: Config, h: Trust, w: World, ctx: Context, request: Request)
    requires Entered(cfg, h, w, ctx, request)
    requires AboutSession(request)
    ensures Inv(cfg, h, Handle(cfg, w, ctx, request), "")
  {
    hide Inv, SessionSound;
    if Resolve(w, ctx, request.bearer).Some? {
      var s := Resolve(w, ctx, request.bearer).value;
      Resolved(cfg, h, w, ctx, request.bearer);
      match request
      case GetSession(_) => DropKeeps(cfg, h, w, s.id, ctx.ok.sessionDelete);
      case KeepAlive(_) => KeepAliveKeeps(cfg, h, w, ctx, s);
      case Logout(_) => DropKeeps(cfg, h, w, s.id, ctx.ok.sessionDelete);
      case AcceptTerms(_, answer) =>
        if answer.Granted? {
          var t := if answer.data.isTOSAccepted then After(w.trace, TermsPlaced(s.id, answer.data.roles)) else w.trace;
          AfterTermsSound(cfg, h, w.trace, s, answer.data, w.now);
          UpdateKeeps(cfg, h, w, AfterTerms(cfg, s, answer.data, w.now), t);
        }
      case SetRole(_, roleID) =>
        if TermsGateOpen(cfg, s) && ChosenRole(s, roleID).Some? {
          SetRoleKeeps(cfg, h, w, ctx, s, roleID);
        }
    }
  }

  lemma AccessedSound(cfg: Config, h: Trust, t: Trace, s: Session, now: int)
    requires SessionSound(cfg, h, t, s)
    ensures SessionSound(cfg, h, t, s.(lastAccessed := Some(now)))
  {
  }

  lemma KeepAliveKeeps(cfg: Config, h: Trust, w: World, ctx: Context, s: Session)
    requires Inv(cfg, h, w, "") && s.id in w.sessions && w.sessions[s.id].value == s && SessionSound(cfg, h, w.trace, s)
    requires s.lastAccessed.Some? && s.lastAccessed.value <= w.now
    ensures
      var w1 := if ctx.ok.sessionWrite then StoreSession(cfg, w, s.(lastAccessed := Some(w.now))) else w;
      Inv(cfg, h, RespondStep(cfg, w1, ctx, s.id, s.(lastAccessed := Some(w.now))), "")
  {
    hide Inv, SessionSound;
    var current := s.(lastAccessed := Some(w.now));
    AccessedSound(cfg, h, w.trace, s, w.now);
    UpdateKeeps(cfg, h, w, current, w.trace);
    var w1 := if ctx.ok.sessionWrite then StoreSession(cfg, w, current) else w;
    DropKeeps(cfg, h, w1, s.id, ctx.ok.sessionDelete);
  }

  lemma SetRoleKeeps(cfg: Config, h: Trust, w: World, ctx: Context, s: Session, roleID: Option<string>)
    requires Inv(cfg, h, w, "") && s.id in w.sessions && w.sessions[s.id].value == s && SessionSound(cfg, h, w.trace, s)
    requires s.lastAccessed.Some? && s.lastAccessed.value <= w.now
    requires TermsGateOpen(cfg, s) && ChosenRole(s, roleID).Some?
    ensures
      var current := AfterRole(s, ChosenRole(s, roleID).value);
      var w1 := Emit(StoreSession(cfg, w, current), RoleChosen(current.id));
      Inv(cfg, h, w1, "") && Inv(cfg, h, RespondStep(cfg, w1, ctx, s.id, current), "")
  {
    hide Inv;
    var current := AfterRole(s, ChosenRole(s, roleID).value);
    AfterRoleSound(cfg, h, w.trace, s, roleID);
    hide SessionSound;
    UpdateKeeps(cfg, h, w, current, After(w.trace, RoleChosen(s.id)));
    DropKeeps(cfg, h, Emit(StoreSession(cfg, w, current), RoleChosen(current.id)), s.id, ctx.ok.sessionDelete);
  }

  // ---------------------------------------------------------------- steps and runs

  lemma EvictKeeps(cfg: Config, h: Trust, w: World, slots: set<string>, codes: set<string>, sessions: set<string>)
    requires Inv(cfg, h, w, "")
    ensures Inv(cfg, h, w.(slots := w.slots - slots, codes := w.codes - codes, sessions := w.sessions - sessions), "")
  {
    hide Flows, Sessions;
    LossKeeps(cfg, h, w.slots, w.codes, w.minted, w.trace, "", w.slots - slots);
    LoseCodes(cfg, h, w.slots - slots, w.codes, w.minted, w.trace, w.codes - codes);
    FewerCodesAged(cfg, h, w, w.codes - codes);
    LoseSessions(cfg, h, w.(codes := w.codes - codes), w.sessions - sessions);
    var w1 := w.(codes := w.codes - codes, sessions := w.sessions - sessions);
    SessionsFrame(cfg, h, w1, w1.(slots := w.slots - slots));
  }

  lemma HandleKeeps(cfg: Config, h: Trust, w: World, ctx: Context, request: Request)
    requires Entered(cfg, h, w, ctx, request)
    ensures Inv(cfg, h, Handle(cfg, w, ctx, request), "")
  {
    hide Flows, Sessions;
    match request
    case Authorize(q) => AuthorizeKeeps(cfg, h, w, ctx, q);
    case Callback(q) => CallbackKeeps(cfg, h, w, ctx, q);
    case LogoutCallback => LogoutCallbackKeeps(cfg, h, w, ctx);
    case Token(form) =>
      ExchangeKeeps(cfg, h, w, ctx, form);
      if form.grantType.Some? {
        ServiceKeeps(cfg, h, w, ctx, form.grantType.value, form);
      }
    case ReloadClients(sources) =>
      SessionsFrame(cfg, h, w, Handle(cfg, w, ctx, request));
    case Evict(slots, codes, sessions) => EvictKeeps(cfg, h, w, slots, codes, sessions);
    case _ => SessionRequestsKeep(cfg, h, w, ctx, request);
  }

  lemma StepKeeps(cfg: Config, h: Trust, w: World, step: Step)
    requires Sound(cfg) && Inv(cfg, h, w, "") && Admissible(w, step) && Meets(h, step)
    ensures Inv(cfg, h, Apply(cfg, w, step), "")
  {
    EnterKeeps(cfg, h, w, step);
    hide Flows, Sessions, Handle;
    HandleKeeps(cfg, h, Enter(w, step.ctx), step.ctx, step.request);
  }

  /** The empty service has nothing to go wrong. */
  lemma EmptyWorldKeeps(cfg: Config, h: Trust)
    ensures Inv(cfg, h, EMPTY_WORLD, "")
  {
  }

  /** Every step of the run is one that the trust covers. */
  predicate AllMeet(h: Trust, steps: seq<Step>) {
    forall i | 0 <= i < |steps| :: Meets(h, steps[i])
  }

  /** No admissible step that the trust covers leads out of `worlds`. */
  ghost predicate ClosedUnderSteps(cfg: Config, h: Trust, worlds: iset<World>) {
    forall w, step :: w in worlds && Admissible(w, step) && Meets(h, step) ==> Apply(cfg, w, step) in worlds
  }

  /** The worlds that admissible steps covered by the trust make of `start`: those in every closed set with `start`. */
  ghost predicate ReachedFrom(cfg: Config, h: Trust, start: World, w: World) {
    forall worlds: iset<World> :: start in worlds && ClosedUnderSteps(cfg, h, worlds) ==> w in worlds
  }

  /** The worlds of the service; `RunsReach` and `ReachedByARun` say that they are the last worlds of runs. */
  ghost predicate Reached(cfg: Config, h: Trust, w: World) {
    ReachedFrom(cfg, h, EMPTY_WORLD, w)
  }

  /** The invariant holds of every world that is reached from the empty service, under whatever trust its steps honour. */
  lemma ReachedKeeps(cfg: Config, h: Trust, w: World)
    requires Sound(cfg) && Reached(cfg, h, w)
    ensures Inv(cfg, h, w, "")
  {
    hide Inv, Apply, Admissible, Meets;
    var worlds := iset v: World | Inv(cfg, h, v, "");
    EmptyWorldKeeps(cfg, h);
    forall v, step | v in worlds && Admissible(v, step) && Meets(h, step) ensures Apply(cfg, v, step) in worlds {
      StepKeeps(cfg, h, v, step);
    }
    assert ClosedUnderSteps(cfg, h, worlds);
  }

  lemma StepReaches(cfg: Config, h: Trust, w: World, step: Step)
    requires Reached(cfg, h, w) && Admissible(w, step) && Meets(h, step)
    ensures Reached(cfg, h, Apply(cfg, w, step))
  {
    hide Apply, Admissible, Meets;
  }

  /** A run of trusted steps from the empty service reaches its last world. */
  lemma {:induction false} RunsReach(cfg: Config, h: Trust, steps: seq<Step>)
    requires IsRun(cfg, EMPTY_WORLD, steps) && AllMeet(h, steps)
    ensures Reached(cfg, h, Run(cfg, EMPTY_WORLD, steps))
  {
    hide Apply, Admissible, Meets, Reached;
    if steps == [] {
      EmptyIsReached(cfg, h);
    } else {
      RunsReach(cfg, h, steps[..|steps| - 1]);
      StepReaches(cfg, h, Run(cfg, EMPTY_WORLD, steps[..|steps| - 1]), steps[|steps| - 1]);
    }
  }

  lemma EmptyIsReached(cfg: Config, h: Trust)
    ensures Reached(cfg, h, EMPTY_WORLD)
  {
  }

  /** The steps are a trusted run that ends in `w`. */
  ghost predicate EndsIn(cfg: Config, h: Trust, steps: seq<Step>, w: World) {
    IsRun(cfg, EMPTY_WORLD, steps) && AllMeet(h, steps) && Run(cfg, EMPTY_WORLD, steps) == w
  }

  ghost predicate HasRun(cfg: Config, h: Trust, w: World) {
    exists steps :: EndsIn(cfg, h, steps, w)
  }

  lemma LongerRun(cfg: Config, h: Trust, steps: seq<Step>, w: World, step: Step)
    requires EndsIn(cfg, h, steps, w) && Admissible(w, step) && Meets(h, step)
    ensures EndsIn(cfg, h, steps + [step], Apply(cfg, w, step))
  {
    hide Apply, Admissible, Meets;
    assert (steps + [step])[..|steps|] == steps;
  }

  /** What is reached, is reached by a run. */
  lemma ReachedByARun(cfg: Config, h: Trust, w: World) returns (steps: seq<Step>)
    requires Reached(cfg, h, w)
    ensures EndsIn(cfg, h, steps, w)
  {
    hide Apply, Admissible, Meets, EndsIn;
    var worlds := iset v: World | HasRun(cfg, h, v);
    assert EMPTY_WORLD in worlds by {
      NoSteps(cfg, h);
    }
    forall v, step | v in worlds && Admissible(v, step) && Meets(h, step) ensures Apply(cfg, v, step) in worlds {
      var run :| EndsIn(cfg, h, run, v);
      LongerRun(cfg, h, run, v, step);
    }
    assert ClosedUnderSteps(cfg, h, worlds);
    steps :| EndsIn(cfg, h, steps, w);
  }

  lemma NoSteps(cfg: Config, h: Trust)
    ensures EndsIn(cfg, h, [], EMPTY_WORLD)
  {
  }
}
