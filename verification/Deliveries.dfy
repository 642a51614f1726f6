/** Over whole runs: a login is delivered at most once, only when it is real, and only where it was asked for. */
module Deliveries {
  import opened Basics
  import opened Settings
  import opened Entities
  import opened Traces
  import opened Protocol
  import opened Invariants
  import opened Preservation

  // ---------------------------------------------------------------- at most once

  /**
   * With reliable slot deletes, a session ID sits in at most one slot and goes into at most one redirect, and an ID
   * that still sits in a slot was never delivered. With reliable code deletes it is exchanged at most once.
   */
  lemma LoginsAreDeliveredOnce(cfg: Config, h: Trust, w: World, s: string)
    requires Sound(cfg) && Reached(cfg, h, w) && h.slotDeletes
    ensures
      && Redirects(w.trace, s) <= 1
      && (h.codeDeletes ==> Exchanges(w.trace, s) <= 1)
      && (forall k, l | k in w.slots && l in w.slots && w.slots[k].value.id == w.slots[l].value.id == s && s != "" :: k == l)
      && (forall k | k in w.slots && w.slots[k].value.id == s && s != "" :: Redirects(w.trace, s) == 0 && Exchanges(w.trace, s) == 0)
      && (h.codeDeletes ==> forall c | c in w.codes && w.codes[c].value.sessionToken == s :: Exchanges(w.trace, s) == 0)
  {
    hide Sessions, Reached, AllBound, SlotsBound, CodesBound, AllTruthful, SlotsTruthful, NamesTaken;
    ReachedKeeps(cfg, h, w);
    if k :| k in w.slots && w.slots[k].value.id == s && s != "" {
      UndeliveredCountsZero(w.trace, s);
    }
  }

  /** A code that is live through two exchanges is handed out twice exactly when the first delete failed. */
  lemma SecondExchangeNeedsFailedDelete(cfg: Config, w: World, first: Context, second: Context, code: string, uri: string)
    requires first.ok.codeRead && second.ok.codeRead
    requires code in w.codes && w.now <= second.now < w.codes[code].deadline
    requires RedirectMatches(w.codes[code].value, uri)
    ensures
      var token := w.codes[code].value.sessionToken;
      var w1 := ExchangeStep(cfg, w, first, Some(uri), Some(code));
      var w2 := ExchangeStep(cfg, w1.(now := second.now), second, Some(uri), Some(code));
      && Exchanges(w1.trace, token) == Exchanges(w.trace, token) + 1
      && (Exchanges(w2.trace, token) == Exchanges(w.trace, token) + 2 <==> !first.ok.codeDelete)
  {
  }

  /** A held session goes into two redirects of one browser exactly when deleting its slot failed the first time. */
  lemma SecondRedirectNeedsFailedDelete(cfg: Config, w: World, first: Context, second: Context, slot: string)
    requires first.cookie == second.cookie == Named(slot) && first.ok.slotRead && second.ok.slotRead
    requires first.ok.codeWrite && second.ok.codeWrite
    requires slot in w.slots && w.now <= second.now < w.slots[slot].deadline
    requires w.slots[slot].value.id != "" && Plain(w.slots[slot].value)
    requires cfg.codec.parse(w.slots[slot].value.redirectURI).Some?
    ensures
      var s := w.slots[slot].value.id;
      var w1 := LogoutCallbackStep(cfg, w, first);
      var w2 := LogoutCallbackStep(cfg, w1.(now := second.now), second);
      && Redirects(w1.trace, s) == Redirects(w.trace, s) + 1
      && (Redirects(w2.trace, s) == Redirects(w.trace, s) + 2 <==> !first.ok.slotDelete)
  {
    var sess := w.slots[slot].value;
    HeldRedirect(cfg, w, first, slot, sess);
    var w1 := RedirectToCaller(cfg, w, first, slot, sess);
    hide RedirectToCaller;
    if !first.ok.slotDelete {
      HeldRedirect(cfg, w1.(now := second.now), second, slot, sess);
    }
  }

  lemma HeldRedirect(cfg: Config, w: World, ctx: Context, slot: string, sess: Correlation)
    requires ctx.ok.codeWrite && Plain(sess) && cfg.codec.parse(sess.redirectURI).Some?
    ensures
      var w1 := RedirectToCaller(cfg, w, ctx, slot, sess);
      && w1.trace.After? && w1.trace.past == w.trace && w1.trace.event.Redirected?
      && HandedOver(w1.trace.event.issue) == Some(sess.id)
      && w1.slots == DeleteSlot(w.slots, ctx.cookie, ctx.ok.slotDelete)
  {
  }

  // ---------------------------------------------------------------- only real logins

  /**
   * In every run, whatever fails: a redirect that hands a session over outside a provider-managed flow, at once or for a
   * slot left over from an earlier request, hands over one that was stored and whose login was audited before, exactly
   * unless its login escaped.
   */
  lemma HandOversAreBackedUnlessTheyEscape(cfg: Config, h: Trust, w: World, past: Trace, e: Event)
    requires Sound(cfg) && Reached(cfg, h, w)
    requires IsPrefix(After(past, e), w.trace)
    ensures e.Redirected? && Vouched(e.issue).Some? ==>
      var s := Vouched(e.issue).value;
      && OutcomeOf(past, s).Some?
      && (s in Stored(past) && s in Audited(past) <==> !Escapes(cfg, OutcomeOf(past, s).value))
  {
    hide Inv, Reached, Escapes;
    ReachedKeeps(cfg, h, w);
    TraceTruthful(cfg, h, w);
    TruthfulAtAnyTime(cfg, w.trace, After(past, e));
  }

  lemma TraceTruthful(cfg: Config, h: Trust, w: World)
    requires Inv(cfg, h, w, "")
    ensures AllTruthful(cfg, w.trace) && OutcomesMeet(h, w.trace) && AllBound(cfg, w.trace)
  {
  }

  /** The latest event hands the session over although it is not stored and audited. */
  predicate UnbackedHandOver(t: Trace, session: string) {
    t.After? && t.event.Redirected? && Vouched(t.event.issue) == Some(session) && !IsBacked(t.past, session)
  }

  /**
   * Every login that escapes does get out, given a parsable URI and working code writes: in its own redirect, or in the
   * one that the browser gets when it comes back within the life of its slot.
   */
  lemma EscapedLoginsAreHandedOver(cfg: Config, w: World, ctx: Context, slot: string, sess: Correlation, q: CallbackQuery, later: Context)
    requires LoginStarts(w, ctx, slot, sess) && (q.result.Authenticated? ==> !q.result.managed)
    requires Escapes(cfg, Outcome(sess.redirectURI, q.result, ctx.ok))
    requires cfg.codec.parse(sess.redirectURI).Some? && ctx.ok.codeWrite
    requires later.cookie == Named(slot) && later.ok.slotRead && later.ok.codeWrite && w.now <= later.now < w.now + SLOT_TTL
    ensures
      var w1 := ProviderStep(cfg, w, ctx, slot, sess, q);
      var w2 := LogoutCallbackStep(cfg, w1.(now := later.now), later);
      UnbackedHandOver(w1.trace, sess.id) || UnbackedHandOver(w2.trace, sess.id)
  {
    hide LoginStarts, HandleLogin, RedirectToCaller, ProviderStep, LogoutCallbackStep;
    HeldView(w, ctx, slot, sess);
    match q.result
    case Rejected(code) => EmptyRejectionEscapes(cfg, w, ctx, slot, sess, q);
    case Authenticated(_, answer) =>
      var login := HandleLogin(cfg, w, ctx, sess, answer);
      LoginEscapes(cfg, w, ctx, slot, sess, answer);
      EscapeShape(cfg, w, ctx, slot, sess, q);
      if cfg.codec.parse(Destination(login.sess)).Some? && |login.sess.errorCode| == 0 {
        RedirectShape(cfg, login.w, ctx, slot, login.sess);
      } else {
        LeftoverShape(cfg, login.w, ctx, slot, login.sess);
        var w1 := RedirectToCaller(cfg, login.w, ctx, slot, login.sess);
        LeftoverHandedOver(cfg, w1, later, slot, sess, w.now + SLOT_TTL);
      }
  }

  /** A rejection whose error code is empty hands the session over at once. */
  lemma EmptyRejectionEscapes(cfg: Config, w: World, ctx: Context, slot: string, sess: Correlation, q: CallbackQuery)
    requires Plain(sess) && !IsBacked(w.trace, sess.id) && q.result == Rejected(Some(""))
    requires cfg.codec.parse(sess.redirectURI).Some? && ctx.ok.codeWrite
    ensures UnbackedHandOver(ProviderStep(cfg, w, ctx, slot, sess, q).trace, sess.id)
  {
    hide RedirectToCaller;
    RedirectShape(cfg, w, ctx, slot, sess);
  }

  /** An escaping login leaves its session unbacked, and in its slot if the redirect does not hand it over. */
  lemma LoginEscapes(cfg: Config, w: World, ctx: Context, slot: string, sess: Correlation, answer: Answer)
    requires LoginStarts(w, ctx, slot, sess) && Escapes(cfg, Outcome(sess.redirectURI, Authenticated(false, answer), ctx.ok))
    requires cfg.codec.parse(sess.redirectURI).Some?
    ensures
      var l := HandleLogin(cfg, w, ctx, sess, answer);
      && !l.ok && !IsBacked(l.w.trace, sess.id) && l.sess.id == sess.id && !l.sess.managedByProvider
      && (|l.sess.errorCode| > 0 || cfg.codec.parse(Destination(l.sess)).None? ==>
            && l.w.slots == Held(w, slot, sess) && l.w.now == w.now
            && (!ctx.ok.slotDelete || cfg.codec.parse(Destination(l.sess)).None?))
  {
    hide HandleLogin, Created, Held, LoginStarts;
    LoginShape(cfg, w, ctx, slot, sess, answer);
    HeldView(w, ctx, slot, sess);
    if !EndOf(cfg, sess.redirectURI, ctx.ok, answer).NotStarted? {
      CreatedView(cfg, w, ctx, slot, sess, answer.data);
    }
  }

  lemma EscapeShape(cfg: Config, w: World, ctx: Context, slot: string, sess: Correlation, q: CallbackQuery)
    requires q.result.Authenticated? && !q.result.managed && !HandleLogin(cfg, w, ctx, sess, q.result.answer).ok
    ensures
      var login := HandleLogin(cfg, w, ctx, sess, q.result.answer);
      ProviderStep(cfg, w, ctx, slot, sess, q) == RedirectToCaller(cfg, login.w, ctx, slot, login.sess)
  {
  }

  /** An error redirect whose slot delete fails, or a redirect to an unparsable destination, leaves the slot alone. */
  lemma LeftoverShape(cfg: Config, w: World, ctx: Context, slot: string, sess: Correlation)
    requires cfg.codec.parse(Destination(sess)).None? || (|sess.errorCode| > 0 && !ctx.ok.slotDelete)
    ensures
      var after := RedirectToCaller(cfg, w, ctx, slot, sess);
      && after.slots == w.slots && after.now == w.now
      && Stored(after.trace) == Stored(w.trace) && Audited(after.trace) == Audited(w.trace)
  {
  }

  lemma LeftoverHandedOver(cfg: Config, w: World, ctx: Context, slot: string, sess: Correlation, deadline: int)
    requires slot in w.slots && w.slots[slot] == Entry(sess, deadline) && ctx.now < deadline
    requires ctx.cookie == Named(slot) && ctx.ok.slotRead && ctx.ok.codeWrite && sess.id != "" && Plain(sess)
    requires cfg.codec.parse(sess.redirectURI).Some? && !IsBacked(w.trace, sess.id)
    ensures UnbackedHandOver(LogoutCallbackStep(cfg, w.(now := ctx.now), ctx).trace, sess.id)
  {
    hide RedirectToCaller;
    RedirectShape(cfg, w.(now := ctx.now), ctx, slot, sess);
  }

  /** Outside logins that are granted, a redirect refuses exactly when the error code is not empty. */
  lemma RefusalsNeedACode(cfg: Config, w: World, ctx: Context, slot: string, sess: Correlation, q: CallbackQuery)
    requires Plain(sess) && cfg.codec.parse(sess.redirectURI).Some? && ctx.ok.codeWrite
    requires q.result.Authenticated? ==> !q.result.managed && q.result.answer.Denied?
    ensures
      var t := ProviderStep(cfg, w, ctx, slot, sess, q).trace;
      && t.After? && t.event.Redirected?
      && (t.event.issue == Refusal <==>
            NonEmptyCode(if q.result.Rejected? then q.result.code else q.result.answer.code))
  {
    hide RedirectToCaller;
    var code := if q.result.Rejected? then q.result.code else q.result.answer.code;
    var default := if q.result.Rejected? then INVALID_CALLBACK else SERVER_ERROR;
    RedirectShape(cfg, w, ctx, slot, sess.(errorCode := if code.Some? then code.value else default));
  }

  // ---------------------------------------------------------------- under trust

  /** If the terms page of a parsable URI may be needed, it can be parsed. */
  predicate Located(cfg: Config, uri: string) {
    var page := BuildTOSRedirect(cfg, uri);
    page.Some? && cfg.requiresTOS && page.value != "" ==> cfg.codec.parse(page.value).Some?
  }

  /** With a codec like net/url, anchored and opaque URIs are located. */
  lemma AnchoredAndOpaqueAreLocated(cfg: Config, uri: string)
    requires Reparses(cfg.codec) && cfg.codec.parse(uri).Some?
    requires
      var u := cfg.codec.parse(uri).value;
      u.opaquePart != "" || Anchored(u, TermsPath(u.path, cfg.tosEndpoint))
    ensures Located(cfg, uri)
  {
    TermsPageKeepsOrigin(cfg, uri);
  }

  lemma TrustStopsEscapes(cfg: Config, h: Trust, o: Outcome)
    requires Strict(h) && OutcomeMeets(h, o) && cfg.codec.parse(o.redirectURI).Some? && Located(cfg, o.redirectURI)
    ensures !Escapes(cfg, o)
  {
  }

  /**
   * With reliable slot writes and deletes and errors that carry a code, every redirect that hands a session over
   * outside a provider-managed flow, for a request with a located URI, names one that was stored and audited before.
   */
  lemma CodesStandForSessions(cfg: Config, h: Trust, w: World, past: Trace, e: Event)
    requires Sound(cfg) && Reached(cfg, h, w) && Strict(h)
    requires IsPrefix(After(past, e), w.trace)
    ensures e.Redirected? && Vouched(e.issue).Some? ==>
      && LatestAccepted(past, e.slot).Some?
      && (Located(cfg, LatestAccepted(past, e.slot).value.redirectURI) ==>
            Vouched(e.issue).value in Stored(past) && Vouched(e.issue).value in Audited(past))
  {
    hide Inv, Reached, Escapes, Located, OutcomeMeets;
    ReachedKeeps(cfg, h, w);
    TraceTruthful(cfg, h, w);
    TruthfulAtAnyTime(cfg, w.trace, After(past, e));
    BoundAtAnyTime(cfg, w.trace, After(past, e));
    MeetAtAnyTime(h, w.trace, After(past, e));
    if e.Redirected? && Vouched(e.issue).Some? && Located(cfg, LatestAccepted(past, e.slot).value.redirectURI) {
      RecordedMeets(h, past, Vouched(e.issue).value);
      TrustStopsEscapes(cfg, h, OutcomeOf(past, Vouched(e.issue).value).value);
    }
  }

  /**
   * With the same trust, a session ID left in a slot for a located URI names a stored and audited session too, or
   * redirecting for that slot never does anything.
   */
  lemma LeftoverSlotsAreBackedOrDead(cfg: Config, h: Trust, w: World, k: string, ctx: Context, w': World)
    requires Sound(cfg) && Reached(cfg, h, w) && Strict(h)
    requires k in w.slots && w.slots[k].value.id != ""
    ensures
      var c := w.slots[k].value;
      Located(cfg, c.redirectURI) ==>
        || (c.id in Stored(w.trace) && c.id in Audited(w.trace))
        || RedirectToCaller(cfg, w', ctx, k, c) == w'
  {
    hide Inv, Reached, RedirectToCaller, Escapes, Located, OutcomeMeets;
    var c := w.slots[k].value;
    ReachedKeeps(cfg, h, w);
    LeftoverSlot(cfg, h, w, k);
    if cfg.codec.parse(c.redirectURI).None? {
      DeadSlot(cfg, w', ctx, k, c);
    } else if Located(cfg, c.redirectURI) {
      RecordedMeets(h, w.trace, c.id);
      TrustStopsEscapes(cfg, h, OutcomeOf(w.trace, c.id).value);
    }
  }

  lemma LeftoverSlot(cfg: Config, h: Trust, w: World, k: string)
    requires Inv(cfg, h, w, "") && k in w.slots && w.slots[k].value.id != ""
    ensures Plain(w.slots[k].value) && OutcomesMeet(h, w.trace) && Truthful(cfg, w.trace, k, w.slots[k].value.id)
    ensures OutcomeOf(w.trace, w.slots[k].value.id).value.redirectURI == w.slots[k].value.redirectURI
  {
    hide SlotsLinear, CodesLinear, AllBound, CodesBound, AllTruthful, Sessions, Escapes;
    assert k in w.minted;
  }

  lemma DeadSlot(cfg: Config, w: World, ctx: Context, slot: string, c: Correlation)
    requires Plain(c) && cfg.codec.parse(c.redirectURI).None?
    ensures RedirectToCaller(cfg, w, ctx, slot, c) == w
  {
  }

  /** What a redirect with a parsable destination emits. */
  lemma RedirectShape(cfg: Config, w: World, ctx: Context, slot: string, sess: Correlation)
    requires cfg.codec.parse(Destination(sess)).Some? && ctx.ok.codeWrite
    ensures
      var t := RedirectToCaller(cfg, w, ctx, slot, sess).trace;
      && t.After? && t.past == w.trace && t.event.Redirected?
      && (t.event.issue.Refusal? <==> |sess.errorCode| > 0)
      && (|sess.errorCode| == 0 ==> HandedOver(t.event.issue) == Some(sess.id))
      && (t.event.issue.Direct? ==> t.event.issue.managed == sess.managedByProvider)
  {
  }
}
