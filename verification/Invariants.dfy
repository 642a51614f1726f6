/** What every request keeps, for any mixture of failures and with the stronger facts that reliable caches buy. */
module Invariants {
  import opened Basics
  import opened Settings
  import opened Entities
  import opened Traces
  import opened Protocol

  /**
   * What is assumed of every step of a run: slot deletes, slot writes and code deletes succeed, authorization errors
   * carry a code, and the authorizer answers an acceptance of the terms with accepted terms.
   */
  datatype Trust = Trust(slotDeletes: bool, slotWrites: bool, codeDeletes: bool, errorCodes: bool, honoured: bool)

  const NO_TRUST := Trust(false, false, false, false, false)

  predicate NonEmptyCode(code: Option<string>) {
    code.Some? ==> code.value != ""
  }

  predicate CodesNamed(result: ProviderResult) {
    match result
    case Rejected(code) => NonEmptyCode(code)
    case Authenticated(_, answer) => answer.Denied? ==> NonEmptyCode(answer.code)
  }

  predicate TermsHonoured(request: Request) {
    request.AcceptTerms? && request.answer.Granted? ==> request.answer.data.isTOSAccepted
  }

  predicate Meets(h: Trust, step: Step) {
    && (h.slotDeletes ==> step.ctx.ok.slotDelete)
    && (h.slotWrites ==> step.ctx.ok.slotWrite && step.ctx.ok.slotRewrite)
    && (h.codeDeletes ==> step.ctx.ok.codeDelete)
    && (h.errorCodes && step.request.Callback? ==> CodesNamed(step.request.callback.result))
    && (h.honoured ==> TermsHonoured(step.request))
  }

  /** The trust under which a code always stands for a stored and audited session. */
  predicate Strict(h: Trust) {
    h.slotDeletes && h.slotWrites && h.errorCodes
  }

  predicate OutcomeMeets(h: Trust, o: Outcome) {
    && (h.slotDeletes ==> o.ok.slotDelete)
    && (h.slotWrites ==> o.ok.slotWrite && o.ok.slotRewrite)
    && (h.errorCodes ==> CodesNamed(o.result))
  }

  /** Every login on record went as the trust says. */
  predicate OutcomesMeet(h: Trust, t: Trace) {
    match t
    case Start => true
    case After(past, e) => OutcomesMeet(h, past) && (e.Answered? ==> OutcomeMeets(h, e.outcome))
  }

  lemma {:induction false} RecordedMeets(h: Trust, t: Trace, session: string)
    requires OutcomesMeet(h, t) && OutcomeOf(t, session).Some?
    ensures OutcomeMeets(h, OutcomeOf(t, session).value)
  {
    if !(t.event.Answered? && t.event.session == session) {
      RecordedMeets(h, t.past, session);
    }
  }

  lemma {:induction false} MeetAtAnyTime(h: Trust, t: Trace, p: Trace)
    requires OutcomesMeet(h, t) && IsPrefix(p, t)
    ensures OutcomesMeet(h, p)
  {
    if p != t {
      MeetAtAnyTime(h, t.past, p);
    }
  }

  // ---------------------------------------------------------------- the invariants

  /** Every name in use was minted, and minted names are ULIDs. */
  ghost predicate NamesTaken(slots: Cache<Correlation>, codes: Cache<OneTimeToken>, minted: set<string>, t: Trace) {
    && slots.Keys <= minted && codes.Keys <= minted
    && (forall k | k in slots && slots[k].value.id != "" :: slots[k].value.id in minted)
    && (forall c | c in codes :: codes[c].value.sessionToken in minted)
    && Delivered(t) <= minted && Issued(t) <= minted && Stored(t) <= minted && Audited(t) <= minted
    && TermsAnswered(t) <= minted
    && (forall n | n in minted :: |n| == ULID_LENGTH)
  }

  /** A stored correlation never carries an error, a provider-managed flag, a creation time or a terms target. */
  ghost predicate SlotsPlain(slots: Cache<Correlation>) {
    forall k | k in slots :: Plain(slots[k].value)
  }

  predicate Plain(c: Correlation) {
    c.errorCode == "" && !c.managedByProvider && c.sessionCreated == None && c.tosTargetURI == None
  }

  /** With reliable slot deletes a session ID sits in one slot, or in one redirect, and never in both. */
  ghost predicate SlotsLinear(slots: Cache<Correlation>, t: Trace) {
    && (forall k | k in slots && slots[k].value.id != "" :: slots[k].value.id !in Delivered(t))
    && (forall k, l | k in slots && l in slots && slots[k].value.id != "" :: slots[k].value.id == slots[l].value.id ==> k == l)
    && (forall s :: Redirects(t, s) <= 1)
  }

  /** With reliable code deletes as well, a session ID sits in one code or was exchanged once, and never both. */
  ghost predicate CodesLinear(codes: Cache<OneTimeToken>, t: Trace) {
    && (forall c | c in codes :: Exchanges(t, codes[c].value.sessionToken) == 0)
    && (forall c, d | c in codes && d in codes :: codes[c].value.sessionToken == codes[d].value.sessionToken ==> c == d)
    && (forall s :: Exchanges(t, s) <= 1)
  }

  /** Slots and codes hold the parameters of the latest accepted request on their slot. */
  ghost predicate SlotsBound(slots: Cache<Correlation>, t: Trace) {
    forall k | k in slots :: SlotBound(LatestAccepted(t, k), slots[k].value)
  }

  ghost predicate CodesBound(codes: Cache<OneTimeToken>, t: Trace) {
    forall c | c in codes :: CodeBound(CodeOrigin(t, c), codes[c].value) && codes[c].value.sessionToken in Delivered(t)
      && IssuedFor(t, c) == Some(codes[c].value.sessionToken)
  }

  ghost predicate SlotBound(a: Option<Acceptance>, c: Correlation) {
    && a.Some? && UriAllowed(a.value)
    && c.clientID == a.value.clientID && c.redirectURI == a.value.redirectURI && c.state == Some(a.value.state)
  }

  ghost predicate CodeBound(a: Option<Acceptance>, ott: OneTimeToken) {
    a.Some? && UriAllowed(a.value) && ott.redirectURIs == [a.value.redirectURI]
  }

  /** Every session ID left in a slot is backed unless its login escaped. */
  ghost predicate SlotsTruthful(cfg: Config, slots: Cache<Correlation>, t: Trace, pending: string) {
    forall k | k in slots && k != pending && slots[k].value.id != "" :: Truthful(cfg, t, k, slots[k].value.id)
  }

  /** The event is about the session of no slot but the pending one. */
  ghost predicate Elsewhere(slots: Cache<Correlation>, e: Event, pending: string) {
    e.SessionStored? || e.LoginAudited? || e.Answered? ==>
      forall k | k in slots && k != pending :: slots[k].value.id != e.session
  }

  /** Cache deadlines never precede the lifetime counted from the last access. */
  ghost predicate SessionsAlive(cfg: Config, sessions: Cache<Session>, now: int) {
    forall s | s in sessions :: Alive(cfg, s, sessions[s], now)
  }

  predicate Alive(cfg: Config, s: string, e: Entry<Session>, now: int) {
    && e.value.id == s
    && e.value.lastAccessed.Some? && e.value.lastAccessed.value <= now
    && e.deadline >= e.value.lastAccessed.value + cfg.sessionTimeout
  }

  /** No code carries a creation time later than the last access of its session. */
  ghost predicate CodesAged(codes: Cache<OneTimeToken>, sessions: Cache<Session>) {
    forall c | c in codes :: Aged(codes[c].value.sessionCreated, codes[c].value.sessionToken, sessions)
  }

  predicate Aged(created: Option<int>, session: string, sessions: Cache<Session>) {
    created.Some? && session in sessions && sessions[session].value.lastAccessed.Some? ==>
      created.value <= sessions[session].value.lastAccessed.value
  }

  /** The states a session can be in, and what each says about terms and role. */
  predicate WellPlaced(cfg: Config, s: Session) {
    && s.state in {RequireAgreement, RequireRole, Authorized}
    && (s.state == RequireAgreement ==> cfg.requiresTOS && !s.isTOSAccepted && s.role.None?)
    && (s.state == RequireRole ==> cfg.requiresRole && s.role.None?)
    && (s.role.Some? ==> s.state == Authorized && Unblocked(s.role.value))
  }

  /** Where roles are required, an interactive session is authorized without a role exactly when a terms answer took it. */
  predicate RoleHeld(cfg: Config, t: Trace, s: Session) {
    cfg.requiresRole && s.state == Authorized && s.id !in ServiceStored(t) ==> (s.role.Some? <==> !LapsedByTerms(t, s.id))
  }

  /** With an authorizer that honours acceptance: the role is a current one and the agreement state tells the terms. */
  predicate TermsTold(cfg: Config, t: Trace, s: Session) {
    && (s.role.Some? ==> s.role.value in s.roles)
    && (cfg.requiresTOS && s.id !in ServiceStored(t) ==> (s.state == RequireAgreement <==> !s.isTOSAccepted))
  }

  predicate SessionSound(cfg: Config, h: Trust, t: Trace, s: Session) {
    WellPlaced(cfg, s) && RoleHeld(cfg, t, s) && (h.honoured ==> TermsTold(cfg, t, s))
  }

  ghost predicate SessionsSound(cfg: Config, h: Trust, sessions: Cache<Session>, t: Trace) {
    forall s | s in sessions :: SessionSound(cfg, h, t, sessions[s].value)
  }

  /** The part about slots, codes and redirects; `pending` names a slot in the middle of a login, "" otherwise. */
  ghost predicate Flows(cfg: Config, h: Trust, slots: Cache<Correlation>, codes: Cache<OneTimeToken>, minted: set<string>,
    t: Trace, pending: string)
  {
    && NamesTaken(slots, codes, minted, t)
    && SlotsPlain(slots)
    && (h.slotDeletes ==> SlotsLinear(slots, t))
    && (h.slotDeletes && h.codeDeletes ==> CodesLinear(codes, t))
    && AllBound(cfg, t) && SlotsBound(slots, t) && CodesBound(codes, t)
    && AllTruthful(cfg, t) && SlotsTruthful(cfg, slots, t, pending) && OutcomesMeet(h, t)
  }

  /** The part about stored sessions. */
  ghost predicate Sessions(cfg: Config, h: Trust, w: World) {
    && w.sessions.Keys <= w.minted
    && SessionsAlive(cfg, w.sessions, w.now)
    && CodesAged(w.codes, w.sessions)
    && SessionsSound(cfg, h, w.sessions, w.trace)
  }

  ghost predicate Inv(cfg: Config, h: Trust, w: World, pending: string) {
    Flows(cfg, h, w.slots, w.codes, w.minted, w.trace, pending) && Sessions(cfg, h, w)
  }

  // ---------------------------------------------------------------- entering a request

  /** A name that a request may draw is used nowhere yet. */
  ghost predicate Unused(w: World, name: string) {
    && name in w.minted && |name| == ULID_LENGTH
    && name !in w.slots && name !in w.codes && name !in w.sessions
    && (forall k | k in w.slots :: w.slots[k].value.id != name)
    && (forall c | c in w.codes :: w.codes[c].value.sessionToken != name)
    && name !in Delivered(w.trace) && name !in Issued(w.trace)
    && name !in Stored(w.trace) && name !in Audited(w.trace) && name !in TermsAnswered(w.trace)
  }

  ghost predicate AllUnused(w: World, n: Names) {
    Unused(w, n.slot) && Unused(w, n.session) && Unused(w, n.code) && n.slot != n.session && n.slot != n.code && n.session != n.code
  }

  lemma EnterKeeps(cfg: Config, h: Trust, w: World, step: Step)
    requires Inv(cfg, h, w, "") && Admissible(w, step)
    ensures Inv(cfg, h, Enter(w, step.ctx), "")
    ensures AllUnused(Enter(w, step.ctx), step.ctx.names)
  {
  }

  // ---------------------------------------------------------------- single effects

  /** An event that neither accepts a request nor delivers a session. */
  predicate Quiet(e: Event) {
    !e.Accepted? && !e.Redirected? && !e.CodeExchanged?
  }

  lemma NamesAfter(slots: Cache<Correlation>, codes: Cache<OneTimeToken>, minted: set<string>, t: Trace, e: Event)
    requires NamesTaken(slots, codes, minted, t)
    requires e.SessionStored? || e.LoginAudited? || e.TermsPlaced? ==> e.session in minted
    requires e.CodeExchanged? ==> e.token in minted
    requires e.Redirected? && HandedOver(e.issue).Some? ==> HandedOver(e.issue).value in minted
    requires e.Redirected? && e.issue.Code? ==> e.issue.code in minted
    ensures NamesTaken(slots, codes, minted, After(t, e))
  {
  }

  lemma SlotsAfter(slots: Cache<Correlation>, t: Trace, e: Event)
    requires SlotsLinear(slots, t) && (e.Redirected? ==> e.issue.Refusal?) && !e.CodeExchanged?
    ensures SlotsLinear(slots, After(t, e))
  {
  }

  lemma CodesAfter(codes: Cache<OneTimeToken>, t: Trace, e: Event)
    requires CodesLinear(codes, t) && !e.CodeExchanged?
    ensures CodesLinear(codes, After(t, e))
  {
  }

  lemma BoundAfter(cfg: Config, slots: Cache<Correlation>, codes: Cache<OneTimeToken>, t: Trace, e: Event)
    requires AllBound(cfg, t) && SlotsBound(slots, t) && CodesBound(codes, t)
    requires !e.Accepted? && !e.CodeExchanged?
    requires e.Redirected? ==> LatestAccepted(t, e.slot).Some? && StaysWith(cfg, e.url, LatestAccepted(t, e.slot).value, e.issue)
    requires e.Redirected? && e.issue.Code? ==> e.issue.code !in codes
    ensures AllBound(cfg, After(t, e)) && SlotsBound(slots, After(t, e)) && CodesBound(codes, After(t, e))
  {
  }

  lemma TruthAfter(cfg: Config, slots: Cache<Correlation>, t: Trace, e: Event, pending: string)
    requires AllTruthful(cfg, t) && SlotsTruthful(cfg, slots, t, pending)
    requires !e.Accepted? && Elsewhere(slots, e, pending)
    requires e.Redirected? && Vouched(e.issue).Some? ==> Truthful(cfg, t, e.slot, Vouched(e.issue).value)
    ensures AllTruthful(cfg, After(t, e)) && SlotsTruthful(cfg, slots, After(t, e), pending)
  {
    hide Escapes;
    forall k | k in slots && k != pending && slots[k].value.id != ""
      ensures Truthful(cfg, After(t, e), k, slots[k].value.id)
    {
      assert Truthful(cfg, t, k, slots[k].value.id);
    }
  }

  lemma QuietKeeps(cfg: Config, h: Trust, slots: Cache<Correlation>, codes: Cache<OneTimeToken>, minted: set<string>,
    t: Trace, e: Event, pending: string)
    requires Flows(cfg, h, slots, codes, minted, t, pending)
    requires Quiet(e) || (e.Redirected? && e.issue.Refusal?)
    requires e.SessionStored? || e.LoginAudited? || e.TermsPlaced? ==> e.session in minted
    requires e.Redirected? ==> LatestAccepted(t, e.slot).Some? && StaysWith(cfg, e.url, LatestAccepted(t, e.slot).value, e.issue)
    requires Elsewhere(slots, e, pending) && (e.Answered? ==> OutcomeMeets(h, e.outcome))
    ensures Flows(cfg, h, slots, codes, minted, After(t, e), pending)
  {
    hide NamesTaken, SlotsPlain, SlotsLinear, CodesLinear, AllBound, SlotsBound, CodesBound, AllTruthful, SlotsTruthful;
    if h.slotDeletes {
      SlotsAfter(slots, t, e);
      if h.codeDeletes {
        CodesAfter(codes, t, e);
      }
    }
    NamesAfter(slots, codes, minted, t, e);
    BoundAfter(cfg, slots, codes, t, e);
    TruthAfter(cfg, slots, t, e, pending);
  }

  /** Losing slots keeps everything; losing the pending slot settles it. */
  lemma LossKeeps(cfg: Config, h: Trust, slots: Cache<Correlation>, codes: Cache<OneTimeToken>, minted: set<string>,
    t: Trace, pending: string, kept: Cache<Correlation>)
    requires Flows(cfg, h, slots, codes, minted, t, pending)
    requires kept.Keys <= slots.Keys && forall k | k in kept :: kept[k] == slots[k]
    ensures Flows(cfg, h, kept, codes, minted, t, if pending in kept then pending else "")
  {
  }

  /** Events that say nothing about sessions keep the stored sessions sound. */
  lemma SessionsAfter(cfg: Config, h: Trust, sessions: Cache<Session>, t: Trace, e: Event)
    requires SessionsSound(cfg, h, sessions, t)
    requires !e.SessionStored? && !e.TermsPlaced? && !e.RoleChosen?
    ensures SessionsSound(cfg, h, sessions, After(t, e))
  {
  }

  /** A pending slot that is gone, empty or truthful is settled. */
  lemma Settle(cfg: Config, h: Trust, slots: Cache<Correlation>, codes: Cache<OneTimeToken>, minted: set<string>,
    t: Trace, pending: string)
    requires Flows(cfg, h, slots, codes, minted, t, pending)
    requires pending != "" && pending in slots && slots[pending].value.id != "" ==>
      Truthful(cfg, t, pending, slots[pending].value.id)
    ensures Flows(cfg, h, slots, codes, minted, t, "")
  {
  }

  // ---------------------------------------------------------------- delivering a session

  lemma SlotsDelivered(slots: Cache<Correlation>, t: Trace, slot: string, e: Event)
    requires SlotsLinear(slots, t)
    requires e.Redirected? && HandedOver(e.issue).Some? && HandedOver(e.issue).value !in Delivered(t)
    requires forall k | k in slots && slots[k].value.id == HandedOver(e.issue).value :: k == slot
    ensures SlotsLinear(Drop(slots, slot), After(t, e))
  {
    UndeliveredCountsZero(t, HandedOver(e.issue).value);
  }

  lemma CodesDelivered(codes: Cache<OneTimeToken>, t: Trace, code: string, entry: Entry<OneTimeToken>, e: Event)
    requires CodesLinear(codes, t) && CodesBound(codes, t) && code !in codes
    requires e.Redirected? && HandedOver(e.issue) == Some(entry.value.sessionToken)
    requires entry.value.sessionToken !in Delivered(t)
    ensures CodesLinear(codes[code := entry], After(t, e))
  {
    CodesAfter(codes, t, e);
    UndeliveredCountsZero(t, entry.value.sessionToken);
    assert Exchanges(After(t, e), entry.value.sessionToken) == 0;
  }

  lemma CodesBoundDelivered(codes: Cache<OneTimeToken>, t: Trace, code: string, entry: Entry<OneTimeToken>, e: Event)
    requires CodesBound(codes, After(t, e)) && e.Redirected? && e.issue.Code? && e.issue.code == code
    requires CodeBound(LatestAccepted(t, e.slot), entry.value) && HandedOver(e.issue) == Some(entry.value.sessionToken)
    ensures CodesBound(codes[code := entry], After(t, e))
  {
  }

  lemma NamesDelivered(slots: Cache<Correlation>, codes: Cache<OneTimeToken>, minted: set<string>, t: Trace,
    code: string, entry: Entry<OneTimeToken>)
    requires NamesTaken(slots, codes, minted, t) && code in minted && entry.value.sessionToken in minted
    ensures NamesTaken(slots, codes[code := entry], minted, t)
  {
  }

  /** Sending a redirect that hands a session over, by itself or through a new code. */
  lemma DeliverKeeps(cfg: Config, h: Trust, slots: Cache<Correlation>, codes: Cache<OneTimeToken>, minted: set<string>,
    t: Trace, kept: Cache<Correlation>, slot: string, url: Url, issue: Issue, deadline: int, sess: Correlation)
    requires Flows(cfg, h, slots, codes, minted, t, slot)
    requires kept == slots || kept == Drop(slots, slot)
    requires h.slotDeletes ==> kept == Drop(slots, slot)
    requires SlotBound(LatestAccepted(t, slot), sess) && StaysWith(cfg, url, LatestAccepted(t, slot).value, issue)
    requires HandedOver(issue) == Some(sess.id) && sess.id in minted
    requires issue.Code? ==> issue.code in minted && issue.code !in codes
    requires h.slotDeletes ==> sess.id !in Delivered(t)
    requires h.slotDeletes ==> forall k | k in slots && slots[k].value.id == sess.id :: k == slot
    requires Vouched(issue).Some? ==> Truthful(cfg, t, slot, sess.id)
    requires slot in slots && slots[slot].value.id != "" ==> Truthful(cfg, t, slot, slots[slot].value.id)
    ensures
      var codes' := if issue.Code? then codes[issue.code := Entry(NewToken(issue.code, sess), deadline)] else codes;
      Flows(cfg, h, kept, codes', minted, After(t, Redirected(slot, url, issue)), "")
  {
    hide StaysWith, Truthful, NamesTaken, SlotsPlain, SlotsLinear, CodesLinear, AllBound, SlotsBound, CodesBound, AllTruthful, SlotsTruthful;
    var e := Redirected(slot, url, issue);
    LossKeeps(cfg, h, slots, codes, minted, t, slot, kept);
    Settle(cfg, h, kept, codes, minted, t, if slot in kept then slot else "");
    NamesAfter(kept, codes, minted, t, e);
    if h.slotDeletes {
      SlotsDelivered(slots, t, slot, e);
      if h.codeDeletes {
        if issue.Code? {
          CodesDelivered(codes, t, issue.code, Entry(NewToken(issue.code, sess), deadline), e);
        } else {
          CodesAfter(codes, t, e);
        }
      }
    }
    BoundAfter(cfg, kept, codes, t, e);
    if issue.Code? {
      NamesDelivered(kept, codes, minted, After(t, e), issue.code, Entry(NewToken(issue.code, sess), deadline));
      CodesBoundDelivered(codes, t, issue.code, Entry(NewToken(issue.code, sess), deadline), e);
    }
    TruthAfter(cfg, kept, t, e, "");
  }

  // ---------------------------------------------------------------- holding and storing a session

  lemma HoldLinear(slots: Cache<Correlation>, t: Trace, slot: string, entry: Entry<Correlation>)
    requires SlotsLinear(slots, t) && slot in slots && entry.value.id !in Delivered(t)
    requires forall k | k in slots :: slots[k].value.id != entry.value.id
    ensures SlotsLinear(slots[slot := entry], t)
  {
  }

  lemma HoldBound(slots: Cache<Correlation>, t: Trace, slot: string, entry: Entry<Correlation>)
    requires SlotsBound(slots, t) && slot in slots && entry.value.(id := slots[slot].value.id) == slots[slot].value
    ensures SlotsBound(slots[slot := entry], t)
  {
  }

  lemma HoldTruthful(cfg: Config, slots: Cache<Correlation>, t: Trace, slot: string, entry: Entry<Correlation>)
    requires SlotsTruthful(cfg, slots, t, "") && "" !in slots
    ensures SlotsTruthful(cfg, slots[slot := entry], t, slot)
  {
  }

  /** Writing a fresh session ID into an empty slot makes that slot pending. */
  lemma HoldFlows(cfg: Config, h: Trust, slots: Cache<Correlation>, codes: Cache<OneTimeToken>, minted: set<string>,
    t: Trace, slot: string, entry: Entry<Correlation>)
    requires Flows(cfg, h, slots, codes, minted, t, "")
    requires slot in slots && entry.value.(id := slots[slot].value.id) == slots[slot].value
    requires entry.value.id in minted && entry.value.id !in Delivered(t)
    requires forall k | k in slots :: slots[k].value.id != entry.value.id
    ensures Flows(cfg, h, slots[slot := entry], codes, minted, t, slot)
  {
    hide SlotsLinear, CodesLinear, AllBound, SlotsBound, CodesBound, AllTruthful, SlotsTruthful;
    assert slots[slot := entry].Keys == slots.Keys && "" !in slots;
    if h.slotDeletes {
      HoldLinear(slots, t, slot, entry);
    }
    HoldBound(slots, t, slot, entry);
    HoldTruthful(cfg, slots, t, slot, entry);
  }

  /** Storing a fresh session. */
  lemma StoreNew(cfg: Config, h: Trust, w: World, session: Session, service: bool)
    requires Sound(cfg) && Sessions(cfg, h, w)
    requires session.id in w.minted && session.id !in Stored(w.trace)
    requires session.id !in w.sessions && forall c | c in w.codes :: w.codes[c].value.sessionToken != session.id
    requires session.lastAccessed == Some(w.now) && WellPlaced(cfg, session)
    requires session.role.Some? ==> session.role.value in session.roles
    requires !service ==> RoleHeld(cfg, w.trace, session) && TermsTold(cfg, w.trace, session)
    ensures Sessions(cfg, h, Emit(StoreSession(cfg, w, session), SessionStored(session.id, service)))
  {
    var e := SessionStored(session.id, service);
    forall s | s in w.sessions ensures SessionSound(cfg, h, After(w.trace, e), w.sessions[s].value) {
      assert w.sessions[s].value.id == s != session.id;
    }
  }

  /** Losing sessions. */
  lemma LoseSessions(cfg: Config, h: Trust, w: World, sessions: Cache<Session>)
    requires Sessions(cfg, h, w)
    requires sessions.Keys <= w.sessions.Keys && forall s | s in sessions :: sessions[s] == w.sessions[s]
    ensures Sessions(cfg, h, w.(sessions := sessions))
  {
  }

  // ---------------------------------------------------------------- opening slots, redeeming codes

  lemma OpenLinear(slots: Cache<Correlation>, t: Trace, slot: string, entry: Entry<Correlation>, e: Event)
    requires SlotsLinear(slots, t) && entry.value.id == "" && e.Accepted?
    ensures SlotsLinear(slots[slot := entry], After(t, e))
  {
    SlotsAfter(slots, t, e);
    hide Delivered, Redirects;
  }

  lemma OpenBound(cfg: Config, slots: Cache<Correlation>, codes: Cache<OneTimeToken>, t: Trace,
    slot: string, entry: Entry<Correlation>, request: Acceptance)
    requires AllBound(cfg, t) && SlotsBound(slots, t) && CodesBound(codes, t)
    requires SlotBound(Some(request), entry.value)
    ensures
      var t' := After(t, Accepted(slot, request));
      AllBound(cfg, t') && SlotsBound(slots[slot := entry], t') && CodesBound(codes, t')
  {
  }

  lemma OpenTruthful(cfg: Config, slots: Cache<Correlation>, t: Trace, slot: string, entry: Entry<Correlation>, e: Event)
    requires AllTruthful(cfg, t) && SlotsTruthful(cfg, slots, t, "") && entry.value.id == ""
    requires e.Accepted? && e.slot == slot && "" !in slots
    ensures AllTruthful(cfg, After(t, e)) && SlotsTruthful(cfg, slots[slot := entry], After(t, e), "")
  {
    hide Escapes;
    forall k | k in slots && k != slot && slots[k].value.id != "" ensures Truthful(cfg, After(t, e), k, slots[k].value.id) {
      assert Truthful(cfg, t, k, slots[k].value.id);
    }
  }

  /** Opening a slot, new or reused, for an accepted request. */
  lemma OpenFlows(cfg: Config, h: Trust, slots: Cache<Correlation>, codes: Cache<OneTimeToken>, minted: set<string>,
    t: Trace, slot: string, entry: Entry<Correlation>, request: Acceptance)
    requires Flows(cfg, h, slots, codes, minted, t, "")
    requires slot in minted && entry.value.id == "" && Plain(entry.value) && SlotBound(Some(request), entry.value)
    ensures Flows(cfg, h, slots[slot := entry], codes, minted, After(t, Accepted(slot, request)), "")
  {
    hide SlotsLinear, CodesLinear, AllBound, SlotsBound, CodesBound, AllTruthful, SlotsTruthful;
    var e := Accepted(slot, request);
    NamesAfter(slots, codes, minted, t, e);
    if h.slotDeletes {
      OpenLinear(slots, t, slot, entry, e);
      if h.codeDeletes {
        CodesAfter(codes, t, e);
      }
    }
    OpenBound(cfg, slots, codes, t, slot, entry, request);
    OpenTruthful(cfg, slots, t, slot, entry, e);
  }

  lemma FewerCodes(slots: Cache<Correlation>, codes: Cache<OneTimeToken>, minted: set<string>, t: Trace, kept: Cache<OneTimeToken>)
    requires NamesTaken(slots, codes, minted, t) && CodesBound(codes, t)
    requires kept.Keys <= codes.Keys && forall c | c in kept :: kept[c] == codes[c]
    ensures NamesTaken(slots, kept, minted, t) && CodesBound(kept, t)
    ensures CodesLinear(codes, t) ==> CodesLinear(kept, t)
  {
  }

  /** Losing codes keeps everything. */
  lemma LoseCodes(cfg: Config, h: Trust, slots: Cache<Correlation>, codes: Cache<OneTimeToken>, minted: set<string>,
    t: Trace, kept: Cache<OneTimeToken>)
    requires Flows(cfg, h, slots, codes, minted, t, "")
    requires kept.Keys <= codes.Keys && forall c | c in kept :: kept[c] == codes[c]
    ensures Flows(cfg, h, slots, kept, minted, t, "")
  {
    hide NamesTaken, SlotsPlain, SlotsLinear, CodesLinear, AllBound, SlotsBound, CodesBound, AllTruthful, SlotsTruthful;
    FewerCodes(slots, codes, minted, t, kept);
  }

  lemma ExchangeSlots(slots: Cache<Correlation>, t: Trace, e: Event)
    requires SlotsLinear(slots, t) && e.CodeExchanged? && e.token in Delivered(t)
    ensures SlotsLinear(slots, After(t, e))
  {
  }

  lemma ExchangeCodes(codes: Cache<OneTimeToken>, t: Trace, e: Event)
    requires CodesLinear(codes, t) && e.CodeExchanged? && e.code in codes && codes[e.code].value.sessionToken == e.token
    ensures CodesLinear(Drop(codes, e.code), After(t, e))
  {
    assert Exchanges(t, e.token) == 0;
  }

  lemma ExchangeBound(cfg: Config, slots: Cache<Correlation>, codes: Cache<OneTimeToken>, t: Trace, e: Event)
    requires AllBound(cfg, t) && SlotsBound(slots, t) && CodesBound(codes, t)
    requires e.CodeExchanged? && e.code in codes && RedirectMatches(codes[e.code].value, e.redirectURI)
    requires e.token == codes[e.code].value.sessionToken
    ensures AllBound(cfg, After(t, e)) && SlotsBound(slots, After(t, e)) && CodesBound(codes, After(t, e))
  {
  }

  /** A successful exchange: the code is gone if deletes can be relied on. */
  lemma ExchangeFlows(cfg: Config, h: Trust, slots: Cache<Correlation>, codes: Cache<OneTimeToken>, minted: set<string>,
    t: Trace, kept: Cache<OneTimeToken>, e: Event)
    requires Flows(cfg, h, slots, codes, minted, t, "")
    requires e.CodeExchanged? && e.code in codes && e.token == codes[e.code].value.sessionToken
    requires RedirectMatches(codes[e.code].value, e.redirectURI)
    requires kept == codes || kept == Drop(codes, e.code)
    requires h.codeDeletes ==> kept == Drop(codes, e.code)
    ensures Flows(cfg, h, slots, kept, minted, After(t, e), "")
  {
    hide SlotsPlain, SlotsLinear, CodesLinear, AllBound, SlotsBound, AllTruthful, SlotsTruthful;
    assert e.token in Delivered(t) && e.token in minted;
    hide NamesTaken, CodesBound;
    NamesAfter(slots, codes, minted, t, e);
    if h.slotDeletes {
      ExchangeSlots(slots, t, e);
      if h.codeDeletes {
        ExchangeCodes(codes, t, e);
      }
    }
    ExchangeBound(cfg, slots, codes, t, e);
    FewerCodes(slots, codes, minted, After(t, e), kept);
    TruthAfter(cfg, slots, t, e, "");
  }

  // ---------------------------------------------------------------- changing sessions

  /** The event tells of a terms answer or a role choice for the session. */
  predicate AboutPlacement(e: Event, session: string) {
    (e.TermsPlaced? || e.RoleChosen?) && e.session == session
  }

  /** Storing a later version of a session, perhaps with an event about it. */
  lemma UpdateSession(cfg: Config, h: Trust, w: World, session: Session, t: Trace)
    requires Sessions(cfg, h, w) && session.id in w.sessions
    requires session.lastAccessed.Some? && session.lastAccessed.value <= w.now
    requires w.sessions[session.id].value.lastAccessed.value <= session.lastAccessed.value
    requires t == w.trace || (t.After? && t.past == w.trace && AboutPlacement(t.event, session.id))
    requires SessionSound(cfg, h, t, session)
    ensures Sessions(cfg, h, StoreSession(cfg, w, session).(trace := t))
  {
    forall s | s in w.sessions && s != session.id ensures SessionSound(cfg, h, t, w.sessions[s].value) {
      assert w.sessions[s].value.id == s;
    }
  }

  /** A terms answer leaves a sound session. */
  lemma AfterTermsSound(cfg: Config, h: Trust, t: Trace, session: Session, data: UserData, now: int)
    requires SessionSound(cfg, h, t, session)
    requires h.honoured ==> data.isTOSAccepted
    ensures
      var t' := if data.isTOSAccepted then After(t, TermsPlaced(session.id, data.roles)) else t;
      SessionSound(cfg, h, t', AfterTerms(cfg, session, data, now))
  {
  }

  /** A role choice behind the terms gate leaves a sound session. */
  lemma AfterRoleSound(cfg: Config, h: Trust, t: Trace, session: Session, roleID: Option<string>)
    requires SessionSound(cfg, h, t, session) && TermsGateOpen(cfg, session) && ChosenRole(session, roleID).Some?
    ensures SessionSound(cfg, h, After(t, RoleChosen(session.id)), AfterRole(session, ChosenRole(session, roleID).value))
  {
  }
}
