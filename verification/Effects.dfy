/** What a request about a session, a reload and an eviction do, spelled out: what they leave, and that nothing else moves. */
module Effects {
  import opened Basics
  import opened Settings
  import opened Entities
  import opened Clients
  import opened Traces
  import opened Protocol
  import opened Invariants
  import opened Preservation
  import opened Lifetimes

  /** The bearer token names a session that is stored, and the store can be read. */
  predicate Live(w: World, ctx: Context, s: string) {
    ctx.ok.sessionRead && s in w.sessions && ctx.now < w.sessions[s].deadline
  }

  /** Slots, codes and clients are untouched; the clock is the request's and its names are taken. */
  predicate FlowsUntouched(w: World, ctx: Context, after: World) {
    && after.slots == w.slots && after.codes == w.codes && after.clients == w.clients && after.now == ctx.now
    && after.minted == w.minted + {ctx.names.slot, ctx.names.state, ctx.names.session, ctx.names.code}
  }

  /** The sessions became `sessions` and the trace `trace`; nothing else changed. */
  predicate Becomes(w: World, ctx: Context, after: World, sessions: Cache<Session>, trace: Trace) {
    FlowsUntouched(w, ctx, after) && after.sessions == sessions && after.trace == trace
  }

  /** Nothing but the clock, the names drawn, the slots and the trace changed. */
  predicate OnlySlots(w: World, ctx: Context, after: World, slots: Cache<Correlation>, trace: Trace) {
    && after.slots == slots && after.trace == trace
    && after.codes == w.codes && after.sessions == w.sessions && after.clients == w.clients && after.now == ctx.now
    && after.minted == w.minted + {ctx.names.slot, ctx.names.state, ctx.names.session, ctx.names.code}
  }

  /** The request had no effect. */
  predicate NoEffect(w: World, ctx: Context, after: World) {
    Becomes(w, ctx, after, w.sessions, w.trace)
  }

  lemma BearerIs(cfg: Config, h: Trust, w: World, ctx: Context, s: string)
    requires Sound(cfg) && Reached(cfg, h, w)
    ensures Resolve(Enter(w, ctx), ctx, s) == if Live(w, ctx, s) then Some(w.sessions[s].value) else None
    ensures s in w.sessions ==> w.sessions[s].value.id == s && |s| == 26 && s != "" && w.sessions[s].value.IsActive()
  {
    hide Inv, Reached;
    ReachedKeeps(cfg, h, w);
    if s in w.sessions {
      KnownSession(cfg, h, w, s);
    }
  }

  /** A request whose bearer token names no live session has no effect. */
  lemma StrangersDoNothing(cfg: Config, w: World, ctx: Context, request: Request)
    requires AboutSession(request) && !Live(w, ctx, request.bearer)
    ensures NoEffect(w, ctx, Apply(cfg, w, Step(ctx, request)))
  {
    hide Handle;
    Unauthorized(cfg, Enter(w, ctx), ctx, request);
  }

  // ---------------------------------------------------------------- logout

  /** A logout removes its session and no other, if the delete works. */
  lemma LogoutRemoves(cfg: Config, h: Trust, w: World, ctx: Context, s: string)
    requires Sound(cfg) && Reached(cfg, h, w) && Live(w, ctx, s)
    ensures Becomes(w, ctx, Apply(cfg, w, Step(ctx, Logout(s))),
                    if ctx.ok.sessionDelete then w.sessions - {s} else w.sessions, w.trace)
  {
    hide Reached, Resolve, Inv;
    BearerIs(cfg, h, w, ctx, s);
  }

  /** A name drawn before that is not stored. */
  ghost predicate Gone(cfg: Config, h: Trust, w: World, s: string) {
    Inv(cfg, h, w, "") && s in w.minted && s !in w.sessions
  }

  lemma StaysGone(cfg: Config, h: Trust, w: World, step: Step, s: string)
    requires Sound(cfg) && Gone(cfg, h, w, s) && Admissible(w, step) && Meets(h, step)
    ensures Gone(cfg, h, Apply(cfg, w, step), s)
  {
    hide Inv, Apply, Admissible, Meets;
    StepKeeps(cfg, h, w, step);
    ClockAdvances(cfg, w, step);
    NoSessionReturns(cfg, h, w, step, s);
  }

  /** A session that a logout removed is stored at no later time of any run of atomic requests. */
  lemma LoggedOutForGood(cfg: Config, h: Trust, w: World, ctx: Context, s: string, later: World)
    requires Sound(cfg) && Reached(cfg, h, w) && Live(w, ctx, s) && ctx.ok.sessionDelete
    requires Admissible(w, Step(ctx, Logout(s))) && Meets(h, Step(ctx, Logout(s)))
    requires ReachedFrom(cfg, h, Apply(cfg, w, Step(ctx, Logout(s))), later)
    ensures s !in later.sessions
  {
    hide Inv, Reached, Apply, Admissible, Meets;
    var step := Step(ctx, Logout(s));
    ReachedKeeps(cfg, h, w);
    KnownSession(cfg, h, w, s);
    StepKeeps(cfg, h, w, step);
    LogoutRemoves(cfg, h, w, ctx, s);
    var worlds := iset v: World | Gone(cfg, h, v, s);
    forall v, next | v in worlds && Admissible(v, next) && Meets(h, next) ensures Apply(cfg, v, next) in worlds {
      StaysGone(cfg, h, v, next, s);
    }
    assert ClosedUnderSteps(cfg, h, worlds);
  }

  // ---------------------------------------------------------------- reading and keeping alive

  /** Reading a session removes it exactly when it was outlived and the delete works. */
  lemma ReadingRemovesOutlived(cfg: Config, h: Trust, w: World, ctx: Context, s: string)
    requires Sound(cfg) && Reached(cfg, h, w) && Live(w, ctx, s)
    ensures
      var outlived := Outlived(cfg.sessionTimeout, w.sessions[s].value.lastAccessed, ctx.now);
      Becomes(w, ctx, Apply(cfg, w, Step(ctx, GetSession(s))),
              if outlived && ctx.ok.sessionDelete then w.sessions - {s} else w.sessions, w.trace)
  {
    hide Reached, Resolve, Inv, GetSecondsToLive, Outlived;
    BearerIs(cfg, h, w, ctx, s);
    NegativeMeansOutlived(cfg.sessionTimeout, w.sessions[s].value.lastAccessed, ctx.now);
  }

  /** A keep-alive moves the last access and the deadline of its session, and nothing else, if the write works. */
  lemma KeepAliveRenews(cfg: Config, h: Trust, w: World, ctx: Context, s: string)
    requires Sound(cfg) && Reached(cfg, h, w) && Live(w, ctx, s)
    ensures
      var renewed := Entry(w.sessions[s].value.(lastAccessed := Some(ctx.now)), ctx.now + cfg.sessionTimeout);
      Becomes(w, ctx, Apply(cfg, w, Step(ctx, KeepAlive(s))),
              if ctx.ok.sessionWrite then w.sessions[s := renewed] else w.sessions, w.trace)
  {
    hide Reached, Inv, RespondStep;
    BearerIs(cfg, h, w, ctx, s);
    var w1 := Enter(w, ctx);
    var current := w.sessions[s].value.(lastAccessed := Some(ctx.now));
    RespondHolds(cfg, w1, ctx, s, current, ctx.now);
    RespondHolds(cfg, StoreSession(cfg, w1, current), ctx, s, current, ctx.now);
  }

  // ---------------------------------------------------------------- terms

  /** The entry that an answer to an acceptance of the terms leaves of `before`. */
  predicate Answers(cfg: Config, before: Session, entry: Entry<Session>, data: UserData, now: int) {
    var s := entry.value;
    && entry.deadline == now + cfg.sessionTimeout && s.id == before.id && Mirrors(s, data, now)
    && (data.isTOSAccepted ==> PlacedByTerms(cfg, s, data))
    && (!data.isTOSAccepted ==> s.state == before.state && s.role == before.role)
  }

  /**
   * A granted answer that can be stored replaces the session by what the authorizer says, placed by its roles if the
   * terms came back accepted and in its old place otherwise. A denial or a failed write has no effect.
   */
  lemma TermsAnswersAreStored(cfg: Config, h: Trust, w: World, ctx: Context, s: string, answer: Answer)
    requires Sound(cfg) && Reached(cfg, h, w) && Live(w, ctx, s)
    ensures
      var after := Apply(cfg, w, Step(ctx, AcceptTerms(s, answer)));
      if answer.Granted? && ctx.ok.sessionWrite then
        && s in after.sessions && Answers(cfg, w.sessions[s].value, after.sessions[s], answer.data, ctx.now)
        && Becomes(w, ctx, after, w.sessions[s := after.sessions[s]],
                   if answer.data.isTOSAccepted then After(w.trace, TermsPlaced(s, answer.data.roles)) else w.trace)
      else NoEffect(w, ctx, after)
  {
    hide Reached, Inv, Resolve, AfterTerms, Mirrors, PlacedByTerms;
    BearerIs(cfg, h, w, ctx, s);
    if answer.Granted? {
      AfterTermsIs(cfg, w.sessions[s].value, answer.data, ctx.now);
    }
  }

  // ---------------------------------------------------------------- roles

  /** The role choice is permitted and stored: the terms are no obstacle, and the `i`-th role is the one. */
  predicate Permitted(cfg: Config, session: Session, roleID: Option<string>, i: nat) {
    && (cfg.requiresTOS ==> session.isTOSAccepted) && session.state in {RequireRole, Authorized}
    && roleID.Some? && IsChoice(session.roles, roleID.value, i)
  }

  ghost predicate SomePermitted(cfg: Config, session: Session, roleID: Option<string>) {
    exists i: nat :: Permitted(cfg, session, roleID, i)
  }

  lemma PermittedWhen(cfg: Config, session: Session, roleID: Option<string>)
    ensures SomePermitted(cfg, session, roleID) <==> TermsGateOpen(cfg, session) && ChosenRole(session, roleID).Some?
  {
    hide ChosenRole, IsChoice;
    ChosenRoleIs(session, roleID);
    if TermsGateOpen(cfg, session) && ChosenRole(session, roleID).Some? {
      var i: nat :| IsChoice(session.roles, roleID.value, i);
      assert Permitted(cfg, session, roleID, i);
    }
  }

  /** A permitted role choice that can be stored authorizes the session with that role, and keeps its last access. */
  lemma RoleChoicesAreStored(cfg: Config, h: Trust, w: World, ctx: Context, s: string, roleID: Option<string>, i: nat)
    requires Sound(cfg) && Reached(cfg, h, w) && Live(w, ctx, s) && ctx.ok.sessionWrite
    requires Permitted(cfg, w.sessions[s].value, roleID, i)
    ensures
      var before := w.sessions[s].value;
      var chosen := Entry(before.(role := Some(before.roles[i]), state := Authorized), ctx.now + cfg.sessionTimeout);
      var outlived := Outlived(cfg.sessionTimeout, before.lastAccessed, ctx.now);
      Becomes(w, ctx, Apply(cfg, w, Step(ctx, SetRole(s, roleID))),
              if outlived && ctx.ok.audit && ctx.ok.sessionDelete then w.sessions - {s} else w.sessions[s := chosen],
              After(w.trace, RoleChosen(s)))
  {
    hide Reached, Inv, Resolve, ChosenRole, IsChoice, GetSecondsToLive, Outlived;
    BearerIs(cfg, h, w, ctx, s);
    ChosenRoleIs(w.sessions[s].value, roleID);
    NegativeMeansOutlived(cfg.sessionTimeout, w.sessions[s].value.lastAccessed, ctx.now);
  }

  /** Every other role choice has no effect. */
  lemma OtherRoleChoicesDoNothing(cfg: Config, h: Trust, w: World, ctx: Context, s: string, roleID: Option<string>)
    requires Sound(cfg) && Reached(cfg, h, w) && Live(w, ctx, s)
    requires !ctx.ok.sessionWrite || !SomePermitted(cfg, w.sessions[s].value, roleID)
    ensures NoEffect(w, ctx, Apply(cfg, w, Step(ctx, SetRole(s, roleID))))
  {
    hide Reached, Inv, Resolve, ChosenRole, SomePermitted, RespondStep;
    BearerIs(cfg, h, w, ctx, s);
    PermittedWhen(cfg, w.sessions[s].value, roleID);
  }

  // ---------------------------------------------------------------- reloads and evictions

  /** A reload stores the clients of its sources if all can be loaded, and keeps the old ones otherwise. */
  lemma ReloadsReplaceTheClients(cfg: Config, w: World, ctx: Context, file: Option<seq<Client>>, api: Option<Option<seq<Client>>>,
    id: string)
    ensures
      var after := Apply(cfg, w, Step(ctx, ReloadClients(Configured(file, api))));
      && NoEffect(w, ctx, after.(clients := w.clients))
      && if Loadable(file, api) then StoredFrom(cfg.hash, file, api, id, Get(after.clients, id)) else after.clients == w.clients
  {
    hide LoadAll, Index, StoredFrom, Configured, Loadable;
    LoadsStoreTheFirst(cfg.hash, file, api, id);
  }

  /** An eviction loses what it names, and nothing else. */
  lemma EvictionsOnlyLose(cfg: Config, w: World, ctx: Context, slots: set<string>, codes: set<string>, sessions: set<string>)
    ensures
      var after := Apply(cfg, w, Step(ctx, Evict(slots, codes, sessions)));
      && NoEffect(w, ctx, after.(slots := w.slots, codes := w.codes, sessions := w.sessions))
      && after.slots == w.slots - slots && after.codes == w.codes - codes && after.sessions == w.sessions - sessions
  {
  }
}
